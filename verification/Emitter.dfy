/**
  The probe's output: one JSON object per line, two threads and a signal handler
  (node_monitor/probe/probe.py, `_Emitter` and `_encoded_chunks`).

  A run is any sequence of the steps the threads, the handler and the system can take; a step
  that is not possible where it stands leaves the state alone.  Output is modelled as tokens:
  a `Piece` is some bytes of a line short of its newline, an `End` the rest of the line, a
  `Cut` the newline that ends an abandoned line.
 */
module Emitting {
  import opened Upsert
  import opened Sealing

  datatype Token = Piece(number: nat, report: bool) | End(number: nat, report: bool) | Cut

  datatype Who = MainThread | Watchdog

  /** Where a thread stands.  In order: outside the emitter; entering `_acquire_or_exit`; there,
      with the flag as last read; holding the lock before the flag is looked at; writing an
      ordinary line (`started`: a chunk is out; `mid`: part of the next is); its newline is out;
      about to release; writing a signal's report; about to exit after it; in `check_signal`
      with a signal seen; there, the lock not obtained. */
  datatype Place =
    | Away
    | Asking
    | Asked(saw: Option<int>)
    | Got
    | InLine(started: bool, mid: bool)
    | Ended
    | Letting
    | Reporting
    | Reported
    | Checking
    | Refused

  datatype State = State(
    main: Place, dog: Place,
    lock: Option<Who>,
    signal: Option<int>,
    number: nat,
    out: seq<Token>,
    exit: Option<int>,
    mark: nat)                    // how much was out when the signal was recorded

  const START := State(Away, Away, None, None, 0, [], None, 0)

  datatype Step =
    | Signal(signum: int)         // the handler runs
    | Die(code: int)              // stdin ended, the parent changed, or the process is killed
    | Call                        // the main thread enters `emit`
    | ReadFlag
    | Acquire(who: Who)
    | TimeOut(who: Who)
    | Look                        // `emit` looks at the flag, lock held
    | Bytes(who: Who)             // part of a chunk goes out
    | ChunkOut                    // a chunk that is not the last is out
    | LastChunk(who: Who)
    | Broken(who: Who)            // the reader is gone
    | Unencodable                 // the encoder raises between chunks
    | CountLine
    | Release
    | Leave(who: Who)             // exit after the report
    | Check(who: Who)             // `check_signal`
    | GiveUp(who: Who)            // the grace has passed
    | Return(who: Who)

  function PlaceOf(s: State, w: Who): Place { if w == MainThread then s.main else s.dog }

  function Put(s: State, w: Who, p: Place): State {
    if w == MainThread then s.(main := p) else s.(dog := p)
  }

  function Write(s: State, t: Token): State { s.(out := s.out + [t]) }

  function Exit(s: State): State
    requires s.signal.Some?
  {
    s.(exit := Some(128 + s.signal.value))
  }

  function Take(s: State, a: Step): State {
    if s.exit.Some? then s
    else
      match a
      case Signal(n) => if s.signal.None? then s.(signal := Some(n), mark := |s.out|) else s
      case Die(code) => s.(exit := Some(code))
      case Call => if s.main == Away then s.(main := Asking) else s
      case ReadFlag => if s.main == Asking then s.(main := Asked(s.signal)) else s
      case Acquire(w) =>
        if s.lock.Some? then s
        else if w == MainThread && s.main.Asked? then s.(main := Got, lock := Some(w))
        else if PlaceOf(s, w) == Checking then Put(s, w, Reporting).(lock := Some(w))
        else s
      case TimeOut(w) =>
        if w == MainThread && s.main.Asked? then
          if s.main.saw.None? then s.(main := Asking) else s.(exit := Some(128 + s.main.saw.value))
        else if PlaceOf(s, w) == Checking then Put(s, w, Refused)
        else s
      case Look => if s.main == Got then s.(main := if s.signal.Some? then Reporting else InLine(false, false)) else s
      case Bytes(w) =>
        if w == MainThread && s.main.InLine?
        then Write(s, Piece(s.number, false)).(main := InLine(s.main.started, true))
        else if PlaceOf(s, w) == Reporting then Write(s, Piece(s.number, true))
        else s
      case ChunkOut => if s.main.InLine? && s.main.mid then s.(main := InLine(true, false)) else s
      case LastChunk(w) =>
        if w == MainThread && s.main.InLine? then Write(s, End(s.number, false)).(main := Ended)
        else if PlaceOf(s, w) == Reporting then Put(Write(s, End(s.number, true)), w, Reported)
        else s
      case Broken(w) =>
        if w == MainThread && (s.main.InLine? || s.main == Ended) then s.(exit := Some(0))
        else if PlaceOf(s, w) == Reporting then Put(s, w, Reported)
        else s
      case Unencodable =>
        if s.main.InLine? && !s.main.mid then (if s.main.started then Write(s, Cut) else s).(main := Letting) else s
      case CountLine => if s.main == Ended then s.(number := s.number + 1, main := Letting) else s
      case Release => if s.main == Letting then s.(main := Away, lock := None) else s
      case Leave(w) => if PlaceOf(s, w) == Reported && s.signal.Some? then Exit(s) else s
      case Check(w) => if PlaceOf(s, w) == Away && s.signal.Some? then Put(s, w, Checking) else s
      case GiveUp(w) => if PlaceOf(s, w) == Refused && s.signal.Some? then Exit(s) else s
      case Return(w) => if PlaceOf(s, w) == Refused then Put(s, w, Away) else s
  }

  function Run(steps: seq<Step>): State {
    if steps == [] then START else Take(Run(steps[..|steps| - 1]), steps[|steps| - 1])
  }

  // --- reading the output ---------------------------------------------------------------

  /** What a reader has seen: all in order so far, the number due next, the line begun but not
      ended, and whether a signal's report is complete. */
  datatype Seen = Seen(ok: bool, next: nat, open: Option<Token>, reported: bool)

  function Feed(r: Seen, t: Token): Seen {
    match t
    case Piece(n, _) =>
      r.(ok := r.ok && !r.reported && n == r.next && (r.open.None? || r.open.value == t), open := Some(t))
    case End(n, report) =>
      r.(ok := r.ok && !r.reported && n == r.next && (r.open.None? || r.open.value == Piece(n, report)),
         next := r.next + 1, open := None, reported := report)
    case Cut => r.(ok := r.ok && !r.reported && r.open.Some? && !r.open.value.Cut? && !r.open.value.report,
        open := None)
  }

  function Read(out: seq<Token>): Seen {
    if out == [] then Seen(true, 0, None, false) else Feed(Read(out[..|out| - 1]), out[|out| - 1])
  }

  lemma {:induction false} ReadSnoc(out: seq<Token>, t: Token)
    ensures Read(out + [t]) == Feed(Read(out), t)
  {
    assert (out + [t])[..|out|] == out;
  }

  /** The ordinary lines completed. */
  function Lines(out: seq<Token>): nat {
    if out == [] then 0 else Lines(out[..|out| - 1]) + if out[|out| - 1].End? && !out[|out| - 1].report then 1 else 0
  }

  lemma {:induction false} LinesSnoc(out: seq<Token>, t: Token, mark: nat)
    requires mark <= |out|
    ensures Lines((out + [t])[mark..]) == Lines(out[mark..]) + if t.End? && !t.report then 1 else 0
  {
    assert (out + [t])[mark..] == out[mark..] + [t];
    assert (out[mark..] + [t])[..|out[mark..]|] == out[mark..];
  }

  // --- the invariant ------------------------------------------------------------------------

  predicate Holds(p: Place) { p.Got? || p.InLine? || p.Ended? || p.Letting? || p.Reporting? || p.Reported? }

  /** The place of the thread that holds the lock says what is on the last line. */
  ghost predicate Agrees(p: Place, number: nat, r: Seen) {
    match p
    case InLine(started, mid) => !r.reported && r.next == number && r.open == if started
        || mid then Some(Piece(number, false)) else None
    case Ended => !r.reported && r.next == number + 1 && r.open.None?
    case Reporting => !r.reported && r.next == number && (r.open.None? || r.open == Some(Piece(number, true)))
    case Reported => true
    case _ => !r.reported && r.next == number && r.open.None?
  }

  ghost predicate Inv(s: State) {
    && Read(s.out).ok
    && s.mark <= |s.out|
    && (s.signal.Some? ==> Lines(s.out[s.mark..]) <= 1 && (s.main.InLine? ==> Lines(s.out[s.mark..]) == 0))
    && (s.exit.None? ==>
          && (s.lock == Some(MainThread) <==> Holds(s.main))
          && (s.lock == Some(Watchdog) <==> Holds(s.dog))
          && (s.dog.Away? || s.dog.Checking? || s.dog.Refused? || s.dog.Reporting? || s.dog.Reported?)
          && (s.signal.None? ==> !s.main.Reporting? && !s.main.Reported? && !s.main.Checking? && !s.main.Refused?
                                 && !(s.main.Asked? && s.main.saw.Some?) && s.dog.Away?)
          && Agrees(if s.lock == Some(Watchdog) then s.dog else s.main, s.number, Read(s.out)))
  }

  /** Steps only the main thread takes. */
  predicate IsMains(a: Step) {
    a.Call? || a.ReadFlag? || a.Look? || a.ChunkOut? || a.Unencodable? || a.CountLine? || a.Release?
  }

  lemma {:induction false} MainQuiet(s: State, a: Step)
    requires Inv(s) && IsMains(a) && Take(s, a).out == s.out
    ensures Inv(Take(s, a))
  {
  }

  lemma {:induction false} SystemQuiet(s: State, a: Step)
    requires Inv(s) && (a.Signal? || a.Die? || a.Leave? || a.GiveUp? || a.Broken?)
    ensures Inv(Take(s, a))
  {
    assert s.out[|s.out|..] == [];
  }

  lemma {:induction false} TimeOutQuiet(s: State, w: Who)
    requires Inv(s)
    ensures Inv(Take(s, TimeOut(w)))
  {
    assert s.exit.None? ==> Take(s, TimeOut(w)).lock == s.lock;
  }

  lemma {:induction false} CheckQuiet(s: State, w: Who)
    requires Inv(s)
    ensures Inv(Take(s, Check(w)))
  {
  }

  lemma {:induction false} ReturnQuiet(s: State, w: Who)
    requires Inv(s)
    ensures Inv(Take(s, Return(w)))
  {
  }

  lemma {:induction false} LockQuiet(s: State, w: Who)
    requires Inv(s)
    ensures Inv(Take(s, Acquire(w)))
  {
  }

  lemma {:induction false} MainWrites(s: State, a: Step, t: Token)
    requires Inv(s) && Take(s, a).out == s.out + [t] && s.main.InLine?
             && (IsMains(a) || a == Bytes(MainThread) || a == LastChunk(MainThread))
    ensures Inv(Take(s, a))
  {
    ReadSnoc(s.out, t);
    LinesSnoc(s.out, t, s.mark);
  }

  lemma {:induction false} ReportWrites(s: State, a: Step, w: Who, t: Token)
    requires Inv(s) && Take(s, a).out == s.out + [t] && PlaceOf(s, w) == Reporting
             && (a == Bytes(w) || a == LastChunk(w))
    ensures Inv(Take(s, a))
  {
    ReadSnoc(s.out, t);
    LinesSnoc(s.out, t, s.mark);
  }

  lemma {:induction false} StepKeeps(s: State, a: Step)
    requires Inv(s)
    ensures Inv(Take(s, a))
  {
    if a.Bytes? || a.LastChunk? {
      if Take(s, a) != s {
        var t := Take(s, a).out[|s.out|];
        if a.who == MainThread && s.main.InLine? { MainWrites(s, a, t); } else { ReportWrites(s, a, a.who, t); }
      }
    } else if a.Unencodable? && s.exit.None? && s.main.InLine? && !s.main.mid && s.main.started {
      MainWrites(s, a, Cut);
    } else if IsMains(a) {
      MainQuiet(s, a);
    } else if a.Acquire? {
      LockQuiet(s, a.who);
    } else if a.TimeOut? {
      TimeOutQuiet(s, a.who);
    } else if a.Check? {
      CheckQuiet(s, a.who);
    } else if a.Return? {
      ReturnQuiet(s, a.who);
    } else {
      SystemQuiet(s, a);
    }
  }

  lemma {:induction false} EveryRun(steps: seq<Step>)
    ensures Inv(Run(steps))
  {
    if steps != [] {
      EveryRun(steps[..|steps| - 1]);
      StepKeeps(Run(steps[..|steps| - 1]), steps[|steps| - 1]);
    }
  }

  // --- what the reader gets ---------------------------------------------------------------------

  /** A line as the reader sees it: whole, or a fragment ended early. `pieces` came before its end. */
  datatype Line = Complete(number: nat, report: bool, pieces: nat) | Fragment(number: nat, pieces: nat)

  function Pieces(number: nat, report: bool, n: nat): seq<Token> { seq(n, _ => Piece(number, report)) }

  function Show(l: Line): seq<Token> {
    match l
    case Complete(number, report, pieces) => Pieces(number, report, pieces) + [End(number, report)]
    case Fragment(number, pieces) => Pieces(number, false, pieces) + [Cut]
  }

  function ShowAll(ls: seq<Line>): seq<Token> {
    if ls == [] then [] else ShowAll(ls[..|ls| - 1]) + Show(ls[|ls| - 1])
  }

  /** Complete lines are numbered from zero without gaps, a fragment uses up no number, and a
      report can only come last. */
  ghost predicate Numbered(ls: seq<Line>, next: nat) {
    if ls == [] then next == 0
    else
      var l := ls[|ls| - 1];
      match l
      case Complete(n, _, _) => next == n + 1 && Numbered(ls[..|ls| - 1], n) && NoReport(ls[..|ls| - 1])
      case Fragment(n, pieces) => n == next && pieces > 0 && Numbered(ls[..|ls| - 1], n) && NoReport(ls[..|ls| - 1])
  }

  ghost predicate NoReport(ls: seq<Line>) {
    forall i :: 0 <= i < |ls| ==> !(ls[i].Complete? && ls[i].report)
  }

  /** The output is these lines and then `tail` bytes of one unfinished line. */
  ghost predicate IsOutput(out: seq<Token>, ls: seq<Line>, number: nat, report: bool, tail: nat) {
    && out == ShowAll(ls) + Pieces(number, report, tail)
    && Numbered(ls, number)
    && (tail > 0 ==> NoReport(ls))
  }

  lemma {:induction false} ShowSnoc(ls: seq<Line>, l: Line)
    ensures ShowAll(ls + [l]) == ShowAll(ls) + Show(l)
    ensures (ls + [l])[..|ls|] == ls
  {
    assert (ls + [l])[..|ls|] == ls;
  }

  lemma {:induction false} AddPiece(out: seq<Token>, ls: seq<Line>, number: nat, report: bool, tail: nat, r: bool)
    requires IsOutput(out, ls, number, report, tail) && NoReport(ls) && (tail == 0 || report == r)
    ensures IsOutput(out + [Piece(number, r)], ls, number, r, tail + 1)
  {
    assert Pieces(number, report, tail) == Pieces(number, r, tail);
    assert Pieces(number, r, tail) + [Piece(number, r)] == Pieces(number, r, tail + 1);
    assert out + [Piece(number, r)] == ShowAll(ls) + (Pieces(number, r, tail) + [Piece(number, r)]);
  }

  lemma {:induction false} AddLine(out: seq<Token>, ls: seq<Line>, number: nat, report: bool, tail: nat, l: Line,
        next: nat)
    requires IsOutput(out, ls, number, report, tail) && NoReport(ls) && l.number == number && l.pieces == tail
    requires l.Complete? ==> next == number + 1 && (tail == 0 || report == l.report)
    requires l.Fragment? ==> next == number && tail > 0 && !report
    ensures IsOutput(out + [if l.Complete? then End(number, l.report) else Cut], ls + [l], next, false, 0)
  {
    ShowSnoc(ls, l);
    assert Pieces(next, false, 0) == [];
    var r := if l.Complete? then l.report else false;
    assert Pieces(number, report, tail) == Pieces(number, r, tail);
    assert ShowAll(ls + [l]) + [] == out + [if l.Complete? then End(number, l.report) else Cut];
  }

  /** The lines account for what the reader has seen. */
  ghost predicate Explains(out: seq<Token>, r: Seen, ls: seq<Line>, report: bool, tail: nat) {
    && IsOutput(out, ls, r.next, report, tail)
    && r.open == (if tail == 0 then None else Some(Piece(r.next, report)))
    && (!r.reported <==> NoReport(ls))
  }

  lemma {:induction false} ExplainPiece(out: seq<Token>, r: Seen, ls: seq<Line>, report: bool, tail: nat, t: Token)
    requires Explains(out, r, ls, report, tail) && t.Piece? && Feed(r, t).ok
    ensures Explains(out + [t], Feed(r, t), ls, t.report, tail + 1)
  {
    AddPiece(out, ls, r.next, report, tail, t.report);
  }

  lemma {:induction false} ExplainEnd(out: seq<Token>, r: Seen, ls: seq<Line>, report: bool, tail: nat, t: Token)
    requires Explains(out, r, ls, report, tail) && !t.Piece? && Feed(r, t).ok
    ensures var l := if t.End? then Complete(r.next, t.report, tail) else Fragment(r.next, tail);
            Explains(out + [t], Feed(r, t), ls + [l], false, 0)
  {
    var l := if t.End? then Complete(r.next, t.report, tail) else Fragment(r.next, tail);
    AddLine(out, ls, r.next, report, tail, l, Feed(r, t).next);
    assert (ls + [l])[|ls|] == l;
  }

  /** Output in order is whole lines and at most one unfinished tail. */
  lemma {:induction false} InOrderIsLines(out: seq<Token>) returns (ls: seq<Line>, report: bool, tail: nat)
    requires Read(out).ok
    ensures Explains(out, Read(out), ls, report, tail)
  {
    if out == [] {
      ls, report, tail := [], false, 0;
    } else {
      var init, t := out[..|out| - 1], out[|out| - 1];
      assert out == init + [t];
      var before, rep, n := InOrderIsLines(init);
      if t.Piece? {
        ls, report, tail := before, t.report, n + 1;
        ExplainPiece(init, Read(init), before, rep, n, t);
      } else {
        var l := if t.End? then Complete(Read(init).next, t.report, n) else Fragment(Read(init).next, n);
        ls, report, tail := before + [l], false, 0;
        ExplainEnd(init, Read(init), before, rep, n, t);
      }
    }
  }

  /**
    In every interleaving the output is whole lines, completed messages numbered 0, 1, 2, ...,
    fragments ended by a newline, and at most one unfinished tail; a report is the last thing
    there is; and at most one ordinary line is completed after a signal is recorded.
   */
  lemma {:induction false} SignalSafe(steps: seq<Step>) returns (ls: seq<Line>, number: nat, report: bool, tail: nat)
    ensures IsOutput(Run(steps).out, ls, number, report, tail)
    ensures var s := Run(steps); s.signal.Some? ==> s.mark <= |s.out| && Lines(s.out[s.mark..]) <= 1
  {
    EveryRun(steps);
    ls, report, tail := InOrderIsLines(Run(steps).out);
    number := Read(Run(steps).out).next;
  }

  /** Unless the process has exited, an unfinished line belongs to the thread holding the lock. */
  lemma {:induction false} TailIsHeld(steps: seq<Step>)
    ensures var s := Run(steps); s.exit.None? && Read(s.out).open.Some? ==> s.lock.Some?
  {
    EveryRun(steps);
  }

  lemma {:induction false} ReportStays(steps: seq<Step>, a: Step)
    requires Read(Run(steps).out).reported
    ensures Run(steps + [a]).out == Run(steps).out
  {
    EveryRun(steps);
    assert (steps + [a])[..|steps|] == steps;
  }

  /** Nothing ever follows a signal's report. */
  lemma {:induction false} NothingAfterReport(steps: seq<Step>, more: seq<Step>)
    requires Read(Run(steps).out).reported
    ensures Run(steps + more).out == Run(steps).out
  {
    if more == [] {
      assert steps + more == steps;
    } else {
      var n := |more| - 1;
      NothingAfterReport(steps, more[..n]);
      assert steps + more == (steps + more[..n]) + [more[n]];
      ReportStays(steps + more[..n], more[n]);
    }
  }

  /** Once a report is begun, only the rest of it can follow. */
  lemma {:induction false} ReportAlone(steps: seq<Step>, a: Step)
    requires var r := Read(Run(steps).out); r.open.Some? && r.open == Some(Piece(r.next, true))
    ensures var s, s' := Run(steps), Run(steps + [a]);
            s'.out == s.out || s'.out == s.out + [Piece(s.number, true)] || s'.out == s.out + [End(s.number, true)]
  {
    EveryRun(steps);
    assert (steps + [a])[..|steps|] == steps;
  }

  // --- chunks -----------------------------------------------------------------------------------

  function Text(parts: seq<string>): string {
    if parts == [] then "" else Text(parts[..|parts| - 1]) + parts[|parts| - 1]
  }

  lemma {:induction false} TextSnoc(parts: seq<string>, p: string)
    ensures Text(parts + [p]) == Text(parts) + p
  {
    assert (parts + [p])[..|parts|] == parts;
  }

  /** A chunk no larger than the limit, or one piece that is larger by itself. */
  ghost predicate Fits(chunk: seq<string>, limit: nat) {
    |Text(chunk)| <= limit || |chunk| == 1
  }

  function Pieced(groups: seq<seq<string>>): seq<string> {
    if groups == [] then [] else Pieced(groups[..|groups| - 1]) + groups[|groups| - 1]
  }

  lemma {:induction false} PiecedSnoc(groups: seq<seq<string>>, g: seq<string>)
    ensures Pieced(groups + [g]) == Pieced(groups) + g
  {
    assert (groups + [g])[..|groups|] == groups;
  }

  /** Chunks that fit, none of which had room for the piece that starts the next. */
  ghost predicate Chunked(chunks: seq<seq<string>>, limit: nat) {
    && (forall i :: 0 <= i < |chunks| ==> chunks[i] != [] && Fits(chunks[i], limit))
    && (forall i, j :: 0 <= i && j == i + 1 && j < |chunks| ==> Full(chunks[i], chunks[j], limit))
  }

  ghost predicate Full(chunk: seq<string>, next: seq<string>, limit: nat) {
    next != [] && |Text(chunk)| + |next[0]| > limit
  }

  /** So far: closed chunks, and the pieces pending behind them. */
  ghost predicate Chunking(chunks: seq<seq<string>>, pending: seq<string>, done: seq<string>, limit: nat) {
    forall k :: Opens(k, Listing) ==>
      && Pieced(chunks) + pending == done && Chunked(chunks, limit)
      && (pending == [] ==> chunks == []) && (pending != [] ==> Fits(pending, limit))
      && (chunks != [] ==> Full(chunks[|chunks| - 1], pending, limit))
  }

  lemma {:induction false} CloseChunk(chunks: seq<seq<string>>, pending: seq<string>, done: seq<string>, limit: nat)
    requires Chunking(chunks, pending, done, limit) && pending != []
    ensures Chunked(chunks + [pending], limit) && Pieced(chunks + [pending]) == done
  {
    assert Opens(Listing, Listing);
    PiecedSnoc(chunks, pending);
  }

  lemma {:induction false} AddToChunk(chunks: seq<seq<string>>, pending: seq<string>, done: seq<string>,
        piece: string, limit: nat)
    requires Chunking(chunks, pending, done, limit) && (pending == [] || |Text(pending)| + |piece| <= limit)
    ensures Chunking(chunks, pending + [piece], done + [piece], limit)
  {
    assert Opens(Listing, Listing);
    TextSnoc(pending, piece);
    assert Pieced(chunks) + (pending + [piece]) == (Pieced(chunks) + pending) + [piece];
    assert pending != [] ==> (pending + [piece])[0] == pending[0];
  }

  lemma {:induction false} NextChunk(chunks: seq<seq<string>>, pending: seq<string>, done: seq<string>, piece: string,
        limit: nat)
    requires Chunking(chunks, pending, done, limit) && pending != [] && |Text(pending)| + |piece| > limit
    ensures Chunking(chunks + [pending], [piece], done + [piece], limit)
  {
    assert Opens(Listing, Listing);
    CloseChunk(chunks, pending, done, limit);
  }

  /** The encoder's pieces and the newline, in groups that are written together. */
  method EncodedChunks(encoded: seq<string>, limit: nat) returns (chunks: seq<seq<string>>)
    ensures Pieced(chunks) == encoded + ["\n"] && Chunked(chunks, limit)
  {
    var pieces := encoded + ["\n"];
    chunks := [];
    var pending: seq<string>, size := [], 0;
    var i := 0;
    while i < |pieces|
      invariant 0 <= i <= |pieces| && size == |Text(pending)| && (i > 0 ==> pending != [])
      invariant Chunking(chunks, pending, pieces[..i], limit)
    {
      var piece := pieces[i];
      assert pieces[..i + 1] == pieces[..i] + [piece];
      if pending != [] && size + |piece| > limit {
        NextChunk(chunks, pending, pieces[..i], piece, limit);
        chunks := chunks + [pending];
        pending, size := [], 0;
      } else {
        AddToChunk(chunks, pending, pieces[..i], piece, limit);
      }
      TextSnoc(pending, piece);
      pending := pending + [piece];
      size := size + |piece|;
      i := i + 1;
    }
    CloseChunk(chunks, pending, pieces[..i], limit);
    assert pieces[..|pieces|] == pieces;
    chunks := chunks + [pending];
  }
}
