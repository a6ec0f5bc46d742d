/**
  A probe's stderr, fed in chunks as they arrive, turned into a capped number of events and a
  short tail (node_monitor/collector/session.py, `_StderrLog`).
 */
module StderrLogs {
  import opened Sealing

  type Byte = bv8

  const NEWLINE: Byte := 10
  const LINE_MAX_CHARS := 500
  const LINES_PER_SESSION := 20
  const TAIL_BYTES := 2048
  /** Four bytes for each character cover any UTF-8. */
  const KEEP := 4 * LINE_MAX_CHARS

  datatype Event = Line(text: string) | Suppressed(lines: nat)

  // --- the stream as a whole ----------------------------------------------------------------

  function Last<T>(s: seq<T>, n: nat): seq<T> { if |s| <= n then s else s[|s| - n..] }

  function First<T>(s: seq<T>, n: nat): seq<T> { if |s| <= n then s else s[..n] }

  /** The lines of a stream that have ended. */
  function Ended(s: seq<Byte>): seq<seq<Byte>> {
    if s == [] then []
    else Ended(s[..|s| - 1]) + if s[|s| - 1] == NEWLINE then [Begun(s[..|s| - 1])] else []
  }

  /** The line it is in the middle of. */
  function Begun(s: seq<Byte>): seq<Byte> {
    if s == [] || s[|s| - 1] == NEWLINE then [] else Begun(s[..|s| - 1]) + [s[|s| - 1]]
  }

  /** UTF-8 decoding with replacement, and what counts as nothing but white space. */
  datatype Reader = Reader(decode: seq<Byte> -> string, isBlank: string -> bool)

  function Stripped(text: string): string {
    if text != "" && text[|text| - 1] == '\r' then Stripped(text[..|text| - 1]) else text
  }

  /** How a line reads: the head of it decoded, without trailing carriage returns, and cut. */
  function TextOf(reader: Reader, line: seq<Byte>): string {
    First(Stripped(reader.decode(First(line, KEEP))), LINE_MAX_CHARS)
  }

  /** The lines worth an event. */
  function Spoken(reader: Reader, lines: seq<seq<Byte>>): seq<string> {
    if lines == [] then []
    else
      var text := TextOf(reader, lines[|lines| - 1]);
      Spoken(reader, lines[..|lines| - 1]) + if reader.isBlank(text) then [] else [text]
  }

  function AsEvents(texts: seq<string>): seq<Event> { seq(|texts|, i requires 0 <= i < |texts| => Line(texts[i])) }

  // --- what the log holds ------------------------------------------------------------------------

  /** Whatever chunks the stream came in, this is what is held: the head of the line begun and
      an event for each of the first lines that say something. */
  ghost predicate Tells(reader: Reader, stream: seq<Byte>, line: seq<Byte>, emitted: nat, suppressed: nat,
        events: seq<Event>) {
    forall k :: Opens(k, Telling) ==>
      var texts := Spoken(reader, Ended(stream));
      && line == First(Begun(stream), KEEP)
      && events == AsEvents(First(texts, LINES_PER_SESSION))
      && emitted == |First(texts, LINES_PER_SESSION)| && emitted + suppressed == |texts|
  }

  /** The line kept so far with as much of `part` as there is room for. */
  function Lengthened(line: seq<Byte>, part: seq<Byte>): seq<Byte> {
    if |line| < KEEP then line + First(part, KEEP - |line|) else line
  }

  lemma {:induction false} TellsMore(reader: Reader, s: seq<Byte>, part: seq<Byte>, line: seq<Byte>, emitted: nat,
        suppressed: nat, events: seq<Event>)
    requires Tells(reader, s, line, emitted, suppressed, events) && NEWLINE !in part
    ensures Tells(reader, s + part, Lengthened(line, part), emitted, suppressed, events)
  {
    assert Opens(Telling, Telling);
    BegunMore(s, part);
    FirstOfMore(Begun(s), part, KEEP);
    assert |Begun(s)| < KEEP ==> Lengthened(line, part) == First(Begun(s), KEEP) + First(part, KEEP - |Begun(s)|);
  }

  lemma {:induction false} BegunMore(s: seq<Byte>, more: seq<Byte>)
    requires NEWLINE !in more
    ensures Begun(s + more) == Begun(s) + more && Ended(s + more) == Ended(s)
  {
    if more == [] {
      assert s + more == s;
    } else {
      var n := |more| - 1;
      assert (s + more)[..|s + more| - 1] == s + more[..n];
      assert more[n] in more;
      BegunMore(s, more[..n]);
      assert Begun(s) + more == (Begun(s) + more[..n]) + [more[n]];
    }
  }

  lemma {:induction false} LineEnds(s: seq<Byte>)
    ensures Begun(s + [NEWLINE]) == [] && Ended(s + [NEWLINE]) == Ended(s) + [Begun(s)]
  {
    assert (s + [NEWLINE])[..|s|] == s;
  }

  lemma {:induction false} LastOfMore<T>(s: seq<T>, more: seq<T>, n: nat)
    ensures Last(Last(s, n) + Last(more, n), n) == Last(s + more, n)
  {
  }

  lemma {:induction false} FirstOfMore<T>(s: seq<T>, more: seq<T>, n: nat)
    ensures First(s + more, n) == First(s, n) + if |s| < n then First(more, n - |s|) else []
  {
  }

  lemma {:induction false} SpokenSnoc(reader: Reader, lines: seq<seq<Byte>>, line: seq<Byte>)
    ensures var text := TextOf(reader, line);
            Spoken(reader, lines + [line]) == Spoken(reader, lines) + if reader.isBlank(text) then [] else [text]
  {
    assert (lines + [line])[..|lines|] == lines;
  }

  lemma {:induction false} NoBytes(before: seq<Byte>, chunk: seq<Byte>)
    ensures before + chunk[..0] == before
  {
  }

  lemma {:induction false} AllBytes(before: seq<Byte>, chunk: seq<Byte>)
    ensures before + chunk[..|chunk|] == before + chunk
  {
    assert chunk[..|chunk|] == chunk;
  }

  lemma {:induction false} OneByte(before: seq<Byte>, chunk: seq<Byte>, i: nat)
    requires i < |chunk|
    ensures before + chunk[..i + 1] == (before + chunk[..i]) + [chunk[i]]
  {
  }

  class StderrLog {
    const reader: Reader
    var line: seq<Byte>
    var tail: seq<Byte>
    var emitted: nat
    var suppressed: nat
    /** The events emitted so far. */
    var events: seq<Event>
    /** Every byte fed. */
    ghost var stream: seq<Byte>

    ghost predicate Valid()
      reads this
    {
      Tells(reader, stream, line, emitted, suppressed, events) && tail == Last(stream, TAIL_BYTES)
    }

    constructor (reader: Reader)
      ensures Valid() && stream == [] && this.reader == reader
    {
      this.reader := reader;
      line, tail, emitted, suppressed, events, stream := [], [], 0, 0, [], [];
    }

    /** What is held depends on the bytes fed and not on how they were cut into chunks. */
    method Feed(chunk: seq<Byte>)
      requires Valid()
      modifies this
      ensures Valid() && stream == old(stream) + chunk
    {
      ghost var before := stream;
      LastOfMore(stream, chunk, TAIL_BYTES);
      tail := Last(tail + Last(chunk, TAIL_BYTES), TAIL_BYTES);
      stream := before + chunk;
      var start := 0;
      NoBytes(before, chunk);
      while true
        invariant 0 <= start <= |chunk| && tail == Last(stream, TAIL_BYTES) && stream == before + chunk
        invariant Tells(reader, before + chunk[..start], line, emitted, suppressed, events)
        decreases |chunk| - start
      {
        var newline := Find(chunk, start);
        var end := if newline < 0 then |chunk| else newline;
        Lengthen(chunk, start, end, before);
        if newline < 0 {
          AllBytes(before, chunk);
          return;
        }
        OneByte(before, chunk, newline);
        FinishLine(before + chunk[..newline]);
        start := newline + 1;
      }
    }

    /** Only the head of a line is kept, so memory stays bounded however long it runs. */
    method Lengthen(chunk: seq<Byte>, start: nat, end: nat, ghost before: seq<Byte>)
      requires start <= end <= |chunk| && NEWLINE !in chunk[start..end]
      requires Tells(reader, before + chunk[..start], line, emitted, suppressed, events)
      modifies this`line
      ensures Tells(reader, before + chunk[..end], line, emitted, suppressed, events)
    {
      ghost var part := chunk[start..end];
      TellsMore(reader, before + chunk[..start], part, line, emitted, suppressed, events);
      assert before + chunk[..end] == (before + chunk[..start]) + part;
      var room := KEEP - |line|;
      if room > 0 {
        var stop := if end <= start + room then end else start + room;
        assert chunk[start..stop] == First(part, room);
        line := line + chunk[start..stop];
      }
    }

    /** Ends the line: an event, one more suppressed, or nothing if it is blank. */
    method FinishLine(ghost s: seq<Byte>)
      requires Tells(reader, s, line, emitted, suppressed, events)
      modifies this`line, this`emitted, this`suppressed, this`events
      ensures Tells(reader, s + [NEWLINE], line, emitted, suppressed, events)
    {
      assert Opens(Telling, Telling);
      var text := First(Stripped(reader.decode(line)), LINE_MAX_CHARS);
      LineEnds(s);
      SpokenSnoc(reader, Ended(s), Begun(s));
      assert First(First(Begun(s), KEEP), KEEP) == First(Begun(s), KEEP);
      line := [];
      if reader.isBlank(text) {
        return;
      }
      if emitted < LINES_PER_SESSION {
        emitted := emitted + 1;
        events := events + [Line(text)];
      } else {
        suppressed := suppressed + 1;
      }
    }

    /** The index of the next newline, or -1. */
    method Find(chunk: seq<Byte>, start: nat) returns (at: int)
      requires start <= |chunk|
      ensures at < 0 ==> NEWLINE !in chunk[start..]
      ensures at >= 0 ==> start <= at < |chunk| && chunk[at] == NEWLINE && NEWLINE !in chunk[start..at]
    {
      for i := start to |chunk|
        invariant NEWLINE !in chunk[start..i]
      {
        if chunk[i] == NEWLINE {
          return i;
        }
        assert chunk[start..i + 1] == chunk[start..i] + [chunk[i]];
      }
      return -1;
    }

    /** A trailing partial line counts as ended, and suppression is reported once. */
    method Finish() returns (reports: seq<Event>)
      requires Valid()
      modifies this`line, this`emitted, this`suppressed, this`events
      ensures var texts := Spoken(reader, Ended(stream + [NEWLINE]));
              && events == AsEvents(First(texts, LINES_PER_SESSION))
              && reports == if |texts| > LINES_PER_SESSION then [Suppressed(|texts| - LINES_PER_SESSION)] else []
    {
      FinishLine(stream);
      assert Opens(Telling, Telling);
      reports := if suppressed > 0 then [Suppressed(suppressed)] else [];
    }
  }
}
