/**
  Dropping superseded live-only files: replay writes only the newest live-only file and drops
  the older ones unwritten (node_monitor/database/buffered.py).  That is safe exactly if the
  newest covers them.
 */
module Superseding {
  import opened Upsert
  import Codec
  import opened Records
  import opened Writer
  import opened WriterTheorems
  import opened Spooling
  import opened BufferedState
  import opened Coalescing

  // --- one key ---------------------------------------------------------------------------

  /** No write before the i-th is newer, so it takes effect whatever came before it. */
  ghost predicate IsHigh(vs: seq<RowWrite>, i: nat)
    requires i < |vs|
  {
    forall j :: 0 <= j < i ==> Passes(vs[j].rank, vs[i].rank)
  }

  /** No earlier write is newer than `w`, and `w` sets every column that an earlier one could
      have left: a snapshot replaces everything, a partial row only the columns it has. */
  ghost predicate Covers(vs: seq<RowWrite>, w: RowWrite) {
    forall i :: 0 <= i < |vs| ==>
      Passes(vs[i].rank, w.rank) && (w.keep && IsHigh(vs, i) ==> vs[i].update.Keys <= w.update.Keys)
  }

  /** The same, said of what the earlier writes leave in an empty table. */
  ghost predicate Hides(vs: seq<RowWrite>, w: RowWrite) {
    vs != [] && Fold(None, vs).Some? ==>
      var y := Fold(None, vs).value;
      Passes(y.rank, w.rank) && (w.keep ==> y.cols.Keys <= w.update.Keys)
  }

  ghost predicate AllPlain(ws: seq<RowWrite>, keep: bool) {
    forall i :: 0 <= i < |ws| ==> Plain(ws[i], keep)
  }

  lemma {:induction false} FoldSome(c: Option<Cell<Column, Content>>, vs: seq<RowWrite>, keep: bool)
    requires AllPlain(vs, keep) && (vs != [] || c.Some?)
    ensures Fold(c, vs).Some? && (c.None? ==> Fold(c, vs).value.rank.Some?)
  {
    if |vs| > 1 || (vs != [] && c.Some?) {
      FoldSome(c, vs[..|vs| - 1], keep);
    }
  }

  /** A stored row ends at least as far as an empty table would, and apart from the columns the
      writes would leave in an empty table it stays as it was. */
  lemma {:induction false} FoldWithin(s: Cell<Column, Content>, vs: seq<RowWrite>)
    requires AllPlain(vs, true) && vs != [] && s.rank.Some?
    ensures var y, z := Fold(None, vs).value, Fold(Some(s), vs).value;
            Fold(None, vs).Some? && Fold(Some(s), vs).Some? && y.rank.Some?
            && z.rank == (if s.rank.value <= y.rank.value then y.rank else s.rank)
            && (forall x :: x !in y.cols ==> (x in z.cols <==> x in s.cols) && (x in s.cols ==> z.cols[x] == s.cols[x]))
  {
    if |vs| == 1 {
      assert vs[..0] == [];
    } else {
      FoldWithin(s, vs[..|vs| - 1]);
    }
  }

  lemma {:induction false} FoldRankOnly(s: Cell<Column, Content>, vs: seq<RowWrite>, keep: bool)
    requires AllPlain(vs, keep) && vs != [] && s.rank.Some?
    ensures var y, z := Fold(None, vs).value, Fold(Some(s), vs).value;
            Fold(None, vs).Some? && Fold(Some(s), vs).Some? && y.rank.Some?
            && z.rank == (if s.rank.value <= y.rank.value then y.rank else s.rank)
  {
    if |vs| == 1 {
      assert vs[..0] == [];
    } else {
      FoldRankOnly(s, vs[..|vs| - 1], keep);
    }
  }

  lemma {:induction false} HiddenAt(c: Option<Cell<Column, Content>>, vs: seq<RowWrite>, w: RowWrite, keep: bool)
    requires AllPlain(vs, keep) && Plain(w, keep) && Hides(vs, w)
    ensures Fold(c, vs + [w]) == Step(c, w)
  {
    assert (vs + [w])[..|vs|] == vs;
    if vs != [] {
      FoldSome(None, vs, keep);
      var y := Fold(None, vs).value;
      assert map[] + w.update == w.update;
      if c.None? {
        assert keep ==> y.cols + w.update == w.update;
      } else if c.value.rank.Some? && c.value.rank.value <= w.rank.value {
        FoldRankOnly(c.value, vs, keep);
        var z := Fold(c, vs).value;
        if keep {
          FoldWithin(c.value, vs);
          assert z.cols + w.update == c.value.cols + w.update;
        }
      } else {
        forall i | 0 <= i < |vs| ensures !Passes(c.value.rank, vs[i].rank) { FoldRanksHighest(None, vs, i); }
        FoldOutranked(c.value, vs);
      }
    }
  }

  /** The newest time of the writes, and one that has it. */
  ghost predicate IsTop(vs: seq<RowWrite>, rank: Option<int>) {
    && (exists i :: 0 <= i < |vs| && vs[i].rank == rank)
    && (forall i :: 0 <= i < |vs| ==> Passes(vs[i].rank, rank))
  }

  ghost predicate SetsColumn(vs: seq<RowWrite>, x: Column) {
    exists i :: 0 <= i < |vs| && IsHigh(vs, i) && x in vs[i].update
  }

  lemma {:induction false} TopSnoc(ws: seq<RowWrite>, w: RowWrite, rank: Option<int>, keep: bool)
    requires AllPlain(ws + [w], keep) && IsTop(ws, rank)
    ensures IsTop(ws + [w], if Passes(rank, w.rank) then w.rank else rank)
    ensures IsHigh(ws + [w], |ws|) <==> Passes(rank, w.rank)
  {
    var vs := ws + [w];
    var top :| 0 <= top < |ws| && ws[top].rank == rank;
    assert vs[top] == ws[top] && vs[|ws|] == w;
    forall i | 0 <= i < |ws| ensures Passes(vs[i].rank, rank) { assert vs[i] == ws[i]; }
    assert Plain(vs[top], keep) && Plain(vs[|ws|], keep);
  }

  lemma {:induction false} ColumnSnoc(ws: seq<RowWrite>, w: RowWrite, x: Column)
    ensures SetsColumn(ws + [w], x) <==> SetsColumn(ws, x) || (IsHigh(ws + [w], |ws|) && x in w.update)
  {
    var vs := ws + [w];
    HighPrefix(vs, |ws|);
    assert vs[..|ws|] == ws;
    if SetsColumn(ws, x) {
      var i :| 0 <= i < |ws| && IsHigh(ws, i) && x in ws[i].update;
      assert vs[i] == ws[i] && IsHigh(vs, i);
    }
    if SetsColumn(vs, x) {
      var i :| 0 <= i < |vs| && IsHigh(vs, i) && x in vs[i].update;
      assert i < |ws| ==> vs[i] == ws[i] && IsHigh(ws, i);
    }
  }

  lemma {:induction false} HighPrefix(vs: seq<RowWrite>, n: nat)
    requires n <= |vs|
    ensures forall i :: 0 <= i < n ==> (IsHigh(vs[..n], i) <==> IsHigh(vs, i))
  {
    forall i | 0 <= i < n ensures IsHigh(vs[..n], i) <==> IsHigh(vs, i) {
      assert forall j :: 0 <= j <= i ==> vs[..n][j] == vs[j];
    }
  }

  /** What writes leave in an empty table: the newest time, and the columns of those that no
      earlier one outranks. */
  lemma {:induction false} FoldNone(vs: seq<RowWrite>, keep: bool)
    requires AllPlain(vs, keep) && vs != []
    ensures Fold(None, vs).Some? && IsTop(vs, Fold(None, vs).value.rank)
    ensures keep ==> forall x :: x in Fold(None, vs).value.cols <==> SetsColumn(vs, x)
  {
    if |vs| == 1 {
      assert vs[..0] == [];
      assert IsHigh(vs, 0);
    } else {
      var ws, w := vs[..|vs| - 1], vs[|vs| - 1];
      FoldNone(ws, keep);
      assert vs == ws + [w];
      TopSnoc(ws, w, Fold(None, ws).value.rank, keep);
      if keep {
        forall x ensures x in Fold(None, vs).value.cols <==> SetsColumn(vs, x) { ColumnSnoc(ws, w, x); }
      }
    }
  }

  lemma {:induction false} CoversHides(vs: seq<RowWrite>, w: RowWrite, keep: bool)
    requires AllPlain(vs, keep) && Plain(w, keep)
    ensures Covers(vs, w) <==> Hides(vs, w)
  {
    if vs != [] {
      FoldNone(vs, keep);
      var y := Fold(None, vs).value;
      if Covers(vs, w) {
        var i :| 0 <= i < |vs| && vs[i].rank == y.rank;
        assert Passes(vs[i].rank, w.rank);
        if keep {
          forall x | x in y.cols ensures x in w.update {
            var j :| 0 <= j < |vs| && IsHigh(vs, j) && x in vs[j].update;
          }
        }
      }
      if Hides(vs, w) {
        forall i | 0 <= i < |vs| ensures Passes(vs[i].rank, w.rank)
            && (w.keep && IsHigh(vs, i) ==> vs[i].update.Keys <= w.update.Keys) {
          if w.keep && IsHigh(vs, i) {
            forall x | x in vs[i].update ensures x in w.update {
              assert x in y.cols;
            }
          }
        }
      }
    }
  }

  lemma {:induction false} CoveredAt(c: Option<Cell<Column, Content>>, vs: seq<RowWrite>, w: RowWrite, keep: bool)
    requires AllPlain(vs, keep) && Plain(w, keep) && Covers(vs, w)
    ensures Fold(c, vs + [w]) == Step(c, w)
  {
    CoversHides(vs, w, keep);
    HiddenAt(c, vs, w, keep);
  }

  /** Otherwise leaving the earlier writes out shows, already in empty tables. */
  lemma {:induction false} UncoveredShows(vs: seq<RowWrite>, w: RowWrite, keep: bool)
    requires AllPlain(vs, keep) && Plain(w, keep) && !Covers(vs, w)
    ensures Fold(None, vs + [w]) != Step(None, w)
  {
    CoversHides(vs, w, keep);
    assert (vs + [w])[..|vs|] == vs;
    FoldSome(None, vs, keep);
    var y := Fold(None, vs).value;
    if Passes(y.rank, w.rank) {
      var x :| x in y.cols && x !in w.update;
      assert x in y.cols + w.update;
    }
  }

  /** For snapshots the newest covers the older exactly if it is no older than any of them. */
  lemma {:induction false} SnapshotCovers(vs: seq<RowWrite>, w: RowWrite)
    requires AllPlain(vs, false) && Plain(w, false)
    ensures Covers(vs, w) <==> forall i :: 0 <= i < |vs| ==> Passes(vs[i].rank, w.rank)
  {
  }

  // --- a spool -----------------------------------------------------------------------------

  /** The writer thread submits durable records and live ones apart, so a file holds either. */
  ghost predicate Apart(fs: seq<File>) {
    forall i :: 0 <= i < |fs| ==> if fs[i].name.live then AllLive(fs[i].records) else NoneLive(fs[i].records)
  }

  type FileSays = File -> seq<RowWrite>

  /** A file replayed: its batch is committed if the writer takes it. */
  function Replays(cfg: Config, now: int): (Db, File) -> Db {
    (db: Db, f: File) => if IsPlannable(cfg, f.records, now) then Commit(cfg, db, f.records, now) else db
  }

  function ReplayFiles(cfg: Config, db: Db, fs: seq<File>, now: int): Db { After(Replays(cfg, now), db, fs) }

  /** What a file says to a key, if the writer takes it. */
  function FileSaying(cfg: Config, now: int, k: Key): FileSays {
    (f: File) => if IsPlannable(cfg, f.records, now) then Heard(Saying(cfg, k), f.records) else []
  }

  function FileWrites(say: FileSays, fs: seq<File>): seq<RowWrite> {
    if fs == [] then [] else FileWrites(say, fs[..|fs| - 1]) + say(fs[|fs| - 1])
  }

  lemma {:induction false} FilesAt(step: (Db, File) -> Db, say: FileSays, db: Db, fs: seq<File>, k: Key)
    requires forall d, i :: 0 <= i < |fs| ==> Get(step(d, fs[i]).rows, k) == Fold(Get(d.rows, k), say(fs[i]))
    ensures Get(After(step, db, fs).rows, k) == Fold(Get(db.rows, k), FileWrites(say, fs))
  {
    if fs != [] {
      var init, f := fs[..|fs| - 1], fs[|fs| - 1];
      forall d, i | 0 <= i < |init| ensures Get(step(d, init[i]).rows, k) == Fold(Get(d.rows, k), say(init[i])) {
        assert init[i] == fs[i];
      }
      FilesAt(step, say, db, init, k);
      FoldAppend(Get(db.rows, k), FileWrites(say, init), say(f));
    }
  }

  lemma {:induction false} ReplayFilesAt(cfg: Config, db: Db, fs: seq<File>, now: int, k: Key)
    requires IsLiveKey(k)
    ensures Get(ReplayFiles(cfg, db, fs, now).rows, k) == Fold(Get(db.rows, k), FileWrites(FileSaying(cfg, now, k), fs))
  {
    forall d, f ensures Get(Replays(cfg, now)(d, f).rows, k) == Fold(Get(d.rows, k), FileSaying(cfg, now, k)(f)) {
      LiveCommit(cfg, d, f.records, now, k);
    }
    FilesAt(Replays(cfg, now), FileSaying(cfg, now, k), db, fs, k);
  }

  /** Only live-only files say anything. */
  ghost predicate LiveSpeak(say: FileSays, fs: seq<File>) {
    forall i :: 0 <= i < |fs| && !fs[i].name.live ==> say(fs[i]) == []
  }

  lemma {:induction false} MarkedWrites(say: FileSays, fs: seq<File>, gone: set<Name>)
    requires LiveSpeak(say, fs)
    ensures FileWrites(say, Without(fs, gone)) == FileWrites(say, Without(Marked(fs, true), gone))
  {
    if fs != [] {
      var init, f := fs[..|fs| - 1], fs[|fs| - 1];
      assert fs == init + [f];
      MarkedWrites(say, init, gone);
      WithoutSnoc(init, f, gone);
      FileWritesSnoc(say, Without(init, gone), f);
      if f.name.live {
        WithoutSnoc(Marked(init, true), f, gone);
        FileWritesSnoc(say, Without(Marked(init, true), gone), f);
      } else {
        assert Marked(fs, true) == Marked(init, true);
      }
    }
  }

  lemma {:induction false} WithoutSnoc(fs: seq<File>, f: File, gone: set<Name>)
    ensures Without(fs + [f], gone) == if f.name in gone then Without(fs, gone) else Without(fs, gone) + [f]
  {
    assert (fs + [f])[..|fs|] == fs;
  }

  lemma {:induction false} FileWritesSnoc(say: FileSays, fs: seq<File>, f: File)
    ensures FileWrites(say, fs + [f]) == FileWrites(say, fs) + say(f)
  {
    assert (fs + [f])[..|fs|] == fs;
  }

  lemma {:induction false} WithoutAll(fs: seq<File>, gone: set<Name>)
    requires forall f :: f in fs ==> f.name in gone
    ensures Without(fs, gone) == []
  {
    if fs != [] {
      assert fs[|fs| - 1] in fs;
      WithoutAll(fs[..|fs| - 1], gone);
    }
  }

  /** Of the live-only files the newest alone remains. */
  lemma {:induction false} NewestRemains(live: seq<File>)
    requires Sorted(live) && live != []
    ensures Without(live, Names(live[..|live| - 1])) == [live[|live| - 1]]
  {
    var n := |live| - 1;
    var older, gone := live[..n], Names(live[..n]);
    forall f | f in older ensures f.name in gone {
      var i :| 0 <= i < |older| && older[i] == f;
      NamesHas(older, i);
    }
    WithoutAll(older, gone);
    if live[n].name in gone {
      var j := NamesFrom(older, live[n].name);
    }
  }

  lemma {:induction false} NoneGone(fs: seq<File>)
    ensures Without(fs, {}) == fs
  {
    if fs != [] {
      NoneGone(fs[..|fs| - 1]);
    }
  }

  ghost predicate SaysPlain(say: FileSays, keep: bool) {
    forall f :: AllPlain(say(f), keep)
  }

  lemma {:induction false} RecordsPlain(says: Says, rs: seq<Record>, keep: bool)
    requires forall r :: AllPlain(says(r), keep)
    ensures AllPlain(Heard(says, rs), keep)
  {
    if rs != [] {
      RecordsPlain(says, rs[..|rs| - 1], keep);
    }
  }

  lemma {:induction false} LiveSaysPlain(cfg: Config, now: int, k: Key)
    requires IsLiveKey(k)
    ensures SaysPlain(FileSaying(cfg, now, k), k.LiveNodeKey?)
  {
    forall r ensures AllPlain(Saying(cfg, k)(r), k.LiveNodeKey?) {
      SaysOne(cfg, r, k);
      if IsLive(r) {
        LivePlain(cfg, r);
      }
    }
    forall f ensures AllPlain(FileSaying(cfg, now, k)(f), k.LiveNodeKey?) {
      RecordsPlain(Saying(cfg, k), f.records, k.LiveNodeKey?);
    }
  }

  lemma {:induction false} FilesPlain(say: FileSays, fs: seq<File>, keep: bool)
    requires SaysPlain(say, keep)
    ensures AllPlain(FileWrites(say, fs), keep)
  {
    if fs != [] {
      FilesPlain(say, fs[..|fs| - 1], keep);
    }
  }

  /** What the newest live-only file says about a key covers what the older ones say. */
  ghost predicate CoveredBy(vs: seq<RowWrite>, ws: seq<RowWrite>) {
    vs == [] || (|ws| == 1 && Covers(vs, ws[0]))
  }

  lemma {:induction false} CoveredByAt(c: Option<Cell<Column, Content>>, vs: seq<RowWrite>, ws: seq<RowWrite>,
        keep: bool)
    requires AllPlain(vs, keep) && AllPlain(ws, keep) && CoveredBy(vs, ws)
    ensures Fold(c, vs + ws) == Fold(c, ws)
  {
    if vs == [] {
      assert vs + ws == ws;
    } else {
      assert ws == [ws[0]] && ws[..0] == [];
      CoveredAt(c, vs, ws[0], keep);
    }
  }

  lemma {:induction false} UncoveredBy(vs: seq<RowWrite>, ws: seq<RowWrite>, keep: bool)
    requires AllPlain(vs, keep) && AllPlain(ws, keep) && |ws| <= 1 && !CoveredBy(vs, ws)
    ensures Fold(None, vs + ws) != Fold(None, ws)
  {
    if ws == [] {
      assert vs + ws == vs;
      FoldSome(None, vs, keep);
    } else {
      assert ws == [ws[0]] && ws[..0] == [];
      UncoveredShows(vs, ws[0], keep);
    }
  }

  /** What the older live-only files say, and what the newest does. */
  function OlderSay(say: FileSays, list: seq<File>): seq<RowWrite> {
    var live := Marked(list, true);
    if live == [] then [] else FileWrites(say, live[..|live| - 1])
  }

  function NewestSays(say: FileSays, list: seq<File>): seq<RowWrite> {
    var live := Marked(list, true);
    if live == [] then [] else say(live[|live| - 1])
  }

  lemma {:induction false} AllSay(say: FileSays, list: seq<File>)
    requires LiveSpeak(say, list)
    ensures FileWrites(say, list) == OlderSay(say, list) + NewestSays(say, list)
  {
    MarkedWrites(say, list, {});
    NoneGone(list);
    NoneGone(Marked(list, true));
  }

  lemma {:induction false} RestSays(say: FileSays, list: seq<File>)
    requires LiveSpeak(say, list) && Sorted(list)
    ensures FileWrites(say, Without(list, SupersededOf(list))) == NewestSays(say, list)
  {
    var live := Marked(list, true);
    MarkedIs(list, true);
    MarkedWrites(say, list, SupersededOf(list));
    if live != [] {
      NewestRemains(live);
      FileWritesSnoc(say, [], live[|live| - 1]);
      assert [] + [live[|live| - 1]] == [live[|live| - 1]];
    } else {
      assert Without(live, {}) == [];
    }
  }

  lemma {:induction false} BothPlain(say: FileSays, list: seq<File>, keep: bool)
    requires SaysPlain(say, keep)
    ensures AllPlain(OlderSay(say, list), keep) && AllPlain(NewestSays(say, list), keep)
  {
    var live := Marked(list, true);
    if live != [] {
      FilesPlain(say, live[..|live| - 1], keep);
    }
  }

  lemma {:induction false} ApartSpeak(cfg: Config, list: seq<File>, now: int, k: Key)
    requires Apart(list) && IsLiveKey(k)
    ensures LiveSpeak(FileSaying(cfg, now, k), list)
  {
    forall i | 0 <= i < |list| && !list[i].name.live ensures FileSaying(cfg, now, k)(list[i]) == [] {
      DurableAt(cfg, list[i].records, k);
    }
  }

  /** The live row after the superseded files are dropped, and after all are replayed. */
  lemma {:induction false} BothAt(cfg: Config, db: Db, list: seq<File>, now: int, k: Key)
    requires Sorted(list) && Apart(list) && IsLiveKey(k)
    ensures var say := FileSaying(cfg, now, k);
            && Get(ReplayFiles(cfg, db, Without(list, SupersededOf(list)), now).rows, k)
                == Fold(Get(db.rows, k), NewestSays(say, list))
            && Get(ReplayFiles(cfg, db, list, now).rows, k) == Fold(Get(db.rows, k),
                OlderSay(say, list) + NewestSays(say, list))
  {
    ApartSpeak(cfg, list, now, k);
    AllSay(FileSaying(cfg, now, k), list);
    RestSays(FileSaying(cfg, now, k), list);
    ReplayFilesAt(cfg, db, list, now, k);
    ReplayFilesAt(cfg, db, Without(list, SupersededOf(list)), now, k);
  }

  ghost predicate DropIsSafe(cfg: Config, db: Db, list: seq<File>, now: int, k: Key) {
    Get(ReplayFiles(cfg, db, Without(list, SupersededOf(list)), now).rows, k)
        == Get(ReplayFiles(cfg, db, list, now).rows, k)
  }

  /**
    Dropping the superseded files of a spool leaves a live row as replaying every file would,
    whatever the tables held, exactly if the writer takes the newest live-only file and that file
    covers the older ones there, or these say nothing.  (A take holds at most one record per node
    and kind, so the newest says at most one thing.)
   */
  lemma {:induction false} SupersededExactly(cfg: Config, list: seq<File>, now: int, k: Key)
    requires Sorted(list) && Apart(list) && IsLiveKey(k) && |NewestSays(FileSaying(cfg, now, k), list)| <= 1
    ensures CoveredBy(OlderSay(FileSaying(cfg, now, k), list), NewestSays(FileSaying(cfg, now, k), list))
            <==> forall db :: DropIsSafe(cfg, db, list, now, k)
  {
    var vs, ws := OlderSay(FileSaying(cfg, now, k), list), NewestSays(FileSaying(cfg, now, k), list);
    LiveSaysPlain(cfg, now, k);
    BothPlain(FileSaying(cfg, now, k), list, k.LiveNodeKey?);
    if CoveredBy(vs, ws) {
      forall db ensures DropIsSafe(cfg, db, list, now, k) {
        BothAt(cfg, db, list, now, k);
        CoveredByAt(Get(db.rows, k), vs, ws, k.LiveNodeKey?);
      }
    } else {
      BothAt(cfg, Db(map[], map[]), list, now, k);
      UncoveredBy(vs, ws, k.LiveNodeKey?);
      assert !DropIsSafe(cfg, Db(map[], map[]), list, now, k);
    }
  }

  // --- a replay as it really went ----------------------------------------------------------------

  /** A file whose batch was committed. */
  function Sends(cfg: Config, now: int): (Db, File) -> Db {
    (db: Db, f: File) => Commit(cfg, db, f.records, now)
  }

  /** The files a replay committed, all of them from the list and none of them superseded. */
  ghost predicate IsSent(cfg: Config, list: seq<File>, sent: seq<File>, now: int) {
    && Sorted(sent)
    && forall f :: f in sent ==> f in list && f.name !in SupersededOf(list) && IsPlannable(cfg, f.records, now)
  }

  ghost predicate NewestIsSent(list: seq<File>, sent: seq<File>) {
    var live := Marked(list, true);
    live != [] && live[|live| - 1] in sent
  }

  /** Files of which one speaks at most. */
  lemma {:induction false} OnlyOneSpeaks(say: FileSays, fs: seq<File>, one: File)
    requires Sorted(fs) && forall i :: 0 <= i < |fs| ==> fs[i] == one || say(fs[i]) == []
    ensures FileWrites(say, fs) == if one in fs then say(one) else []
  {
    if fs != [] {
      var n := |fs| - 1;
      OnlyOneSpeaks(say, fs[..n], one);
      assert fs == fs[..n] + [fs[n]];
      LastIsNew(fs);
    }
  }

  lemma {:induction false} LastIsNew(fs: seq<File>)
    requires Sorted(fs) && fs != []
    ensures fs[|fs| - 1] !in fs[..|fs| - 1]
  {
  }

  lemma {:induction false} SilentFiles(say: FileSays, fs: seq<File>)
    requires forall i :: 0 <= i < |fs| ==> say(fs[i]) == []
    ensures FileWrites(say, fs) == []
  {
    if fs != [] {
      SilentFiles(say, fs[..|fs| - 1]);
    }
  }

  lemma {:induction false} OnlyNewestSpeaks(say: FileSays, list: seq<File>, sent: seq<File>)
    requires LiveSpeak(say, list) && Sorted(list) && Sorted(sent)
    requires forall f :: f in sent ==> f in list && f.name !in SupersededOf(list)
    ensures FileWrites(say, sent) == if NewestIsSent(list, sent) then NewestSays(say, list) else []
  {
    var live := Marked(list, true);
    forall i | 0 <= i < |sent| ensures say(sent[i]) == [] || (live != [] && sent[i] == live[|live| - 1]) {
      var f := sent[i];
      assert f in sent;
      if f.name.live {
        IsNewest(list, f);
      } else {
        var j :| 0 <= j < |list| && list[j] == f;
      }
    }
    if live == [] {
      SilentFiles(say, sent);
    } else {
      OnlyOneSpeaks(say, sent, live[|live| - 1]);
    }
  }

  /** A live-only file of the list that is not superseded is the newest. */
  lemma {:induction false} IsNewest(list: seq<File>, f: File)
    requires Sorted(list) && f in list && f.name.live && f.name !in SupersededOf(list)
    ensures Marked(list, true) != [] && f == Marked(list, true)[|Marked(list, true)| - 1]
  {
    MarkedIs(list, true);
    var live := Marked(list, true);
    assert f in live;
    var i :| 0 <= i < |live| && live[i] == f;
    if i < |live| - 1 {
      assert live[..|live| - 1][i] == f;
      NamesHas(live[..|live| - 1], i);
    }
  }

  lemma {:induction false} SentAt(cfg: Config, db: Db, list: seq<File>, sent: seq<File>, now: int, k: Key)
    requires Sorted(list) && Apart(list) && IsLiveKey(k) && IsSent(cfg, list, sent, now)
    ensures Get(After(Sends(cfg, now), db, sent).rows, k)
            == Fold(Get(db.rows, k), if NewestIsSent(list, sent) then NewestSays(FileSaying(cfg, now, k), list) else [])
  {
    var say := FileSaying(cfg, now, k);
    forall d, i | 0 <= i < |sent| ensures Get(Sends(cfg, now)(d, sent[i]).rows, k)
        == Fold(Get(d.rows, k), say(sent[i])) {
      LiveCommit(cfg, d, sent[i].records, now, k);
      assert sent[i] in sent;
    }
    FilesAt(Sends(cfg, now), say, db, sent, k);
    ApartSpeak(cfg, list, now, k);
    OnlyNewestSpeaks(say, list, sent);
  }

  /** The live row a replay leaves is the one replaying every file would have left. */
  ghost predicate ReplayIsSafe(cfg: Config, db: Db, list: seq<File>, sent: seq<File>, now: int, k: Key) {
    Get(After(Sends(cfg, now), db, sent).rows, k) == Get(ReplayFiles(cfg, db, list, now).rows, k)
  }

  /**
    A replay that drops superseded files and commits the files `sent` is safe at a live key, for
    whatever the tables held, exactly if the newest live-only file was read and committed and
    covers the older ones there, or no live-only file says anything to the key.
   */
  lemma {:induction false} ReplaySafeExactly(cfg: Config, list: seq<File>, sent: seq<File>, now: int, k: Key)
    requires Sorted(list) && Apart(list) && IsLiveKey(k) && IsSent(cfg, list, sent, now)
    requires |NewestSays(FileSaying(cfg, now, k), list)| <= 1
    ensures var older, newest := OlderSay(FileSaying(cfg, now, k), list), NewestSays(FileSaying(cfg, now, k), list);
            (if NewestIsSent(list, sent) then CoveredBy(older, newest) else older == [] && newest == [])
            <==> forall db :: ReplayIsSafe(cfg, db, list, sent, now, k)
  {
    var vs, ws := OlderSay(FileSaying(cfg, now, k), list), NewestSays(FileSaying(cfg, now, k), list);
    LiveSaysPlain(cfg, now, k);
    BothPlain(FileSaying(cfg, now, k), list, k.LiveNodeKey?);
    if if NewestIsSent(list, sent) then CoveredBy(vs, ws) else vs == [] && ws == [] {
      forall db ensures ReplayIsSafe(cfg, db, list, sent, now, k) {
        ReplayIs(cfg, db, list, sent, now, k, vs, ws);
        CoveredByAt(Get(db.rows, k), vs, ws, k.LiveNodeKey?);
      }
    } else {
      ReplayIs(cfg, Db(map[], map[]), list, sent, now, k, vs, ws);
      if NewestIsSent(list, sent) {
        UncoveredBy(vs, ws, k.LiveNodeKey?);
      } else {
        FoldSome(None, vs + ws, k.LiveNodeKey?);
      }
      assert !ReplayIsSafe(cfg, Db(map[], map[]), list, sent, now, k);
    }
  }

  lemma {:induction false} ReplayIs(cfg: Config, db: Db, list: seq<File>, sent: seq<File>, now: int, k: Key,
        vs: seq<RowWrite>, ws: seq<RowWrite>)
    requires Sorted(list) && Apart(list) && IsLiveKey(k) && IsSent(cfg, list, sent, now)
    requires vs == OlderSay(FileSaying(cfg, now, k), list) && ws == NewestSays(FileSaying(cfg, now, k), list)
    ensures ReplayIsSafe(cfg, db, list, sent, now, k)
            <==> Fold(Get(db.rows, k), if NewestIsSent(list, sent) then ws else []) == Fold(Get(db.rows, k), vs + ws)
  {
    SentAt(cfg, db, list, sent, now, k);
    BothAt(cfg, db, list, now, k);
  }

  // --- two nodes --------------------------------------------------------------------------------------

  /** A snapshot of a node without processes. */
  function Snapshot(node: string, at: int): Record {
    Record(LiveProcesses, map["system" := Codec.Str("s"), "node" := Codec.Str(node),
        "ts" := Codec.Time(Codec.Aware(at)), "processes" := Codec.List([])])
  }

  function LiveFile(number: nat, r: Record): File { File(Name(number, number, true), [r], 1) }

  /** The condition is not idle: of two live-only files of different nodes the older is dropped
      and nothing replaces it. */
  lemma {:induction false} OtherNodeIsLost(cfg: Config, now: int)
    ensures var list := [LiveFile(1, Snapshot("a", 5)), LiveFile(2, Snapshot("b", 6))];
            !DropIsSafe(cfg, Db(map[], map[]), list, now, SnapshotKey("s", "a"))
  {
    var a, b, k := LiveFile(1, Snapshot("a", 5)), LiveFile(2, Snapshot("b", 6)), SnapshotKey("s", "a");
    TwoNodesSay(cfg, now);
    TwoFiles(cfg, now, k, a, b);
  }

  lemma {:induction false} TwoFiles(cfg: Config, now: int, k: Key, a: File, b: File)
    requires Sorted([a, b]) && Apart([a, b]) && a.name.live && b.name.live && IsLiveKey(k)
    requires FileSaying(cfg, now, k)(a) != [] && FileSaying(cfg, now, k)(b) == []
    ensures !DropIsSafe(cfg, Db(map[], map[]), [a, b], now, k)
  {
    var list, say := [a, b], FileSaying(cfg, now, k);
    MarkedTwo(a, b);
    BothAt(cfg, Db(map[], map[]), list, now, k);
    FileWritesSnoc(say, [], a);
    assert [] + [a] == [a] && [a, b][..1] == [a];
    assert OlderSay(say, list) + NewestSays(say, list) == say(a);
    LiveSaysPlain(cfg, now, k);
    FoldSome(None, say(a), k.LiveNodeKey?);
  }

  lemma {:induction false} MarkedTwo(a: File, b: File)
    requires a.name.live && b.name.live
    ensures Marked([a, b], true) == [a, b]
  {
    assert [a, b][..1] == [a] && [a][..0] == [];
    assert Marked([a], true) == [a];
  }

  lemma {:induction false} TwoNodesSay(cfg: Config, now: int)
    ensures var say := FileSaying(cfg, now, SnapshotKey("s", "a"));
            say(LiveFile(1, Snapshot("a", 5))) != [] && say(LiveFile(2, Snapshot("b", 6))) == []
  {
    var k, r, q := SnapshotKey("s", "a"), Snapshot("a", 5), Snapshot("b", 6);
    SaysOne(cfg, r, k);
    SaysOne(cfg, q, k);
    HeardOne(Saying(cfg, k), r);
    HeardOne(Saying(cfg, k), q);
    assert Complete(r) && Complete(q);
    assert IsPlannable(cfg, [r], now);
    assert LiveStmt(cfg, r).key == k && LiveStmt(cfg, q).key == SnapshotKey("s", "b");
  }
}
