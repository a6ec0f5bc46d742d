/**
  The on-disk spool: a bounded queue of batches, named so that they sort in write order
  (node_monitor/database/spool.py).

  A file name is its time stamp, sequence number and live-only mark.  Reading, moving and
  deleting a file are steps that may fail; the wall clock is taken not to step back.
 */
module Spooling {
  import opened Upsert
  import opened Records
  import opened Sealing

  datatype Name = Name(stamp: int, number: nat, live: bool)

  datatype File = File(name: Name, records: seq<Record>, size: nat)

  predicate Earlier(a: Name, b: Name) {
    a.stamp < b.stamp || (a.stamp == b.stamp && a.number < b.number)
  }

  ghost predicate Sorted(fs: seq<File>) {
    forall i, j :: 0 <= i < j < |fs| ==> Earlier(fs[i].name, fs[j].name)
  }

  function Total(fs: seq<File>): (n: nat) {
    if fs == [] then 0 else Total(fs[..|fs| - 1]) + fs[|fs| - 1].size
  }

  function Count(fs: seq<File>): nat {
    if fs == [] then 0 else Count(fs[..|fs| - 1]) + |fs[|fs| - 1].records|
  }

  function Without(fs: seq<File>, gone: set<Name>): seq<File> {
    if fs == [] then []
    else
      var f := fs[|fs| - 1];
      Without(fs[..|fs| - 1], gone) + if f.name in gone then [] else [f]
  }

  function Names(fs: seq<File>): set<Name> {
    if fs == [] then {} else Names(fs[..|fs| - 1]) + {fs[|fs| - 1].name}
  }

  lemma {:induction false} NamesHas(fs: seq<File>, i: nat)
    requires i < |fs|
    ensures fs[i].name in Names(fs)
  {
    if i < |fs| - 1 {
      NamesHas(fs[..|fs| - 1], i);
    }
  }

  lemma {:induction false} NamesFrom(fs: seq<File>, n: Name) returns (i: nat)
    requires n in Names(fs)
    ensures i < |fs| && fs[i].name == n
  {
    if fs[|fs| - 1].name == n {
      i := |fs| - 1;
    } else {
      i := NamesFrom(fs[..|fs| - 1], n);
    }
  }

  lemma {:induction false} WithoutIs(fs: seq<File>, gone: set<Name>)
    requires Sorted(fs)
    ensures Sorted(Without(fs, gone))
    ensures forall f :: f in Without(fs, gone) <==> f in fs && f.name !in gone
    ensures Without(fs, {}) == fs
  {
    if fs != [] {
      WithoutIs(fs[..|fs| - 1], gone);
      assert fs == fs[..|fs| - 1] + [fs[|fs| - 1]];
      forall f | f in Without(fs[..|fs| - 1], gone) ensures Earlier(f.name, fs[|fs| - 1].name) {
        assert f in fs[..|fs| - 1];
      }
    }
  }

  lemma {:induction false} NotWithout(fs: seq<File>, f: File)
    requires Sorted(fs)
    ensures f !in Without(fs, {f.name})
  {
    WithoutIs(fs, {f.name});
  }

  lemma {:induction false} SameName(fs: seq<File>, f: File, g: File)
    requires Sorted(fs) && f in fs && g in fs && f.name == g.name
    ensures f == g
  {
    var i :| 0 <= i < |fs| && fs[i] == f;
    var j :| 0 <= j < |fs| && fs[j] == g;
  }

  // --- eviction -------------------------------------------------------------------------

  function Marked(fs: seq<File>, live: bool): seq<File> {
    if fs == [] then []
    else
      var f := fs[|fs| - 1];
      Marked(fs[..|fs| - 1], live) + if f.name.live == live then [f] else []
  }

  /** The order files are given up in: live-only ones first, each group oldest first. */
  function LiveFirst(fs: seq<File>): seq<File> { Marked(fs, true) + Marked(fs, false) }

  /** The files given up, from a directory of `total` bytes, until `needed` more bytes fit;
      those in `held` cannot be deleted. */
  function Evict(order: seq<File>, total: int, needed: int, max: int, held: set<Name>): seq<File> {
    if order == [] || total + needed <= max then []
    else if order[0].name in held then Evict(order[1..], total, needed, max, held)
    else [order[0]] + Evict(order[1..], total - order[0].size, needed, max, held)
  }

  function Deletable(fs: seq<File>, held: set<Name>): seq<File> {
    if fs == [] then []
    else (if fs[0].name in held then [] else [fs[0]]) + Deletable(fs[1..], held)
  }

  /** Eviction takes the deletable files of a prefix of that order, stops as soon as the batch
      fits, and takes nothing it did not still need. */
  lemma {:induction false} EvictTakesPrefix(order: seq<File>, total: int, needed: int, max: int, held: set<Name>)
        returns (k: nat)
    ensures k <= |order|
    ensures Evict(order, total, needed, max, held) == Deletable(order[..k], held)
    ensures k < |order| ==> total - Total(Evict(order, total, needed, max, held)) + needed <= max
    ensures var out := Evict(order, total, needed, max, held);
            forall j :: 0 <= j < |out| ==> total - Total(out[..j]) + needed > max
  {
    if order == [] || total + needed <= max {
      k := 0;
    } else {
      var first, rest := order[0], order[1..];
      var held1 := first.name in held;
      k := EvictTakesPrefix(rest, if held1 then total else total - first.size, needed, max, held);
      var out := Evict(rest, if held1 then total else total - first.size, needed, max, held);
      assert order[..k + 1][1..] == rest[..k];
      if !held1 {
        TotalCons(first, out);
        forall j | 0 <= j < |out| + 1 ensures total - Total(([first] + out)[..j]) + needed > max {
          if j > 0 {
            TotalCons(first, out[..j - 1]);
            assert ([first] + out)[..j] == [first] + out[..j - 1];
          }
        }
      }
      k := k + 1;
    }
  }

  lemma {:induction false} TotalCons(f: File, fs: seq<File>)
    ensures Total([f] + fs) == f.size + Total(fs)
  {
    if fs == [] {
      assert [f] + fs == [f] && [f][..0] == [];
    } else {
      assert ([f] + fs)[..|fs|] == [f] + fs[..|fs| - 1];
      TotalCons(f, fs[..|fs| - 1]);
    }
  }

  lemma {:induction false} DeletableIs(fs: seq<File>, held: set<Name>)
    ensures forall f :: f in Deletable(fs, held) <==> f in fs && f.name !in held
  {
    if fs != [] {
      DeletableIs(fs[1..], held);
      assert fs == [fs[0]] + fs[1..];
    }
  }

  lemma {:induction false} MarkedIs(fs: seq<File>, live: bool)
    requires Sorted(fs)
    ensures Sorted(Marked(fs, live))
    ensures forall f :: f in Marked(fs, live) <==> f in fs && f.name.live == live
  {
    if fs != [] {
      MarkedIs(fs[..|fs| - 1], live);
      assert fs == fs[..|fs| - 1] + [fs[|fs| - 1]];
      forall f | f in Marked(fs[..|fs| - 1], live) ensures Earlier(f.name, fs[|fs| - 1].name) {
        assert f in fs[..|fs| - 1];
      }
    }
  }

  /** Fairness: whatever is dropped, every deletable file that comes before it (any live-only
      file if it is not live-only, else any older file of its group) was dropped too. */
  lemma {:induction false} EvictionFair(fs: seq<File>, total: int, needed: int, max: int, held: set<Name>,
        dropped: File, other: File)
    requires Sorted(fs) && dropped in Evict(LiveFirst(fs), total, needed, max, held)
    requires other in fs && other.name !in held
    requires if dropped.name.live == other.name.live then Earlier(other.name, dropped.name) else other.name.live
    ensures other in Evict(LiveFirst(fs), total, needed, max, held)
  {
    var order := LiveFirst(fs);
    var k := EvictTakesPrefix(order, total, needed, max, held);
    DeletableIs(order[..k], held);
    var j :| 0 <= j < k && order[j] == dropped;
    var i := OrderOf(fs, other);
    OrderIndex(fs, i);
    OrderIndex(fs, j);
    assert i < j;
    assert order[..k][i] == other;
  }

  lemma {:induction false} OrderOf(fs: seq<File>, f: File) returns (i: nat)
    requires Sorted(fs) && f in fs
    ensures i < |LiveFirst(fs)| && LiveFirst(fs)[i] == f
  {
    MarkedIs(fs, f.name.live);
    assert f in Marked(fs, f.name.live);
    i :| 0 <= i < |Marked(fs, f.name.live)| && Marked(fs, f.name.live)[i] == f;
    if !f.name.live {
      i := |Marked(fs, true)| + i;
    }
  }

  lemma {:induction false} TotalMarked(fs: seq<File>)
    ensures Total(fs) == Total(Marked(fs, true)) + Total(Marked(fs, false))
  {
    if fs != [] {
      var f := fs[|fs| - 1];
      TotalMarked(fs[..|fs| - 1]);
      var m := Marked(fs[..|fs| - 1], f.name.live);
      assert (m + [f])[..|m|] == m;
      assert Marked(fs, !f.name.live) == Marked(fs[..|fs| - 1], !f.name.live);
    }
  }

  lemma {:induction false} TotalAppend(fs: seq<File>, gs: seq<File>)
    ensures Total(fs + gs) == Total(fs) + Total(gs)
  {
    if gs == [] {
      assert fs + gs == fs;
    } else {
      assert (fs + gs)[..|fs + gs| - 1] == fs + gs[..|gs| - 1];
      TotalAppend(fs, gs[..|gs| - 1]);
    }
  }

  /** If nothing is held, the batch fits afterwards: the bound on the spool's size. */
  lemma {:induction false} EvictionMakesRoom(fs: seq<File>, needed: int, max: int)
    requires needed <= max
    ensures Total(fs) - Total(Evict(LiveFirst(fs), Total(fs), needed, max, {})) + needed <= max
  {
    var order := LiveFirst(fs);
    var k := EvictTakesPrefix(order, Total(fs), needed, max, {});
    if k == |order| {
      assert order[..k] == order;
      DeletableAll(order);
      TotalMarked(fs);
      TotalAppend(Marked(fs, true), Marked(fs, false));
    }
  }

  lemma {:induction false} DeletableAll(fs: seq<File>)
    ensures Deletable(fs, {}) == fs
  {
    if fs != [] {
      DeletableAll(fs[1..]);
    }
  }

  // --- sizes after a removal ------------------------------------------------------------

  lemma {:induction false} WithoutOne(fs: seq<File>, f: File, gone: set<Name>)
    requires Sorted(fs) && f in fs && f.name !in gone
    ensures Total(Without(fs, gone + {f.name})) == Total(Without(fs, gone)) - f.size
    ensures Total(Without(fs, gone)) >= f.size
  {
    var n := |fs| - 1;
    var g := fs[n];
    var w, v := Without(fs[..n], gone), Without(fs[..n], gone + {f.name});
    assert (w + [g])[..|w|] == w && (v + [g])[..|v|] == v;
    if g.name == f.name {
      SameName(fs, f, g);
      WithoutOther(fs[..n], gone, f.name);
      assert Without(fs, gone) == w + [g] && Without(fs, gone + {f.name}) == v == w;
    } else {
      assert f in fs[..n];
      WithoutOne(fs[..n], f, gone);
      assert Without(fs, gone) == if g.name in gone then w else w + [g];
      assert Without(fs, gone + {f.name}) == if g.name in gone then v else v + [g];
    }
  }

  lemma {:induction false} WithoutOther(fs: seq<File>, gone: set<Name>, name: Name)
    requires forall i :: 0 <= i < |fs| ==> fs[i].name != name
    ensures Without(fs, gone + {name}) == Without(fs, gone)
  {
    if fs != [] {
      WithoutOther(fs[..|fs| - 1], gone, name);
    }
  }

  lemma {:induction false} NamesSnoc(fs: seq<File>, f: File)
    ensures Names(fs + [f]) == Names(fs) + {f.name}
  {
    assert (fs + [f])[..|fs|] == fs;
  }

  lemma {:induction false} CountSnoc(fs: seq<File>, f: File, unread: set<Name>)
    ensures Count(Without(fs + [f], unread)) == Count(Without(fs, unread)) + if f.name in unread then 0 else |f.records|
  {
    assert (fs + [f])[..|fs|] == fs;
    var w := Without(fs, unread);
    assert (w + [f])[..|w|] == w;
    assert Without(fs + [f], unread) == if f.name in unread then w else w + [f];
  }

  lemma {:induction false} OrderIndex(fs: seq<File>, i: nat)
    requires Sorted(fs) && i < |LiveFirst(fs)|
    ensures var m := |Marked(fs, true)|;
            LiveFirst(fs)[i] == (if i < m then Marked(fs, true)[i] else Marked(fs, false)[i - m])
            && LiveFirst(fs)[i].name.live == (i < m)
            && Sorted(Marked(fs, true)) && Sorted(Marked(fs, false))
  {
    MarkedIs(fs, true);
    MarkedIs(fs, false);
    var m := |Marked(fs, true)|;
    if i < m { assert Marked(fs, true)[i] in Marked(fs, true); }
        else { assert Marked(fs, false)[i - m] in Marked(fs, false); }
  }

  ghost predicate Distinct(fs: seq<File>) {
    forall i :: 0 <= i < |fs| ==> fs[i].name !in Names(fs[..i])
  }

  lemma {:induction false} TotalWithout(fs: seq<File>, gone: seq<File>)
    requires Sorted(fs) && Distinct(gone) && forall f :: f in gone ==> f in fs
    ensures Total(Without(fs, Names(gone))) == Total(fs) - Total(gone)
  {
    if gone == [] {
      WithoutIs(fs, {});
    } else {
      var n := |gone| - 1;
      assert forall i :: 0 <= i < n ==> gone[..n][..i] == gone[..i];
      TotalWithout(fs, gone[..n]);
      WithoutOne(fs, gone[n], Names(gone[..n]));
    }
  }

  /** Having looked at `i` files of the order, the loop will complete an eviction of `all`. */
  ghost predicate Evicting(order: seq<File>, i: nat, dropped: seq<File>, all: seq<File>, total: int, needed: int,
        max: int, held: set<Name>) {
    i <= |order| && dropped + Evict(order[i..], total, needed, max, held) == all
  }

  lemma {:induction false} EvictUnfold(order: seq<File>, i: nat, total: int, needed: int, max: int, held: set<Name>)
    requires i < |order| && total + needed > max
    ensures Evict(order[i..], total, needed, max, held)
            == if order[i].name in held then Evict(order[i + 1..], total, needed, max, held)
               else [order[i]] + Evict(order[i + 1..], total - order[i].size, needed, max, held)
  {
    assert order[i..][0] == order[i] && order[i..][1..] == order[i + 1..];
  }

  lemma {:induction false} EvictStep(order: seq<File>, i: nat, dropped: seq<File>, all: seq<File>, total: int,
        needed: int, max: int, held: set<Name>)
    requires Evicting(order, i, dropped, all, total, needed, max, held)
    requires i < |order| && total + needed > max
    ensures if order[i].name in held then Evicting(order, i + 1, dropped, all, total, needed, max, held)
            else Evicting(order, i + 1, dropped + [order[i]], all, total - order[i].size, needed, max, held)
  {
    var f := order[i];
    EvictUnfold(order, i, total, needed, max, held);
    var rest := Evict(order[i + 1..], total - f.size, needed, max, held);
    assert dropped + ([f] + rest) == (dropped + [f]) + rest;
  }

  lemma {:induction false} EvictDistinct(order: seq<File>, total: int, needed: int, max: int, held: set<Name>)
    requires Unrepeated(order)
    ensures forall f :: f in Evict(order, total, needed, max, held) ==> f in order
    ensures Unrepeated(Evict(order, total, needed, max, held))
  {
    if order != [] && total + needed > max {
      var first, rest := order[0], order[1..];
      EvictDistinct(rest, if first.name in held then total else total - first.size, needed, max, held);
      assert forall f :: f in rest ==> f.name != first.name;
    }
  }

  ghost predicate Unrepeated(fs: seq<File>) {
    forall i, j :: 0 <= i < j < |fs| ==> fs[i].name != fs[j].name
  }

  lemma {:induction false} EvictedWereThere(fs: seq<File>, total: int, needed: int, max: int, held: set<Name>)
    requires Sorted(fs)
    ensures var out := Evict(LiveFirst(fs), total, needed, max, held);
            Distinct(out) && forall f :: f in out ==> f in fs
  {
    var order := LiveFirst(fs);
    assert Unrepeated(order) by {
      forall i, j | 0 <= i < j < |order| ensures order[i].name != order[j].name {
        OrderIndex(fs, i);
        OrderIndex(fs, j);
      }
    }
    EvictDistinct(order, total, needed, max, held);
    MarkedIs(fs, true);
    MarkedIs(fs, false);
    DistinctFrom(Evict(order, total, needed, max, held));
  }

  lemma {:induction false} DistinctFrom(fs: seq<File>)
    requires Unrepeated(fs)
    ensures Distinct(fs)
  {
    forall i | 0 <= i < |fs| ensures fs[i].name !in Names(fs[..i]) {
      if fs[i].name in Names(fs[..i]) {
        var j := NamesFrom(fs[..i], fs[i].name);
      }
    }
  }

  /** What eviction leaves, all in one. */
  lemma {:induction false} EvictionLeaves(fs: seq<File>, needed: int, max: int, held: set<Name>)
    requires Sorted(fs)
    ensures var gone := Evict(LiveFirst(fs), Total(fs), needed, max, held);
            var left := Without(fs, Names(gone));
            && (forall f :: f in gone ==> f in fs)
            && Total(left) == Total(fs) - Total(gone)
            && (held == {} && needed <= max ==> Total(left) + needed <= max)
  {
    var gone := Evict(LiveFirst(fs), Total(fs), needed, max, held);
    EvictedWereThere(fs, Total(fs), needed, max, held);
    TotalWithout(fs, gone);
    if held == {} && needed <= max {
      EvictionMakesRoom(fs, needed, max);
    }
  }

  // --- the spool ------------------------------------------------------------------------

  datatype SpoolResult = SpoolResult(stored: bool, batches: nat, records: nat)

  /** Names no later than the last one given out, and live-only marks that tell the truth. */
  ghost predicate Filed(fs: seq<File>, number: nat, stamp: int) {
    forall f :: f in fs ==> f.name.number <= number && f.name.stamp <= stamp && (f.name.live ==> AllLive(f.records))
  }

  /** A spool directory in good order. */
  ghost predicate Orderly(files: seq<File>, corrupt: seq<File>, number: nat, stamp: int) {
    forall k :: Opens(k, Filing) ==> Sorted(files) && Filed(files, number, stamp) && Filed(corrupt, number, stamp)
  }

  lemma {:induction false} LiveMark(files: seq<File>, corrupt: seq<File>, number: nat, stamp: int, f: File)
    requires Orderly(files, corrupt, number, stamp) && f in files && f.name.live
    ensures AllLive(f.records)
  {
    assert Opens(Filing, Filing);
  }

  lemma {:induction false} FiledWithout(fs: seq<File>, gone: set<Name>, number: nat, stamp: int)
    requires Sorted(fs) && Filed(fs, number, stamp)
    ensures Sorted(Without(fs, gone)) && Filed(Without(fs, gone), number, stamp)
  {
    WithoutIs(fs, gone);
  }

  lemma {:induction false} FiledSnoc(fs: seq<File>, gs: seq<File>, f: File, number: nat, stamp: int)
    requires f in fs && Filed(fs, number, stamp) && Filed(gs, number, stamp)
    ensures Filed(gs + [f], number, stamp)
  {
  }

  lemma {:induction false} FiledMore(fs: seq<File>, f: File, number: nat, stamp: int)
    requires Filed(fs, number, stamp) && f.name.number <= number && f.name.stamp <= stamp
             && (f.name.live ==> AllLive(f.records))
    ensures Filed(fs + [f], number, stamp)
  {
  }

  lemma {:induction false} FiledLater(fs: seq<File>, number: nat, stamp: int, number': nat, stamp': int)
    requires Filed(fs, number, stamp) && number <= number' && stamp <= stamp'
    ensures Filed(fs, number', stamp')
  {
  }

  /** How a file write ends: done, the directory was gone, or another error. */
  datatype Done = Wrote | Vanished | Failed

  /** `after` is `before` with a batch written behind it. */
  ghost predicate Added(before: seq<File>, after: seq<File>, records: seq<Record>, size: nat) {
    && |after| == |before| + 1 && after[..|before|] == before
    && after[|before|].records == records && after[|before|].size == size
    && after[|before|].name.live == AllLive(records)
    && forall k :: Opens(k, Filing) ==> forall f :: f in before ==> Earlier(f.name, after[|before|].name)
  }

  class Spool {
    const maxBytes: int
    /** The size of a batch once encoded. */
    const bytes: seq<Record> -> nat
    var files: seq<File>
    var corrupt: seq<File>
    var seqNo: nat
    /** Unreadable batches found since the last TakeQuarantined. */
    var quarantined: seq<Name>
    /** Unreadable batches that could not be moved: reported once, then skipped. */
    var stuck: set<Name>
    /** The latest stamp given out. */
    var lastStamp: int

    ghost predicate Valid()
      reads this
    {
      Orderly(files, corrupt, seqNo, lastStamp)
    }

    /** Opens a spool directory in which an earlier process may have left batches, and
        continues past their names.  `corrupt` starts empty: it lists what this process moves
        there. */
    constructor (maxBytes: int, bytes: seq<Record> -> nat, found: seq<File>)
      requires Sorted(found) && forall f :: f in found && f.name.live ==> AllLive(f.records)
      ensures Valid() && this.maxBytes == maxBytes && this.bytes == bytes
      ensures files == found && corrupt == [] && quarantined == [] && stuck == {}
    {
      this.maxBytes, this.bytes := maxBytes, bytes;
      files, corrupt, quarantined, stuck := found, [], [], {};
      var number, stamp := 0, 0;
      for i := 0 to |found|
        invariant 0 <= number
        invariant forall f :: f in found[..i] ==> f.name.number <= number && f.name.stamp <= stamp
      {
        number := if found[i].name.number > number then found[i].name.number else number;
        stamp := if found[i].name.stamp > stamp then found[i].name.stamp else stamp;
      }
      assert found[..|found|] == found;
      seqNo, lastStamp := number, stamp;
    }

    /** Deletes batches until `needed` more bytes fit. `held` are the files the system will not
        delete, `unread` those whose records cannot be counted first.  Nothing looks at the
        directory during the loop, so the deletions are made together at its end. */
    method MakeRoom(needed: int, held: set<Name>, unread: set<Name>)
          returns (batches: nat, records: nat, ghost dropped: seq<File>)
      requires Valid()
      modifies this`files
      ensures Valid()
      ensures dropped == Evict(LiveFirst(old(files)), Total(old(files)), needed, maxBytes, held)
      ensures files == Without(old(files), Names(dropped))
      ensures Total(files) == Total(old(files)) - Total(dropped)
      ensures forall f :: f in dropped ==> f in old(files)
      ensures batches == |dropped| && records == Count(Without(dropped, unread))
      ensures held == {} && needed <= maxBytes ==> Total(files) + needed <= maxBytes
    {
      assert Opens(Filing, Filing);
      var gone: seq<File>;
      gone, batches, records := ChooseVictims(LiveFirst(files), Total(files), needed, held, unread);
      dropped := gone;
      EvictionLeaves(files, needed, maxBytes, held);
      FiledWithout(files, Names(gone), seqNo, lastStamp);
      files := Without(files, Names(gone));
    }

    method ChooseVictims(order: seq<File>, bytesUsed: int, needed: int, held: set<Name>, unread: set<Name>)
          returns (gone: seq<File>, batches: nat, records: nat)
      ensures gone == Evict(order, bytesUsed, needed, maxBytes, held)
      ensures batches == |gone| && records == Count(Without(gone, unread))
    {
      var total := bytesUsed;
      gone, batches, records := [], 0, 0;
      ghost var all := Evict(order, bytesUsed, needed, maxBytes, held);
      assert order[0..] == order;
      var i := 0;
      while i < |order| && total + needed > maxBytes
        invariant Evicting(order, i, gone, all, total, needed, maxBytes, held)
        invariant batches == |gone| && records == Count(Without(gone, unread))
      {
        var f := order[i];
        EvictStep(order, i, gone, all, total, needed, maxBytes, held);
        if f.name !in held {
          CountSnoc(gone, f, unread);
          records := records + if f.name in unread then 0 else |f.records|;
          batches := batches + 1;
          total := total - f.size;
          gone := gone + [f];
        }
        i := i + 1;
      }
    }

    /** Stores one batch behind the others, evicting what must go.  Nothing else about the
        directory changes, whether or not the batch could be stored. */
    method Append(records: seq<Record>) returns (r: SpoolResult, ghost dropped: seq<File>, ghost held: set<Name>,
          ghost unread: set<Name>)
      requires Valid()
      modifies this`files, this`seqNo, this`lastStamp
      ensures Valid()
      ensures old(seqNo) <= seqNo && old(lastStamp) <= lastStamp
      ensures forall f :: f in dropped ==> f in old(files)
      ensures r.batches == |dropped| && r.records == Count(Without(dropped, unread))
      ensures dropped == [] ||
              dropped == Evict(LiveFirst(old(files)), Total(old(files)), bytes(records), maxBytes, held)
      ensures if r.stored && records != []
              then Added(Without(old(files), Names(dropped)), files, records, bytes(records))
                  && old(seqNo) < files[|files| - 1].name.number && old(lastStamp) <= files[|files| - 1].name.stamp
              else files == Without(old(files), Names(dropped))
      ensures r.stored && records != [] && held == {} ==> Total(files) <= maxBytes
    {
      dropped, held, unread := [], {}, {};
      WithoutIs(files, {}) by { assert Opens(Filing, Filing); }
      if records == [] {
        return SpoolResult(true, 0, 0), [], {}, {};
      }
      // A value that cannot be encoded, a batch larger than the spool, or no directory.
      var usable: bool := *;
      var size := bytes(records);
      if !usable || size > maxBytes {
        return SpoolResult(false, 0, 0), [], {}, {};
      }
      var undeletable: set<Name>, uncountable: set<Name> := *, *;
      held, unread := undeletable, uncountable;
      r, dropped := AppendFile(records, size, undeletable, uncountable);
    }

    /** Makes room for a batch that can fit, and writes it. */
    method AppendFile(records: seq<Record>, size: nat, held: set<Name>, unread: set<Name>)
          returns (r: SpoolResult, ghost dropped: seq<File>)
      requires Valid() && size <= maxBytes
      modifies this`files, this`seqNo, this`lastStamp
      ensures Valid()
      ensures old(seqNo) <= seqNo && old(lastStamp) <= lastStamp
      ensures forall f :: f in dropped ==> f in old(files)
      ensures r.batches == |dropped| && r.records == Count(Without(dropped, unread))
      ensures dropped == Evict(LiveFirst(old(files)), Total(old(files)), size, maxBytes, held)
      ensures if r.stored
              then Added(Without(old(files), Names(dropped)), files, records, size)
                  && old(seqNo) < files[|files| - 1].name.number && old(lastStamp) <= files[|files| - 1].name.stamp
              else files == Without(old(files), Names(dropped))
      ensures r.stored && held == {} ==> Total(files) <= maxBytes
    {
      var batches, count;
      batches, count, dropped := MakeRoom(size, held, unread);
      // The directory may have vanished: it is recreated and the write tried once more.
      var done := WriteFile(records, size);
      if done == Vanished {
        done := WriteFile(records, size);
      }
      r := SpoolResult(done == Wrote, batches, count);
    }

    /** Writes a batch under the next name in sequence. */
    method WriteFile(records: seq<Record>, size: nat) returns (done: Done)
      requires Valid()
      modifies this`files, this`seqNo, this`lastStamp
      ensures Valid() && seqNo == old(seqNo) + 1 && old(lastStamp) <= lastStamp
      ensures if done == Wrote
              then Added(old(files), files, records, size) && files[|files| - 1].name.number == seqNo
                  && files[|files| - 1].name.stamp == lastStamp
                   && Total(files) == Total(old(files)) + size
              else files == old(files)
    {
      assert Opens(Filing, Filing);
      seqNo := seqNo + 1;
      var clock: int := *;
      var stamp := Later(clock);
      done := *;
      if done == Wrote {
        var file := File(Name(stamp, seqNo, AllLive(records)), records, size);
        assert (files + [file])[..|files|] == files;
        files := files + [file];
      }
    }

    /** Moves a batch into `corrupt/`; false if it could not be moved. */
    method Quarantine(f: File) returns (moved: bool)
      requires Valid() && f in files
      modifies this`files, this`corrupt
      ensures Valid()
      ensures if moved then files == Without(old(files), {f.name}) && f !in files && corrupt == old(corrupt) + [f]
              else files == old(files) && corrupt == old(corrupt)
    {
      assert Opens(Filing, Filing);
      moved := *;
      if moved {
        FiledWithout(files, {f.name}, seqNo, lastStamp);
        NotWithout(files, f);
        FiledSnoc(files, corrupt, f, seqNo, lastStamp);
        files, corrupt := Without(files, {f.name}), corrupt + [f];
      }
    }

    /** Keeps a batch that was never spooled in `corrupt/`, under the next name in sequence;
        None if it could not be stored. */
    method QuarantineRecords(records: seq<Record>) returns (name: Option<Name>)
      requires Valid()
      modifies this`corrupt, this`seqNo, this`lastStamp
      ensures Valid() && old(seqNo) <= seqNo && old(lastStamp) <= lastStamp
      ensures if name.None? then corrupt == old(corrupt)
              else old(seqNo) < name.value.number <= seqNo && old(lastStamp) <= name.value.stamp <= lastStamp
                   && corrupt == old(corrupt) + [File(name.value, records, bytes(records))]
    {
      assert Opens(Filing, Filing);
      var encodable: bool := *;
      if !encodable {
        return None;
      }
      var before, earlier := seqNo, lastStamp;
      seqNo := seqNo + 1;
      var clock: int := *;
      var stamp := Later(clock);
      FiledLater(files, before, earlier, seqNo, lastStamp);
      FiledLater(corrupt, before, earlier, seqNo, lastStamp);
      var written: bool := *;
      if !written {
        return None;
      }
      var f := File(Name(stamp, seqNo, AllLive(records)), records, bytes(records));
      FiledMore(corrupt, f, seqNo, lastStamp);
      corrupt := corrupt + [f];
      return Some(f.name);
    }

    /** The records of a stored batch.  None if it cannot be read: then it is moved to
        `corrupt/`, or marked stuck, and reported once. */
    method Read(f: File) returns (batch: Option<seq<Record>>)
      requires Valid() && f in files
      modifies this`files, this`corrupt, this`stuck, this`quarantined
      ensures Valid()
      ensures batch.Some? ==> batch.value == f.records && f.name !in stuck
                              && files == old(files) && corrupt == old(corrupt) && stuck == old(stuck)
                                  && quarantined == old(quarantined)
      ensures batch.None? && f.name in old(stuck) ==>
                files == old(files) && corrupt == old(corrupt) && stuck == old(stuck) && quarantined == old(quarantined)
      ensures batch.None? && f.name !in old(stuck) ==>
                quarantined == old(quarantined) + [f.name] &&
                ((files == Without(old(files), {f.name}) && f !in files && corrupt == old(corrupt) + [f]
                    && stuck == old(stuck))
                 || (files == old(files) && corrupt == old(corrupt) && stuck == old(stuck) + {f.name}))
    {
      if f.name in stuck {
        return None;
      }
      var readable: bool := *;
      if readable {
        return Some(f.records);
      }
      var moved := Quarantine(f);
      if !moved {
        stuck := stuck + {f.name};
      }
      quarantined := quarantined + [f.name];
      return None;
    }

    /** Deletes a batch, if the system lets it. */
    method Remove(f: File)
      requires Valid()
      modifies this`files
      ensures Valid()
      ensures (files == Without(old(files), {f.name}) && f !in files) || files == old(files)
    {
      assert Opens(Filing, Filing);
      var deleted: bool := *;
      if deleted {
        FiledWithout(files, {f.name}, seqNo, lastStamp);
        NotWithout(files, f);
        files := Without(files, {f.name});
      }
    }

    method TakeQuarantined() returns (taken: seq<Name>)
      requires Valid()
      modifies this`quarantined
      ensures Valid() && taken == old(quarantined) && quarantined == []
    {
      taken, quarantined := quarantined, [];
    }

    /** The wall clock's reading, which does not step back. */
    method Later(clock: int) returns (stamp: int)
      modifies this`lastStamp
      ensures stamp == lastStamp && old(lastStamp) <= lastStamp
    {
      stamp := if clock < lastStamp then lastStamp else clock;
      lastStamp := stamp;
    }
  }
}
