/**
  The row algebra behind every statement of the database writer.

  PostgreSQL applies `INSERT ... ON CONFLICT (key) DO UPDATE SET ... WHERE guard` to one
  primary key at a time, so a table is a map from primary key to row and a statement is a
  `Write`.  A row carries the column its guard compares (its rank: sample_count, updated_at,
  last_seen or a snapshot's ts; none when the statement is DO NOTHING or the column is NULL).
 */
module Upsert {

  datatype Option<+T> = None | Some(value: T)

  datatype Cell<K, V> = Cell(rank: Option<int>, cols: map<K, V>)

  /** One statement: the row it inserts, the columns it sets on conflict, and whether the
      other columns of a stored row survive (`keep`) or the row is replaced wholesale. */
  datatype Write<K, V> = Write(rank: Option<int>, insert: map<K, V>, update: map<K, V>, keep: bool)

  /** SQL's `stored <= incoming`, where a comparison with NULL is not true. */
  predicate Passes(stored: Option<int>, incoming: Option<int>) {
    stored.Some? && incoming.Some? && stored.value <= incoming.value
  }

  function Step<K, V>(c: Option<Cell<K, V>>, w: Write<K, V>): Option<Cell<K, V>> {
    match c
    case None => Some(Cell(w.rank, w.insert))
    case Some(s) =>
      if Passes(s.rank, w.rank)
      then Some(Cell(w.rank, (if w.keep then s.cols else map[]) + w.update))
      else c
  }

  /** A key's row after the statements `ws`, in order. */
  function Fold<K, V>(c: Option<Cell<K, V>>, ws: seq<Write<K, V>>): Option<Cell<K, V>> {
    if ws == [] then c else Step(Fold(c, ws[..|ws| - 1]), ws[|ws| - 1])
  }

  /** The inserted row already holds what the update would set. */
  ghost predicate Proper<K, V>(w: Write<K, V>) {
    if w.keep then w.insert + w.update == w.insert else w.insert == w.update
  }

  ghost predicate AllProper<K, V>(ws: seq<Write<K, V>>) {
    forall i :: 0 <= i < |ws| ==> Proper(ws[i])
  }

  lemma {:induction false} FoldAppend<K, V>(c: Option<Cell<K, V>>, vs: seq<Write<K, V>>, ws: seq<Write<K, V>>)
    ensures Fold(c, vs + ws) == Fold(Fold(c, vs), ws)
  {
    if ws == [] {
      assert vs + ws == vs;
    } else {
      var n := |ws| - 1;
      assert (vs + ws)[..|vs + ws| - 1] == vs + ws[..n];
      FoldAppend(c, vs, ws[..n]);
    }
  }

  /** No statement outranks the row it left behind. */
  lemma {:induction false} FoldRanksHighest<K, V>(c: Option<Cell<K, V>>, ws: seq<Write<K, V>>, i: nat)
    requires i < |ws|
    ensures var y := Fold(c, ws);
            y.Some? && (y.value.rank.Some? && ws[i].rank.Some? ==> ws[i].rank.value <= y.value.rank.value)
    decreases |ws|
  {
    var n := |ws| - 1;
    if i < n {
      FoldRanksHighest(c, ws[..n], i);
    }
  }

  lemma {:induction false} FoldOutranked<K, V>(z: Cell<K, V>, ws: seq<Write<K, V>>)
    requires forall i :: 0 <= i < |ws| ==> !Passes(z.rank, ws[i].rank)
    ensures Fold(Some(z), ws) == Some(z)
  {
    if ws != [] {
      FoldOutranked(z, ws[..|ws| - 1]);
    }
  }

  /** Two rows of equal rank that agree once `u` is laid over them keep agreeing under any
      statements that do not outrank them. */
  lemma {:induction false} FoldAgrees<K, V>(a: Cell<K, V>, b: Cell<K, V>, u: map<K, V>, ws: seq<Write<K, V>>)
    requires a.rank == b.rank && a.cols + u == b.cols + u
    requires forall i :: 0 <= i < |ws| && Passes(a.rank, ws[i].rank) ==> ws[i].rank == a.rank
    ensures var x, y := Fold(Some(a), ws), Fold(Some(b), ws);
            x.Some? && y.Some? && x.value.rank == y.value.rank == a.rank
            && x.value.cols + u == y.value.cols + u
  {
    if ws != [] {
      var n := |ws| - 1;
      FoldAgrees(a, b, u, ws[..n]);
      var x, y := Fold(Some(a), ws[..n]).value, Fold(Some(b), ws[..n]).value;
      var v := ws[n];
      if Passes(x.rank, v.rank) && v.keep {
        assert (x.cols + v.update) + u == (y.cols + v.update) + u by {
          assert forall k :: k in x.cols && k !in u ==> k in x.cols + u;
          assert forall k :: k in y.cols && k !in u ==> k in y.cols + u;
          assert forall k :: k in x.cols && k !in u ==> (x.cols + u)[k] == x.cols[k];
          assert forall k :: k in y.cols && k !in u ==> (y.cols + u)[k] == y.cols[k];
        }
      }
    }
  }

  /** Applying the same statements to a key a second time changes nothing, even though some
      of them, replayed, briefly overwrite what a later one of equal rank had set. */
  lemma {:induction false} FoldIdempotent<K, V>(c: Option<Cell<K, V>>, ws: seq<Write<K, V>>)
    requires AllProper(ws)
    ensures Fold(Fold(c, ws), ws) == Fold(c, ws)
  {
    if ws != [] {
      var n := |ws| - 1;
      var vs, w := ws[..n], ws[n];
      FoldIdempotent(c, vs);
      var y := Fold(c, vs);
      if y.None? {
        assert vs == [] by { if vs != [] { FoldRanksHighest(c, vs, 0); } }
        StepTwice(c, w);
        assert Fold(Some(Cell(w.rank, w.insert)), vs) == Some(Cell(w.rank, w.insert));
      } else if Passes(y.value.rank, w.rank) {
        FoldAbsorbs(c, vs, w);
      }
    }
  }

  lemma {:induction false} StepTwice<K, V>(c: Option<Cell<K, V>>, w: Write<K, V>)
    requires Proper(w)
    ensures Step(Step(c, w), w) == Step(c, w)
  {
    assert map[] + w.update == w.update;
    if c.Some? && w.keep {
      assert (c.value.cols + w.update) + w.update == c.value.cols + w.update;
    }
  }

  lemma {:induction false} FoldAbsorbs<K, V>(c: Option<Cell<K, V>>, vs: seq<Write<K, V>>, w: Write<K, V>)
    requires AllProper(vs) && Proper(w)
    requires var y := Fold(c, vs); y.Some? && Passes(y.value.rank, w.rank) && Fold(y, vs) == y
    ensures var z := Step(Fold(c, vs), w); Step(Fold(z, vs), w) == z
  {
    var y := Fold(c, vs).value;
    var z := Step(Some(y), w).value;
    forall i | 0 <= i < |vs|
      ensures Passes(z.rank, vs[i].rank) ==> vs[i].rank == z.rank == y.rank
    {
      FoldRanksHighest(c, vs, i);
    }
    if y.rank == z.rank {
      if w.keep {
        assert z.cols + w.update == y.cols + w.update;
        FoldAgrees(z, y, w.update, vs);
      } else {
        FoldAgrees(z, z, map[], vs);
      }
    } else {
      FoldOutranked(z, vs);
      StepTwice(Some(y), w);
    }
  }

  // --- tables -------------------------------------------------------------------------

  function Get<Key, R>(t: map<Key, R>, k: Key): Option<R> {
    if k in t then Some(t[k]) else None
  }

  datatype Stmt<Key, K, V> = Stmt(key: Key, write: Write<K, V>)

  /** A database after the statements `ss`, in order. */
  function Run<Key, K, V>(t: map<Key, Cell<K, V>>, ss: seq<Stmt<Key, K, V>>): map<Key, Cell<K, V>> {
    if ss == [] then t
    else
      var s := ss[|ss| - 1];
      var u := Run(t, ss[..|ss| - 1]);
      u[s.key := Step(Get(u, s.key), s.write).value]
  }

  /** The statements of `ss` that concern `k`. */
  function For<Key(==), K, V>(ss: seq<Stmt<Key, K, V>>, k: Key): seq<Write<K, V>> {
    if ss == [] then []
    else For(ss[..|ss| - 1], k) + (if ss[|ss| - 1].key == k then [ss[|ss| - 1].write] else [])
  }

  /** Primary keys do not interact: a key's row depends on that key's statements only. */
  lemma {:induction false} RunAt<Key, K, V>(t: map<Key, Cell<K, V>>, ss: seq<Stmt<Key, K, V>>, k: Key)
    ensures Get(Run(t, ss), k) == Fold(Get(t, k), For(ss, k))
  {
    if ss != [] {
      var n := |ss| - 1;
      RunAt(t, ss[..n], k);
      if ss[n].key == k {
        var ws := For(ss, k);
        assert ws[..|ws| - 1] == For(ss[..n], k);
      } else {
        assert For(ss, k) == For(ss[..n], k);
      }
    }
  }

  lemma {:induction false} RunAppend<Key, K, V>(t: map<Key, Cell<K, V>>, ss: seq<Stmt<Key, K, V>>,
        rs: seq<Stmt<Key, K, V>>)
    ensures Run(t, ss + rs) == Run(Run(t, ss), rs)
  {
    if rs == [] {
      assert ss + rs == ss;
    } else {
      var n := |rs| - 1;
      assert (ss + rs)[..|ss + rs| - 1] == ss + rs[..n];
      RunAppend(t, ss, rs[..n]);
    }
  }

  lemma {:induction false} ForAppend<Key, K, V>(ss: seq<Stmt<Key, K, V>>, rs: seq<Stmt<Key, K, V>>, k: Key)
    ensures For(ss + rs, k) == For(ss, k) + For(rs, k)
  {
    if rs == [] {
      assert ss + rs == ss;
    } else {
      var n := |rs| - 1;
      assert (ss + rs)[..|ss + rs| - 1] == ss + rs[..n];
      ForAppend(ss, rs[..n], k);
    }
  }

  lemma {:induction false} ForProper<Key, K, V>(ss: seq<Stmt<Key, K, V>>, k: Key)
    requires forall i :: 0 <= i < |ss| ==> Proper(ss[i].write)
    ensures AllProper(For(ss, k))
  {
    if ss != [] {
      ForProper(ss[..|ss| - 1], k);
    }
  }

  lemma {:induction false} SameRows<Key, R>(t: map<Key, R>, u: map<Key, R>)
    requires forall k :: Get(t, k) == Get(u, k)
    ensures t == u
  {
    forall k | k in t || k in u ensures k in t && k in u && t[k] == u[k] {
      assert Get(t, k) == Get(u, k);
    }
  }
}
