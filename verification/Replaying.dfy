/**
  What a replay leaves in the live tables (node_monitor/database/buffered.py): the commits that
  `BufferedWriter.ReplayAll` makes are those of the files it sent, so the theorems about dropping
  superseded files are about it.
 */
module Replaying {
  import opened Upsert
  import opened Records
  import opened Writer
  import opened WriterTheorems
  import opened Spooling
  import opened Delivery
  import opened Sealing
  import opened BufferedSteps
  import opened BufferedState
  import opened Buffered
  import opened Coalescing
  import opened Superseding

  ghost predicate AllHeld(batches: seq<seq<Record>>, origin: map<Name, nat>, files: seq<File>) {
    forall f :: f in files ==> Holds(batches, origin, f)
  }

  /** One more commit is one more file sent. */
  ghost predicate Follows(tables: seq<Committed> -> Db, send: (Db, File) -> Db, origin: map<Name, nat>, now: int,
        f: File) {
    f.name in origin && forall cs :: tables(cs + [Committed(origin[f.name], now)]) == send(tables(cs), f)
  }

  /** Replaying the commits of files is committing what the files hold. */
  lemma {:induction false} CommitsSend(tables: seq<Committed> -> Db, send: (Db, File) -> Db, commits: seq<Committed>,
        files: seq<File>, origin: map<Name, nat>, now: int)
    requires forall f :: f in files ==> Follows(tables, send, origin, now, f)
    ensures tables(commits + CommitsOf(files, origin, now)) == After(send, tables(commits), files)
  {
    if files == [] {
      assert commits + [] == commits;
    } else {
      var init, f := files[..|files| - 1], files[|files| - 1];
      CommitsSend(tables, send, commits, init, origin, now);
      assert Follows(tables, send, origin, now, f);
      var last := [Committed(origin[f.name], now)];
      assert commits + CommitsOf(files, origin, now) == (commits + CommitsOf(init, origin, now)) + last;
    }
  }

  lemma {:induction false} ReplayFollows(cfg: Config, start: Db, batches: seq<seq<Record>>, origin: map<Name, nat>,
        now: int, f: File)
    requires Holds(batches, origin, f)
    ensures Follows(cs => Replay(cfg, start, batches, cs), Sends(cfg, now), origin, now, f)
  {
    var c := Committed(origin[f.name], now);
    forall cs: seq<Committed>
      ensures Replay(cfg, start, batches, cs + [c]) == Sends(cfg, now)(Replay(cfg, start, batches, cs), f)
    {
      assert (cs + [c])[..|cs|] == cs;
    }
  }

  lemma {:induction false} ReplaySends(cfg: Config, start: Db, batches: seq<seq<Record>>, commits: seq<Committed>,
        files: seq<File>, origin: map<Name, nat>, now: int)
    requires AllHeld(batches, origin, files)
    ensures Replay(cfg, start, batches, commits + CommitsOf(files, origin, now))
            == After(Sends(cfg, now), Replay(cfg, start, batches, commits), files)
  {
    forall f | f in files ensures Follows(cs => Replay(cfg, start, batches, cs), Sends(cfg, now), origin, now, f) {
      ReplayFollows(cfg, start, batches, origin, now, f);
    }
    CommitsSend(cs => Replay(cfg, start, batches, cs), Sends(cfg, now), commits, files, origin, now);
  }

  lemma {:induction false} SentHeld(p: Params, h: History, h': History, w: World, gone: set<Name>, now: int,
        sent: seq<File>)
    requires BooksKept(p, h, w)
    requires var list := Without(w.files, gone); Traced(h, h', list, |list|, now, sent)
    ensures var list := Without(w.files, gone);
            Sorted(sent) && (forall f :: f in sent ==> f in list && f.name !in SupersededOf(list))
    ensures AllHeld(h.batches, h.origin, sent) && h'.commits == h.commits + CommitsOf(sent, h.origin, now)
  {
    assert Opens(Tracing, Tracing) && Opens(Whole, Whole) && Opens(Holding, Holding) && Opens(Listing, Listing);
    WithoutIs(w.files, gone);
  }

  lemma {:induction false} BooksTables(p: Params, cfg: Config, start: Db, h: History, w: World)
    requires Means(p, cfg, start) && BooksKept(p, h, w)
    ensures w.db == Replay(cfg, start, h.batches, h.commits)
  {
    assert Opens(Meaning, Meaning) && Opens(Whole, Whole);
  }

  /** The tables after a replay, and the files it sent. */
  lemma {:induction false} ReplayTrace(p: Params, cfg: Config, start: Db, g: Books, g': Books, gone: set<Name>,
        now: int, sent: seq<File>)
    requires Means(p, cfg, start) && BooksKept(p, g.h, g.w) && BooksKept(p, g'.h, g'.w) && g'.h.batches == g.h.batches
    requires var list := Without(g.w.files, gone); Traced(g.h, g'.h, list, |list|, now, sent)
    requires AllTaken(cfg, sent, now)
    ensures g'.w.db == After(Sends(cfg, now), g.w.db, sent)
    ensures IsSent(cfg, Without(g.w.files, gone), sent, now)
  {
    SentHeld(p, g.h, g'.h, g.w, gone, now, sent);
    BooksTables(p, cfg, start, g.h, g.w);
    BooksTables(p, cfg, start, g'.h, g'.w);
    ReplaySends(cfg, start, g.h.batches, g.h.commits, sent, g.h.origin, now);
  }

  /** The newest live-only file of the list was read and committed and covers the older ones at
      the key, or none of them says anything to it. */
  ghost predicate NewestStands(cfg: Config, list: seq<File>, sent: seq<File>, now: int, k: Writer.Key) {
    var older, newest := OlderSay(FileSaying(cfg, now, k), list), NewestSays(FileSaying(cfg, now, k), list);
    |newest| <= 1 && if NewestIsSent(list, sent) then CoveredBy(older, newest) else older == [] && newest == []
  }

  /**
    A replay of a spool, whatever the server, the disk and the clock do: every live row for which
    the newest live-only file stands is left as replaying every waiting file would have left it,
    although the older live-only files were dropped unwritten.
   */
  method ReplayLeavesLive(b: BufferedWriter, now: int, ghost id: nat) returns (end: Replayed, ghost sent: seq<File>)
    requires b.Ready() && b.Logged() && b.state.carried == [] && now == b.g.now && Unsettled(b.g.h, id)
    modifies b`state, b`g, b`ticks, b.spool`files, b.spool`corrupt, b.spool`stuck, b.spool`quarantined, b.db
    ensures b.Ready() && b.Logged() && Progress(b.p, old(b.g), b.g, id)
    ensures var list := Without(old(b.spool.files), old(b.state.skip));
            && IsSent(b.db.cfg, list, sent, now) && b.db.db == After(Sends(b.db.cfg, now), old(b.db.db), sent)
            && forall k :: Apart(list) && IsLiveKey(k) && NewestStands(b.db.cfg, list, sent, now, k) ==>
                 Get(b.db.db.rows, k) == Get(ReplayFiles(b.db.cfg, old(b.db.db), list, now).rows, k)
  {
    ghost var list := Without(b.spool.files, b.state.skip);
    ghost var before := b.g;
    ScanStarts(b.g.w) by { assert Opens(Filing, Filing); }
    end, sent := b.ReplayAll(now, id);
    ReplayTrace(b.p, b.db.cfg, b.start, before, b.g, old(b.state.skip), now, sent);
    LiveLeft(b.db.cfg, old(b.db.db), b.db.db, list, sent, now);
  }

  lemma {:induction false} LiveLeft(cfg: Config, db: Db, db': Db, list: seq<File>, sent: seq<File>, now: int)
    requires Sorted(list) && IsSent(cfg, list, sent, now) && db' == After(Sends(cfg, now), db, sent)
    ensures forall k :: Apart(list) && IsLiveKey(k) && NewestStands(cfg, list, sent, now, k) ==>
              Get(db'.rows, k) == Get(ReplayFiles(cfg, db, list, now).rows, k)
  {
    forall k | Apart(list) && IsLiveKey(k) && NewestStands(cfg, list, sent, now, k)
      ensures Get(db'.rows, k) == Get(ReplayFiles(cfg, db, list, now).rows, k)
    {
      ReplaySafeExactly(cfg, list, sent, now, k);
      assert ReplayIsSafe(cfg, db, list, sent, now, k);
    }
  }
}
