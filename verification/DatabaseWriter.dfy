/**
  The imperative writer: planning loop, transaction, and the ways a call can end
  (node_monitor/database/writer.py:242-403).
 */
module DatabaseWriter {
  import opened Upsert
  import opened Codec
  import opened Records
  import opened Writer
  import opened WriterTheorems
  import Partitions

  /** How a `write` ends: it returns, raises DatabaseUnavailable, or raises anything else. */
  datatype Outcome = Written(beyond: multiset<Table>) | Unavailable | Rejected

  /** A call of `write` or `ping` and how it ended. */
  datatype Call = Writing(records: seq<Record>, now: int, outcome: Outcome) | Pinging(answered: bool)

  /** What the server does with a well-formed batch. An acknowledgement can be lost after
      the commit has happened. */
  datatype Server = Commits | LosesConnection | LosesAcknowledgement | Refuses

  /** The partition a time-series row lives in. */
  function PartitionOf(k: Key): Option<(Table, Partitions.Month)> {
    match k
    case SummaryKey(t, _, _, _, at) => Some((t, Partitions.MonthOf(at)))
    case EventKey(_, _, at, _) => Some((Events, Partitions.MonthOf(at)))
    case _ => None
  }

  ghost predicate Housed(db: Db, partitions: set<(Table, Partitions.Month)>) {
    forall k :: k in db.rows && PartitionOf(k).Some? ==> PartitionOf(k).value in partitions
  }

  lemma {:induction false} RecordHoused(cfg: Config, r: Record, i: nat)
    requires i < |StatementsOf(cfg, r)|
    ensures var p := PartitionOf(StatementsOf(cfg, r)[i].key);
            if TableOf(r.kind).Some? then p == Some((TableOf(r.kind).value, Month(r))) else p.None?
  {
    if TableOf(r.kind).None? {
      RecordItem(cfg, r);
      Unhoused(r.kind, ItemOf(cfg, r).ss[i]);
    } else if r.kind == CollectionEvent {
      assert StatementsOf(cfg, r) == [EventStmt(r.row)];
    } else {
      assert StatementsOf(cfg, r) == [SummaryStmt(cfg, TableOf(r.kind).value, r.row)];
      SummaryHoused(cfg, TableOf(r.kind).value, r.row);
    }
  }

  lemma {:induction false} Unhoused(kind: Kind, s: Statement)
    requires IsOwn(kind, s) && TableOf(kind).None?
    ensures PartitionOf(s.key).None?
  {
  }

  lemma {:induction false} SummaryHoused(cfg: Config, t: Table, row: Row)
    ensures PartitionOf(SummaryStmt(cfg, t, row).key)
            == Some((t, Partitions.MonthOf(Micros(At(row, PartitionColumn(t))))))
  {
  }

  lemma {:induction false} MonthsCover(cfg: Config, rs: seq<Record>, now: int, k: Key)
    requires PartitionOf(k).Some? && For(Flat(Items(cfg, Kept(cfg, rs, now))), k) != []
    ensures PartitionOf(k).value in PlanOf(cfg, rs, now).months
  {
    if rs != [] {
      var n := |rs| - 1;
      var r, kept := rs[n], Kept(cfg, rs[..n], now);
      MonthsGrow(cfg, PlanOf(cfg, rs[..n], now), r, now);
      if Expired(cfg, r, now) {
        assert Kept(cfg, rs, now) == kept;
        MonthsCover(cfg, rs[..n], now, k);
      } else {
        FlatItems(cfg, kept, r, k);
        if For(Flat(Items(cfg, kept)), k) != [] {
          MonthsCover(cfg, rs[..n], now, k);
        } else if forall i :: 0 <= i < |StatementsOf(cfg, r)| ==> StatementsOf(cfg, r)[i].key != k {
          ForNone(StatementsOf(cfg, r), k);
          assert false;
        } else {
          var i :| 0 <= i < |StatementsOf(cfg, r)| && StatementsOf(cfg, r)[i].key == k;
          RecordHoused(cfg, r, i);
        }
      }
    }
  }

  lemma {:induction false} MonthsGrow(cfg: Config, p: Plan, r: Record, now: int)
    ensures var q := PlanRecord(cfg, p, r, now);
            p.months.Keys <= q.months.Keys
            && (TableOf(r.kind).Some? && !Expired(cfg, r, now) ==> (TableOf(r.kind).value, Month(r)) in q.months)
  {
    RecordItem(cfg, r);
    var n := NeedMonth(p, r);
    PlaceFrame(n, n, ItemOf(cfg, r));
  }

  /** The partitions a plan asks for are enough for every row its commit leaves. */
  lemma {:induction false} CommitHoused(cfg: Config, db: Db, rs: seq<Record>, now: int,
        partitions: set<(Table, Partitions.Month)>)
    requires Housed(db, partitions) && PlanOf(cfg, rs, now).months.Keys <= partitions
    ensures Housed(Commit(cfg, db, rs, now), partitions)
  {
    var after := Commit(cfg, db, rs, now);
    forall k | k in after.rows && PartitionOf(k).Some? ensures PartitionOf(k).value in partitions {
      ItemsAt(cfg, db, rs, now, k);
      Regroup(Get(db.rows, k), Items(cfg, Kept(cfg, rs, now)), k);
      if For(Flat(Items(cfg, Kept(cfg, rs, now))), k) != [] {
        MonthsCover(cfg, rs, now, k);
      } else {
        assert Get(after.rows, k) == Get(db.rows, k);
      }
    }
  }

  class Database {
    const cfg: Config
    var db: Db
    var partitions: set<(Table, Partitions.Month)>
    /** Every call and how it ended. */
    ghost var log: seq<Call>

    ghost predicate Valid()
      reads this
    {
      Housed(db, partitions)
    }

    constructor (cfg: Config)
      ensures Valid() && this.cfg == cfg && db == Db(map[], map[]) && log == []
    {
      this.cfg := cfg;
      db, partitions, log := Db(map[], map[]), {}, [];
    }

    /** None for a malformed batch, before the database is touched. */
    method MakePlan(records: seq<Record>, now: int) returns (plan: Option<Plan>)
      ensures plan == if IsPlannable(cfg, records, now) then Some(PlanOf(cfg, records, now)) else None
    {
      var p := EMPTY_PLAN;
      for i := 0 to |records|
        invariant IsPlannable(cfg, records[..i], now)
        invariant p == PlanOf(cfg, records[..i], now)
      {
        if !Accepts(cfg, records[i], now) {
          return None;
        }
        PlanSnoc(cfg, records, i, now);
        p := PlanRecord(cfg, p, records[i], now);
      }
      assert records[..|records|] == records;
      return Some(p);
    }

    method Execute(s: Statement)
      modifies this`db
      ensures db == Exec(old(db), s)
    {
      var rows := db.rows[s.key := Step(Get(db.rows, s.key), s.write).value];
      var first := db.firstSeen;
      if s.key.NodeKey? && s.write.rank.Some? {
        var seen := s.write.rank.value;
        first := first[s.key := if s.key in first && first[s.key] <= seen then first[s.key] else seen];
      }
      db := Db(rows, first);
    }

    method ExecuteMany(ss: seq<Statement>)
      modifies this`db
      ensures db == RunDb(old(db), ss)
    {
      for i := 0 to |ss|
        invariant db == RunDb(old(db), ss[..i])
      {
        assert ss[..i + 1][..i] == ss[..i];
        Execute(ss[i]);
      }
      assert ss[..|ss|] == ss;
    }

    method ExecuteSnapshots(snaps: map<Key, RowWrite>)
      requires forall k :: k in snaps ==> k.SnapshotKey?
      modifies this`db
      ensures db == old(db).(rows := PutSnapshots(old(db).rows, snaps))
    {
      var todo := snaps.Keys;
      while todo != {}
        invariant todo <= snaps.Keys && db.firstSeen == old(db).firstSeen
        invariant forall k :: Get(db.rows, k) == if k in snaps && k !in todo
                                                 then Step(Get(old(db).rows, k), snaps[k]) else Get(old(db).rows, k)
        decreases todo
      {
        var k :| k in todo;
        ghost var before := db.rows;
        Execute(Stmt(k, snaps[k]));
        assert db.rows == before[k := Step(Get(before, k), snaps[k]).value];
        todo := todo - {k};
      }
      SameRows(db.rows, PutSnapshots(old(db).rows, snaps));
    }

    /** One transaction: partitioned tables first, snapshots last. */
    method Apply(plan: Plan)
      requires forall k :: k in plan.snapshots ==> k.SnapshotKey?
      modifies this`db
      ensures db == ApplyPlan(old(db), plan)
    {
      ghost var start := db;
      ExecuteMany(Summaries(plan, Metrics));
      ExecuteMany(Summaries(plan, UserUsage5m));
      ExecuteMany(Summaries(plan, NodeUsage5m));
      ExecuteMany(plan.events);
      ExecuteMany(plan.hardware);
      ExecuteMany(plan.liveNodes);
      BeforeInParts(start, plan);
      ExecuteSnapshots(plan.snapshots);
    }

    method CreatePartitions(plan: Plan)
      modifies this`partitions
      ensures partitions == old(partitions) + plan.months.Keys
    {
      partitions := partitions + plan.months.Keys;
    }

    /** Writes a batch in one transaction.  It is wholly applied or not at all, a returned
        result or a lost acknowledgement means it is applied, and a malformed batch is
        rejected whatever the server would have done. */
    method Write(records: seq<Record>, now: int) returns (outcome: Outcome, ghost committed: bool)
      requires Valid()
      modifies this
      ensures Valid() && old(partitions) <= partitions
      ensures log == old(log) + [Writing(records, now, outcome)]
      ensures db == if committed then Commit(cfg, old(db), records, now) else old(db)
      ensures committed ==> IsPlannable(cfg, records, now)
      ensures outcome.Written? ==> committed && outcome.beyond == Beyond(cfg, records, now)
      ensures outcome.Rejected? ==> !committed
      ensures !IsPlannable(cfg, records, now) ==> outcome.Rejected?
    {
      committed := false;
      var plan := MakePlan(records, now);
      if plan.None? {
        log := log + [Writing(records, now, Rejected)];
        return Rejected, false;
      }
      var server: Server := *;
      if server == LosesConnection {
        log := log + [Writing(records, now, Unavailable)];
        return Unavailable, false;
      }
      if server == Refuses {
        log := log + [Writing(records, now, Rejected)];
        return Rejected, false;
      }
      if !(plan.value.months.Keys <= partitions) {
        CreatePartitions(plan.value);
      }
      PlanSnapshotKeys(cfg, records, now);
      CommitHoused(cfg, db, records, now, partitions);
      Apply(plan.value);
      committed := true;
      PlanBeyond(cfg, records, now);
      outcome := if server == LosesAcknowledgement then Unavailable else Written(plan.value.beyond);
      log := log + [Writing(records, now, outcome)];
    }

    /** True if the server answers a trivial query. */
    method Ping() returns (answered: bool)
      modifies this`log
      ensures log == old(log) + [Pinging(answered)]
    {
      answered := *;
      log := log + [Pinging(answered)];
    }
  }

  lemma {:induction false} PlanSnoc(cfg: Config, rs: seq<Record>, i: nat, now: int)
    requires i < |rs|
    ensures PlanOf(cfg, rs[..i + 1], now) == PlanRecord(cfg, PlanOf(cfg, rs[..i], now), rs[i], now)
    ensures IsPlannable(cfg, rs[..i + 1], now) <==> IsPlannable(cfg, rs[..i], now) && Accepts(cfg, rs[i], now)
  {
    assert rs[..i + 1][..i] == rs[..i];
    assert rs[..i + 1] == rs[..i] + [rs[i]];
  }

  lemma {:induction false} BeforeInParts(db: Db, p: Plan)
    ensures RunDb(db, Before(p)) ==
            RunDb(RunDb(RunDb(RunDb(RunDb(RunDb(db, Summaries(p, Metrics)), Summaries(p, UserUsage5m)),
                Summaries(p, NodeUsage5m)),
                                    p.events), p.hardware), p.liveNodes)
  {
    var a, b, c := Summaries(p, Metrics), Summaries(p, UserUsage5m), Summaries(p, NodeUsage5m);
    RunDbAppend(db, a, b);
    RunDbAppend(db, a + b, c);
    RunDbAppend(db, a + b + c, p.events);
    RunDbAppend(db, a + b + c + p.events, p.hardware);
    RunDbAppend(db, a + b + c + p.events + p.hardware, p.liveNodes);
  }

  lemma {:induction false} RunDbAppend(db: Db, ss: seq<Statement>, rs: seq<Statement>)
    ensures RunDb(db, ss + rs) == RunDb(RunDb(db, ss), rs)
  {
    RunAppend(db.rows, ss, rs);
    SeenAppend(db.firstSeen, ss, rs);
  }

  lemma {:induction false} SeenAppend(m: map<Key, int>, ss: seq<Statement>, rs: seq<Statement>)
    ensures Seen(m, ss + rs) == Seen(Seen(m, ss), rs)
  {
    if rs == [] {
      assert ss + rs == ss;
    } else {
      assert (ss + rs)[..|ss + rs| - 1] == ss + rs[..|rs| - 1];
      SeenAppend(m, ss, rs[..|rs| - 1]);
    }
  }

  lemma {:induction false} PlanSnapshotKeys(cfg: Config, rs: seq<Record>, now: int)
    ensures forall k :: k in PlanOf(cfg, rs, now).snapshots ==> k.SnapshotKey?
  {
    PlanOfItems(cfg, rs, now);
    forall k | k in PlanOf(cfg, rs, now).snapshots ensures k.SnapshotKey? {
      SnapshotAt(Items(cfg, Kept(cfg, rs, now)), k);
    }
  }

  /** The plan counts exactly the rows retention takes. */
  lemma {:induction false} PlanBeyond(cfg: Config, rs: seq<Record>, now: int)
    ensures PlanOf(cfg, rs, now).beyond == Beyond(cfg, rs, now)
  {
    if rs != [] {
      var n := |rs| - 1;
      PlanBeyond(cfg, rs[..n], now);
      RecordItem(cfg, rs[n]);
      var q := NeedMonth(PlanOf(cfg, rs[..n], now), rs[n]);
      PlaceFrame(q, q, ItemOf(cfg, rs[n]));
    }
  }
}
