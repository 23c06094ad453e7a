// The two-tier store: five hot tables, their archive twins, and the
// transactions that move or delete whole runs.
module Tables {
  import opened Instants
  import opened Options
  import opened Runs
  import opened Uuid

  // A row id as the fields it encodes; Uuid.TextOrder and Uuid.DecodeText show
  // that comparing and storing ids as text is the same thing.
  type Id = Stamp

  datatype Phase = Initial | Confirm | Recovery
  datatype Kind = Ip | Domain | Gateway

  // A child row. `ts` is the instant it was stamped with; the ts column keeps
  // WholeSeconds(ts).
  datatype Child<+T> = Child(run: Id, ts: Instant, body: T)

  datatype CheckBody = CheckBody(phase: Phase, target: string, kind: Kind, ok: bool, latencyMs: Option<int>, error: Option<string>)
  datatype MetricBody = MetricBody(collector: string, name: string, value: Option<real>, unit: string, ok: bool, error: Option<string>)
  datatype HostBody = HostBody(hostname: string, os: string, arch: string)
  datatype PingBody = PingBody(host: string, sent: int, received: int, avgMs: Option<real>, error: Option<string>)

  datatype Tier = Tier(
    runs: map<Id, Run>,
    checks: map<Id, Child<CheckBody>>,
    metrics: map<Id, Child<MetricBody>>,
    hosts: map<Id, Child<HostBody>>,
    pings: map<Id, Child<PingBody>>)

  const EMPTY := Tier(map[], map[], map[], map[], map[])

  datatype Db = Db(hot: Tier, cold: Tier)

  // ---------- selecting by run ----------

  // SELECT id FROM runs WHERE started_at < cutoff
  function Aged(runs: map<Id, Run>, cutoff: int): (ids: set<Id>)
    ensures ids <= runs.Keys
  {
    set id | id in runs && runs[id].startedAt < cutoff
  }

  // SELECT ... WHERE run_id IN (runs)
  function OfRuns<T>(rows: map<Id, Child<T>>, runs: set<Id>): map<Id, Child<T>> {
    map id | id in rows && rows[id].run in runs :: rows[id]
  }

  function Others<T>(rows: map<Id, Child<T>>, runs: set<Id>): map<Id, Child<T>> {
    map id | id in rows && rows[id].run !in runs :: rows[id]
  }

  function Picked<T>(rows: map<Id, T>, ids: set<Id>): map<Id, T> {
    map id | id in rows && id in ids :: rows[id]
  }

  function Only(t: Tier, ids: set<Id>): Tier {
    Tier(Picked(t.runs, ids), OfRuns(t.checks, ids), OfRuns(t.metrics, ids), OfRuns(t.hosts, ids), OfRuns(t.pings, ids))
  }

  function Without(t: Tier, ids: set<Id>): Tier {
    Tier(t.runs - ids, Others(t.checks, ids), Others(t.metrics, ids), Others(t.hosts, ids), Others(t.pings, ids))
  }

  function Merge(a: Tier, b: Tier): Tier {
    Tier(a.runs + b.runs, a.checks + b.checks, a.metrics + b.metrics, a.hosts + b.hosts, a.pings + b.pings)
  }

  // ---------- the run boundary ----------

  predicate ChildrenOf<T>(rows: map<Id, Child<T>>, runs: map<Id, Run>) {
    forall id :: id in rows ==> rows[id].run in runs
  }

  predicate Closed(t: Tier) {
    && ChildrenOf(t.checks, t.runs)
    && ChildrenOf(t.metrics, t.runs)
    && ChildrenOf(t.pings, t.runs)
    && (forall id :: id in t.hosts ==> t.hosts[id].run == id && id in t.runs)
  }

  // Every run is in one tier only and takes all its children with it.
  predicate RunBoundary(db: Db) {
    && Closed(db.hot) && Closed(db.cold)
    && db.hot.runs.Keys !! db.cold.runs.Keys
    && db.hot.checks.Keys !! db.cold.checks.Keys
    && db.hot.metrics.Keys !! db.cold.metrics.Keys
    && db.hot.pings.Keys !! db.cold.pings.Keys
  }

  // ---------- maintenance statements ----------

  datatype Statement =
    | ArchiveChecks | ArchiveMetrics | ArchiveHosts | ArchivePings | ArchiveRuns
    | DeleteChecks | DeleteMetrics | DeleteHosts | DeletePings | DeleteRuns
    | PruneChecks | PruneMetrics | PruneHosts | PrunePings | PruneRuns

  const ROLLOVER: seq<Statement> :=
    [ArchiveChecks, ArchiveMetrics, ArchiveHosts, ArchivePings, ArchiveRuns,
     DeleteChecks, DeleteMetrics, DeleteHosts, DeletePings]

  const PRUNE: seq<Statement> := [PruneChecks, PruneMetrics, PruneHosts, PrunePings]

  // INSERT INTO archive SELECT: None when a primary key is already taken.
  function Inserted<T>(archive: map<Id, T>, rows: map<Id, T>): Option<map<Id, T>> {
    if archive.Keys !! rows.Keys then Some(archive + rows) else None
  }

  // One statement on the tables as they are now; its subquery reads runs (or
  // runs_archive) as earlier statements left it.
  function Execute(db: Db, stmt: Statement, cutoff: int): Option<Db> {
    var aged := Aged(db.hot.runs, cutoff);
    var expired := Aged(db.cold.runs, cutoff);
    match stmt
    case ArchiveChecks =>
      (match Inserted(db.cold.checks, OfRuns(db.hot.checks, aged))
       case None => None
       case Some(t) => Some(db.(cold := db.cold.(checks := t))))
    case ArchiveMetrics =>
      (match Inserted(db.cold.metrics, OfRuns(db.hot.metrics, aged))
       case None => None
       case Some(t) => Some(db.(cold := db.cold.(metrics := t))))
    case ArchiveHosts =>
      (match Inserted(db.cold.hosts, OfRuns(db.hot.hosts, aged))
       case None => None
       case Some(t) => Some(db.(cold := db.cold.(hosts := t))))
    case ArchivePings =>
      (match Inserted(db.cold.pings, OfRuns(db.hot.pings, aged))
       case None => None
       case Some(t) => Some(db.(cold := db.cold.(pings := t))))
    case ArchiveRuns =>
      (match Inserted(db.cold.runs, Picked(db.hot.runs, aged))
       case None => None
       case Some(t) => Some(db.(cold := db.cold.(runs := t))))
    case DeleteChecks => Some(db.(hot := db.hot.(checks := Others(db.hot.checks, aged))))
    case DeleteMetrics => Some(db.(hot := db.hot.(metrics := Others(db.hot.metrics, aged))))
    case DeleteHosts => Some(db.(hot := db.hot.(hosts := Others(db.hot.hosts, aged))))
    case DeletePings => Some(db.(hot := db.hot.(pings := Others(db.hot.pings, aged))))
    case DeleteRuns => Some(db.(hot := db.hot.(runs := db.hot.runs - aged)))
    case PruneChecks => Some(db.(cold := db.cold.(checks := Others(db.cold.checks, expired))))
    case PruneMetrics => Some(db.(cold := db.cold.(metrics := Others(db.cold.metrics, expired))))
    case PruneHosts => Some(db.(cold := db.cold.(hosts := Others(db.cold.hosts, expired))))
    case PrunePings => Some(db.(cold := db.cold.(pings := Others(db.cold.pings, expired))))
    case PruneRuns => Some(db.(cold := db.cold.(runs := db.cold.runs - expired)))
  }

  // The first n statements, one after the other.
  function ExecuteUpTo(db: Db, stmts: seq<Statement>, n: nat, cutoff: int): Option<Db>
    requires n <= |stmts|
  {
    if n == 0 then Some(db)
    else
      match ExecuteUpTo(db, stmts, n - 1, cutoff)
      case None => None
      case Some(d) => Execute(d, stmts[n - 1], cutoff)
  }

  function ExecuteAll(db: Db, stmts: seq<Statement>, cutoff: int): Option<Db> {
    ExecuteUpTo(db, stmts, |stmts|, cutoff)
  }

  // What a rollover means: one atomic partition of the hot tier.
  function Partition(db: Db, cutoff: int): Db {
    var aged := Aged(db.hot.runs, cutoff);
    Db(Without(db.hot, aged), Merge(db.cold, Only(db.hot, aged)))
  }

  // What a prune means: whole archived runs disappear.
  function Forget(db: Db, cutoff: int): Db {
    Db(db.hot, Without(db.cold, Aged(db.cold.runs, cutoff)))
  }

  function DaysBefore(now: Instant, days: int): int {
    WholeSeconds(now - days * 86400 * SECOND)
  }

  // The ten statements, each re-reading the aged runs, are the partition.
  lemma RolloverIsPartition(db: Db, cutoff: int)
    requires RunBoundary(db)
    ensures ExecuteAll(db, ROLLOVER + [DeleteRuns], cutoff) == Some(Partition(db, cutoff))
  {
    var aged := Aged(db.hot.runs, cutoff);
    var stmts := ROLLOVER + [DeleteRuns];
    var moved := Merge(db.cold, Only(db.hot, aged));
    assert aged !! db.cold.runs.Keys;
    var d5 := Db(db.hot, moved);
    assert ExecuteUpTo(db, stmts, 5, cutoff) == Some(d5) by { ArchivingCopies(db, cutoff, stmts); }
    DeletingDrops(d5, cutoff, stmts, db);
  }

  lemma StepTo(db: Db, stmts: seq<Statement>, n: nat, d: Db, e: Db, cutoff: int)
    requires n < |stmts| && ExecuteUpTo(db, stmts, n, cutoff) == Some(d)
    requires Execute(d, stmts[n], cutoff) == Some(e)
    ensures ExecuteUpTo(db, stmts, n + 1, cutoff) == Some(e)
  {
  }

  lemma AgedRowsAreNew(db: Db, cutoff: int)
    requires RunBoundary(db)
    ensures var only := Only(db.hot, Aged(db.hot.runs, cutoff));
      && db.cold.checks.Keys !! only.checks.Keys
      && db.cold.metrics.Keys !! only.metrics.Keys
      && db.cold.hosts.Keys !! only.hosts.Keys
      && db.cold.pings.Keys !! only.pings.Keys
      && db.cold.runs.Keys !! only.runs.Keys
  {
  }

  lemma ArchivingCopies(db: Db, cutoff: int, stmts: seq<Statement>)
    requires RunBoundary(db) && stmts == ROLLOVER + [DeleteRuns]
    ensures ExecuteUpTo(db, stmts, 5, cutoff) == Some(Db(db.hot, Merge(db.cold, Only(db.hot, Aged(db.hot.runs, cutoff)))))
  {
    AgedRowsAreNew(db, cutoff);
    CopyAll(db.hot, db.cold, Only(db.hot, Aged(db.hot.runs, cutoff)), cutoff, stmts);
  }

  lemma CopyAll(hot: Tier, cold: Tier, only: Tier, cutoff: int, stmts: seq<Statement>)
    requires stmts == ROLLOVER + [DeleteRuns] && only == Only(hot, Aged(hot.runs, cutoff))
    requires cold.checks.Keys !! only.checks.Keys && cold.metrics.Keys !! only.metrics.Keys
    requires cold.hosts.Keys !! only.hosts.Keys && cold.pings.Keys !! only.pings.Keys
    requires cold.runs.Keys !! only.runs.Keys
    ensures ExecuteUpTo(Db(hot, cold), stmts, 5, cutoff) == Some(Db(hot, Merge(cold, only)))
  {
    var c2 := cold.(checks := cold.checks + only.checks, metrics := cold.metrics + only.metrics);
    CopyTwo(hot, cold, only, cutoff, stmts);
    var c3 := c2.(hosts := c2.hosts + only.hosts);
    var c4 := c3.(pings := c3.pings + only.pings);
    var c5 := c4.(runs := c4.runs + only.runs);
    StepTo(Db(hot, cold), stmts, 2, Db(hot, c2), Db(hot, c3), cutoff);
    StepTo(Db(hot, cold), stmts, 3, Db(hot, c3), Db(hot, c4), cutoff);
    StepTo(Db(hot, cold), stmts, 4, Db(hot, c4), Db(hot, c5), cutoff);
  }

  lemma CopyTwo(hot: Tier, cold: Tier, only: Tier, cutoff: int, stmts: seq<Statement>)
    requires stmts == ROLLOVER + [DeleteRuns] && only == Only(hot, Aged(hot.runs, cutoff))
    requires cold.checks.Keys !! only.checks.Keys && cold.metrics.Keys !! only.metrics.Keys
    ensures ExecuteUpTo(Db(hot, cold), stmts, 2, cutoff)
         == Some(Db(hot, cold.(checks := cold.checks + only.checks, metrics := cold.metrics + only.metrics)))
  {
    var db, c1 := Db(hot, cold), cold.(checks := cold.checks + only.checks);
    StepTo(db, stmts, 0, db, Db(hot, c1), cutoff);
    StepTo(db, stmts, 1, Db(hot, c1), Db(hot, c1.(metrics := c1.metrics + only.metrics)), cutoff);
  }

  lemma DeletingDrops(d: Db, cutoff: int, stmts: seq<Statement>, db: Db)
    requires stmts == ROLLOVER + [DeleteRuns]
    requires ExecuteUpTo(db, stmts, 5, cutoff) == Some(d)
    ensures ExecuteUpTo(db, stmts, 10, cutoff) == Some(Db(Without(d.hot, Aged(d.hot.runs, cutoff)), d.cold))
  {
    var aged := Aged(d.hot.runs, cutoff);
    var h6 := d.hot.(checks := Others(d.hot.checks, aged));
    var h7 := h6.(metrics := Others(h6.metrics, aged));
    var h8 := h7.(hosts := Others(h7.hosts, aged));
    var h9 := h8.(pings := Others(h8.pings, aged));
    assert ExecuteUpTo(db, stmts, 6, cutoff) == Some(Db(h6, d.cold));
    assert ExecuteUpTo(db, stmts, 7, cutoff) == Some(Db(h7, d.cold));
    assert ExecuteUpTo(db, stmts, 8, cutoff) == Some(Db(h8, d.cold));
    assert ExecuteUpTo(db, stmts, 9, cutoff) == Some(Db(h9, d.cold));
  }

  lemma PruneIsForget(db: Db, cutoff: int)
    ensures ExecuteAll(db, PRUNE + [PruneRuns], cutoff) == Some(Forget(db, cutoff))
  {
    var stmts := PRUNE + [PruneRuns];
    var expired := Aged(db.cold.runs, cutoff);
    var c1 := db.cold.(checks := Others(db.cold.checks, expired));
    var c2 := c1.(metrics := Others(c1.metrics, expired));
    var c3 := c2.(hosts := Others(c2.hosts, expired));
    var c4 := c3.(pings := Others(c3.pings, expired));
    assert ExecuteUpTo(db, stmts, 0, cutoff) == Some(db);
    assert ExecuteUpTo(db, stmts, 1, cutoff) == Some(Db(db.hot, c1));
    assert ExecuteUpTo(db, stmts, 2, cutoff) == Some(Db(db.hot, c2));
    assert ExecuteUpTo(db, stmts, 3, cutoff) == Some(Db(db.hot, c3));
    assert ExecuteUpTo(db, stmts, 4, cutoff) == Some(Db(db.hot, c4));
  }

  // ---------- maintenance by the clock ----------

  // After a rollover each row is in the tier of its run, as it was.
  ghost predicate Followed<T>(
      hot0: map<Id, Child<T>>, cold0: map<Id, Child<T>>, hot: map<Id, Child<T>>, cold: map<Id, Child<T>>, runs: map<Id, Run>) {
    && (forall id :: id in hot <==> id in hot0 && hot0[id].run in runs)
    && (forall id :: id in cold <==> id in cold0 || (id in hot0 && hot0[id].run !in runs))
    && (forall id :: id in hot ==> hot[id] == hot0[id])
    && (forall id :: id in cold ==> cold[id] == if id in cold0 then cold0[id] else hot0[id])
  }

  // The hot runs that started before the cutoff, soft and hard, finished or
  // not, went to the archive, and no other run moved or changed.
  ghost predicate MovedBefore(runs0: map<Id, Run>, archive0: map<Id, Run>, runs: map<Id, Run>, archive: map<Id, Run>, cutoff: int) {
    && (forall id :: id in runs <==> id in runs0 && runs0[id].startedAt >= cutoff)
    && (forall id :: id in archive <==> id in archive0 || (id in runs0 && runs0[id].startedAt < cutoff))
    && (forall id :: id in runs ==> runs[id] == runs0[id])
    && (forall id :: id in archive ==> archive[id] == if id in archive0 then archive0[id] else runs0[id])
  }

  ghost predicate RolledOver(before: Db, after: Db, cutoff: int) {
    && MovedBefore(before.hot.runs, before.cold.runs, after.hot.runs, after.cold.runs, cutoff)
    && Followed(before.hot.checks, before.cold.checks, after.hot.checks, after.cold.checks, after.hot.runs)
    && Followed(before.hot.metrics, before.cold.metrics, after.hot.metrics, after.cold.metrics, after.hot.runs)
    && Followed(before.hot.hosts, before.cold.hosts, after.hot.hosts, after.cold.hosts, after.hot.runs)
    && Followed(before.hot.pings, before.cold.pings, after.hot.pings, after.cold.pings, after.hot.runs)
  }

  // Exactly the rows of runs that are still there.
  ghost predicate Left<T>(rows0: map<Id, Child<T>>, rows: map<Id, Child<T>>, runs: map<Id, Run>) {
    && (forall id :: id in rows <==> id in rows0 && rows0[id].run in runs)
    && (forall id :: id in rows ==> rows[id] == rows0[id])
  }

  ghost predicate PrunedBefore(before: Db, after: Db, cutoff: int) {
    && after.hot == before.hot
    && (forall id :: id in after.cold.runs <==> id in before.cold.runs && before.cold.runs[id].startedAt >= cutoff)
    && (forall id :: id in after.cold.runs ==> after.cold.runs[id] == before.cold.runs[id])
    && Left(before.cold.checks, after.cold.checks, after.cold.runs)
    && Left(before.cold.metrics, after.cold.metrics, after.cold.runs)
    && Left(before.cold.hosts, after.cold.hosts, after.cold.runs)
    && Left(before.cold.pings, after.cold.pings, after.cold.runs)
  }

  lemma CutoffIsWholeDays(now: Instant, days: int)
    ensures DaysBefore(now, days) == WholeSeconds(now) - days * 24 * 60 * 60
  {
    assert now - days * 86400 * SECOND == now - (days * 86400) * SECOND;
    ShiftedSeconds(now, days * 86400);
  }

  lemma ShiftedSeconds(now: Instant, n: int)
    ensures WholeSeconds(now - n * SECOND) == WholeSeconds(now) - n
  {
  }

  lemma RolloverGoesByAge(db: Db, cutoff: int)
    requires RunBoundary(db)
    ensures RolledOver(db, Partition(db, cutoff), cutoff)
  {
    var aged := Aged(db.hot.runs, cutoff);
    RunsGoByAge(db.hot.runs, db.cold.runs, cutoff);
    ChildrenFollow(db.hot.checks, db.cold.checks, db.hot.runs, aged);
    ChildrenFollow(db.hot.metrics, db.cold.metrics, db.hot.runs, aged);
    ChildrenFollow(db.hot.hosts, db.cold.hosts, db.hot.runs, aged);
    ChildrenFollow(db.hot.pings, db.cold.pings, db.hot.runs, aged);
  }

  lemma RunsGoByAge(hot: map<Id, Run>, cold: map<Id, Run>, cutoff: int)
    requires hot.Keys !! cold.Keys
    ensures var aged := Aged(hot, cutoff);
      MovedBefore(hot, cold, hot - aged, cold + Picked(hot, aged), cutoff)
  {
  }

  lemma ChildrenFollow<T>(hot: map<Id, Child<T>>, cold: map<Id, Child<T>>, runs: map<Id, Run>, aged: set<Id>)
    requires hot.Keys !! cold.Keys && ChildrenOf(hot, runs)
    ensures Followed(hot, cold, Others(hot, aged), cold + OfRuns(hot, aged), runs - aged)
  {
  }

  lemma PruneGoesByAge(db: Db, cutoff: int)
    requires RunBoundary(db)
    ensures PrunedBefore(db, Forget(db, cutoff), cutoff)
  {
    var c := Forget(db, cutoff).cold;
    assert Left(db.cold.checks, c.checks, c.runs) && Left(db.cold.metrics, c.metrics, c.runs);
    assert Left(db.cold.hosts, c.hosts, c.runs) && Left(db.cold.pings, c.pings, c.runs);
  }

  lemma MaintenanceKeepsBoundary(db: Db, cutoff: int)
    requires RunBoundary(db)
    ensures RunBoundary(Partition(db, cutoff)) && RunBoundary(Forget(db, cutoff))
  {
  }

  // Nothing is lost, doubled or stranded: seen as one store the tables do not
  // change, and row by row hot and archive together hold what they held.
  lemma RolloverConserves(db: Db, cutoff: int)
    requires RunBoundary(db)
    ensures var p := Partition(db, cutoff);
      && Merge(p.hot, p.cold) == Merge(db.hot, db.cold)
      && SameRows(p.hot.runs, p.cold.runs, db.hot.runs, db.cold.runs)
      && SameRows(p.hot.checks, p.cold.checks, db.hot.checks, db.cold.checks)
      && SameRows(p.hot.metrics, p.cold.metrics, db.hot.metrics, db.cold.metrics)
      && SameRows(p.hot.hosts, p.cold.hosts, db.hot.hosts, db.cold.hosts)
      && SameRows(p.hot.pings, p.cold.pings, db.hot.pings, db.cold.pings)
  {
    var aged := Aged(db.hot.runs, cutoff);
    MovedRows(db.hot.runs, db.cold.runs, aged);
    MovedChildren(db.hot.checks, db.cold.checks, aged);
    MovedChildren(db.hot.metrics, db.cold.metrics, aged);
    MovedChildren(db.hot.hosts, db.cold.hosts, aged);
    MovedChildren(db.hot.pings, db.cold.pings, aged);
  }

  lemma MovedChildren<T>(hot: map<Id, Child<T>>, cold: map<Id, Child<T>>, aged: set<Id>)
    requires hot.Keys !! cold.Keys
    ensures SameRows(Others(hot, aged), cold + OfRuns(hot, aged), hot, cold)
    ensures Others(hot, aged) + (cold + OfRuns(hot, aged)) == hot + cold
  {
    var moved := OfRuns(hot, aged).Keys;
    assert Others(hot, aged) == hot - moved;
    assert OfRuns(hot, aged) == Picked(hot, moved);
    MovedRows(hot, cold, moved);
  }

  // The rows of both tables together, with multiplicity, are the same.
  predicate SameRows<T(==)>(hot: map<Id, T>, cold: map<Id, T>, hot0: map<Id, T>, cold0: map<Id, T>) {
    multiset(hot.Items) + multiset(cold.Items) == multiset(hot0.Items) + multiset(cold0.Items)
  }

  lemma MovedRows<T>(hot: map<Id, T>, cold: map<Id, T>, moved: set<Id>)
    requires hot.Keys !! cold.Keys
    ensures SameRows(hot - moved, cold + Picked(hot, moved), hot, cold)
    ensures (hot - moved) + (cold + Picked(hot, moved)) == hot + cold
  {
    var left, right := hot - moved, cold + Picked(hot, moved);
    forall x | true
      ensures multiset(left.Items)[x] + multiset(right.Items)[x] == multiset(hot.Items)[x] + multiset(cold.Items)[x]
    {
      assert x in hot.Items <==> x.0 in hot && hot[x.0] == x.1;
      assert x in cold.Items <==> x.0 in cold && cold[x.0] == x.1;
      assert x in left.Items <==> x.0 in left && left[x.0] == x.1;
      assert x in right.Items <==> x.0 in right && right[x.0] == x.1;
    }
  }
}
