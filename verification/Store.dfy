// The store's operations: single-row writes, the snapshot transaction, the
// two maintenance transactions, and the reads that span both tiers. Every
// driver call that may fail takes its failure from outside.
module Store {
  import opened Instants
  import opened Options
  import opened Runs
  import opened Uuid
  import opened Tables

  // LoadConfig clamps both day counts to this.
  const MAX_DAYS: int := 100_000

  // ---------- what the writes mean ----------

  function AddRun(db: Db, id: Id, r: Run): Db {
    db.(hot := db.hot.(runs := db.hot.runs[id := r]))
  }

  // UPDATE runs ... WHERE id = ?: hot rows only.
  function ChangeRun(db: Db, id: Id, u: RunUpdate): Db {
    if id in db.hot.runs then AddRun(db, id, Apply(db.hot.runs[id], u)) else db
  }

  function AddCheck(db: Db, id: Id, c: Child<CheckBody>): Db {
    db.(hot := db.hot.(checks := db.hot.checks[id := c]))
  }

  function AddMetrics(db: Db, host: Child<HostBody>, metrics: map<Id, Child<MetricBody>>): Db {
    db.(hot := db.hot.(hosts := db.hot.hosts[host.run := host], metrics := metrics))
  }

  function AddPings(db: Db, pings: map<Id, Child<PingBody>>): Db {
    db.(hot := db.hot.(pings := pings))
  }

  // The first n samples of a snapshot, one INSERT each, all stamped alike;
  // None when an id was not minted or its key is taken.
  function InsertUpTo<T>(
      rows: map<Id, Child<T>>, run: Id, ts: Instant, samples: seq<T>, ids: seq<Option<Id>>, n: nat): Option<map<Id, Child<T>>>
    requires n <= |ids| == |samples|
  {
    if n == 0 then Some(rows)
    else
      match InsertUpTo(rows, run, ts, samples, ids, n - 1)
      case None => None
      case Some(sofar) =>
        var id := ids[n - 1];
        if id.None? || id.value in sofar then None
        else Some(sofar[id.value := Child(run, ts, samples[n - 1])])
  }

  function InsertAll<T>(rows: map<Id, Child<T>>, run: Id, ts: Instant, samples: seq<T>, ids: seq<Option<Id>>): Option<map<Id, Child<T>>>
    requires |ids| == |samples|
  {
    InsertUpTo(rows, run, ts, samples, ids, |ids|)
  }

  function RunCount(db: Db): nat {
    |db.hot.runs| + |db.cold.runs|
  }

  // The table gained one row for each sample under its own minted id, and
  // nothing else changed.
  ghost predicate Added<T>(
      before: map<Id, Child<T>>, after: map<Id, Child<T>>, run: Id, ts: Instant, samples: seq<T>, ids: seq<Option<Id>>)
    requires |ids| == |samples|
  {
    && (forall k :: k in before ==> k in after && after[k] == before[k])
    && (forall i :: 0 <= i < |ids| ==>
          ids[i].Some? && ids[i].value !in before && ids[i].value in after && after[ids[i].value] == Child(run, ts, samples[i]))
    && (forall k :: k in after ==> k in before || exists i :: 0 <= i < |ids| && ids[i] == Some(k))
  }

  // The columns the update sets hold its values, a time to the second; every
  // other column is as it was.
  predicate Sets(u: RunUpdate, before: Run, after: Run) {
    && after.startedAt == before.startedAt && after.mode == before.mode
    && (if u.internetOk.Some? then after.internetOk == u.internetOk else after.internetOk == before.internetOk)
    && (if u.action.Some? then after.action == u.action.value else after.action == before.action)
    && SetsTime(u.rebootStartedAt, before.rebootStartedAt, after.rebootStartedAt)
    && SetsTime(u.routerDownAt, before.routerDownAt, after.routerDownAt)
    && SetsTime(u.routerUpAt, before.routerUpAt, after.routerUpAt)
    && SetsTime(u.internetRestoredAt, before.internetRestoredAt, after.internetRestoredAt)
    && SetsTime(u.finishedAt, before.finishedAt, after.finishedAt)
    && (if u.outcome.Some? then after.outcome == u.outcome else after.outcome == before.outcome)
    && (if u.error.Some? then after.error == u.error else after.error == before.error)
  }

  predicate SetsTime(given: Option<Instant>, before: Option<int>, after: Option<int>) {
    if given.Some? then after.Some? && Parsed(after.value) <= given.value < Parsed(after.value + 1) else after == before
  }

  class Store {
    var hot: Tier
    var cold: Tier

    ghost function Snapshot(): Db
      reads this
    {
      Db(hot, cold)
    }

    constructor ()
      ensures Snapshot() == Db(EMPTY, EMPTY)
    {
      hot, cold := EMPTY, EMPTY;
    }

    // `id` is what minting returned; a taken primary key is an error.
    method InsertRun(id: Option<Id>, startedAt: Instant, mode: Mode, internetOk: Option<bool>, fails: bool)
      returns (r: Option<Id>)
      modifies this
      ensures r.Some? <==> id.Some? && !fails && id.value !in old(hot.runs)
      ensures r.Some? ==> r == id && Snapshot() == AddRun(old(Snapshot()), id.value, Fresh(startedAt, mode, internetOk))
      ensures r.Some? ==> cold == old(cold) && hot == old(hot).(runs := old(hot.runs)[id.value :=
                Run(WholeSeconds(startedAt), mode, internetOk, Nothing, None, None, None, None, None, None, None)])
      ensures r.None? ==> Snapshot() == old(Snapshot())
    {
      if id.None? || fails || id.value in hot.runs {
        return None;
      }
      hot := hot.(runs := hot.runs[id.value := Fresh(startedAt, mode, internetOk)]);
      r := id;
    }

    method UpdateRun(id: Id, u: RunUpdate, fails: bool) returns (ok: bool)
      modifies this
      ensures ok <==> u == KEEP || !fails
      ensures Snapshot() == if ok then ChangeRun(old(Snapshot()), id, u) else old(Snapshot())
      ensures hot.runs.Keys == old(hot.runs).Keys && cold == old(cold) && hot == old(hot).(runs := hot.runs)
      ensures forall k :: k in hot.runs && k != id ==> hot.runs[k] == old(hot.runs)[k]
      ensures ok && id in old(hot.runs) ==> Sets(u, old(hot.runs)[id], hot.runs[id])
    {
      if u == KEEP {
        return true;
      }
      if fails {
        return false;
      }
      if id in hot.runs {
        hot := hot.(runs := hot.runs[id := Apply(hot.runs[id], u)]);
      }
      ok := true;
    }

    method InsertCheck(id: Option<Id>, c: Child<CheckBody>, fails: bool) returns (ok: bool)
      modifies this
      ensures ok <==> id.Some? && !fails && id.value !in old(hot.checks)
      ensures Snapshot() == if ok then AddCheck(old(Snapshot()), id.value, c) else old(Snapshot())
      ensures ok ==> cold == old(cold) && hot == old(hot).(checks := old(hot.checks)[id.value := c])
    {
      ok := id.Some? && !fails && id.value !in hot.checks;
      if ok {
        hot := hot.(checks := hot.checks[id.value := c]);
      }
    }

    // One host row and one row per sample, or nothing at all. `ids` are the
    // outcomes of the mints the loop performs; `failAt == k` fails driver call k.
    method SaveMetrics(run: Id, ts: Instant, host: HostBody, samples: seq<MetricBody>, ids: seq<Option<Id>>, failAt: nat)
      returns (ok: bool)
      requires |ids| == |samples|
      modifies this
      ensures ok <==>
        && failAt >= |ids| + 3 && run !in old(hot.hosts)
        && InsertAll(old(hot.metrics), run, ts, samples, ids).Some?
      ensures Snapshot() ==
        if ok then AddMetrics(old(Snapshot()), Child(run, ts, host), InsertAll(old(hot.metrics), run, ts, samples, ids).value)
        else old(Snapshot())
      ensures ok ==> hot.hosts == old(hot.hosts)[run := Child(run, ts, host)]
      ensures ok ==> Added(old(hot.metrics), hot.metrics, run, ts, samples, ids)
      ensures cold == old(cold) && hot == old(hot).(hosts := hot.hosts, metrics := hot.metrics)
    {
      InsertMeaning(hot.metrics, run, ts, samples, ids, |ids|);
      if failAt == 0 {
        return false;
      }
      var saved := hot;
      ok := InsertSnapshot(run, ts, host, samples, ids, failAt);
      if !ok || failAt == |ids| + 2 {
        hot := saved;
        return false;
      }
    }

    // The statements of that transaction; they may stop half way.
    method InsertSnapshot(run: Id, ts: Instant, host: HostBody, samples: seq<MetricBody>, ids: seq<Option<Id>>, failAt: nat)
      returns (ok: bool)
      requires |ids| == |samples| && failAt > 0
      modifies this
      ensures cold == old(cold)
      ensures ok <==>
        && failAt >= |ids| + 2 && run !in old(hot.hosts)
        && InsertAll(old(hot.metrics), run, ts, samples, ids).Some?
      ensures ok ==> hot == old(hot).(
        hosts := old(hot.hosts)[run := Child(run, ts, host)],
        metrics := InsertAll(old(hot.metrics), run, ts, samples, ids).value)
    {
      if failAt == 1 || run in hot.hosts {
        return false;
      }
      hot := hot.(hosts := hot.hosts[run := Child(run, ts, host)]);
      ghost var begun := hot;
      for i := 0 to |samples|
        invariant failAt >= i + 2
        invariant cold == old(cold) && hot == begun.(metrics := hot.metrics)
        invariant InsertUpTo(begun.metrics, run, ts, samples, ids, i) == Some(hot.metrics)
      {
        if ids[i].None? || failAt == i + 2 || ids[i].value in hot.metrics {
          if failAt != i + 2 {
            InsertFailureSticks(begun.metrics, run, ts, samples, ids, i + 1, |ids|);
          }
          return false;
        }
        hot := hot.(metrics := hot.metrics[ids[i].value := Child(run, ts, samples[i])]);
      }
      ok := true;
    }

    // One row per probe, or nothing at all.
    method SavePings(run: Id, ts: Instant, results: seq<PingBody>, ids: seq<Option<Id>>, failAt: nat) returns (ok: bool)
      requires |ids| == |results|
      modifies this
      ensures ok <==> failAt >= |ids| + 2 && InsertAll(old(hot.pings), run, ts, results, ids).Some?
      ensures Snapshot() ==
        if ok then AddPings(old(Snapshot()), InsertAll(old(hot.pings), run, ts, results, ids).value) else old(Snapshot())
      ensures ok ==> Added(old(hot.pings), hot.pings, run, ts, results, ids)
      ensures cold == old(cold) && hot == old(hot).(pings := hot.pings)
    {
      InsertMeaning(hot.pings, run, ts, results, ids, |ids|);
      if failAt == 0 {
        return false;
      }
      var saved := hot;
      for i := 0 to |results|
        invariant failAt >= i + 1
        invariant cold == old(cold) && hot == saved.(pings := hot.pings)
        invariant InsertUpTo(saved.pings, run, ts, results, ids, i) == Some(hot.pings)
      {
        if ids[i].None? || failAt == i + 1 || ids[i].value in hot.pings {
          if failAt != i + 1 {
            InsertFailureSticks(saved.pings, run, ts, results, ids, i + 1, |ids|);
          }
          hot := saved;
          return false;
        }
        hot := hot.(pings := hot.pings[ids[i].value := Child(run, ts, results[i])]);
      }
      ok := failAt != |ids| + 1;
      if !ok {
        hot := saved;
      }
    }

    // `removed` is how many runs rows the statement took away.
    method ExecuteStatement(stmt: Statement, cutoff: int, fails: bool) returns (ok: bool, removed: int)
      modifies this
      ensures ok <==> !fails && Execute(old(Snapshot()), stmt, cutoff).Some?
      ensures ok ==> Execute(old(Snapshot()), stmt, cutoff) == Some(Snapshot())
      ensures ok ==> removed == RunCount(old(Snapshot())) - RunCount(Snapshot())
      ensures !ok ==> Snapshot() == old(Snapshot())
    {
      match Execute(Db(hot, cold), stmt, cutoff) {
        case None => return false, 0;
        case Some(d) =>
          if fails {
            return false, 0;
          }
          removed := RunCount(Db(hot, cold)) - RunCount(d);
          hot, cold := d.hot, d.cold;
          ok := true;
      }
    }

    // The statements in order, stopping at the first that fails; `removed` is
    // what the latest one took away. Driver call 0 opened the transaction.
    method ExecuteEach(stmts: seq<Statement>, cutoff: int, failAt: nat) returns (ok: bool, removed: int)
      requires failAt > 0
      modifies this
      ensures ok ==> failAt > |stmts| && ExecuteAll(old(Snapshot()), stmts, cutoff) == Some(Snapshot())
      ensures ok && stmts != [] ==> removed == LastRemoved(old(Snapshot()), stmts, |stmts|, cutoff)
      ensures !ok ==> failAt <= |stmts| || ExecuteAll(old(Snapshot()), stmts, cutoff).None?
      ensures !ok ==> exists k: nat :: StoppedAt(old(Snapshot()), stmts, cutoff, failAt, k, Snapshot())
    {
      ghost var db := Snapshot();
      removed := 0;
      for i := 0 to |stmts|
        invariant failAt > i
        invariant ExecuteUpTo(db, stmts, i, cutoff) == Some(Snapshot())
        invariant i > 0 ==> removed == LastRemoved(db, stmts, i, cutoff)
      {
        ghost var d := Snapshot();
        ok, removed := ExecuteStatement(stmts[i], cutoff, failAt == i + 1);
        if !ok {
          if failAt != i + 1 {
            FailureSticks(db, stmts, i + 1, |stmts|, cutoff);
          }
          assert StoppedAt(db, stmts, cutoff, failAt, i, Snapshot());
          return;
        }
        StepTo(db, stmts, i, d, Snapshot(), cutoff);
      }
      ok := true;
    }

    // Begin, the statements ending with the deletion of the runs, its affected
    // row count, commit; any failure rolls everything back.
    method Transact(stmts: seq<Statement>, cutoff: int, failAt: nat) returns (affected: Option<int>)
      requires stmts != []
      modifies this
      ensures affected.None? ==> Snapshot() == old(Snapshot())
      ensures affected.Some? <==> failAt >= |stmts| + 3 && ExecuteAll(old(Snapshot()), stmts, cutoff).Some?
      ensures affected.Some? ==> ExecuteAll(old(Snapshot()), stmts, cutoff) == Some(Snapshot())
      ensures affected.Some? ==> affected.value == LastRemoved(old(Snapshot()), stmts, |stmts|, cutoff)
    {
      if failAt == 0 {
        return None;
      }
      var savedHot, savedCold := hot, cold;
      var ok, removed := ExecuteEach(stmts, cutoff, failAt);
      if !ok || failAt == |stmts| + 1 || failAt == |stmts| + 2 {
        hot, cold := savedHot, savedCold;
        return None;
      }
      affected := Some(removed);
    }

    method RolloverToArchive(now: Instant, hotWindowDays: int, failAt: nat) returns (moved: Option<int>)
      requires hotWindowDays <= MAX_DAYS && RunBoundary(Snapshot())
      modifies this
      ensures RunBoundary(Snapshot())
      ensures hotWindowDays <= 0 ==> moved == Some(0)
      ensures hotWindowDays > 0 ==> (moved.Some? <==> failAt >= 13)
      ensures hotWindowDays > 0 && moved.Some? ==>
        && moved.value == |Aged(old(hot.runs), DaysBefore(now, hotWindowDays))|
        && Snapshot() == Partition(old(Snapshot()), DaysBefore(now, hotWindowDays))
      ensures hotWindowDays > 0 && moved.Some? ==>
        var cutoff := WholeSeconds(now) - hotWindowDays * 24 * 60 * 60;
        && RolledOver(old(Snapshot()), Snapshot(), cutoff)
        && moved.value == |set id | id in old(hot.runs) && old(hot.runs)[id].startedAt < cutoff|
      ensures moved.None? || hotWindowDays <= 0 ==> Snapshot() == old(Snapshot())
    {
      if hotWindowDays <= 0 {
        return Some(0);
      }
      var cutoff := DaysBefore(now, hotWindowDays);
      RolloverIsPartition(Snapshot(), cutoff);
      RolloverCountsAged(Snapshot(), cutoff);
      RolloverMeaning(Snapshot(), now, hotWindowDays);
      moved := Transact(ROLLOVER + [DeleteRuns], cutoff, failAt);
    }

    // retentionDays <= 0 keeps the archive forever.
    method PruneArchive(now: Instant, retentionDays: int, failAt: nat) returns (pruned: Option<int>)
      requires retentionDays <= MAX_DAYS && RunBoundary(Snapshot())
      modifies this
      ensures RunBoundary(Snapshot())
      ensures retentionDays <= 0 ==> pruned == Some(0)
      ensures retentionDays > 0 ==> (pruned.Some? <==> failAt >= 8)
      ensures retentionDays > 0 && pruned.Some? ==>
        && pruned.value == |Aged(old(cold.runs), DaysBefore(now, retentionDays))|
        && Snapshot() == Forget(old(Snapshot()), DaysBefore(now, retentionDays))
      ensures retentionDays > 0 && pruned.Some? ==>
        var cutoff := WholeSeconds(now) - retentionDays * 24 * 60 * 60;
        && PrunedBefore(old(Snapshot()), Snapshot(), cutoff)
        && pruned.value == |set id | id in old(cold.runs) && old(cold.runs)[id].startedAt < cutoff|
      ensures pruned.None? || retentionDays <= 0 ==> Snapshot() == old(Snapshot())
    {
      if retentionDays <= 0 {
        return Some(0);
      }
      var cutoff := DaysBefore(now, retentionDays);
      PruneIsForget(Snapshot(), cutoff);
      PruneCountsExpired(Snapshot(), cutoff);
      PruneMeaning(Snapshot(), now, retentionDays);
      pruned := Transact(PRUNE + [PruneRuns], cutoff, failAt);
    }
  }

  // What the two transactions mean in days of the clock.
  lemma RolloverMeaning(db: Db, now: Instant, days: int)
    requires RunBoundary(db)
    ensures var p, cutoff := Partition(db, DaysBefore(now, days)), WholeSeconds(now) - days * 24 * 60 * 60;
      && RunBoundary(p) && RolledOver(db, p, cutoff)
      && Aged(db.hot.runs, DaysBefore(now, days)) == set id | id in db.hot.runs && db.hot.runs[id].startedAt < cutoff
  {
    CutoffIsWholeDays(now, days);
    MaintenanceKeepsBoundary(db, DaysBefore(now, days));
    RolloverGoesByAge(db, DaysBefore(now, days));
  }

  lemma PruneMeaning(db: Db, now: Instant, days: int)
    requires RunBoundary(db)
    ensures var f, cutoff := Forget(db, DaysBefore(now, days)), WholeSeconds(now) - days * 24 * 60 * 60;
      && RunBoundary(f) && PrunedBefore(db, f, cutoff)
      && Aged(db.cold.runs, DaysBefore(now, days)) == set id | id in db.cold.runs && db.cold.runs[id].startedAt < cutoff
  {
    CutoffIsWholeDays(now, days);
    MaintenanceKeepsBoundary(db, DaysBefore(now, days));
    PruneGoesByAge(db, DaysBefore(now, days));
  }

  // The first k statements ran and the next one failed, in the driver or on
  // the tables, so the store stands where they left it.
  predicate StoppedAt(db: Db, stmts: seq<Statement>, cutoff: int, failAt: nat, k: nat, now: Db) {
    && k < |stmts| && ExecuteUpTo(db, stmts, k, cutoff) == Some(now)
    && (failAt == k + 1 || Execute(now, stmts[k], cutoff).None?)
  }

  // The first n ids were all minted, are new to the table and differ.
  predicate Storable(ids: seq<Option<Id>>, n: nat, taken: set<Id>)
    requires n <= |ids|
  {
    && (forall i :: 0 <= i < n ==> ids[i].Some? && ids[i].value !in taken)
    && (forall i, j :: 0 <= i < j < n ==> ids[i] != ids[j])
  }

  lemma {:induction false} InsertFailureSticks<T>(
      rows: map<Id, Child<T>>, run: Id, ts: Instant, samples: seq<T>, ids: seq<Option<Id>>, i: nat, n: nat)
    requires i <= n <= |ids| == |samples| && InsertUpTo(rows, run, ts, samples, ids, i).None?
    ensures InsertUpTo(rows, run, ts, samples, ids, n).None?
  {
    if i == n {
    } else {
      InsertFailureSticks(rows, run, ts, samples, ids, i, n - 1);
    }
  }

  // The inserts succeed exactly when every id is minted, new and unused; the
  // table then holds what it held and the snapshot's rows, and nothing else.
  lemma {:induction false} InsertMeaning<T>(rows: map<Id, Child<T>>, run: Id, ts: Instant, samples: seq<T>, ids: seq<Option<Id>>, n: nat)
    requires n <= |ids| == |samples|
    ensures var r := InsertUpTo(rows, run, ts, samples, ids, n);
      && (r.Some? <==> Storable(ids, n, rows.Keys))
      && (r.Some? ==>
            && (forall k :: k in rows ==> k in r.value && r.value[k] == rows[k])
            && (forall i :: 0 <= i < n ==> ids[i].value in r.value && r.value[ids[i].value] == Child(run, ts, samples[i]))
            && (forall k :: k in r.value ==> k in rows || exists i :: 0 <= i < n && ids[i] == Some(k)))
  {
    if n == 0 {
    } else {
      InsertMeaning(rows, run, ts, samples, ids, n - 1);
    }
  }

  lemma {:induction false} FailureSticks(db: Db, stmts: seq<Statement>, i: nat, n: nat, cutoff: int)
    requires i <= n <= |stmts| && ExecuteUpTo(db, stmts, i, cutoff).None?
    ensures ExecuteUpTo(db, stmts, n, cutoff).None?
  {
    if i == n {
    } else {
      FailureSticks(db, stmts, i, n - 1, cutoff);
    }
  }

  lemma {:induction false} RolloverLeavesRuns(db: Db, stmts: seq<Statement>, n: nat, cutoff: int)
    requires n <= 9 && stmts == ROLLOVER + [DeleteRuns] && ExecuteUpTo(db, stmts, n, cutoff).Some?
    ensures ExecuteUpTo(db, stmts, n, cutoff).value.hot.runs == db.hot.runs
  {
    if n == 0 {
    } else {
      RolloverLeavesRuns(db, stmts, n - 1, cutoff);
      var d := ExecuteUpTo(db, stmts, n - 1, cutoff).value;
      assert stmts[n - 1] != DeleteRuns;
      assert Execute(d, stmts[n - 1], cutoff).value.hot.runs == d.hot.runs;
    }
  }

  lemma {:induction false} PruneLeavesRuns(db: Db, stmts: seq<Statement>, n: nat, cutoff: int)
    requires n <= 4 && stmts == PRUNE + [PruneRuns] && ExecuteUpTo(db, stmts, n, cutoff).Some?
    ensures ExecuteUpTo(db, stmts, n, cutoff).value.cold.runs == db.cold.runs
  {
    if n == 0 {
    } else {
      PruneLeavesRuns(db, stmts, n - 1, cutoff);
    }
  }

  lemma RemovedCount<T>(rows: map<Id, T>, ids: set<Id>)
    requires ids <= rows.Keys
    ensures |rows| - |rows - ids| == |ids|
  {
    assert (rows - ids).Keys == rows.Keys - ids;
    assert |rows.Keys - ids| == |rows.Keys| - |ids|;
  }

  // How many runs rows statement n removed.
  function LastRemoved(db: Db, stmts: seq<Statement>, n: nat, cutoff: int): int
    requires 0 < n <= |stmts| && ExecuteUpTo(db, stmts, n, cutoff).Some?
  {
    RunCount(ExecuteUpTo(db, stmts, n - 1, cutoff).value) - RunCount(ExecuteUpTo(db, stmts, n, cutoff).value)
  }

  // RowsAffected of the final DELETE is the number of aged runs, for a
  // rollover and for a prune.
  lemma RolloverCountsAged(db: Db, cutoff: int)
    requires RunBoundary(db)
    ensures ExecuteAll(db, ROLLOVER + [DeleteRuns], cutoff).Some?
    ensures LastRemoved(db, ROLLOVER + [DeleteRuns], 10, cutoff) == |Aged(db.hot.runs, cutoff)|
  {
    var stmts := ROLLOVER + [DeleteRuns];
    RolloverIsPartition(db, cutoff);
    var d := ExecuteUpTo(db, stmts, 9, cutoff).value;
    RolloverLeavesRuns(db, stmts, 9, cutoff);
    assert Execute(d, stmts[9], cutoff).value.cold.runs == d.cold.runs;
    RemovedCount(db.hot.runs, Aged(db.hot.runs, cutoff));
  }

  lemma PruneCountsExpired(db: Db, cutoff: int)
    ensures ExecuteAll(db, PRUNE + [PruneRuns], cutoff).Some?
    ensures LastRemoved(db, PRUNE + [PruneRuns], 5, cutoff) == |Aged(db.cold.runs, cutoff)|
  {
    var stmts := PRUNE + [PruneRuns];
    PruneIsForget(db, cutoff);
    var d := ExecuteUpTo(db, stmts, 4, cutoff).value;
    PruneLeavesRuns(db, stmts, 4, cutoff);
    assert Execute(d, stmts[4], cutoff).value.hot.runs == d.hot.runs;
    RemovedCount(db.cold.runs, Aged(db.cold.runs, cutoff));
  }

  // ---------- reads across both tiers ----------

  // SELECT ... FROM runs WHERE id = ? UNION ALL SELECT ... FROM runs_archive
  // WHERE id = ? LIMIT 1
  function RunById(db: Db, id: Id): Option<Run> {
    var rows :=
      (if id in db.hot.runs then [db.hot.runs[id]] else []) +
      (if id in db.cold.runs then [db.cold.runs[id]] else []);
    if rows == [] then None else Some(rows[0])
  }

  type CheckRow = (Id, Child<CheckBody>)

  predicate InIdOrder(rows: seq<CheckRow>) {
    forall i, j :: 0 <= i < j < |rows| ==> !Less(rows[j].0, rows[i].0)
  }

  // A possible answer of the two checks legs under UNION ALL ... ORDER BY id.
  predicate IsChecksByRun(db: Db, run: Id, out: seq<CheckRow>) {
    && InIdOrder(out)
    && multiset(out) == multiset(OfRuns(db.hot.checks, {run}).Items) + multiset(OfRuns(db.cold.checks, {run}).Items)
  }
}
