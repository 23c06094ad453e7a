// A reachable store in which the cooldown is not kept: the write that records
// the action of a reboot was lost.
module LostAction {
  import opened Instants
  import opened Options
  import opened Runs
  import opened Uuid
  import opened Generator
  import opened Tables
  import opened Verdicts
  import opened Watchdog
  import opened Passes
  import opened Guards
  import opened WatchHistory
  import H = History

  ghost predicate Reachable(s: Settings, f: Fleet) {
    exists fleets, moves :: IsWatch(s, fleets, moves) && fleets[|moves|] == f
  }

  lemma StartIsReachable(s: Settings)
    ensures Reachable(s, EMPTY_FLEET)
  {
    assert IsWatch(s, [EMPTY_FLEET], []);
  }

  lemma OneMoveOn(s: Settings, f: Fleet, move: Move)
    requires Reachable(s, f) && WatchHistory.Enabled(s, f, move)
    ensures Reachable(s, WatchHistory.Next(s, f, move))
  {
    var fleets, moves :| IsWatch(s, fleets, moves) && fleets[|moves|] == f;
    var fleets', moves' := fleets + [WatchHistory.Next(s, f, move)], moves + [move];
    Extended(s, fleets, moves, fleets', moves', move);
  }

  lemma Extended(s: Settings, fleets: seq<Fleet>, moves: seq<Move>, fleets': seq<Fleet>, moves': seq<Move>, move: Move)
    requires IsWatch(s, fleets, moves) && WatchHistory.Enabled(s, fleets[|moves|], move)
    requires fleets' == fleets + [WatchHistory.Next(s, fleets[|moves|], move)] && moves' == moves + [move]
    ensures IsWatch(s, fleets', moves')
  {
    forall k | 0 <= k < |moves'|
      ensures WatchHistory.Enabled(s, fleets'[k], moves'[k])
      ensures fleets'[k + 1] == WatchHistory.Next(s, fleets'[k], moves'[k])
    {
      if k < |moves| {
        assert fleets'[k] == fleets[k] && moves'[k] == moves[k] && fleets'[k + 1] == fleets[k + 1];
      }
    }
  }

  lemma ReachableKeeps(s: Settings, f: Fleet)
    requires Reachable(s, f)
    ensures WatchHistory.Inv(s, f)
  {
    var fleets, moves :| IsWatch(s, fleets, moves) && fleets[|moves|] == f;
    WatchKeeps(s, fleets, moves, |moves|);
  }

  // ---------- a running pass makes the calls it is given ----------

  ghost predicate SameIds(a: Db, b: Db) {
    H.IdTables(a) == H.IdTables(b)
  }

  // From f, where the pass of `id` is running, to g, where it made these calls.
  ghost predicate Played(f: Fleet, g: Fleet, id: Id, calls: seq<Call>) {
    && f.running == g.running == Some(id) && id in f.passes && id in g.passes && g.sys.up
    && g.passes[id] == f.passes[id].(calls := calls)
    && g.sys.db.hot.runs == f.sys.db.hot.runs[id := Row(g.passes[id])]
    && SameIds(f.sys.db, g.sys.db)
  }

  lemma UpdateKeepsIds(sys: H.Sys, id: Id, u: RunUpdate)
    requires H.Enabled(sys, H.Update(id, u))
    ensures SameIds(sys.db, H.Next(sys, H.Update(id, u)).db)
  {
    assert sys.db.hot.runs[id := Apply(sys.db.hot.runs[id], u)].Keys == sys.db.hot.runs.Keys;
  }

  lemma GoKeepsIds(s: Settings, f: Fleet, ok: bool)
    requires WatchHistory.Enabled(s, f, Go(ok))
    ensures SameIds(f.sys.db, WatchHistory.Next(s, f, Go(ok)).sys.db)
  {
    var what := NextAttempt(s, f.passes[f.running.value]);
    if ok && what.UpdateRun? {
      UpdateKeepsIds(f.sys, f.running.value, what.update);
    }
  }

  lemma GoIsEnabled(s: Settings, f: Fleet, id: Id, ok: bool)
    requires WatchHistory.Inv(s, f) && f.running == Some(id) && id in f.passes && HasNext(s, f.passes[id])
    ensures WatchHistory.Enabled(s, f, Go(ok)) && f.sys.up
  {
  }

  lemma PlayOne(s: Settings, f: Fleet, id: Id, next: Call) returns (g: Fleet)
    requires Reachable(s, f) && f.running == Some(id) && id in f.passes && HasNext(s, f.passes[id])
    requires NextAttempt(s, f.passes[id]) == next.what
    ensures Reachable(s, g) && Played(f, g, id, f.passes[id].calls + [next])
  {
    ReachableKeeps(s, f);
    GoIsEnabled(s, f, id, next.ok);
    g := WatchHistory.Next(s, f, Go(next.ok));
    OneMoveOn(s, f, Go(next.ok));
    GoSets(s, f, next.ok);
    GoKeepsIds(s, f, next.ok);
  }

  lemma PlayedOn(f: Fleet, g: Fleet, h: Fleet, id: Id, some: seq<Call>, all: seq<Call>)
    requires Played(f, g, id, some) && Played(g, h, id, all)
    ensures Played(f, h, id, all)
  {
  }

  lemma SplitAt(done: seq<Call>, calls: seq<Call>)
    requires done < calls
    ensures done + [calls[|done|]] <= calls
    ensures |done| + 1 == |calls| ==> done + [calls[|done|]] == calls
  {
    assert calls[..|done| + 1] == done + [calls[|done|]];
  }

  lemma {:induction false} PlayCalls(s: Settings, f: Fleet, id: Id, calls: seq<Call>) returns (g: Fleet)
    requires Reachable(s, f) && f.running == Some(id) && id in f.passes
    requires f.passes[id].calls < calls && Traced(s, f.passes[id].(calls := calls))
    ensures Reachable(s, g) && Played(f, g, id, calls)
    decreases |calls| - |f.passes[id].calls|
  {
    var done := f.passes[id].calls;
    var some := done + [calls[|done|]];
    SplitAt(done, calls);
    NextIs(s, f.passes[id], calls);
    var one := PlayOne(s, f, id, calls[|done|]);
    if |some| == |calls| {
      g := one;
    } else {
      g := PlayCalls(s, one, id, calls);
      PlayedOn(f, one, g, id, some, calls);
    }
  }

  lemma NextIs(s: Settings, e: Entry, calls: seq<Call>)
    requires e.calls < calls && Traced(s, e.(calls := calls))
    ensures HasNext(s, e) && NextAttempt(s, e) == calls[|e.calls|].what
  {
    var acts := FullPass(s, e.world, e.mode).acts;
    assert Attempts(calls) == acts[..|calls|];
    assert Attempts(e.calls) == acts[..|e.calls|] by {
      assert forall i :: 0 <= i < |e.calls| ==> Attempts(e.calls)[i] == Attempts(calls)[i];
    }
    assert acts[|e.calls|] == Attempts(calls)[|e.calls|];
  }

  // ---------- a process starts ----------

  ghost predicate Bounded(db: Db, ms: int) {
    forall i :: 0 <= i < 8 ==> forall id :: id in H.IdTables(db)[i] ==> id.ms <= ms
  }

  lemma StoredIsCanonical(sys: H.Sys)
    requires H.Inv(sys)
    ensures H.AllCanonical(sys.db)
  {
    forall i, id | 0 <= i < 8 && id in H.IdTables(sys.db)[i]
      ensures Canonical(id)
    {
      assert H.Stored(sys.db, id);
      H.StoredIsFlat(sys, id);
    }
  }

  lemma SeedIsBounded(db: Db, ms: int)
    requires H.AllCanonical(db) && Bounded(db, ms) && ms >= 0
    ensures SeedAll(Watermark(0, 0), H.MaxTexts(db)).ms <= ms
  {
    var texts := H.MaxTexts(db);
    H.TextsDecode(db);
    SeedAllIsMaximum(Watermark(0, 0), texts);
    var w := SeedAll(Watermark(0, 0), texts);
    if w != Watermark(0, 0) {
      var i :| 0 <= i < |texts| && Carries(texts[i], w);
      var top := H.MaxId(H.IdTables(db)[i]);
      assert texts[i] == H.MaxText(H.IdTables(db)[i]);
      DecodeText(top.value);
    }
  }

  const ZEROS: seq<Byte> := [0, 0, 0, 0, 0, 0, 0, 0]

  lemma OpenStore(s: Settings, f: Fleet, ms: int) returns (g: Fleet)
    requires Reachable(s, f) && !f.sys.up && f.running.None? && Bounded(f.sys.db, ms) && ms >= 0
    ensures Reachable(s, g) && g.sys.up && g.running.None? && g.sys.db == f.sys.db
    ensures g.sys.main == [] && g.sys.mark.ms <= ms
  {
    ReachableKeeps(s, f);
    StoredIsCanonical(f.sys);
    SeedIsBounded(f.sys.db, ms);
    OneMoveOn(s, f, System(H.Open));
    g := WatchHistory.Next(s, f, System(H.Open));
  }

  lemma MintId(s: Settings, f: Fleet, at: Instant, ms: int) returns (g: Fleet)
    requires Reachable(s, f) && f.sys.up && f.running.None? && f.sys.main == []
    requires f.sys.mark.ms <= ms && UnixMilli(at) <= ms < MS_SPAN - 1
    ensures Reachable(s, g) && g.sys.up && g.running.None? && g.sys.db == f.sys.db
    ensures |g.sys.main| == 1 && g.sys.main[0].ts == at && g.sys.main[0].id.ms <= ms + 1
  {
    var mint := System(H.Mint(H.Main, at, Some((0, 0)), Some(ZEROS)));
    OneMoveOn(s, f, mint);
    g := WatchHistory.Next(s, f, mint);
  }

  // ---------- a reboot whose action is lost ----------

  const HOURLY := Settings(true, 3600 * SECOND, SECOND, SECOND, 0, 1)

  function OutageAt(at: Instant): World {
    Outage(HOURLY, at, Ok([]), None)
  }

  const ACTION := UpdateRun(KEEP.(action := Some(Action.Reboot)))

  // The calls up to the stored reboot time; the store loses the action.
  function ActionLost(at: Instant): (calls: seq<Call>)
    ensures Attempts(calls) == UpToStamp(HOURLY, OutageAt(at))
  {
    var acts := UpToStamp(HOURLY, OutageAt(at));
    seq(|acts|, i requires 0 <= i < |acts| => Call(acts[i], acts[i] != ACTION))
  }

  function LostEntry(at: Instant): Entry {
    Entry(Soft, OutageAt(at), ActionLost(at))
  }

  function LostRow(at: Instant): Run {
    NewRow(OutageAt(at), Soft).(rebootStartedAt := Some(WholeSeconds(at)))
  }

  lemma {:induction false} LostWrites(row: Run, calls: seq<Call>)
    requires forall i :: 0 <= i < |calls| ==> !calls[i].what.UpdateRun? || !calls[i].ok
    ensures Written(row, calls) == row
  {
    if calls == [] {
    } else {
      LostWrites(row, calls[..|calls| - 1]);
    }
  }

  lemma OutageIsQuiet(at: Instant)
    ensures Quiet(OpeningSoft(OutageAt(at)) + Verifying(HOURLY, OutageAt(at)))
  {
    var w := OutageAt(at);
    OutageIsDown(HOURLY, at, Ok([]), None);
    DecisiveMeaning(HOURLY, w);
    RoundChecksAreChecks(w, Rounds(HOURLY, w, 0));
  }

  lemma LostEntryIsTraced(at: Instant)
    ensures Traced(HOURLY, LostEntry(at))
  {
    OutageIsDown(HOURLY, at, Ok([]), None);
    UpToStampIsPrefix(HOURLY, OutageAt(at));
  }

  // Every call but the last leaves the row alone.
  lemma LostCalls(at: Instant)
    ensures var calls := ActionLost(at);
      && |calls| > 0 && calls[|calls| - 1] == Call(UpdateRun(KEEP.(rebootStartedAt := Some(at))), true)
      && forall i :: 0 <= i < |calls| - 1 ==> !calls[i].what.UpdateRun? || !calls[i].ok
  {
    var w := OutageAt(at);
    var head, acts := OpeningSoft(w) + Verifying(HOURLY, w), UpToStamp(HOURLY, w);
    OutageIsQuiet(at);
    var n := |head|;
    assert acts[n] == Flush && acts[n + 1] == ACTION && acts[n + 2] == Notify(Initiated(Soft)) && acts[n + 3] == RebootRouter;
    assert acts[n + 4] == UpdateRun(KEEP.(rebootStartedAt := Some(at))) && |acts| == n + 5;
    forall i | 0 <= i < |acts| - 1
      ensures !acts[i].UpdateRun? || acts[i] == ACTION
    {
      if i < n {
        assert acts[i] == head[i];
      }
    }
  }

  lemma LostEntryRow(at: Instant)
    ensures Row(LostEntry(at)) == LostRow(at)
  {
    var calls := ActionLost(at);
    LostCalls(at);
    LostWrites(NewRow(OutageAt(at), Soft), calls[..|calls| - 1]);
  }

  lemma FirstOfLost(at: Instant)
    ensures [FirstCall(OutageAt(at), Soft)] < ActionLost(at)
  {
    var acts := UpToStamp(HOURLY, OutageAt(at));
    assert acts[0] == FirstRow(OutageAt(at));
    assert ActionLost(at)[0] == Call(acts[0], true);
  }

  predicate NoneRebooted(runs: Table) {
    forall id :: id in runs ==> !Rebooted(runs[id])
  }

  lemma LostPassAsks(runs: Table, id: Id, at: Instant)
    requires NoneRebooted(runs)
    ensures Asked(HOURLY, runs[id := NewRow(OutageAt(at), Soft)], id, OutageAt(at))
  {
    AskedIsInformed(HOURLY, runs[id := NewRow(OutageAt(at), Soft)], id, OutageAt(at));
  }

  lemma LostPassBegins(f: Fleet, at: Instant) returns (g: Fleet)
    requires Reachable(HOURLY, f) && f.sys.up && f.running.None? && |f.sys.main| == 1 && f.sys.main[0].ts == at
    requires NoneRebooted(f.sys.db.hot.runs)
    ensures var id := f.sys.main[0].id;
      && Reachable(HOURLY, g) && g.running == Some(id) && id in g.passes && id !in f.sys.db.hot.runs
      && g.passes[id] == Entry(Soft, OutageAt(at), [FirstCall(OutageAt(at), Soft)])
      && g.sys.db == f.sys.db.(hot := f.sys.db.hot.(runs := f.sys.db.hot.runs[id := NewRow(OutageAt(at), Soft)]))
      && IsNewest(g.sys.db.hot.runs, id)
  {
    var w, id := OutageAt(at), f.sys.main[0].id;
    ReachableKeeps(HOURLY, f);
    OutageIsDown(HOURLY, at, Ok([]), None);
    InsertionAdds(f.sys, w, Soft);
    LostPassAsks(f.sys.db.hot.runs, id, at);
    OneMoveOn(HOURLY, f, Begin(Soft, w));
    g := WatchHistory.Next(HOURLY, f, Begin(Soft, w));
    assert IsNewest(g.sys.db.hot.runs, id) by {
      ReachableKeeps(HOURLY, g);
      HotIsPart(g.sys);
    }
  }

  // One process: it opens the store, reboots at `at`, loses the action write
  // and dies after storing the time.
  lemma LostPass(f: Fleet, at: Instant, ms: int) returns (g: Fleet, id: Id)
    requires Reachable(HOURLY, f) && !f.sys.up && f.running.None?
    requires Bounded(f.sys.db, ms) && 0 <= UnixMilli(at) <= ms < MS_SPAN - 1
    requires NoneRebooted(f.sys.db.hot.runs)
    ensures Reachable(HOURLY, g) && !g.sys.up && g.running.None? && Bounded(g.sys.db, ms + 1)
    ensures id !in f.sys.db.hot.runs && g.sys.db.hot.runs == f.sys.db.hot.runs[id := LostRow(at)]
    ensures IsNewest(g.sys.db.hot.runs, id) && NoneRebooted(g.sys.db.hot.runs)
  {
    var empty := OpenStore(HOURLY, f, ms);
    var booted := MintId(HOURLY, empty, at, ms);
    id := booted.sys.main[0].id;
    var begun := LostPassBegins(booted, at);
    g := LostPassDies(begun, id, at);
    BoundedGrows(f.sys.db, begun.sys.db, id, NewRow(OutageAt(at), Soft), ms);
    BoundedStays(begun.sys.db, g.sys.db, ms + 1);
    RowReplaced(f.sys.db.hot.runs, id, NewRow(OutageAt(at), Soft), LostRow(at));
  }

  lemma LostPassDies(begun: Fleet, id: Id, at: Instant) returns (g: Fleet)
    requires Reachable(HOURLY, begun) && begun.running == Some(id) && id in begun.passes
    requires begun.passes[id] == Entry(Soft, OutageAt(at), [FirstCall(OutageAt(at), Soft)])
    ensures Reachable(HOURLY, g) && !g.sys.up && g.running.None? && SameIds(begun.sys.db, g.sys.db)
    ensures g.sys.db.hot.runs == begun.sys.db.hot.runs[id := LostRow(at)]
  {
    LostEntryIsTraced(at);
    LostEntryRow(at);
    FirstOfLost(at);
    var played := PlayCalls(HOURLY, begun, id, ActionLost(at));
    OneMoveOn(HOURLY, played, System(H.Crash));
    g := WatchHistory.Next(HOURLY, played, System(H.Crash));
  }

  lemma BoundedStays(before: Db, after: Db, ms: int)
    requires Bounded(before, ms) && SameIds(before, after)
    ensures Bounded(after, ms)
  {
  }

  lemma RowReplaced(runs: Table, id: Id, r: Run, final: Run)
    requires NoneRebooted(runs) && !Rebooted(final) && IsNewest(runs[id := r], id)
    ensures runs[id := r][id := final] == runs[id := final]
    ensures NoneRebooted(runs[id := final]) && IsNewest(runs[id := final], id)
  {
    assert forall x :: x in runs ==> x in runs[id := r];
  }

  lemma BoundedGrows(before: Db, after: Db, id: Id, r: Run, ms: int)
    requires Bounded(before, ms) && id.ms <= ms + 1
    requires after == before.(hot := before.hot.(runs := before.hot.runs[id := r]))
    ensures Bounded(after, ms + 1)
  {
    forall i, x | 0 <= i < 8 && x in H.IdTables(after)[i]
      ensures x.ms <= ms + 1
    {
      assert x != id ==> x in H.IdTables(before)[i];
    }
  }

  // Two soft passes reboot one second apart under an hour's cooldown, each with
  // its time stored and hot, because the first lost its action write.
  lemma LostActionLosesCooldown() returns (fleets: seq<Fleet>, moves: seq<Move>, a: Id, b: Id)
    ensures IsWatch(HOURLY, fleets, moves)
    ensures var hot := fleets[|moves|].sys.db.hot.runs;
      && a in hot && b in hot && Less(a, b)
      && hot[a].mode.Soft? && hot[b].mode.Soft?
      && hot[a].rebootStartedAt == Some(0) && hot[b].rebootStartedAt == Some(1)
  {
    StartIsReachable(HOURLY);
    assert Bounded(EMPTY_FLEET.sys.db, 2000) by {
      assert forall i :: 0 <= i < 8 ==> H.IdTables(EMPTY_FLEET.sys.db)[i] == {};
    }
    var once, first := LostPass(EMPTY_FLEET, 0, 2000);
    var twice, second := LostPass(once, SECOND, 2001);
    a, b := first, second;
    assert a in twice.sys.db.hot.runs;
    fleets, moves :| IsWatch(HOURLY, fleets, moves) && fleets[|moves|] == twice;
  }
}
