// Whole histories of watchdog passes over the store: every run insert and
// update of a history is a call of some pass, and each pass's guards read the
// hot runs table the history has reached.
module WatchHistory {
  import opened Instants
  import opened Options
  import opened Runs
  import opened Uuid
  import opened Tables
  import opened Verdicts
  import opened Watchdog
  import opened Passes
  import opened Guards
  import H = History

  // A pass and the id of its run.
  datatype Record = Record(id: Id, entry: Entry)

  // The store's history, the passes by run id, all of them in the order they
  // began, and the one the current process is running.
  datatype Fleet = Fleet(sys: H.Sys, passes: map<Id, Entry>, log: seq<Record>, running: Option<Id>)

  // A step of the store that no pass decides; a pass inserting its row; the
  // running pass making its next call, which the store takes or fails. A pass
  // ends, early or not, with its process (Crash).
  datatype Move = System(step: H.Step) | Begin(mode: Mode, world: World) | Go(ok: bool)

  const EMPTY_FLEET := Fleet(H.START, map[], [], None)

  function FirstCall(w: World, mode: Mode): Call {
    Call(InsertRun(w.startedAt, mode, NewRow(w, mode).internetOk), true)
  }

  function Insertion(w: World, mode: Mode): H.Step {
    H.PutRun(mode, NewRow(w, mode).internetOk)
  }

  ghost predicate HasNext(s: Settings, e: Entry) {
    Traced(s, e) && |e.calls| < |FullPass(s, e.world, e.mode).acts|
  }

  ghost function NextAttempt(s: Settings, e: Entry): Attempt
    requires HasNext(s, e)
  {
    FullPass(s, e.world, e.mode).acts[|e.calls|]
  }

  // The queries of a new pass see the table with its own row in it.
  ghost predicate Asks(s: Settings, hot: Table, id: Id, mode: Mode, w: World) {
    Asked(s, hot[id := NewRow(w, mode)], id, w)
  }

  // Maintenance comes before the pass of its process. A pass starts with an id
  // its process minted for that moment, and its queries answer from the table.
  ghost predicate Enabled(s: Settings, f: Fleet, move: Move) {
    match move
    case System(step) =>
      && !step.PutRun? && !step.Update? && H.Enabled(f.sys, step)
      && (step.Rollover? || step.Prune? ==> f.running.None?)
    case Begin(mode, w) =>
      && f.running.None? && H.Enabled(f.sys, Insertion(w, mode))
      && Advances(s, w) && w.inserted && f.sys.main[0].ts == w.startedAt
      && Asks(s, f.sys.db.hot.runs, f.sys.main[0].id, mode, w)
    case Go(ok) =>
      && f.running.Some? && f.running.value in f.passes && HasNext(s, f.passes[f.running.value])
      && var what := NextAttempt(s, f.passes[f.running.value]);
      (ok && what.UpdateRun? ==> H.Enabled(f.sys, H.Update(f.running.value, what.update)))
  }

  ghost function LogAfter(s: Settings, f: Fleet, move: Move): seq<Record>
    requires Enabled(s, f, move)
  {
    match move
    case System(_) => f.log
    case Begin(mode, w) => f.log + [BeginRecord(f.sys.main, mode, w)]
    case Go(ok) =>
      var e := f.passes[f.running.value];
      Relogged(f.log, Called(e, NextAttempt(s, e), ok))
  }

  ghost function Next(s: Settings, f: Fleet, move: Move): Fleet
    requires Enabled(s, f, move)
  {
    match move
    case System(step) => f.(sys := H.Next(f.sys, step), running := if step.Crash? then None else f.running)
    case Begin(mode, w) =>
      var r := BeginRecord(f.sys.main, mode, w);
      Fleet(H.Next(f.sys, Insertion(w, mode)), f.passes[r.id := r.entry], LogAfter(s, f, move), Some(r.id))
    case Go(ok) =>
      var id, what := f.running.value, NextAttempt(s, f.passes[f.running.value]);
      var e := Called(f.passes[id], what, ok);
      Fleet(if ok && what.UpdateRun? then H.Next(f.sys, H.Update(id, what.update)) else f.sys,
            f.passes[id := e], LogAfter(s, f, move), f.running)
  }

  function BeginRecord(main: seq<H.Pending>, mode: Mode, w: World): Record
    requires main != []
  {
    Record(main[0].id, Entry(mode, w, [FirstCall(w, mode)]))
  }

  function Called(e: Entry, what: Attempt, ok: bool): Entry {
    e.(calls := e.calls + [Call(what, ok)])
  }

  // The running pass is the last of the log.
  function Relogged(log: seq<Record>, e: Entry): seq<Record> {
    if log == [] then log else log[|log| - 1 := log[|log| - 1].(entry := e)]
  }

  ghost predicate IsWatch(s: Settings, fleets: seq<Fleet>, moves: seq<Move>) {
    && |fleets| == |moves| + 1
    && fleets[0] == EMPTY_FLEET
    && forall k :: 0 <= k < |moves| ==>
         Enabled(s, fleets[k], moves[k]) && fleets[k + 1] == Next(s, fleets[k], moves[k])
  }

  // ---------- it is a history of the store ----------

  // What every history of the store promises holds of every watch.
  lemma {:induction false} WatchIsHistory(s: Settings, fleets: seq<Fleet>, moves: seq<Move>, k: nat)
    returns (states: seq<H.Sys>, steps: seq<H.Step>)
    requires IsWatch(s, fleets, moves) && k < |fleets|
    ensures H.IsHistory(states, steps) && states[|steps|] == fleets[k].sys
  {
    if k == 0 {
      states, steps := [H.START], [];
    } else {
      states, steps := WatchIsHistory(s, fleets, moves, k - 1);
      var f, move := fleets[k - 1], moves[k - 1];
      var step := StoreStep(s, f, move);
      if step.Some? {
        states, steps := OneMoreStep(states, steps, step.value);
      }
    }
  }

  // The store's part in a move, if it has one.
  ghost function StoreStep(s: Settings, f: Fleet, move: Move): (step: Option<H.Step>)
    requires Enabled(s, f, move)
    ensures step.Some? ==> H.Enabled(f.sys, step.value) && Next(s, f, move).sys == H.Next(f.sys, step.value)
    ensures step.None? ==> Next(s, f, move).sys == f.sys
  {
    match move
    case System(step) => Some(step)
    case Begin(mode, w) => Some(Insertion(w, mode))
    case Go(ok) =>
      var what := NextAttempt(s, f.passes[f.running.value]);
      if ok && what.UpdateRun? then Some(H.Update(f.running.value, what.update)) else None
  }

  lemma OneMoreStep(states: seq<H.Sys>, steps: seq<H.Step>, step: H.Step) returns (states': seq<H.Sys>, steps': seq<H.Step>)
    requires H.IsHistory(states, steps) && H.Enabled(states[|steps|], step)
    ensures H.IsHistory(states', steps') && states'[|steps'|] == H.Next(states[|steps|], step)
  {
    states', steps' := states + [H.Next(states[|steps|], step)], steps + [step];
    forall i | 0 <= i < |steps'|
      ensures H.Enabled(states'[i], steps'[i]) && states'[i + 1] == H.Next(states'[i], steps'[i])
    {
      if i < |steps| {
        assert states'[i] == states[i] && steps'[i] == steps[i] && states'[i + 1] == states[i + 1];
      }
    }
  }

  // ---------- the invariant ----------

  // Every stored run is the row its pass wrote.
  ghost predicate RowsAreWritten(s: Settings, runs: Table, passes: map<Id, Entry>) {
    forall id :: id in runs ==> id in passes && Traced(s, passes[id]) && runs[id] == Row(passes[id])
  }

  predicate SpacedTable(s: Settings, runs: Table) {
    forall a, b :: a in runs && b in runs && Less(a, b) ==> SpacedFrom(s, runs[a], runs[b])
  }

  predicate IsNewest(runs: Table, id: Id) {
    forall x :: x in runs ==> x == id || Less(x, id)
  }

  // The running pass: its run is hot and the newest, and its answers are those
  // of the rest of the table.
  ghost predicate RunningInv(s: Settings, up: bool, hot: Table, flat: Table, passes: map<Id, Entry>, running: Option<Id>) {
    running.Some? ==>
      && var id := running.value;
      && up && id in hot && id in passes && IsNewest(flat, id)
      && Informed(s, hot - {id}, id, passes[id].world)
  }

  ghost predicate LogInv(flat: Table, passes: map<Id, Entry>, log: seq<Record>, running: Option<Id>) {
    if log == [] then flat == map[] && running.None?
    else
      var last := log[|log| - 1];
      && IsNewest(flat, last.id) && last.id in passes && passes[last.id] == last.entry
      && (running.Some? ==> running.value == last.id)
  }

  ghost predicate PassInv(
      s: Settings, up: bool, hot: Table, flat: Table, passes: map<Id, Entry>, log: seq<Record>, running: Option<Id>) {
    && RowsAreWritten(s, flat, passes)
    && SpacedTable(s, hot)
    && RunningInv(s, up, hot, flat, passes, running)
    && LogInv(flat, passes, log, running)
  }

  ghost predicate Inv(s: Settings, f: Fleet) {
    && H.Inv(f.sys)
    && PassInv(s, f.sys.up, f.sys.db.hot.runs, f.sys.flat.runs, f.passes, f.log, f.running)
  }

  // ---------- steps of the store ----------

  lemma HotIsFlat(sys: H.Sys, id: Id)
    requires H.Inv(sys) && id in sys.db.hot.runs
    ensures id in sys.flat.runs && sys.flat.runs[id] == sys.db.hot.runs[id]
  {
  }

  lemma HotRowsAreWritten(s: Settings, f: Fleet)
    requires Inv(s, f)
    ensures RowsAreWritten(s, f.sys.db.hot.runs, f.passes)
  {
    forall id | id in f.sys.db.hot.runs
      ensures id in f.passes && Traced(s, f.passes[id]) && f.sys.db.hot.runs[id] == Row(f.passes[id])
    {
      HotIsFlat(f.sys, id);
    }
  }

  // Apart from maintenance a store step leaves the runs alone.
  lemma RunsStay(sys: H.Sys, step: H.Step)
    requires H.Enabled(sys, step) && !step.PutRun? && !step.Update? && !step.Rollover? && !step.Prune?
    ensures H.Next(sys, step).db.hot.runs == sys.db.hot.runs && H.Next(sys, step).flat.runs == sys.flat.runs
    ensures H.Next(sys, step).up == if step.Open? then true else if step.Crash? then false else sys.up
  {
  }

  lemma RolloverTakes(sys: H.Sys, cutoff: int)
    requires H.Inv(sys) && H.Enabled(sys, H.Rollover(cutoff))
    ensures var t := H.Next(sys, H.Rollover(cutoff));
      t.db.hot.runs == sys.db.hot.runs - Aged(sys.db.hot.runs, cutoff) && t.flat == sys.flat && t.up == sys.up
  {
    RolloverIsPartition(sys.db, cutoff);
  }

  lemma PruneTakes(sys: H.Sys, cutoff: int)
    requires H.Inv(sys) && H.Enabled(sys, H.Prune(cutoff))
    ensures var t := H.Next(sys, H.Prune(cutoff));
      && t.db.hot.runs == sys.db.hot.runs && t.up == sys.up
      && t.flat.runs == sys.flat.runs - Aged(sys.db.cold.runs, cutoff)
  {
    PruneIsForget(sys.db, cutoff);
  }

  lemma SystemKeeps(s: Settings, f: Fleet, step: H.Step)
    requires Inv(s, f) && Enabled(s, f, System(step))
    ensures Inv(s, Next(s, f, System(step)))
  {
    H.StepKeeps(f.sys, step);
    match step
    case Rollover(cutoff) => RolloverTakes(f.sys, cutoff);
    case Prune(cutoff) => PruneTakes(f.sys, cutoff);
    case _ => RunsStay(f.sys, step);
  }

  // ---------- a pass begins ----------

  lemma FirstCallIsTraced(s: Settings, w: World, mode: Mode)
    requires Advances(s, w) && w.inserted
    ensures Traced(s, Entry(mode, w, [FirstCall(w, mode)]))
    ensures Row(Entry(mode, w, [FirstCall(w, mode)])) == NewRow(w, mode)
  {
    var calls := [FirstCall(w, mode)];
    assert Attempts(calls) == [calls[0].what];
    assert calls[..0] == [] && Written(NewRow(w, mode), []) == NewRow(w, mode);
  }

  lemma InsertionAdds(sys: H.Sys, w: World, mode: Mode)
    requires H.Inv(sys) && H.Enabled(sys, Insertion(w, mode)) && sys.main[0].ts == w.startedAt
    ensures var t := H.Next(sys, Insertion(w, mode));
      var id := sys.main[0].id;
      && id !in sys.flat.runs && id !in sys.db.hot.runs && t.up
      && t.db.hot.runs == sys.db.hot.runs[id := NewRow(w, mode)]
      && t.flat.runs == sys.flat.runs[id := NewRow(w, mode)]
      && IsNewest(t.flat.runs, id)
  {
    var id := sys.main[0].id;
    assert H.AheadOf(sys.main, sys.flat.runs.Keys);
    assert id !in sys.flat.runs;
  }

  lemma RowsStayWritten(s: Settings, runs: Table, passes: map<Id, Entry>, id: Id, e: Entry)
    requires RowsAreWritten(s, runs, passes) && Traced(s, e)
    ensures RowsAreWritten(s, runs[id := Row(e)], passes[id := e])
  {
  }

  lemma BeginKeepsPasses(s: Settings, hot: Table, flat: Table, passes: map<Id, Entry>, log: seq<Record>, id: Id, e: Entry)
    requires PassInv(s, true, hot, flat, passes, log, None)
    requires id !in hot && id !in flat && IsNewest(flat[id := Row(e)], id) && forall x :: x in hot ==> x in flat
    requires Traced(s, e) && Row(e) == NewRow(e.world, e.mode) && Asked(s, hot[id := Row(e)], id, e.world)
    ensures PassInv(s, true, hot[id := Row(e)], flat[id := Row(e)], passes[id := e], log + [Record(id, e)], Some(id))
  {
    RowsStayWritten(s, flat, passes, id, e);
    NewRowIsSpaced(s, hot, id, Row(e));
    AskedIsInformed(s, hot[id := Row(e)], id, e.world);
    OwnRowIsInvisible(s, hot, id, Row(e), e.world);
    assert hot[id := Row(e)] - {id} == hot;
  }

  lemma BeginKeeps(s: Settings, f: Fleet, mode: Mode, w: World)
    requires Inv(s, f) && Enabled(s, f, Begin(mode, w))
    ensures Inv(s, Next(s, f, Begin(mode, w)))
  {
    var id, e := f.sys.main[0].id, Entry(mode, w, [FirstCall(w, mode)]);
    H.StepKeeps(f.sys, Insertion(w, mode));
    InsertionAdds(f.sys, w, mode);
    FirstCallIsTraced(s, w, mode);
    HotIsPart(f.sys);
    BeginKeepsPasses(s, f.sys.db.hot.runs, f.sys.flat.runs, f.passes, f.log, id, e);
  }

  lemma HotIsPart(sys: H.Sys)
    requires H.Inv(sys)
    ensures forall id :: id in sys.db.hot.runs ==> id in sys.flat.runs && sys.flat.runs[id] == sys.db.hot.runs[id]
  {
    forall id | id in sys.db.hot.runs
      ensures id in sys.flat.runs && sys.flat.runs[id] == sys.db.hot.runs[id]
    {
      HotIsFlat(sys, id);
    }
  }

  lemma NewRowIsSpaced(s: Settings, runs: Table, id: Id, r: Run)
    requires SpacedTable(s, runs) && id !in runs && IsNewest(runs, id) && r.rebootStartedAt.None?
    ensures SpacedTable(s, runs[id := r])
  {
  }

  // ---------- a pass makes a call ----------

  lemma CalledIsTraced(s: Settings, e: Entry, ok: bool)
    requires HasNext(s, e)
    ensures var e' := Called(e, NextAttempt(s, e), ok);
      && Traced(s, e')
      && Row(e') == if ok then Wrote(Row(e), NextAttempt(s, e)) else Row(e)
  {
    var acts, e' := FullPass(s, e.world, e.mode).acts, Called(e, NextAttempt(s, e), ok);
    assert e'.calls[..|e.calls|] == e.calls;
    assert Attempts(e'.calls) == acts[..|e.calls| + 1] by {
      assert Attempts(e.calls) == acts[..|e.calls|];
    }
  }

  lemma UpdateSets(sys: H.Sys, id: Id, u: RunUpdate)
    requires H.Inv(sys) && H.Enabled(sys, H.Update(id, u))
    ensures var t := H.Next(sys, H.Update(id, u));
      && t.db.hot.runs == sys.db.hot.runs[id := Apply(sys.db.hot.runs[id], u)]
      && t.flat.runs == sys.flat.runs[id := Apply(sys.flat.runs[id], u)]
      && t.up == sys.up && H.Inv(t)
  {
    HotIsFlat(sys, id);
    H.StepKeeps(sys, H.Update(id, u));
  }

  lemma Unchanged(runs: Table, id: Id)
    requires id in runs
    ensures runs[id := runs[id]] == runs
  {
  }

  // Whatever the call, the tables after it hold the new row.
  lemma GoSets(s: Settings, f: Fleet, ok: bool)
    requires Inv(s, f) && Enabled(s, f, Go(ok))
    ensures var g, id := Next(s, f, Go(ok)), f.running.value;
      && H.Inv(g.sys) && g.sys.up == f.sys.up
      && id in f.sys.db.hot.runs && id in f.sys.flat.runs
      && Traced(s, g.passes[id]) && g.passes[id].world == f.passes[id].world
      && g.sys.db.hot.runs == f.sys.db.hot.runs[id := Row(g.passes[id])]
      && g.sys.flat.runs == f.sys.flat.runs[id := Row(g.passes[id])]
  {
    var id, e := f.running.value, f.passes[f.running.value];
    var what := NextAttempt(s, e);
    CalledIsTraced(s, e, ok);
    HotIsFlat(f.sys, id);
    if ok && what.UpdateRun? {
      UpdateSets(f.sys, id, what.update);
    } else {
      Unchanged(f.sys.db.hot.runs, id);
      Unchanged(f.sys.flat.runs, id);
    }
  }

  lemma RunningRowIsSpaced(s: Settings, runs: Table, id: Id, e: Entry)
    requires SpacedTable(s, runs) && id in runs && IsNewest(runs, id)
    requires Traced(s, e) && Informed(s, runs - {id}, id, e.world)
    ensures SpacedTable(s, runs[id := Row(e)])
  {
    forall a | a in runs && a != id
      ensures SpacedFrom(s, runs[a], Row(e))
    {
      NewRebootIsSpaced(s, runs - {id}, id, e, a);
    }
  }

  lemma LogStays(flat: Table, passes: map<Id, Entry>, log: seq<Record>, id: Id, e: Entry)
    requires LogInv(flat, passes, log, Some(id)) && id in flat
    ensures LogInv(flat[id := Row(e)], passes[id := e], Relogged(log, e), Some(id))
    ensures IsNewest(flat[id := Row(e)], id)
  {
  }

  lemma GoKeepsPasses(
      s: Settings, hot: Table, flat: Table, passes: map<Id, Entry>, log: seq<Record>, id: Id, e: Entry)
    requires PassInv(s, true, hot, flat, passes, log, Some(id)) && id in flat && forall x :: x in hot ==> x in flat
    requires Traced(s, e) && e.world == passes[id].world
    ensures PassInv(s, true, hot[id := Row(e)], flat[id := Row(e)], passes[id := e], Relogged(log, e), Some(id))
  {
    RunningRowIsSpaced(s, hot, id, e);
    RowsStayWritten(s, flat, passes, id, e);
    LogStays(flat, passes, log, id, e);
    assert hot[id := Row(e)] - {id} == hot - {id};
  }

  lemma GoKeeps(s: Settings, f: Fleet, ok: bool)
    requires Inv(s, f) && Enabled(s, f, Go(ok))
    ensures Inv(s, Next(s, f, Go(ok)))
  {
    var g, id := Next(s, f, Go(ok)), f.running.value;
    GoSets(s, f, ok);
    HotIsPart(f.sys);
    GoKeepsPasses(s, f.sys.db.hot.runs, f.sys.flat.runs, f.passes, f.log, id, g.passes[id]);
  }

  // ---------- every reachable fleet ----------

  lemma MoveKeeps(s: Settings, f: Fleet, move: Move)
    requires Inv(s, f) && Enabled(s, f, move)
    ensures Inv(s, Next(s, f, move))
  {
    match move
    case System(step) => SystemKeeps(s, f, step);
    case Begin(mode, w) => BeginKeeps(s, f, mode, w);
    case Go(ok) => GoKeeps(s, f, ok);
  }

  lemma {:induction false} WatchKeeps(s: Settings, fleets: seq<Fleet>, moves: seq<Move>, k: nat)
    requires IsWatch(s, fleets, moves) && k < |fleets|
    ensures Inv(s, fleets[k])
  {
    if k == 0 {
    } else {
      WatchKeeps(s, fleets, moves, k - 1);
      MoveKeeps(s, fleets[k - 1], moves[k - 1]);
    }
  }

  // ---------- cooldown ----------

  // In every reachable store, whatever the clock did between passes, whatever
  // writes failed and wherever a pass died: the stored time of a hot soft
  // reboot is at least the cooldown, in whole seconds, after every reboot
  // recorded under a smaller id and still hot.
  lemma CooldownSpacing(s: Settings, fleets: seq<Fleet>, moves: seq<Move>, k: nat, a: Id, b: Id)
    requires IsWatch(s, fleets, moves) && k < |fleets|
    requires a in fleets[k].sys.db.hot.runs && b in fleets[k].sys.db.hot.runs && Less(a, b)
    requires fleets[k].sys.db.hot.runs[b].mode.Soft? && fleets[k].sys.db.hot.runs[b].rebootStartedAt.Some?
    requires Rebooted(fleets[k].sys.db.hot.runs[a])
    ensures fleets[k].sys.db.hot.runs[b].rebootStartedAt.value
         >= fleets[k].sys.db.hot.runs[a].rebootStartedAt.value + WholeSeconds(s.cooldown)
  {
    WatchKeeps(s, fleets, moves, k);
    assert SpacedFrom(s, fleets[k].sys.db.hot.runs[a], fleets[k].sys.db.hot.runs[b]);
  }

  // ---------- guards ----------

  // The answers a pass got when it began are those of the table at every later
  // moment, until it records a reboot of its own.
  lemma AnswersHold(s: Settings, fleets: seq<Fleet>, moves: seq<Move>, k: nat)
    requires IsWatch(s, fleets, moves) && k < |fleets| && fleets[k].running.Some?
    ensures var f, id := fleets[k], fleets[k].running.value;
      && id in f.sys.db.hot.runs && id in f.passes
      && (!Rebooted(f.sys.db.hot.runs[id]) ==> Asked(s, f.sys.db.hot.runs, id, f.passes[id].world))
  {
    WatchKeeps(s, fleets, moves, k);
    var hot, id := fleets[k].sys.db.hot.runs, fleets[k].running.value;
    if !Rebooted(hot[id]) {
      WithOwnRow(s, hot, id, fleets[k].passes[id].world);
    }
  }

  lemma WithOwnRow(s: Settings, hot: Table, id: Id, w: World)
    requires id in hot && !Rebooted(hot[id]) && Informed(s, hot - {id}, id, w)
    ensures Asked(s, hot, id, w)
  {
    assert hot == (hot - {id})[id := hot[id]];
    OwnRowIsInvisible(s, hot - {id}, id, hot[id], w);
    AskedIsInformed(s, hot, id, w);
  }

  // The pass ran to its end and every update of its row was stored.
  ghost predicate Finished(s: Settings, e: Entry) {
    && Traced(s, e)
    && Attempts(e.calls) == FullPass(s, e.world, e.mode).acts
    && Landed(e.calls)
  }

  lemma FinishedRow(s: Settings, e: Entry)
    requires Finished(s, e)
    ensures Row(e).internetOk == if e.mode.Soft? then Some(!ConfirmedDown(s, e.world)) else None
    ensures Row(e).outcome == Some(OnlyDegraded) <==> e.mode.Soft? && Grade(Decisive(s, e.world)).Degraded?
  {
    LandedWrites(NewRow(e.world, e.mode), e.calls);
    if e.mode.Soft? {
      SoftPassIsRecorded(s, e.world);
    } else {
      HardPassIsRecorded(s, e.world);
    }
  }

  lemma {:induction false} OccursIn(what: Attempt, acts: seq<Attempt>)
    requires what in acts
    ensures Times(what, acts) > 0
  {
    var n := |acts| - 1;
    if acts[n] != what {
      assert what in acts[..n];
      OccursIn(what, acts[..n]);
    }
  }

  // The run before, as far back as the streak asks, and what it must have seen.
  ghost predicate Corroborates(s: Settings, p: Entry) {
    && p.mode.Soft?
    && LinkGone(p.world.initial)
    && (Finished(s, p) ==> ConfirmedDown(s, p.world))
  }

  lemma DownRowCorroborates(s: Settings, p: Entry)
    requires Traced(s, p) && Row(p).internetOk == Some(false)
    ensures Corroborates(s, p)
  {
    PartialRecordsAreHonest(s, p.world, p.mode, p.calls);
    if Finished(s, p) {
      FinishedRow(s, p);
    }
  }

  // The hot runs with the next smaller ids, as many as the streak asks for.
  ghost function Before(s: Settings, f: Fleet): seq<Id>
    requires f.running.Some?
  {
    Newest(f.sys.db.hot.runs, f.running.value, Need(s))
  }

  lemma BeforeIsOthers(s: Settings, f: Fleet)
    requires Inv(s, f) && f.running.Some?
    ensures Before(s, f) == Newest(f.sys.db.hot.runs - {f.running.value}, f.running.value, Need(s))
    ensures forall i :: 0 <= i < |Before(s, f)| ==>
              && Before(s, f)[i] in f.sys.db.hot.runs - {f.running.value} && Before(s, f)[i] in f.passes
              && Traced(s, f.passes[Before(s, f)[i]])
              && f.sys.db.hot.runs[Before(s, f)[i]] == Row(f.passes[Before(s, f)[i]])
  {
    var hot, id := f.sys.db.hot.runs, f.running.value;
    assert hot == (hot - {id})[id := hot[id]];
    NewestIgnores(hot - {id}, id, hot[id], id, Need(s));
    HotRowsAreWritten(s, f);
  }

  // In every reachable store: the next call of a soft pass is the reboot only
  // when rebooting is on, every sample of this pass lost the link, and the hot
  // runs just before it, as many as the streak asks for, did so too.
  lemma GuardSafety(s: Settings, fleets: seq<Fleet>, moves: seq<Move>, k: nat)
    requires IsWatch(s, fleets, moves) && k < |moves| && moves[k].Go? && Enabled(s, fleets[k], moves[k])
    requires fleets[k].passes[fleets[k].running.value].mode.Soft?
    requires NextAttempt(s, fleets[k].passes[fleets[k].running.value]) == RebootRouter
    ensures s.rebootEnabled && ConfirmedDown(s, fleets[k].passes[fleets[k].running.value].world)
    ensures |Before(s, fleets[k])| == Need(s)
    ensures forall i :: 0 <= i < Need(s) ==>
              Before(s, fleets[k])[i] in fleets[k].passes && Corroborates(s, fleets[k].passes[Before(s, fleets[k])[i]])
  {
    var f, id := fleets[k], fleets[k].running.value;
    var w := f.passes[id].world;
    WatchKeeps(s, fleets, moves, k);
    OccursIn(RebootRouter, FullPass(s, w, Soft).acts);
    SoftRebootIsGuarded(s, w);
    BeforeIsOthers(s, f);
    SustainedMeansStreak(s, f.sys.db.hot.runs - {id}, id, w);
    forall i | 0 <= i < Need(s)
      ensures Corroborates(s, f.passes[Before(s, f)[i]])
    {
      DownRowCorroborates(s, f.passes[Before(s, f)[i]]);
    }
  }

  ghost predicate CorroboratedBy(s: Settings, ids: seq<Id>, passes: map<Id, Entry>) {
    |ids| == Need(s) && forall i :: 0 <= i < |ids| ==>
      ids[i] in passes && passes[ids[i]].mode.Soft? && ConfirmedDown(s, passes[ids[i]].world)
  }

  // With its reads answered and those passes finished, the guard of the running
  // pass is exact.
  lemma GuardIsExact(s: Settings, fleets: seq<Fleet>, moves: seq<Move>, k: nat)
    requires IsWatch(s, fleets, moves) && k < |fleets| && fleets[k].running.Some?
    requires fleets[k].running.value in fleets[k].passes && fleets[k].passes[fleets[k].running.value].mode.Soft?
    requires fleets[k].passes[fleets[k].running.value].world.streak.Ok?
    requires fleets[k].passes[fleets[k].running.value].world.lastReboot.Ok?
    requires forall i :: 0 <= i < |Before(s, fleets[k])| ==>
               Before(s, fleets[k])[i] in fleets[k].passes && Finished(s, fleets[k].passes[Before(s, fleets[k])[i]])
    ensures var f, id := fleets[k], fleets[k].running.value;
      var w := f.passes[id].world;
      Advances(s, w)
      && (RebootRouter in FullPass(s, w, Soft).acts
          <==> s.rebootEnabled && ConfirmedDown(s, w) && CorroboratedBy(s, Before(s, f), f.passes)
               && !HeldBack(s, f.sys.db.hot.runs - {id}, w.cooldownAt))
  {
    var f, id := fleets[k], fleets[k].running.value;
    var w, others := f.passes[id].world, f.sys.db.hot.runs - {id};
    WatchKeeps(s, fleets, moves, k);
    RunningIsTraced(s, f);
    BeforeIsOthers(s, f);
    SoftRebootIsGuarded(s, w);
    if RebootRouter in FullPass(s, w, Soft).acts {
      OccursIn(RebootRouter, FullPass(s, w, Soft).acts);
    } else {
      NeverTimes(RebootRouter, FullPass(s, w, Soft).acts);
    }
    SustainedMeansStreak(s, others, id, w);
    StreakIsCorroboration(s, others, id, f.passes);
    CooldownIsOverAll(s, others, id, w);
  }

  lemma RunningIsTraced(s: Settings, f: Fleet)
    requires Inv(s, f) && f.running.Some?
    ensures f.running.value in f.passes && Traced(s, f.passes[f.running.value]) && f.passes[f.running.value].world.inserted
  {
    HotIsFlat(f.sys, f.running.value);
  }

  ghost predicate FinishedRun(s: Settings, runs: Table, passes: map<Id, Entry>, id: Id) {
    id in runs && id in passes && Finished(s, passes[id]) && runs[id] == Row(passes[id])
  }

  lemma StreakIsCorroboration(s: Settings, runs: Table, id: Id, passes: map<Id, Entry>)
    requires forall i :: 0 <= i < |Newest(runs, id, Need(s))| ==> FinishedRun(s, runs, passes, Newest(runs, id, Need(s))[i])
    ensures StreakDown(s, runs, id) <==> CorroboratedBy(s, Newest(runs, id, Need(s)), passes)
  {
    var ids := Newest(runs, id, Need(s));
    forall i | 0 <= i < |ids|
      ensures FinishedRun(s, runs, passes, ids[i])
      ensures runs[ids[i]].internetOk == Some(false) <==> passes[ids[i]].mode.Soft? && ConfirmedDown(s, passes[ids[i]].world)
    {
      FinishedRow(s, passes[ids[i]]);
    }
  }
}
