// One soft or hard pass of the watchdog: what it attempts, in order, and the
// exit code it ends with.
module Watchdog {
  import opened Instants
  import opened Options
  import opened Runs
  import opened Tables
  import opened Verdicts

  datatype Settings = Settings(
    rebootEnabled: bool,
    cooldown: int,
    interval: int,
    timeout: int,
    confirmations: int,
    minStreak: int)

  const EXIT_OK := 0
  const EXIT_CONFIG_ERROR := 1
  const EXIT_REBOOT_FAILED := 3
  const EXIT_RECOVERY_TIMEOUT := 4
  const EXIT_SKIPPED_COOLDOWN := 5
  const EXIT_NO_ACTION := 6

  // Everything a pass learns from outside that can change its course: the
  // probes, the clock, the store's answers and the router's.
  datatype World = World(
    startedAt: Instant,
    initial: seq<Target>,
    inserted: bool,
    confirm: nat -> seq<Target>,
    streak: Result<seq<Run>, string>,
    previous: Result<seq<Run>, string>,
    lastReboot: Result<Option<int>, string>,
    cooldownAt: Instant,
    reboot: Option<string>,
    rebootedAt: Instant,
    tick: nat -> Instant,
    gateway: nat -> Target,
    recheck: nat -> seq<Target>,
    closedAt: Instant)

  datatype Message =
    | DomainsFailing
    | MonitorOnly(mode: Mode)
    | Initiated(mode: Mode)
    | RebootFailedWith(error: string)
    | Restored
    | GaveUp(after: int)
    | CoolingDown(age: int)
    | CooldownUnknown(error: string)

  // A call on the store, the notifier or the router.
  datatype Attempt =
    | InsertRun(at: Instant, mode: Mode, internetOk: Option<bool>)
    | InsertCheck(phase: Phase, target: Target)
    | SaveTelemetry
    | UpdateRun(update: RunUpdate)
    | Notify(message: Message)
    | Flush
    | RebootRouter

  datatype Pass = Pass(acts: seq<Attempt>, exit: int)

  function Then(acts: seq<Attempt>, rest: Pass): Pass {
    Pass(acts + rest.acts, rest.exit)
  }

  function Checks(phase: Phase, ts: seq<Target>): (acts: seq<Attempt>)
    ensures |acts| == |ts|
    ensures forall i :: 0 <= i < |ts| ==> acts[i] == InsertCheck(phase, ts[i])
  {
    seq(|ts|, i requires 0 <= i < |ts| => InsertCheck(phase, ts[i]))
  }

  // ---------- confirming a down verdict ----------

  // The number of confirmation rounds run, when the first i were all down.
  function Rounds(s: Settings, w: World, i: nat): (n: nat)
    decreases s.confirmations - i
  {
    if i >= s.confirmations then i
    else if !LinkGone(w.confirm(i)) then i + 1
    else Rounds(s, w, i + 1)
  }

  // The sample held after n confirmation rounds.
  function Sample(w: World, n: nat): seq<Target> {
    if n == 0 then w.initial else w.confirm(n - 1)
  }

  function RoundChecks(w: World, n: nat): seq<Attempt> {
    if n == 0 then [] else RoundChecks(w, n - 1) + Checks(Confirm, w.confirm(n - 1))
  }

  function Decisive(s: Settings, w: World): seq<Target> {
    if LinkGone(w.initial) then Sample(w, Rounds(s, w, 0)) else w.initial
  }

  function Confirmation(s: Settings, w: World): seq<Attempt> {
    RoundChecks(w, Rounds(s, w, 0))
    + if LinkGone(Decisive(s, w)) then [] else [UpdateRun(KEEP.(internetOk := Some(true)))]
  }

  // ---------- guards ----------

  predicate Sustained(s: Settings, answer: Result<seq<Run>, string>) {
    var need := s.minStreak - 1;
    need <= 0
    || (answer.Ok? && |answer.value| >= need
        && forall i :: 0 <= i < |answer.value| ==> answer.value[i].internetOk == Some(false))
  }

  predicate Announces(answer: Result<seq<Run>, string>, outcome: Outcome) {
    answer.Err? || answer.value == [] || answer.value[0].outcome != Some(outcome)
  }

  predicate Cooling(s: Settings, w: World) {
    w.lastReboot.Ok? && w.lastReboot.value.Some? && w.cooldownAt - Parsed(w.lastReboot.value.value) < s.cooldown
  }

  // ---------- terminal states ----------

  function Told(when: bool, message: Message): seq<Attempt> {
    if when then [Notify(message)] else []
  }

  function Closing(outcome: Outcome, at: Instant): RunUpdate {
    KEEP.(outcome := Some(outcome), finishedAt := Some(at))
  }

  function OnDegraded(w: World): Pass {
    Pass(Told(Announces(w.previous, OnlyDegraded), DomainsFailing) + [Flush, UpdateRun(Closing(OnlyDegraded, w.closedAt))],
         EXIT_NO_ACTION)
  }

  function NoOutage(w: World, outcome: Outcome, exit: int): Pass {
    Pass([UpdateRun(Closing(outcome, w.closedAt))], exit)
  }

  function OnDisabled(w: World, mode: Mode): Pass {
    Pass([Notify(MonitorOnly(mode)), Flush,
          UpdateRun(Closing(Outcome.RebootDisabled, w.closedAt).(action := Some(SkippedDisabled)))],
         EXIT_OK)
  }

  function OnCooldownUnknown(w: World, error: string): Pass {
    Pass([Notify(CooldownUnknown(error)),
          UpdateRun(Closing(Skipped, w.closedAt).(action := Some(SkippedCooldown), error := Some(error)))],
         EXIT_SKIPPED_COOLDOWN)
  }

  function OnCooldown(w: World, age: int): Pass {
    Pass(Told(Announces(w.previous, Skipped), CoolingDown(age))
         + [UpdateRun(Closing(Skipped, w.closedAt).(action := Some(SkippedCooldown)))],
         EXIT_SKIPPED_COOLDOWN)
  }

  function OnRebootFailed(w: World, error: string): Pass {
    Pass([Notify(RebootFailedWith(error)),
          UpdateRun(Closing(Outcome.RebootFailed, w.closedAt).(error := Some(error)))],
         EXIT_REBOOT_FAILED)
  }

  function OnRestored(now: Instant): Pass {
    Pass([Notify(Restored), Flush, UpdateRun(Closing(Fine, now).(internetRestoredAt := Some(now)))], EXIT_OK)
  }

  function OnTimeout(s: Settings, now: Instant): Pass {
    Pass([Notify(GaveUp(s.timeout)), Flush, UpdateRun(Closing(Timeout, now))], EXIT_RECOVERY_TIMEOUT)
  }

  // ---------- the recovery loop ----------

  // Within a pass the clock does not go back: each wait lasts its interval.
  ghost predicate Advances(s: Settings, w: World) {
    s.interval > 0 && w.tick(0) >= w.rebootedAt + s.interval && forall k: nat :: Waits(s, w, k)
  }

  predicate Waits(s: Settings, w: World, k: nat) {
    w.tick(k + 1) >= w.tick(k) + s.interval
  }

  predicate Ends(s: Settings, w: World, k: nat) {
    !LinkGone(w.recheck(k)) || w.tick(k) - w.rebootedAt >= s.timeout
  }

  // The first tick from k on that ends the loop.
  function LastTick(s: Settings, w: World, k: nat): (last: nat)
    requires Advances(s, w)
    ensures k <= last && Ends(s, w, last)
    ensures forall j :: k <= j < last ==> !Ends(s, w, j)
    decreases s.timeout - (w.tick(k) - w.rebootedAt)
  {
    if Ends(s, w, k) then k
    else
      assert Waits(s, w, k);
      LastTick(s, w, k + 1)
  }

  // What the loop last saw of the gateway before tick k; it starts as up.
  function Alive(w: World, k: nat): bool {
    k == 0 || w.gateway(k - 1).ok
  }

  predicate DownEdge(w: World, k: nat) {
    Alive(w, k) && !w.gateway(k).ok
  }

  predicate UpEdge(w: World, k: nat) {
    !Alive(w, k) && w.gateway(k).ok
  }

  function Transition(w: World, k: nat): seq<Attempt> {
    if DownEdge(w, k) then [UpdateRun(KEEP.(routerDownAt := Some(w.tick(k))))]
    else if UpEdge(w, k) then [UpdateRun(KEEP.(routerUpAt := Some(w.tick(k))))]
    else []
  }

  function Tick(w: World, k: nat): seq<Attempt> {
    [InsertCheck(Recovery, w.gateway(k))] + Transition(w, k) + Checks(Recovery, w.recheck(k))
  }

  function Ticks(w: World, n: nat): seq<Attempt> {
    if n == 0 then [] else Ticks(w, n - 1) + Tick(w, n - 1)
  }

  function RecoveryEnd(s: Settings, w: World, last: nat): Pass {
    if LinkGone(w.recheck(last)) then OnTimeout(s, w.tick(last)) else OnRestored(w.tick(last))
  }

  function Recovering(s: Settings, w: World): Pass
    requires Advances(s, w)
  {
    var last := LastTick(s, w, 0);
    Then(Ticks(w, last + 1), RecoveryEnd(s, w, last))
  }

  // ---------- the flows ----------

  function Requesting(mode: Mode): seq<Attempt> {
    [Flush, UpdateRun(KEEP.(action := Some(Action.Reboot))), Notify(Initiated(mode)), RebootRouter]
  }

  function AfterRequest(s: Settings, w: World): Pass
    requires Advances(s, w)
  {
    if w.reboot.Some? then OnRebootFailed(w, w.reboot.value)
    else Then([UpdateRun(KEEP.(rebootStartedAt := Some(w.rebootedAt)))], Recovering(s, w))
  }

  function Rebooting(s: Settings, w: World, mode: Mode): Pass
    requires Advances(s, w)
  {
    Then(Requesting(mode), AfterRequest(s, w))
  }

  function Deciding(s: Settings, w: World): Pass
    requires Advances(s, w)
  {
    if !s.rebootEnabled then OnDisabled(w, Soft)
    else if !Sustained(s, w.streak) then NoOutage(w, Unsustained, EXIT_NO_ACTION)
    else if w.lastReboot.Err? then OnCooldownUnknown(w, w.lastReboot.error)
    else if Cooling(s, w) then OnCooldown(w, w.cooldownAt - Parsed(w.lastReboot.value.value))
    else Rebooting(s, w, Soft)
  }

  function Graded(s: Settings, w: World): Pass
    requires Advances(s, w)
  {
    match Grade(Decisive(s, w))
    case Degraded => OnDegraded(w)
    case Up => NoOutage(w, if LinkGone(w.initial) then Unconfirmed else Fine, EXIT_OK)
    case Down => Deciding(s, w)
  }

  function FirstRow(w: World): Attempt {
    InsertRun(w.startedAt, Soft, Some(!LinkGone(w.initial)))
  }

  function OpeningSoft(w: World): seq<Attempt> {
    [FirstRow(w)] + Checks(Initial, w.initial) + [SaveTelemetry]
  }

  function Verifying(s: Settings, w: World): seq<Attempt> {
    if LinkGone(w.initial) then Confirmation(s, w) else []
  }

  function SoftPass(s: Settings, w: World): Pass
    requires Advances(s, w)
  {
    if !w.inserted then Pass([FirstRow(w)], EXIT_CONFIG_ERROR)
    else Then(OpeningSoft(w) + Verifying(s, w), Graded(s, w))
  }

  function OpeningHard(w: World): seq<Attempt> {
    [InsertRun(w.startedAt, Hard, None), SaveTelemetry]
  }

  function AfterHardOpening(s: Settings, w: World): Pass
    requires Advances(s, w)
  {
    if s.rebootEnabled then Rebooting(s, w, Hard) else OnDisabled(w, Hard)
  }

  function HardPass(s: Settings, w: World): Pass
    requires Advances(s, w)
  {
    if !w.inserted then Pass([InsertRun(w.startedAt, Hard, None)], EXIT_CONFIG_ERROR)
    else Then(OpeningHard(w), AfterHardOpening(s, w))
  }

  function FullPass(s: Settings, w: World, mode: Mode): Pass
    requires Advances(s, w)
  {
    if mode.Hard? then HardPass(s, w) else SoftPass(s, w)
  }

  // ---------- the runner ----------

  lemma Regroup<T>(a: seq<T>, b: seq<T>, c: seq<T>)
    ensures (a + b) + c == a + (b + c)
  {
  }

  // A call that was made, and whether it succeeded.
  datatype Call = Call(what: Attempt, ok: bool)

  // A line on standard error.
  datatype Line = Lost(what: Attempt) | Unread(query: string) | Remark(text: string)

  function Attempts(calls: seq<Call>): (acts: seq<Attempt>)
    ensures |acts| == |calls|
    ensures forall i :: 0 <= i < |calls| ==> acts[i] == calls[i].what
  {
    seq(|calls|, i requires 0 <= i < |calls| => calls[i].what)
  }

  // `fails(n)` says whether the pass's n-th call fails, for every call whose
  // failure is only logged.
  class Runner {
    const settings: Settings
    const world: World
    const fails: nat -> bool
    var calls: seq<Call>
    var lost: seq<Attempt>
    var remarks: seq<Line>
    ghost var failed: seq<Attempt>

    constructor (settings: Settings, world: World, fails: nat -> bool)
      ensures this.settings == settings && this.world == world && this.fails == fails && calls == [] && Valid()
    {
      this.settings, this.world, this.fails, calls, lost, remarks, failed := settings, world, fails, [], [], [], [];
    }

    ghost function Made(): seq<Attempt>
      reads this
    {
      Attempts(calls)
    }

    // Every failed call was logged, in order, and no other as failed.
    ghost predicate Valid()
      reads this
    {
      lost == failed
    }

    method Attempted(what: Attempt, ok: bool)
      modifies this`calls, this`failed
      ensures calls == old(calls) + [Call(what, ok)]
      ensures Made() == old(Made()) + [what]
      ensures failed == if ok then old(failed) else old(failed) + [what]
    {
      calls := calls + [Call(what, ok)];
      if !ok {
        failed := failed + [what];
      }
    }

    method Try(what: Attempt) returns (ok: bool)
      modifies this`calls, this`failed
      ensures calls == old(calls) + [Call(what, ok)] && ok == !fails(|old(calls)|)
      ensures Made() == old(Made()) + [what]
      ensures failed == if ok then old(failed) else old(failed) + [what]
    {
      ok := !fails(|calls|);
      Attempted(what, ok);
    }

    method Logf(line: Line)
      modifies this`lost, this`remarks
      ensures lost == if line.Lost? then old(lost) + [line.what] else old(lost)
      ensures remarks == if line.Lost? then old(remarks) else old(remarks) + [line]
    {
      match line
      case Lost(what) => lost := lost + [what];
      case _ => remarks := remarks + [line];
    }

    // notify: a failure is the outbox's and is only logged.
    method Tell(message: Message)
      requires Valid()
      modifies this
      ensures Valid() && Made() == old(Made()) + [Notify(message)]
    {
      var ok := Try(Notify(message));
      if !ok {
        Logf(Lost(Notify(message)));
      }
    }

    method Insert(mode: Mode, internetOk: Option<bool>) returns (ok: bool)
      requires Valid()
      modifies this
      ensures Valid() && Made() == old(Made()) + [InsertRun(world.startedAt, mode, internetOk)] && ok == world.inserted
    {
      ok := world.inserted;
      Attempted(InsertRun(world.startedAt, mode, internetOk), ok);
      if !ok {
        Logf(Lost(InsertRun(world.startedAt, mode, internetOk)));
      }
    }

    // A refused reboot is the outcome of the pass and is told, not logged.
    method Request()
      requires Valid()
      modifies this
      ensures Valid() && Made() == old(Made()) + [RebootRouter]
    {
      calls := calls + [Call(RebootRouter, world.reboot.None?)];
    }

    method PersistCheck(phase: Phase, target: Target)
      requires Valid()
      modifies this
      ensures Valid() && Made() == old(Made()) + [InsertCheck(phase, target)]
    {
      var ok := Try(InsertCheck(phase, target));
      if !ok {
        Logf(Lost(InsertCheck(phase, target)));
      }
    }

    method Save(update: RunUpdate)
      requires Valid()
      modifies this
      ensures Valid() && Made() == old(Made()) + [UpdateRun(update)]
    {
      var ok := Try(UpdateRun(update));
      if !ok {
        Logf(Lost(UpdateRun(update)));
      }
    }

    method Drain()
      requires Valid()
      modifies this
      ensures Valid() && Made() == old(Made()) + [Flush]
    {
      var ok := Try(Flush);
      if !ok {
        Logf(Lost(Flush));
      }
    }

    method CollectTelemetry()
      requires Valid()
      modifies this
      ensures Valid() && Made() == old(Made()) + [SaveTelemetry]
    {
      var ok := Try(SaveTelemetry);
      if !ok {
        Logf(Lost(SaveTelemetry));
      }
    }

    method PersistChecks(phase: Phase, ts: seq<Target>)
      requires Valid()
      modifies this
      ensures Valid()
      ensures Made() == old(Made()) + Checks(phase, ts)
    {
      for i := 0 to |ts|
        invariant Valid()
        invariant Made() == old(Made()) + Checks(phase, ts)[..i]
      {
        PersistCheck(phase, ts[i]);
      }
    }

    method ConfirmDown(initial: seq<Target>) returns (result: seq<Target>)
      requires initial == world.initial && LinkGone(initial)
      requires Valid()
      modifies this
      ensures Valid()
      ensures result == Decisive(settings, world)
      ensures Made() == old(Made()) + Confirmation(settings, world)
    {
      result := initial;
      var i := 0;
      while i < settings.confirmations
        invariant i >= 0 && Valid()
        invariant Rounds(settings, world, 0) == Rounds(settings, world, i)
        invariant result == Sample(world, i) && LinkGone(result)
        invariant Made() == old(Made()) + RoundChecks(world, i)
      {
        result := world.confirm(i);
        PersistChecks(Confirm, result);
        Regroup(old(Made()), RoundChecks(world, i), Checks(Confirm, result));
        i := i + 1;
        if Grade(result) != Down {
          break;
        }
      }
      if Grade(result) != Down {
        Save(KEEP.(internetOk := Some(true)));
        Logf(Remark("down verdict not confirmed on re-check"));
        Regroup(old(Made()), RoundChecks(world, i), [UpdateRun(KEEP.(internetOk := Some(true)))]);
      } else {
        Regroup(old(Made()), RoundChecks(world, i), []);
      }
    }

    method ShouldAnnounce(outcome: Outcome) returns (yes: bool)
      requires Valid()
      modifies this`lost, this`remarks
      ensures Valid()
      ensures yes == Announces(world.previous, outcome)
      ensures yes <==>
        match world.previous
        case Err(_) => true
        case Ok(runs) => |runs| == 0 || runs[0].outcome.None? || runs[0].outcome.value != outcome
    {
      if world.previous.Err? {
        Logf(Unread("recent runs"));
        return true;
      }
      if |world.previous.value| == 0 {
        return true;
      }
      return world.previous.value[0].outcome != Some(outcome);
    }

    method FinishDegraded() returns (exit: int)
      requires Valid()
      modifies this
      ensures Valid()
      ensures Made() == old(Made()) + OnDegraded(world).acts && exit == OnDegraded(world).exit
    {
      var announce := ShouldAnnounce(OnlyDegraded);
      if announce {
        Tell(DomainsFailing);
      }
      Drain();
      Save(Closing(OnlyDegraded, world.closedAt));
      return EXIT_NO_ACTION;
    }

    method FinishNoOutage(outcome: Outcome, code: int) returns (exit: int)
      requires Valid()
      modifies this
      ensures Valid()
      ensures Made() == old(Made()) + NoOutage(world, outcome, code).acts && exit == code
    {
      if outcome == Unsustained {
        Logf(Remark("outage not corroborated by the previous runs"));
      }
      Save(Closing(outcome, world.closedAt));
      return code;
    }

    method FinishRebootDisabled(mode: Mode) returns (exit: int)
      requires Valid()
      modifies this
      ensures Valid()
      ensures Made() == old(Made()) + OnDisabled(world, mode).acts && exit == OnDisabled(world, mode).exit
    {
      Tell(MonitorOnly(mode));
      Drain();
      Save(Closing(Outcome.RebootDisabled, world.closedAt).(action := Some(SkippedDisabled)));
      return EXIT_OK;
    }

    method FinishRebootFailed(error: string) returns (exit: int)
      requires Valid()
      modifies this
      ensures Valid()
      ensures Made() == old(Made()) + OnRebootFailed(world, error).acts && exit == OnRebootFailed(world, error).exit
    {
      Tell(RebootFailedWith(error));
      Save(Closing(Outcome.RebootFailed, world.closedAt).(error := Some(error)));
      return EXIT_REBOOT_FAILED;
    }

    method FinishRecoverySuccess(now: Instant) returns (exit: int)
      requires Valid()
      modifies this
      ensures Valid()
      ensures Made() == old(Made()) + OnRestored(now).acts && exit == OnRestored(now).exit
    {
      Tell(Restored);
      Drain();
      Save(Closing(Fine, now).(internetRestoredAt := Some(now)));
      return EXIT_OK;
    }

    method FinishRecoveryTimeout(now: Instant) returns (exit: int)
      requires Valid()
      modifies this
      ensures Valid()
      ensures Made() == old(Made()) + OnTimeout(settings, now).acts && exit == OnTimeout(settings, now).exit
    {
      Tell(GaveUp(settings.timeout));
      Drain();
      Save(Closing(Timeout, now));
      return EXIT_RECOVERY_TIMEOUT;
    }

    method HandleGatewayTransition(wasAlive: bool, k: nat) returns (alive: bool)
      requires wasAlive == Alive(world, k)
      requires Valid()
      modifies this
      ensures Valid()
      ensures alive == Alive(world, k + 1) == world.gateway(k).ok
      ensures Made() == old(Made()) + Transition(world, k)
      ensures wasAlive == alive ==> Made() == old(Made())
      ensures wasAlive && !alive ==> Made() == old(Made()) + [UpdateRun(KEEP.(routerDownAt := Some(world.tick(k))))]
      ensures !wasAlive && alive ==> Made() == old(Made()) + [UpdateRun(KEEP.(routerUpAt := Some(world.tick(k))))]
    {
      alive := wasAlive;
      if alive && !world.gateway(k).ok {
        alive := false;
        Save(KEEP.(routerDownAt := Some(world.tick(k))));
      } else if !alive && world.gateway(k).ok {
        alive := true;
        Save(KEEP.(routerUpAt := Some(world.tick(k))));
      }
    }

    // The probes of one recovery tick.
    method Poll(wasAlive: bool, k: nat) returns (alive: bool)
      requires wasAlive == Alive(world, k)
      requires Valid()
      modifies this
      ensures Valid()
      ensures alive == Alive(world, k + 1)
      ensures Made() == old(Made()) + Tick(world, k)
    {
      PersistCheck(Recovery, world.gateway(k));
      alive := HandleGatewayTransition(wasAlive, k);
      PersistChecks(Recovery, world.recheck(k));
    }

    method OutageSustained() returns (yes: bool)
      requires Valid()
      modifies this`lost, this`remarks
      ensures Valid()
      ensures yes == Sustained(settings, world.streak)
      ensures settings.minStreak <= 1 ==> yes
      ensures settings.minStreak > 1 ==>
        (yes <==> world.streak.Ok? && |world.streak.value| >= settings.minStreak - 1
                  && forall i :: 0 <= i < |world.streak.value| ==> world.streak.value[i].internetOk == Some(false))
    {
      var need := settings.minStreak - 1;
      if need <= 0 {
        return true;
      }
      if world.streak.Err? {
        Logf(Unread("recent runs"));
        return false;
      }
      var previous := world.streak.value;
      if |previous| < need {
        return false;
      }
      for i := 0 to |previous|
        invariant forall j :: 0 <= j < i ==> previous[j].internetOk == Some(false)
      {
        if previous[i].internetOk == None || previous[i].internetOk.value {
          return false;
        }
      }
      return true;
    }

    method SkipCooldown(age: int) returns (exit: int)
      requires Valid()
      modifies this
      ensures Valid()
      ensures Made() == old(Made()) + OnCooldown(world, age).acts && exit == OnCooldown(world, age).exit
    {
      var announce := ShouldAnnounce(Skipped);
      if announce {
        Tell(CoolingDown(age));
      }
      Save(Closing(Skipped, world.closedAt).(action := Some(SkippedCooldown)));
      return EXIT_SKIPPED_COOLDOWN;
    }

    method SkipCooldownUnknown(error: string) returns (exit: int)
      requires Valid()
      modifies this
      ensures Valid()
      ensures Made() == old(Made()) + OnCooldownUnknown(world, error).acts && exit == OnCooldownUnknown(world, error).exit
    {
      Tell(CooldownUnknown(error));
      Save(Closing(Skipped, world.closedAt).(action := Some(SkippedCooldown), error := Some(error)));
      return EXIT_SKIPPED_COOLDOWN;
    }

    method RecoveryLoop() returns (exit: int)
      requires Advances(settings, world)
      requires Valid()
      modifies this
      ensures Valid()
      ensures Made() == old(Made()) + Recovering(settings, world).acts && exit == Recovering(settings, world).exit
    {
      var alive, k := true, 0;
      while true
        invariant Valid()
        invariant alive == Alive(world, k)
        invariant LastTick(settings, world, 0) == LastTick(settings, world, k)
        invariant Made() == old(Made()) + Ticks(world, k)
        decreases LastTick(settings, world, 0) - k
      {
        var now := world.tick(k);
        alive := Poll(alive, k);
        Regroup(old(Made()), Ticks(world, k), Tick(world, k));
        if Grade(world.recheck(k)) != Down {
          exit := FinishRecoverySuccess(now);
          Regroup(old(Made()), Ticks(world, k + 1), OnRestored(now).acts);
          return;
        }
        if now - world.rebootedAt >= settings.timeout {
          exit := FinishRecoveryTimeout(now);
          Regroup(old(Made()), Ticks(world, k + 1), OnTimeout(settings, now).acts);
          return;
        }
        k := k + 1;
      }
    }

    method RebootSequence(mode: Mode) returns (exit: int)
      requires Advances(settings, world)
      requires Valid()
      modifies this
      ensures Valid()
      ensures Made() == old(Made()) + Rebooting(settings, world, mode).acts
      ensures exit == Rebooting(settings, world, mode).exit
    {
      Drain();
      Save(KEEP.(action := Some(Action.Reboot)));
      Tell(Initiated(mode));
      Request();
      assert Made() == old(Made()) + Requesting(mode);
      if world.reboot.Some? {
        exit := FinishRebootFailed(world.reboot.value);
      } else {
        ghost var requested := Made();
        Save(KEEP.(rebootStartedAt := Some(world.rebootedAt)));
        exit := RecoveryLoop();
        Regroup(requested, [UpdateRun(KEEP.(rebootStartedAt := Some(world.rebootedAt)))], Recovering(settings, world).acts);
      }
      Regroup(old(Made()), Requesting(mode), AfterRequest(settings, world).acts);
    }

    method HardFlow() returns (exit: int)
      requires Advances(settings, world)
      requires Valid()
      modifies this
      ensures Valid()
      ensures Made() == old(Made()) + HardPass(settings, world).acts && exit == HardPass(settings, world).exit
    {
      var ok := Insert(Hard, None);
      if !ok {
        return EXIT_CONFIG_ERROR;
      }
      CollectTelemetry();
      assert Made() == old(Made()) + OpeningHard(world);
      if !settings.rebootEnabled {
        exit := FinishRebootDisabled(Hard);
      } else {
        exit := RebootSequence(Hard);
      }
      Regroup(old(Made()), OpeningHard(world), AfterHardOpening(settings, world).acts);
    }

    // The guards that stand between a confirmed outage and a reboot.
    method Guard() returns (exit: int)
      requires Advances(settings, world)
      requires Valid()
      modifies this
      ensures Valid()
      ensures Made() == old(Made()) + Deciding(settings, world).acts && exit == Deciding(settings, world).exit
    {
      if !settings.rebootEnabled {
        exit := FinishRebootDisabled(Soft);
        return;
      }
      var sustained := OutageSustained();
      if !sustained {
        exit := FinishNoOutage(Unsustained, EXIT_NO_ACTION);
        return;
      }
      if world.lastReboot.Err? {
        Logf(Unread("last reboot"));
        exit := SkipCooldownUnknown(world.lastReboot.error);
        return;
      }
      if world.lastReboot.value.Some? {
        var age := world.cooldownAt - Parsed(world.lastReboot.value.value);
        if age < settings.cooldown {
          exit := SkipCooldown(age);
          return;
        }
      }
      exit := RebootSequence(Soft);
    }

    method SoftFlow() returns (exit: int)
      requires Advances(settings, world)
      requires Valid()
      modifies this
      ensures Valid()
      ensures Made() == old(Made()) + SoftPass(settings, world).acts && exit == SoftPass(settings, world).exit
    {
      var result := world.initial;
      var initialOk := Grade(result) != Down;
      var ok := Insert(Soft, Some(initialOk));
      if !ok {
        return EXIT_CONFIG_ERROR;
      }
      PersistChecks(Initial, result);
      CollectTelemetry();
      assert Made() == old(Made()) + OpeningSoft(world);
      if Grade(result) == Down {
        result := ConfirmDown(result);
      }
      Regroup(old(Made()), OpeningSoft(world), Verifying(settings, world));
      assert Made() == old(Made()) + (OpeningSoft(world) + Verifying(settings, world));
      exit := Settle(result, initialOk);
      Regroup(old(Made()), OpeningSoft(world) + Verifying(settings, world), Graded(settings, world).acts);
    }

    method Settle(result: seq<Target>, initialOk: bool) returns (exit: int)
      requires Advances(settings, world) && result == Decisive(settings, world) && initialOk == !LinkGone(world.initial)
      requires Valid()
      modifies this
      ensures Valid()
      ensures Made() == old(Made()) + Graded(settings, world).acts && exit == Graded(settings, world).exit
    {
      match Grade(result)
      case Degraded =>
        exit := FinishDegraded();
      case Up =>
        exit := FinishNoOutage(if initialOk then Fine else Unconfirmed, EXIT_OK);
      case Down =>
        exit := Guard();
    }

    // The whole course of a pass, its exit code included, depends on the
    // settings and the world alone.
    method Execute(mode: Mode) returns (exit: int)
      requires Advances(settings, world)
      requires Valid()
      modifies this
      ensures Valid()
      ensures Made() == old(Made()) + FullPass(settings, world, mode).acts
      ensures exit == FullPass(settings, world, mode).exit
    {
      if mode == Hard {
        exit := HardFlow();
      } else {
        exit := SoftFlow();
      }
    }
  }

  // Two passes in the same world, whatever writes, notices and snapshots fail
  // in each: the same exit code, the same reboots, the same messages offered.
  method FailuresChangeNothing(a: Runner, b: Runner, mode: Mode) returns (exitA: int, exitB: int)
    requires a != b && a.settings == b.settings && a.world == b.world && Advances(a.settings, a.world)
    requires a.calls == [] && b.calls == [] && a.Valid() && b.Valid()
    modifies a, b
    ensures exitA == exitB && a.Made() == b.Made()
    ensures a.lost == a.failed && b.lost == b.failed
  {
    exitA := a.Execute(mode);
    exitB := b.Execute(mode);
  }
}
