// The decision table of a pass: for every condition it can meet, how its row
// ends, the exit code, the messages in order and the flushes.
module Endings {
  import opened Instants
  import opened Options
  import opened Runs
  import opened Tables
  import opened Verdicts
  import opened Watchdog
  import opened Passes

  // `asked` counts the calls to the router; `flushed` says that the outbox is
  // drained right before the closing update.
  datatype Ending = Ending(
    outcome: Outcome,
    exit: int,
    action: Action,
    error: Option<string>,
    told: seq<Message>,
    flushed: bool,
    asked: nat)

  predicate EndsIn(p: Pass, row: Run, e: Ending) {
    && p.acts != [] && p.exit == e.exit
    && var final := RowOf(row, p.acts);
    && final.outcome == Some(e.outcome) && final.action == e.action && final.error == e.error
    && Messages(p.acts) == e.told
    && FlushesLast(p.acts) == e.flushed
    && Times(RebootRouter, p.acts) == e.asked
    && Times(Flush, p.acts) == e.asked + if e.flushed then 1 else 0
  }

  // No message, no flush and no reboot.
  predicate Still(acts: seq<Attempt>) {
    forall i :: 0 <= i < |acts| ==> !acts[i].Notify? && acts[i] != Flush && acts[i] != RebootRouter
  }

  lemma StillHead(head: seq<Attempt>, p: Pass, row: Run, e: Ending)
    requires Still(head) && EndsIn(p, RowOf(row, head), e)
    ensures EndsIn(Then(head, p), row, e)
  {
    RowOfAppend(row, head, p.acts);
    TellingLast(head, p.acts);
    NeverTimes(Flush, head);
    NeverTimes(RebootRouter, head);
    TimesAppend(Flush, head, p.acts);
    TimesAppend(RebootRouter, head, p.acts);
    FlushStaysLast(head, p.acts);
  }

  lemma FlushStaysLast(head: seq<Attempt>, acts: seq<Attempt>)
    requires acts != [] && (head == [] || head[|head| - 1] != Flush)
    ensures FlushesLast(head + acts) == FlushesLast(acts)
  {
    if |acts| == 1 && head != [] {
      assert (head + acts)[|head + acts| - 2] == head[|head| - 1];
    }
  }

  // ---------- the terminal states ----------

  // A terminal state ends in what its conclusion says.
  lemma ConclusionEnds(p: Pass, row: Run, final: Run, told: seq<Message>, flushed: bool)
    requires Concludes(p, row, final, told, flushed)
    ensures EndsIn(p, row, Ending(final.outcome.value, ExitFor(final.outcome.value), final.action, final.error, told, flushed, 0))
  {
    NeverTimes(RebootRouter, p.acts);
  }

  // Is a state that ends in this outcome news to the operator?
  predicate News(previous: Result<seq<Run>, string>, o: Outcome) {
    match previous
    case Err(_) => true
    case Ok(runs) => |runs| == 0 || runs[0].outcome.None? || runs[0].outcome.value != o
  }

  // ---------- a reboot ----------

  // The internet answered before a tick used up the timeout.
  ghost predicate CameBack(s: Settings, w: World) {
    exists k: nat :: AnswersInTime(s, w, k)
  }

  // How a pass ends that asked the router for a reboot.
  ghost predicate EndsRebooted(s: Settings, w: World, mode: Mode, p: Pass, row: Run) {
    match w.reboot
    case Some(error) =>
      EndsIn(p, row, Ending(Outcome.RebootFailed, 3, Action.Reboot, Some(error),
                            [Initiated(mode), RebootFailedWith(error)], false, 1))
    case None =>
      if CameBack(s, w) then
        EndsIn(p, row, Ending(Fine, 0, Action.Reboot, None, [Initiated(mode), Restored], true, 1))
      else
        EndsIn(p, row, Ending(Timeout, 4, Action.Reboot, None, [Initiated(mode), GaveUp(s.timeout)], true, 1))
  }

  ghost function RecoveryEnding(s: Settings, w: World, row: Run): Ending {
    if CameBack(s, w) then Ending(Fine, 0, row.action, row.error, [Restored], true, 0)
    else Ending(Timeout, 4, row.action, row.error, [GaveUp(s.timeout)], true, 0)
  }

  lemma RecoveringEnds(row: Run, s: Settings, w: World)
    requires Advances(s, w)
    ensures EndsIn(Recovering(s, w), row, RecoveryEnding(s, w, row))
  {
    var last := LastTick(s, w, 0);
    var ticks := Ticks(w, last + 1);
    TicksAreStill(w, last + 1);
    TicksRow(row, w, last + 1);
    RecoveryEnds(RowOf(row, ticks), s, w);
    StillHead(ticks, RecoveryEnd(s, w, last), row, RecoveryEnding(s, w, row));
  }

  lemma TicksAreStill(w: World, n: nat)
    ensures Still(Ticks(w, n))
  {
    TicksPoll(w, n);
  }

  lemma RecoveryEnds(now: Run, s: Settings, w: World)
    requires Advances(s, w)
    ensures EndsIn(RecoveryEnd(s, w, LastTick(s, w, 0)), now, RecoveryEnding(s, w, now))
  {
    var at := w.tick(LastTick(s, w, 0));
    RecoveryEndsRight(s, w);
    if CameBack(s, w) {
      RestoredConcludes(now, at);
      ConclusionEnds(OnRestored(at), now, Ended(now.(internetRestoredAt := Some(WholeSeconds(at))), Fine, at), [Restored], true);
    } else {
      TimeoutConcludes(now, s, at);
      ConclusionEnds(OnTimeout(s, at), now, Ended(now, Timeout, at), [GaveUp(s.timeout)], true);
    }
  }

  lemma RequestEnds(mode: Mode, p: Pass, row: Run, e: Ending)
    requires EndsIn(p, row.(action := Action.Reboot), e) && e.asked == 0
    ensures EndsIn(Then(Requesting(mode), p), row, e.(told := [Initiated(mode)] + e.told, asked := 1))
  {
    var head := Requesting(mode);
    RequestingRow(row, mode);
    RowOfAppend(row, head, p.acts);
    RequestingTells(mode);
    MessagesAppend(head, p.acts);
    RequestingRebootsOnce(mode);
    RequestingFlushesOnce(mode);
    TimesAppend(Flush, head, p.acts);
    TimesAppend(RebootRouter, head, p.acts);
    FlushStaysLast(head, p.acts);
  }

  lemma RequestingTells(mode: Mode)
    ensures Messages(Requesting(mode)) == [Initiated(mode)]
  {
    var acts := Requesting(mode);
    assert acts == acts[..2] + ([Notify(Initiated(mode))] + [RebootRouter]);
    MessagesAppend(acts[..2], [Notify(Initiated(mode))] + [RebootRouter]);
    NoMessages(acts[..2]);
    OneMessage(Initiated(mode), [RebootRouter]);
  }

  lemma RequestingFlushesOnce(mode: Mode)
    ensures Times(Flush, Requesting(mode)) == 1
  {
    var acts := Requesting(mode);
    assert acts == [Flush] + acts[1..] && [Flush][..0] == [];
    NeverTimes(Flush, acts[1..]);
    TimesAppend(Flush, [Flush], acts[1..]);
  }

  lemma RebootingEndsRight(row: Run, s: Settings, w: World, mode: Mode)
    requires Advances(s, w) && row.error.None?
    ensures EndsRebooted(s, w, mode, Rebooting(s, w, mode), row)
  {
    var asked := row.(action := Action.Reboot);
    if w.reboot.Some? {
      RebootFailedConcludes(asked, w, w.reboot.value);
      ConclusionEnds(AfterRequest(s, w), asked, Ended(asked.(error := w.reboot), Outcome.RebootFailed, w.closedAt),
                     [RebootFailedWith(w.reboot.value)], false);
      RequestEnds(mode, AfterRequest(s, w), row,
                  Ending(Outcome.RebootFailed, 3, Action.Reboot, w.reboot, [RebootFailedWith(w.reboot.value)], false, 0));
    } else {
      var stamp := [UpdateRun(KEEP.(rebootStartedAt := Some(w.rebootedAt)))];
      var started := asked.(rebootStartedAt := Some(WholeSeconds(w.rebootedAt)));
      QuietTail(asked, [], stamp[0]);
      assert [] + [stamp[0]] == stamp;
      RecoveringEnds(started, s, w);
      var e := if CameBack(s, w) then Ending(Fine, 0, Action.Reboot, None, [Restored], true, 0)
               else Ending(Timeout, 4, Action.Reboot, None, [GaveUp(s.timeout)], true, 0);
      StillHead(stamp, Recovering(s, w), asked, e);
      RequestEnds(mode, AfterRequest(s, w), row, e);
    }
  }

  // ---------- the table ----------

  // A pass whose row could not be inserted makes that one call, and ends with
  // the code of a configuration error.
  lemma FailedInsertEndsThePass(s: Settings, w: World, mode: Mode)
    requires Advances(s, w) && !w.inserted
    ensures FullPass(s, w, mode).exit == 1
    ensures FullPass(s, w, mode).acts == [InsertRun(w.startedAt, mode, if mode.Hard? then None else Some(!LinkGone(w.initial)))]
  {
  }

  lemma HardPassEnds(s: Settings, w: World)
    requires Advances(s, w) && w.inserted
    ensures !s.rebootEnabled ==>
              EndsIn(HardPass(s, w), NewRow(w, Hard),
                     Ending(Outcome.RebootDisabled, 0, SkippedDisabled, None, [MonitorOnly(Hard)], true, 0))
    ensures s.rebootEnabled ==> EndsRebooted(s, w, Hard, HardPass(s, w), NewRow(w, Hard))
  {
    var row := NewRow(w, Hard);
    QuietKeeps(row, OpeningHard(w));
    if s.rebootEnabled {
      RebootingEndsRight(row, s, w, Hard);
      RebootedHead(s, w, Hard, OpeningHard(w), AfterHardOpening(s, w), row);
    } else {
      DisabledConcludes(row, w, Hard);
      ConclusionEnds(OnDisabled(w, Hard), row, Ended(row.(action := SkippedDisabled), Outcome.RebootDisabled, w.closedAt),
                     [MonitorOnly(Hard)], true);
      StillHead(OpeningHard(w), AfterHardOpening(s, w), row,
                Ending(Outcome.RebootDisabled, 0, SkippedDisabled, None, [MonitorOnly(Hard)], true, 0));
    }
  }

  lemma RebootedHead(s: Settings, w: World, mode: Mode, head: seq<Attempt>, p: Pass, row: Run)
    requires Still(head) && EndsRebooted(s, w, mode, p, RowOf(row, head))
    ensures EndsRebooted(s, w, mode, Then(head, p), row)
  {
    if w.reboot.Some? {
      StillHead(head, p, row, Ending(Outcome.RebootFailed, 3, Action.Reboot, w.reboot,
                                     [Initiated(mode), RebootFailedWith(w.reboot.value)], false, 1));
    } else if CameBack(s, w) {
      StillHead(head, p, row, Ending(Fine, 0, Action.Reboot, None, [Initiated(mode), Restored], true, 1));
    } else {
      StillHead(head, p, row, Ending(Timeout, 4, Action.Reboot, None, [Initiated(mode), GaveUp(s.timeout)], true, 1));
    }
  }

  // The rows of the table for a confirmed outage.
  ghost predicate DecidedEnds(s: Settings, w: World, p: Pass, row: Run) {
    && (!s.rebootEnabled ==>
          EndsIn(p, row, Ending(Outcome.RebootDisabled, 0, SkippedDisabled, None, [MonitorOnly(Soft)], true, 0)))
    && (s.rebootEnabled && !Sustained(s, w.streak) ==>
          EndsIn(p, row, Ending(Unsustained, 6, Nothing, None, [], false, 0)))
    && (s.rebootEnabled && Sustained(s, w.streak) ==> CooldownEnds(s, w, p, row))
  }

  ghost predicate CooldownEnds(s: Settings, w: World, p: Pass, row: Run) {
    match w.lastReboot
    case Err(error) => EndsIn(p, row, Ending(Skipped, 5, SkippedCooldown, Some(error), [CooldownUnknown(error)], false, 0))
    case Ok(None) => EndsRebooted(s, w, Soft, p, row)
    case Ok(Some(at)) =>
      var age := w.cooldownAt - at * 1_000_000_000;
      if age >= s.cooldown then EndsRebooted(s, w, Soft, p, row)
      else EndsIn(p, row, Ending(Skipped, 5, SkippedCooldown, None,
                                 if News(w.previous, Skipped) then [CoolingDown(age)] else [], false, 0))
  }

  lemma DecidingEndsRight(s: Settings, w: World, row: Run)
    requires Advances(s, w) && row.error.None? && row.action.Nothing?
    ensures DecidedEnds(s, w, Deciding(s, w), row)
  {
    if !s.rebootEnabled {
      DisabledConcludes(row, w, Soft);
      ConclusionEnds(OnDisabled(w, Soft), row, Ended(row.(action := SkippedDisabled), Outcome.RebootDisabled, w.closedAt),
                     [MonitorOnly(Soft)], true);
    } else if !Sustained(s, w.streak) {
      NoOutageConcludes(row, w, Unsustained);
      ConclusionEnds(Deciding(s, w), row, Ended(row, Unsustained, w.closedAt), [], false);
    } else {
      CooldownEndsRight(s, w, row);
    }
  }

  lemma CooldownEndsRight(s: Settings, w: World, row: Run)
    requires Advances(s, w) && row.error.None? && row.action.Nothing? && s.rebootEnabled && Sustained(s, w.streak)
    ensures CooldownEnds(s, w, Deciding(s, w), row)
  {
    if w.lastReboot.Err? {
      var error := w.lastReboot.error;
      CooldownUnknownConcludes(row, w, error);
      ConclusionEnds(OnCooldownUnknown(w, error), row,
                     Ended(row.(action := SkippedCooldown, error := Some(error)), Skipped, w.closedAt), [CooldownUnknown(error)], false);
    } else if Cooling(s, w) {
      var age := w.cooldownAt - Parsed(w.lastReboot.value.value);
      CooldownConcludes(row, w, age);
      ConclusionEnds(OnCooldown(w, age), row, Ended(row.(action := SkippedCooldown), Skipped, w.closedAt),
                     if News(w.previous, Skipped) then [CoolingDown(age)] else [], false);
    } else {
      RebootingEndsRight(row, s, w, Soft);
    }
  }

  lemma DecidedHead(s: Settings, w: World, head: seq<Attempt>, p: Pass, row: Run)
    requires Still(head) && DecidedEnds(s, w, p, RowOf(row, head))
    ensures DecidedEnds(s, w, Then(head, p), row)
  {
    if !s.rebootEnabled {
      StillHead(head, p, row, Ending(Outcome.RebootDisabled, 0, SkippedDisabled, None, [MonitorOnly(Soft)], true, 0));
    } else if !Sustained(s, w.streak) {
      StillHead(head, p, row, Ending(Unsustained, 6, Nothing, None, [], false, 0));
    } else {
      CooldownHead(s, w, head, p, row);
    }
  }

  lemma CooldownHead(s: Settings, w: World, head: seq<Attempt>, p: Pass, row: Run)
    requires Still(head) && CooldownEnds(s, w, p, RowOf(row, head))
    ensures CooldownEnds(s, w, Then(head, p), row)
  {
    if w.lastReboot.Err? {
      StillHead(head, p, row, Ending(Skipped, 5, SkippedCooldown, Some(w.lastReboot.error),
                                     [CooldownUnknown(w.lastReboot.error)], false, 0));
    } else if Cooling(s, w) {
      var age := w.cooldownAt - Parsed(w.lastReboot.value.value);
      StillHead(head, p, row, Ending(Skipped, 5, SkippedCooldown, None,
                                     if News(w.previous, Skipped) then [CoolingDown(age)] else [], false, 0));
    } else {
      RebootedHead(s, w, Soft, head, p, row);
    }
  }

  lemma OpeningIsStill(s: Settings, w: World)
    ensures Still(OpeningSoft(w) + Verifying(s, w))
  {
    RoundChecksAreChecks(w, Rounds(s, w, 0));
  }

  // The whole table of a soft pass.
  lemma SoftPassEnds(s: Settings, w: World)
    requires Advances(s, w) && w.inserted
    ensures var p, row := SoftPass(s, w), NewRow(w, Soft);
      && (ConfirmedDown(s, w) ==> DecidedEnds(s, w, p, row))
      && (Grade(Decisive(s, w)).Degraded? ==>
            EndsIn(p, row, Ending(OnlyDegraded, 6, Nothing, None,
                                  if News(w.previous, OnlyDegraded) then [DomainsFailing] else [], true, 0)))
      && (Grade(Decisive(s, w)).Up? ==>
            EndsIn(p, row, Ending(if LinkGone(w.initial) then Unconfirmed else Fine, 0, Nothing, None, [], false, 0)))
  {
    var row, head := NewRow(w, Soft), OpeningSoft(w) + Verifying(s, w);
    var seen := row.(internetOk := Some(!LinkGone(Decisive(s, w))));
    DecisiveMeaning(s, w);
    OpeningIsStill(s, w);
    VerifiedRow(s, w);
    match Grade(Decisive(s, w))
    case Down =>
      DecidingEndsRight(s, w, seen);
      DecidedHead(s, w, head, Graded(s, w), row);
    case Degraded =>
      DegradedConcludes(seen, w);
      ConclusionEnds(OnDegraded(w), seen, Ended(seen, OnlyDegraded, w.closedAt),
                     if News(w.previous, OnlyDegraded) then [DomainsFailing] else [], true);
      StillHead(head, Graded(s, w), row, Ending(OnlyDegraded, 6, Nothing, None,
                                                if News(w.previous, OnlyDegraded) then [DomainsFailing] else [], true, 0));
    case Up =>
      var o := if LinkGone(w.initial) then Unconfirmed else Fine;
      NoOutageConcludes(seen, w, o);
      ConclusionEnds(Graded(s, w), seen, Ended(seen, o, w.closedAt), [], false);
      StillHead(head, Graded(s, w), row, Ending(o, 0, Nothing, None, [], false, 0));
  }

  // ---------- what follows from the row ----------

  // The messages a finished row stands for.
  predicate Matches(row: Run, told: seq<Message>, s: Settings, mode: Mode) {
    row.outcome.Some? &&
    match row.outcome.value
    case Fine => told == if row.action == Action.Reboot then [Initiated(mode), Restored] else []
    case Unconfirmed => told == []
    case Unsustained => told == []
    case OnlyDegraded => told in {[], [DomainsFailing]}
    case RebootDisabled => told == [MonitorOnly(mode)]
    case Skipped =>
      if row.error.Some? then told == [CooldownUnknown(row.error.value)]
      else told == [] || (|told| == 1 && told[0].CoolingDown? && told[0].age < s.cooldown)
    case RebootFailed => row.error.Some? && told == [Initiated(mode), RebootFailedWith(row.error.value)]
    case Timeout => told == [Initiated(mode), GaveUp(s.timeout)]
  }

  // The endings after which what was queued while the internet was down is
  // delivered.
  predicate Drains(row: Run) {
    row.outcome in {Some(OnlyDegraded), Some(Outcome.RebootDisabled), Some(Timeout)}
    || (row.outcome == Some(Fine) && row.action == Action.Reboot)
  }

  predicate ToldBefore(acts: seq<Attempt>, n: int) {
    forall i :: 0 <= i < |acts| && acts[i].Notify? ==> i < n
  }

  // The row a pass leaves, its messages and its flushes go together.
  predicate Agrees(acts: seq<Attempt>, row: Run, s: Settings, mode: Mode) {
    && Matches(row, Messages(acts), s, mode)
    && (FlushesLast(acts) <==> Drains(row))
    && Times(Flush, acts) == Times(RebootRouter, acts) + if FlushesLast(acts) then 1 else 0
  }

  lemma RebootedAgrees(s: Settings, w: World, mode: Mode, p: Pass, row: Run)
    requires EndsRebooted(s, w, mode, p, row)
    ensures Agrees(p.acts, RowOf(row, p.acts), s, mode)
  {
  }

  lemma DecidedAgrees(s: Settings, w: World, p: Pass, row: Run)
    requires DecidedEnds(s, w, p, row)
    ensures Agrees(p.acts, RowOf(row, p.acts), s, Soft)
  {
    if GuardsOpen(s, w) {
      RebootedAgrees(s, w, Soft, p, row);
    }
  }

  lemma PassAgrees(s: Settings, w: World, mode: Mode)
    requires Advances(s, w) && w.inserted
    ensures Agrees(FullPass(s, w, mode).acts, RowOf(NewRow(w, mode), FullPass(s, w, mode).acts), s, mode)
  {
    var p, row := FullPass(s, w, mode), NewRow(w, mode);
    if mode.Hard? {
      HardPassEnds(s, w);
      if s.rebootEnabled {
        RebootedAgrees(s, w, Hard, p, row);
      }
    } else {
      SoftPassEnds(s, w);
      DecisiveMeaning(s, w);
      if ConfirmedDown(s, w) {
        DecidedAgrees(s, w, p, row);
      }
    }
  }

  lemma ToldBeforeClosing(acts: seq<Attempt>)
    requires ClosesLast(acts)
    ensures FlushesLast(acts) ==> ToldBefore(acts, |acts| - 2)
  {
  }

  // The messages of a finished pass follow from the row it leaves, and so does
  // the draining of the outbox: right before the closing update and after every
  // message, beside the one flush that precedes a request to the router.
  lemma MessagesMatchRow(s: Settings, w: World, mode: Mode)
    requires Advances(s, w) && w.inserted
    ensures var acts := FullPass(s, w, mode).acts;
      var row := RowOf(NewRow(w, mode), acts);
      && Matches(row, Messages(acts), s, mode)
      && (FlushesLast(acts) <==> Drains(row))
      && (FlushesLast(acts) ==> ToldBefore(acts, |acts| - 2))
      && Times(Flush, acts) == Times(RebootRouter, acts) + if FlushesLast(acts) then 1 else 0
  {
    assert ClosesLast(FullPass(s, w, mode).acts) by { PassIsOrdered(s, w, mode); }
    ToldBeforeClosing(FullPass(s, w, mode).acts);
    PassAgrees(s, w, mode);
  }
}
