// What a whole pass guarantees: when it may reboot, how the recovery loop
// ends, and what its run row says afterwards.
module Passes {
  import opened Instants
  import opened Options
  import opened Runs
  import opened Tables
  import opened Verdicts
  import opened Watchdog

  // ---------- the run row ----------

  function Wrote(row: Run, what: Attempt): Run {
    if what.UpdateRun? then Apply(row, what.update) else row
  }

  // The row after every one of these attempts succeeded.
  function RowOf(row: Run, acts: seq<Attempt>): Run {
    if acts == [] then row else Wrote(RowOf(row, acts[..|acts| - 1]), acts[|acts| - 1])
  }

  // The row after these calls, some of which may have failed.
  function Written(row: Run, calls: seq<Call>): Run {
    if calls == [] then row
    else
      var before := Written(row, calls[..|calls| - 1]);
      var last := calls[|calls| - 1];
      if last.ok then Wrote(before, last.what) else before
  }

  // Every update of the run row among these calls succeeded.
  predicate Landed(calls: seq<Call>) {
    forall i :: 0 <= i < |calls| && calls[i].what.UpdateRun? ==> calls[i].ok
  }

  lemma {:induction false} LandedWrites(row: Run, calls: seq<Call>)
    requires Landed(calls)
    ensures Written(row, calls) == RowOf(row, Attempts(calls))
  {
    if calls == [] {
    } else {
      var n := |calls| - 1;
      LandedWrites(row, calls[..n]);
      assert Attempts(calls)[..n] == Attempts(calls[..n]);
    }
  }

  lemma {:induction false} RowOfAppend(row: Run, a: seq<Attempt>, b: seq<Attempt>)
    ensures RowOf(row, a + b) == RowOf(RowOf(row, a), b)
  {
    if b == [] {
      assert a + b == a;
    } else {
      var n := |b| - 1;
      RowOfAppend(row, a, b[..n]);
      assert (a + b)[..|a + b| - 1] == a + b[..n];
    }
  }

  predicate Quiet(acts: seq<Attempt>) {
    forall i :: 0 <= i < |acts| ==> !acts[i].UpdateRun?
  }

  lemma {:induction false} QuietKeeps(row: Run, acts: seq<Attempt>)
    requires Quiet(acts)
    ensures RowOf(row, acts) == row
  {
    if acts == [] {
    } else {
      QuietKeeps(row, acts[..|acts| - 1]);
    }
  }

  lemma QuietTail(row: Run, acts: seq<Attempt>, last: Attempt)
    requires Quiet(acts)
    ensures RowOf(row, acts + [last]) == Wrote(row, last)
  {
    QuietKeeps(row, acts);
    assert (acts + [last])[..|acts|] == acts;
  }

  // ---------- confirmation ----------

  // The outage every sample of the pass agrees on.
  ghost predicate ConfirmedDown(s: Settings, w: World) {
    LinkGone(w.initial) && forall i: nat :: i < s.confirmations ==> LinkGone(w.confirm(i))
  }

  lemma {:induction false} RoundsAgree(s: Settings, w: World, i: nat)
    requires LinkGone(Sample(w, i))
    ensures Rounds(s, w, i) >= i
    ensures LinkGone(Sample(w, Rounds(s, w, i))) <==> (forall j: nat :: i <= j < s.confirmations ==> LinkGone(w.confirm(j)))
    decreases s.confirmations - i
  {
    if i < s.confirmations && LinkGone(w.confirm(i)) {
      RoundsAgree(s, w, i + 1);
    }
  }

  lemma DecisiveMeaning(s: Settings, w: World)
    ensures LinkGone(Decisive(s, w)) <==> ConfirmedDown(s, w)
  {
    if LinkGone(w.initial) {
      RoundsAgree(s, w, 0);
    }
  }

  // ---------- quiet parts ----------

  lemma {:induction false} RoundChecksAreChecks(w: World, n: nat)
    ensures forall i :: 0 <= i < |RoundChecks(w, n)| ==> RoundChecks(w, n)[i].InsertCheck?
  {
    if n == 0 {
    } else {
      RoundChecksAreChecks(w, n - 1);
    }
  }

  // An update that ends the record of a run.
  predicate Closes(what: Attempt) {
    what.UpdateRun? && (what.update.outcome.Some? || what.update.finishedAt.Some?)
  }

  // An attempt the recovery loop can make.
  predicate Polling(what: Attempt) {
    what.InsertCheck? || (what.UpdateRun? && what.update.internetOk.None? && what.update.rebootStartedAt.None? && !Closes(what))
  }

  lemma {:induction false} TicksPoll(w: World, n: nat)
    ensures forall i :: 0 <= i < |Ticks(w, n)| ==> Polling(Ticks(w, n)[i])
  {
    if n == 0 {
    } else {
      TicksPoll(w, n - 1);
    }
  }

  function Times(what: Attempt, acts: seq<Attempt>): nat {
    if acts == [] then 0 else Times(what, acts[..|acts| - 1]) + if acts[|acts| - 1] == what then 1 else 0
  }

  lemma {:induction false} NeverTimes(what: Attempt, acts: seq<Attempt>)
    requires what !in acts
    ensures Times(what, acts) == 0
  {
    if acts == [] {
    } else {
      NeverTimes(what, acts[..|acts| - 1]);
    }
  }

  lemma {:induction false} TimesAppend(what: Attempt, a: seq<Attempt>, b: seq<Attempt>)
    ensures Times(what, a + b) == Times(what, a) + Times(what, b)
  {
    if b == [] {
      assert a + b == a;
    } else {
      var n := |b| - 1;
      TimesAppend(what, a, b[..n]);
      assert (a + b)[..|a + b| - 1] == a + b[..n];
    }
  }

  // ---------- when the router is rebooted ----------

  // The guards after a confirmed outage.
  predicate GuardsOpen(s: Settings, w: World) {
    && s.rebootEnabled
    && Sustained(s, w.streak)
    && w.lastReboot.Ok?
    && (w.lastReboot.value.None? || w.cooldownAt - Parsed(w.lastReboot.value.value) >= s.cooldown)
  }

  // A soft pass reaches the router exactly here.
  ghost predicate MayReboot(s: Settings, w: World) {
    w.inserted && ConfirmedDown(s, w) && GuardsOpen(s, w)
  }

  lemma RecoveringNeverReboots(s: Settings, w: World)
    requires Advances(s, w)
    ensures Times(RebootRouter, Recovering(s, w).acts) == 0
  {
    var last := LastTick(s, w, 0);
    TicksPoll(w, last + 1);
    NeverTimes(RebootRouter, Ticks(w, last + 1));
    NeverTimes(RebootRouter, RecoveryEnd(s, w, last).acts);
    TimesAppend(RebootRouter, Ticks(w, last + 1), RecoveryEnd(s, w, last).acts);
  }

  lemma RequestingRebootsOnce(mode: Mode)
    ensures Times(RebootRouter, Requesting(mode)) == 1
  {
    assert Requesting(mode)[..3] == [Flush, UpdateRun(KEEP.(action := Some(Action.Reboot))), Notify(Initiated(mode))];
    NeverTimes(RebootRouter, Requesting(mode)[..3]);
  }

  lemma RebootingRebootsOnce(s: Settings, w: World, mode: Mode)
    requires Advances(s, w)
    ensures Times(RebootRouter, Rebooting(s, w, mode).acts) == 1
  {
    RequestingRebootsOnce(mode);
    TimesAppend(RebootRouter, Requesting(mode), AfterRequest(s, w).acts);
    if w.reboot.None? {
      var started := [UpdateRun(KEEP.(rebootStartedAt := Some(w.rebootedAt)))];
      RecoveringNeverReboots(s, w);
      NeverTimes(RebootRouter, started);
      TimesAppend(RebootRouter, started, Recovering(s, w).acts);
    } else {
      NeverTimes(RebootRouter, AfterRequest(s, w).acts);
    }
  }

  lemma OpeningIsQuiet(s: Settings, w: World)
    ensures RebootRouter !in OpeningSoft(w) + Verifying(s, w)
    ensures forall m :: Notify(m) !in OpeningSoft(w) + Verifying(s, w)
  {
    RoundChecksAreChecks(w, Rounds(s, w, 0));
  }

  lemma DecidingReboots(s: Settings, w: World)
    requires Advances(s, w)
    ensures Times(RebootRouter, Deciding(s, w).acts) == if GuardsOpen(s, w) then 1 else 0
  {
    if !s.rebootEnabled {
      NeverTimes(RebootRouter, OnDisabled(w, Soft).acts);
    } else if !Sustained(s, w.streak) {
      NeverTimes(RebootRouter, NoOutage(w, Unsustained, EXIT_NO_ACTION).acts);
    } else if w.lastReboot.Err? {
      NeverTimes(RebootRouter, OnCooldownUnknown(w, w.lastReboot.error).acts);
    } else if Cooling(s, w) {
      NeverTimes(RebootRouter, OnCooldown(w, w.cooldownAt - Parsed(w.lastReboot.value.value)).acts);
    } else {
      RebootingRebootsOnce(s, w, Soft);
    }
  }

  lemma GradedReboots(s: Settings, w: World)
    requires Advances(s, w) && w.inserted
    ensures Times(RebootRouter, Graded(s, w).acts) == if MayReboot(s, w) then 1 else 0
  {
    DecisiveMeaning(s, w);
    match Grade(Decisive(s, w))
    case Down => DecidingReboots(s, w);
    case Degraded => NeverTimes(RebootRouter, OnDegraded(w).acts);
    case Up => NeverTimes(RebootRouter, Graded(s, w).acts);
  }

  // A soft pass reboots at most once, and exactly when every guard agrees.
  lemma SoftRebootIsGuarded(s: Settings, w: World)
    requires Advances(s, w)
    ensures Times(RebootRouter, FullPass(s, w, Soft).acts) == if MayReboot(s, w) then 1 else 0
  {
    if w.inserted {
      OpeningIsQuiet(s, w);
      NeverTimes(RebootRouter, OpeningSoft(w) + Verifying(s, w));
      TimesAppend(RebootRouter, OpeningSoft(w) + Verifying(s, w), Graded(s, w).acts);
      GradedReboots(s, w);
    } else {
      NeverTimes(RebootRouter, FullPass(s, w, Soft).acts);
    }
  }

  // A hard pass asks nobody but the REBOOT_ENABLED switch.
  lemma HardRebootIsSwitched(s: Settings, w: World)
    requires Advances(s, w)
    ensures Times(RebootRouter, FullPass(s, w, Hard).acts) == if w.inserted && s.rebootEnabled then 1 else 0
  {
    if w.inserted {
      NeverTimes(RebootRouter, OpeningHard(w));
      TimesAppend(RebootRouter, OpeningHard(w), AfterHardOpening(s, w).acts);
      if s.rebootEnabled {
        RebootingRebootsOnce(s, w, Hard);
      } else {
        NeverTimes(RebootRouter, OnDisabled(w, Hard).acts);
      }
    } else {
      NeverTimes(RebootRouter, FullPass(s, w, Hard).acts);
    }
  }

  // ---------- the order of a pass ----------

  predicate StampsReboot(what: Attempt) {
    what.UpdateRun? && what.update.rebootStartedAt.Some?
  }

  // Attempt i, if it asks for the reboot, comes right after the flush, the
  // recorded action and the notice; if it stamps the reboot, right after it.
  predicate InTurn(acts: seq<Attempt>, i: nat, mode: Mode)
    requires i < |acts|
  {
    && (acts[i] == RebootRouter ==>
          i >= 3 && acts[i - 3..i] == [Flush, UpdateRun(KEEP.(action := Some(Action.Reboot))), Notify(Initiated(mode))])
    && (StampsReboot(acts[i]) ==> i > 0 && acts[i - 1] == RebootRouter)
  }

  predicate AllInTurn(acts: seq<Attempt>, mode: Mode) {
    forall i :: 0 <= i < |acts| ==> InTurn(acts, i, mode)
  }

  predicate Harmless(acts: seq<Attempt>) {
    forall i :: 0 <= i < |acts| ==> acts[i] != RebootRouter && !StampsReboot(acts[i]) && !Closes(acts[i])
  }

  lemma TurnsStay(head: seq<Attempt>, acts: seq<Attempt>, mode: Mode)
    requires Harmless(head) && AllInTurn(acts, mode)
    ensures AllInTurn(head + acts, mode)
  {
    forall i | 0 <= i < |head + acts|
      ensures InTurn(head + acts, i, mode)
    {
      if i >= |head| {
        var k := i - |head|;
        assert InTurn(acts, k, mode);
        assert (head + acts)[i] == acts[k];
        if acts[k] == RebootRouter {
          assert (head + acts)[i - 3..i] == acts[k - 3..k];
        }
      }
    }
  }

  // The last attempt, and no other, closes the record.
  predicate ClosesLast(acts: seq<Attempt>) {
    && acts != []
    && var last := acts[|acts| - 1];
    && last.UpdateRun? && last.update.outcome.Some? && last.update.finishedAt.Some?
    && forall i :: 0 <= i < |acts| - 1 ==> !Closes(acts[i])
  }

  lemma RecoveringIsOrdered(s: Settings, w: World)
    requires Advances(s, w)
    ensures ClosesLast(Recovering(s, w).acts)
    ensures forall a :: a in Recovering(s, w).acts ==> a != RebootRouter && !StampsReboot(a)
  {
    var last := LastTick(s, w, 0);
    TicksPoll(w, last + 1);
    assert ClosesLast(RecoveryEnd(s, w, last).acts);
  }

  lemma RebootedIsOrdered(s: Settings, w: World)
    requires Advances(s, w)
    ensures ClosesLast(AfterRequest(s, w).acts) && RebootRouter !in AfterRequest(s, w).acts
    ensures forall i :: 0 < i < |AfterRequest(s, w).acts| ==> !StampsReboot(AfterRequest(s, w).acts[i])
  {
    if w.reboot.None? {
      RecoveringIsOrdered(s, w);
      assert forall i :: 0 < i < |AfterRequest(s, w).acts| ==> AfterRequest(s, w).acts[i] == Recovering(s, w).acts[i - 1];
    }
  }

  lemma RequestTurns(mode: Mode, rest: seq<Attempt>)
    requires ClosesLast(rest) && RebootRouter !in rest
    requires forall i :: 0 < i < |rest| ==> !StampsReboot(rest[i])
    ensures AllInTurn(Requesting(mode) + rest, mode) && ClosesLast(Requesting(mode) + rest)
  {
    var acts := Requesting(mode) + rest;
    assert acts[0..3] == Requesting(mode)[..3];
    assert forall i :: 4 <= i < |acts| ==> acts[i] == rest[i - 4];
  }

  lemma RebootingIsOrdered(s: Settings, w: World, mode: Mode)
    requires Advances(s, w)
    ensures AllInTurn(Rebooting(s, w, mode).acts, mode) && ClosesLast(Rebooting(s, w, mode).acts)
  {
    RebootedIsOrdered(s, w);
    RequestTurns(mode, AfterRequest(s, w).acts);
  }

  lemma InsertsNothing(s: Settings, w: World, mode: Mode)
    requires Advances(s, w)
    ensures forall a :: a in Rebooting(s, w, mode).acts ==> !a.InsertRun?
  {
    if w.reboot.None? {
      TicksPoll(w, LastTick(s, w, 0) + 1);
    }
  }

  lemma DecidingIsOrdered(s: Settings, w: World)
    requires Advances(s, w)
    ensures AllInTurn(Deciding(s, w).acts, Soft) && ClosesLast(Deciding(s, w).acts)
    ensures forall a :: a in Deciding(s, w).acts ==> !a.InsertRun?
  {
    if GuardsOpen(s, w) {
      RebootingIsOrdered(s, w, Soft);
      InsertsNothing(s, w, Soft);
    }
  }

  lemma GradedIsOrdered(s: Settings, w: World)
    requires Advances(s, w)
    ensures AllInTurn(Graded(s, w).acts, Soft) && ClosesLast(Graded(s, w).acts)
    ensures forall a :: a in Graded(s, w).acts ==> !a.InsertRun?
  {
    if Grade(Decisive(s, w)).Down? {
      DecidingIsOrdered(s, w);
    }
  }

  // The insert comes first and nowhere else.
  predicate InsertsFirst(acts: seq<Attempt>) {
    forall i :: 0 <= i < |acts| ==> (acts[i].InsertRun? <==> i == 0)
  }

  lemma HardIsOrdered(s: Settings, w: World)
    requires Advances(s, w) && w.inserted
    ensures AllInTurn(HardPass(s, w).acts, Hard) && ClosesLast(HardPass(s, w).acts) && InsertsFirst(HardPass(s, w).acts)
  {
    RebootingIsOrdered(s, w, Hard);
    TurnsStay(OpeningHard(w), AfterHardOpening(s, w).acts, Hard);
    InsertsNothing(s, w, Hard);
  }

  lemma SoftIsOrdered(s: Settings, w: World)
    requires Advances(s, w) && w.inserted
    ensures AllInTurn(SoftPass(s, w).acts, Soft) && ClosesLast(SoftPass(s, w).acts) && InsertsFirst(SoftPass(s, w).acts)
  {
    var head := OpeningSoft(w) + Verifying(s, w);
    RoundChecksAreChecks(w, Rounds(s, w, 0));
    assert Harmless(head) && InsertsFirst(head);
    GradedIsOrdered(s, w);
    TurnsStay(head, Graded(s, w).acts, Soft);
  }

  // In every pass that inserted its row: the insert comes first, the reboot
  // follows its flush, record and notice, its start is stamped right after it,
  // and only the last attempt closes the record.
  lemma PassIsOrdered(s: Settings, w: World, mode: Mode)
    requires Advances(s, w) && w.inserted
    ensures AllInTurn(FullPass(s, w, mode).acts, mode)
    ensures ClosesLast(FullPass(s, w, mode).acts)
    ensures InsertsFirst(FullPass(s, w, mode).acts)
  {
    if mode.Hard? {
      HardIsOrdered(s, w);
    } else {
      SoftIsOrdered(s, w);
    }
  }

  // ---------- the recovery loop ----------

  lemma {:induction false} TicksSpread(s: Settings, w: World, k: nat)
    requires Advances(s, w)
    ensures w.tick(k) - w.rebootedAt >= (k + 1) * s.interval
  {
    if k == 0 {
    } else {
      TicksSpread(s, w, k - 1);
      assert (k + 1) * s.interval == k * s.interval + s.interval;
      assert Waits(s, w, k - 1);
    }
  }

  function CeilDiv(a: int, b: int): int
    requires b > 0
  {
    (a + b - 1) / b
  }

  lemma BelowCeil(n: int, a: int, b: int)
    requires b > 0 && n * b < a
    ensures n + 1 <= CeilDiv(a, b)
  {
    var q := CeilDiv(a, b);
    var r := (a + b - 1) % b;
    assert a + b - 1 == q * b + r;
    if q <= n {
      ProductGrows(q, n, b);
    }
  }

  lemma ProductGrows(p: int, q: int, b: int)
    requires p <= q && b > 0
    ensures p * b <= q * b
  {
    assert q * b - p * b == (q - p) * b;
  }

  // The loop polls at most max(1, ceil(timeout / interval)) times.
  lemma RecoveryTerminates(s: Settings, w: World)
    requires Advances(s, w)
    ensures LastTick(s, w, 0) + 1 <= if s.timeout <= s.interval then 1 else CeilDiv(s.timeout, s.interval)
  {
    var last := LastTick(s, w, 0);
    if last > 0 {
      assert !Ends(s, w, last - 1);
      TicksSpread(s, w, last - 1);
      BelowCeil(last, s.timeout, s.interval);
      ProductGrows(1, last, s.interval);
    }
  }

  // Tick k answers, and no earlier tick had used up the timeout.
  ghost predicate AnswersInTime(s: Settings, w: World, k: nat) {
    !LinkGone(w.recheck(k)) && forall j: nat :: j < k ==> w.tick(j) - w.rebootedAt < s.timeout
  }

  // The pass ends well exactly when some sample answers in time; the sample
  // that ends it is then the first to answer. Otherwise every sample was down
  // and only the last one came at or past the timeout.
  lemma RecoveryEndsRight(s: Settings, w: World)
    requires Advances(s, w)
    ensures Recovering(s, w).exit == EXIT_OK || Recovering(s, w).exit == EXIT_RECOVERY_TIMEOUT
    ensures Recovering(s, w).exit == EXIT_OK <==> exists k: nat :: AnswersInTime(s, w, k)
    ensures forall j: nat :: j < LastTick(s, w, 0) ==> LinkGone(w.recheck(j)) && w.tick(j) - w.rebootedAt < s.timeout
    ensures Recovering(s, w).exit == EXIT_OK <==> !LinkGone(w.recheck(LastTick(s, w, 0)))
    ensures Recovering(s, w).exit != EXIT_OK ==> w.tick(LastTick(s, w, 0)) - w.rebootedAt >= s.timeout
  {
    var last := LastTick(s, w, 0);
    forall j: nat | j < last
      ensures LinkGone(w.recheck(j)) && w.tick(j) - w.rebootedAt < s.timeout
    {
      assert !Ends(s, w, j);
    }
    if Recovering(s, w).exit == EXIT_OK {
      assert AnswersInTime(s, w, last);
    } else {
      forall k: nat
        ensures !AnswersInTime(s, w, k)
      {
        if k > last {
          assert w.tick(last) - w.rebootedAt >= s.timeout;
        }
      }
    }
  }

  // ---------- gateway edges ----------

  function LatestDown(w: World, n: nat): (k: Option<nat>)
    ensures k.Some? ==> k.value < n && DownEdge(w, k.value)
  {
    if n == 0 then None else if DownEdge(w, n - 1) then Some(n - 1) else LatestDown(w, n - 1)
  }

  function LatestUp(w: World, n: nat): (k: Option<nat>)
    ensures k.Some? ==> k.value < n && UpEdge(w, k.value)
  {
    if n == 0 then None else if UpEdge(w, n - 1) then Some(n - 1) else LatestUp(w, n - 1)
  }

  lemma {:induction false} LatestAreLatest(w: World, n: nat, j: nat)
    requires j < n
    ensures DownEdge(w, j) ==> LatestDown(w, n).Some? && LatestDown(w, n).value >= j
    ensures UpEdge(w, j) ==> LatestUp(w, n).Some? && LatestUp(w, n).value >= j
  {
    if j < n - 1 {
      LatestAreLatest(w, n - 1, j);
    }
  }

  // The gateway counts as up after n ticks exactly when it never went down or
  // came back since; an up edge always has a down edge before it.
  lemma {:induction false} EdgesTellLiveness(w: World, n: nat)
    ensures LatestUp(w, n).Some? ==> LatestDown(w, n).Some?
    ensures Alive(w, n) <==> (LatestDown(w, n).None?
                              || (LatestUp(w, n).Some? && LatestUp(w, n).value > LatestDown(w, n).value))
  {
    if n == 0 {
    } else {
      EdgesTellLiveness(w, n - 1);
    }
  }

  // Edges alternate: between two of a kind there is one of the other.
  lemma EdgesAlternate(w: World, i: nat, j: nat)
    requires i < j
    ensures DownEdge(w, i) && DownEdge(w, j) ==> exists k :: i < k < j && UpEdge(w, k)
    ensures UpEdge(w, i) && UpEdge(w, j) ==> exists k :: i < k < j && DownEdge(w, k)
  {
    if DownEdge(w, i) && DownEdge(w, j) {
      var k := FirstFlip(w, i + 1, j);
      assert UpEdge(w, k);
    }
    if UpEdge(w, i) && UpEdge(w, j) {
      var k := FirstFlip(w, i + 1, j);
      assert DownEdge(w, k);
    }
  }

  lemma {:induction false} FirstFlip(w: World, i: nat, j: nat) returns (k: nat)
    requires i < j && Alive(w, i) != Alive(w, j)
    ensures i <= k < j
    ensures if Alive(w, i) then DownEdge(w, k) else UpEdge(w, k)
    decreases j - i
  {
    if Alive(w, i + 1) != Alive(w, i) {
      return i;
    }
    k := FirstFlip(w, i + 1, j);
  }

  function StoredTick(w: World, k: Option<nat>): Option<int> {
    if k.None? then None else Some(WholeSeconds(w.tick(k.value)))
  }

  // The stored times are those of the latest edges, whatever was there before.
  function WithEdges(row: Run, w: World, n: nat): Run {
    row.(routerDownAt := Or(StoredTick(w, LatestDown(w, n)), row.routerDownAt),
         routerUpAt := Or(StoredTick(w, LatestUp(w, n)), row.routerUpAt))
  }

  lemma TickRow(row: Run, w: World, k: nat)
    ensures RowOf(row, Tick(w, k)) == if Transition(w, k) == [] then row else Wrote(row, Transition(w, k)[0])
  {
    var checks := Checks(Recovery, w.recheck(k));
    var head := [InsertCheck(Recovery, w.gateway(k))];
    RowOfAppend(row, head + Transition(w, k), checks);
    QuietKeeps(RowOf(row, head + Transition(w, k)), checks);
    if Transition(w, k) == [] {
      QuietKeeps(row, head + Transition(w, k));
    } else {
      QuietTail(row, head, Transition(w, k)[0]);
      assert Transition(w, k) == [Transition(w, k)[0]];
    }
  }

  lemma EdgeStep(row: Run, w: World, n: nat)
    ensures WithEdges(row, w, n + 1)
         == if Transition(w, n) == [] then WithEdges(row, w, n) else Wrote(WithEdges(row, w, n), Transition(w, n)[0])
  {
  }

  lemma TicksRowStep(before: Run, row: Run, w: World, n: nat)
    requires before == WithEdges(row, w, n)
    ensures RowOf(before, Tick(w, n)) == WithEdges(row, w, n + 1)
  {
    TickRow(before, w, n);
    EdgeStep(row, w, n);
  }

  lemma TicksRowNext(row: Run, w: World, n: nat)
    requires RowOf(row, Ticks(w, n)) == WithEdges(row, w, n)
    ensures RowOf(row, Ticks(w, n + 1)) == WithEdges(row, w, n + 1)
  {
    RowOfAppend(row, Ticks(w, n), Tick(w, n));
    TicksRowStep(RowOf(row, Ticks(w, n)), row, w, n);
  }

  lemma {:induction false} TicksRow(row: Run, w: World, n: nat)
    ensures RowOf(row, Ticks(w, n)) == WithEdges(row, w, n)
  {
    if n == 0 {
    } else {
      TicksRow(row, w, n - 1);
      TicksRowNext(row, w, n - 1);
    }
  }

  // A later down edge overwrites the time of the first.
  lemma DownTimeIsOverwritten(row: Run, w: World)
    requires !w.gateway(0).ok && w.gateway(1).ok && !w.gateway(2).ok
    ensures RowOf(row, Ticks(w, 1)).routerDownAt == Some(WholeSeconds(w.tick(0)))
    ensures RowOf(row, Ticks(w, 3)).routerDownAt == Some(WholeSeconds(w.tick(2)))
    ensures RowOf(row, Ticks(w, 3)).routerUpAt == Some(WholeSeconds(w.tick(1)))
  {
    TicksRow(row, w, 1);
    TicksRow(row, w, 3);
    assert DownEdge(w, 0) && UpEdge(w, 1) && DownEdge(w, 2);
    assert LatestUp(w, 2) == Some(1);
  }

  function Ended(row: Run, outcome: Outcome, at: Instant): Run {
    row.(outcome := Some(outcome), finishedAt := Some(WholeSeconds(at)))
  }

  // The row a successful reboot leaves behind.
  function RebootedRow(row: Run, s: Settings, w: World): Run
    requires Advances(s, w)
  {
    var last := LastTick(s, w, 0);
    var edges := WithEdges(row.(rebootStartedAt := Some(WholeSeconds(w.rebootedAt))), w, last + 1);
    if LinkGone(w.recheck(last)) then Ended(edges, Timeout, w.tick(last))
    else Ended(edges.(internetRestoredAt := Some(WholeSeconds(w.tick(last)))), Fine, w.tick(last))
  }

  lemma RecoveringRow(row: Run, s: Settings, w: World)
    requires Advances(s, w)
    ensures RowOf(row.(rebootStartedAt := Some(WholeSeconds(w.rebootedAt))), Recovering(s, w).acts) == RebootedRow(row, s, w)
  {
    var started := row.(rebootStartedAt := Some(WholeSeconds(w.rebootedAt)));
    var last := LastTick(s, w, 0);
    var end := RecoveryEnd(s, w, last).acts;
    RowOfAppend(started, Ticks(w, last + 1), end);
    TicksRow(started, w, last + 1);
    assert end == end[..2] + [end[2]];
    QuietTail(WithEdges(started, w, last + 1), end[..2], end[2]);
  }

  lemma {:induction false} TicksRise(s: Settings, w: World, i: nat, j: nat)
    requires Advances(s, w) && i <= j
    ensures w.rebootedAt <= w.tick(i) <= w.tick(j)
    decreases j
  {
    if j == 0 {
    } else if i < j {
      TicksRise(s, w, i, j - 1);
      assert Waits(s, w, j - 1);
    } else {
      TicksRise(s, w, i - 1, j - 1);
      assert Waits(s, w, j - 1);
    }
  }

  predicate Within(at: Option<int>, low: int, high: int) {
    at.Some? ==> low <= at.value <= high
  }

  // The gateway's times lie between the reboot and the end of the run, and an
  // up time never stands without a down time.
  lemma GatewayTimesAreOrdered(row: Run, s: Settings, w: World)
    requires Advances(s, w) && row.routerDownAt.None? && row.routerUpAt.None? && row.internetRestoredAt.None?
    ensures var r := RebootedRow(row, s, w);
      r.rebootStartedAt.Some? && r.finishedAt.Some?
      && Within(r.routerDownAt, r.rebootStartedAt.value, r.finishedAt.value)
      && Within(r.routerUpAt, r.rebootStartedAt.value, r.finishedAt.value)
      && (r.routerUpAt.Some? ==> r.routerDownAt.Some?)
      && (r.outcome == Some(Fine) <==> r.internetRestoredAt == r.finishedAt)
  {
    var last := LastTick(s, w, 0);
    EdgesTellLiveness(w, last + 1);
    TicksRise(s, w, 0, last);
    if LatestDown(w, last + 1).Some? {
      TicksRise(s, w, LatestDown(w, last + 1).value, last);
    }
    if LatestUp(w, last + 1).Some? {
      TicksRise(s, w, LatestUp(w, last + 1).value, last);
    }
  }

  // ---------- the record of a finished pass ----------

  function ExitFor(outcome: Outcome): int {
    match outcome
    case Fine => EXIT_OK
    case Unconfirmed => EXIT_OK
    case RebootDisabled => EXIT_OK
    case RebootFailed => EXIT_REBOOT_FAILED
    case Timeout => EXIT_RECOVERY_TIMEOUT
    case Skipped => EXIT_SKIPPED_COOLDOWN
    case OnlyDegraded => EXIT_NO_ACTION
    case Unsustained => EXIT_NO_ACTION
  }

  predicate Recorded(row: Run, exit: int) {
    row.outcome.Some? && row.finishedAt.Some? && exit == ExitFor(row.outcome.value)
  }

  // What the end of a pass adds to its row.
  predicate ClosesWith(before: Run, after: Run, p: Pass, degraded: bool, rebooted: bool, at: Option<int>) {
    && Recorded(after, p.exit)
    && after.internetOk == before.internetOk
    && (after.outcome == Some(OnlyDegraded) <==> degraded)
    && (after.action == Action.Reboot <==> rebooted)
    && after.rebootStartedAt == at
  }

  lemma ClosingRow(row: Run, p: Pass)
    requires p.acts != [] && Quiet(p.acts[..|p.acts| - 1])
    ensures RowOf(row, p.acts) == Wrote(row, p.acts[|p.acts| - 1])
  {
    QuietKeeps(row, p.acts[..|p.acts| - 1]);
  }

  predicate Blank(row: Run) {
    row.action.Nothing? && row.rebootStartedAt.None?
  }

  lemma RequestingRow(row: Run, mode: Mode)
    ensures RowOf(row, Requesting(mode)) == row.(action := Action.Reboot)
  {
    var acts := Requesting(mode);
    var update := UpdateRun(KEEP.(action := Some(Action.Reboot)));
    assert acts == ([Flush] + [update]) + [Notify(Initiated(mode)), RebootRouter];
    RowOfAppend(row, [Flush] + [update], [Notify(Initiated(mode)), RebootRouter]);
    QuietTail(row, [Flush], update);
    QuietKeeps(Wrote(row, update), [Notify(Initiated(mode)), RebootRouter]);
  }

  function StartedAt(w: World): Option<int> {
    if w.reboot.None? then Some(WholeSeconds(w.rebootedAt)) else None
  }

  lemma RebootingEnds(row: Run, s: Settings, w: World, mode: Mode)
    requires Advances(s, w) && Blank(row)
    ensures ClosesWith(row, RowOf(row, Rebooting(s, w, mode).acts), Rebooting(s, w, mode), false, true, StartedAt(w))
  {
    var requested := row.(action := Action.Reboot);
    RequestingRow(row, mode);
    RowOfAppend(row, Requesting(mode), AfterRequest(s, w).acts);
    if w.reboot.Some? {
      ClosingRow(requested, OnRebootFailed(w, w.reboot.value));
    } else {
      var update := UpdateRun(KEEP.(rebootStartedAt := Some(w.rebootedAt)));
      RowOfAppend(requested, [update], Recovering(s, w).acts);
      QuietTail(requested, [], update);
      assert [] + [update] == [update];
      RecoveringRow(requested, s, w);
    }
  }

  lemma DecidingEnds(row: Run, s: Settings, w: World)
    requires Advances(s, w) && Blank(row)
    ensures ClosesWith(row, RowOf(row, Deciding(s, w).acts), Deciding(s, w), false, GuardsOpen(s, w),
                  if GuardsOpen(s, w) then StartedAt(w) else None)
  {
    if GuardsOpen(s, w) {
      RebootingEnds(row, s, w, Soft);
    } else {
      ClosingRow(row, Deciding(s, w));
    }
  }

  lemma GradedEnds(row: Run, s: Settings, w: World)
    requires Advances(s, w) && Blank(row)
    ensures var open := LinkGone(Decisive(s, w)) && GuardsOpen(s, w);
      ClosesWith(row, RowOf(row, Graded(s, w).acts), Graded(s, w), Grade(Decisive(s, w)).Degraded?, open,
            if open then StartedAt(w) else None)
  {
    if LinkGone(Decisive(s, w)) {
      DecidingEnds(row, s, w);
    } else {
      ClosingRow(row, Graded(s, w));
    }
  }

  lemma VerifiedRow(s: Settings, w: World)
    ensures var row := Fresh(w.startedAt, Soft, Some(!LinkGone(w.initial)));
      RowOf(row, OpeningSoft(w) + Verifying(s, w)) == row.(internetOk := Some(!LinkGone(Decisive(s, w))))
  {
    var row := Fresh(w.startedAt, Soft, Some(!LinkGone(w.initial)));
    RowOfAppend(row, OpeningSoft(w), Verifying(s, w));
    QuietKeeps(row, OpeningSoft(w));
    if LinkGone(w.initial) {
      var checks := RoundChecks(w, Rounds(s, w, 0));
      RoundChecksAreChecks(w, Rounds(s, w, 0));
      if LinkGone(Decisive(s, w)) {
        QuietKeeps(row, checks + []);
      } else {
        QuietTail(row, checks, UpdateRun(KEEP.(internetOk := Some(true))));
      }
    }
  }

  // The row a pass inserts.
  function NewRow(w: World, mode: Mode): Run {
    Fresh(w.startedAt, mode, if mode.Hard? then None else Some(!LinkGone(w.initial)))
  }

  // A finished soft pass leaves one row that says how it ended: its exit code
  // is the one of its outcome, internet_ok is the verdict every sample agreed
  // on, and the reboot columns are set exactly when the router was asked.
  lemma SoftPassIsRecorded(s: Settings, w: World)
    requires Advances(s, w) && w.inserted
    ensures var row := RowOf(NewRow(w, Soft), FullPass(s, w, Soft).acts);
      && Recorded(row, FullPass(s, w, Soft).exit)
      && row.internetOk == Some(!ConfirmedDown(s, w))
      && (row.outcome == Some(OnlyDegraded) <==> Grade(Decisive(s, w)).Degraded?)
      && (row.action == Action.Reboot <==> MayReboot(s, w))
      && row.rebootStartedAt == if MayReboot(s, w) then StartedAt(w) else None
  {
    var row := NewRow(w, Soft);
    VerifiedRow(s, w);
    RowOfAppend(row, OpeningSoft(w) + Verifying(s, w), Graded(s, w).acts);
    GradedEnds(row.(internetOk := Some(!LinkGone(Decisive(s, w)))), s, w);
    DecisiveMeaning(s, w);
  }

  lemma HardPassIsRecorded(s: Settings, w: World)
    requires Advances(s, w) && w.inserted
    ensures var row := RowOf(NewRow(w, Hard), FullPass(s, w, Hard).acts);
      && Recorded(row, FullPass(s, w, Hard).exit)
      && row.internetOk == None && row.outcome != Some(OnlyDegraded)
      && (row.action == Action.Reboot <==> s.rebootEnabled)
      && row.rebootStartedAt == if s.rebootEnabled then StartedAt(w) else None
  {
    var row := NewRow(w, Hard);
    QuietKeeps(row, OpeningHard(w));
    RowOfAppend(row, OpeningHard(w), AfterHardOpening(s, w).acts);
    if s.rebootEnabled {
      RebootingEnds(row, s, w, Hard);
    } else {
      ClosingRow(row, OnDisabled(w, Hard));
    }
  }

  // ---------- how each terminal state concludes ----------

  function Messages(acts: seq<Attempt>): seq<Message> {
    if acts == [] then []
    else
      var last := acts[|acts| - 1];
      var before := Messages(acts[..|acts| - 1]);
      if last.Notify? then before + [last.message] else before
  }

  lemma {:induction false} MessagesAppend(a: seq<Attempt>, b: seq<Attempt>)
    ensures Messages(a + b) == Messages(a) + Messages(b)
  {
    if b == [] {
      assert a + b == a;
    } else {
      var n := |b| - 1;
      MessagesAppend(a, b[..n]);
      assert (a + b)[..|a + b| - 1] == a + b[..n];
    }
  }

  lemma {:induction false} NoMessages(acts: seq<Attempt>)
    requires forall i :: 0 <= i < |acts| ==> !acts[i].Notify?
    ensures Messages(acts) == []
  {
    if acts == [] {
    } else {
      NoMessages(acts[..|acts| - 1]);
    }
  }

  lemma OneMessage(m: Message, rest: seq<Attempt>)
    requires forall i :: 0 <= i < |rest| ==> !rest[i].Notify?
    ensures Messages([Notify(m)] + rest) == [m]
  {
    MessagesAppend([Notify(m)], rest);
    NoMessages(rest);
    assert [Notify(m)][..0] == [];
  }

  predicate FlushesLast(acts: seq<Attempt>) {
    |acts| >= 2 && acts[|acts| - 2] == Flush
  }

  // The row ends as `final` with the one closing update last, the exit code is
  // that of its outcome, exactly these messages are offered, and the outbox is
  // drained either right before the closing update or not at all.
  predicate Concludes(p: Pass, row: Run, final: Run, told: seq<Message>, flushed: bool) {
    && RowOf(row, p.acts) == final
    && final.outcome.Some? && p.exit == ExitFor(final.outcome.value)
    && ClosesLast(p.acts)
    && Messages(p.acts) == told
    && FlushesLast(p.acts) == flushed && Times(Flush, p.acts) == (if flushed then 1 else 0)
    && RebootRouter !in p.acts
  }

  lemma LastFlush(acts: seq<Attempt>)
    requires FlushesLast(acts) && Flush !in acts[..|acts| - 2] && acts[|acts| - 1] != Flush
    ensures Times(Flush, acts) == 1
  {
    var init := acts[..|acts| - 1];
    assert init[..|init| - 1] == acts[..|acts| - 2];
    NeverTimes(Flush, acts[..|acts| - 2]);
  }

  lemma DegradedConcludes(row: Run, w: World)
    ensures Concludes(OnDegraded(w), row, Ended(row, OnlyDegraded, w.closedAt),
                      if Announces(w.previous, OnlyDegraded) then [DomainsFailing] else [], true)
  {
    var rest := [Flush, UpdateRun(Closing(OnlyDegraded, w.closedAt))];
    ClosingRow(row, OnDegraded(w));
    LastFlush(OnDegraded(w).acts);
    if Announces(w.previous, OnlyDegraded) {
      OneMessage(DomainsFailing, rest);
    } else {
      NoMessages(OnDegraded(w).acts);
    }
  }

  lemma NoOutageConcludes(row: Run, w: World, outcome: Outcome)
    ensures Concludes(NoOutage(w, outcome, ExitFor(outcome)), row, Ended(row, outcome, w.closedAt), [], false)
  {
    ClosingRow(row, NoOutage(w, outcome, ExitFor(outcome)));
    NeverTimes(Flush, NoOutage(w, outcome, ExitFor(outcome)).acts);
    NoMessages(NoOutage(w, outcome, ExitFor(outcome)).acts);
  }

  lemma DisabledConcludes(row: Run, w: World, mode: Mode)
    ensures Concludes(OnDisabled(w, mode), row,
                      Ended(row.(action := SkippedDisabled), Outcome.RebootDisabled, w.closedAt), [MonitorOnly(mode)], true)
  {
    var acts := OnDisabled(w, mode).acts;
    ClosingRow(row, OnDisabled(w, mode));
    LastFlush(acts);
    assert acts == [acts[0]] + acts[1..];
    OneMessage(MonitorOnly(mode), acts[1..]);
  }

  lemma RebootFailedConcludes(row: Run, w: World, error: string)
    ensures Concludes(OnRebootFailed(w, error), row,
                      Ended(row.(error := Some(error)), Outcome.RebootFailed, w.closedAt), [RebootFailedWith(error)], false)
  {
    var acts := OnRebootFailed(w, error).acts;
    ClosingRow(row, OnRebootFailed(w, error));
    NeverTimes(Flush, acts);
    assert acts == [acts[0]] + acts[1..];
    OneMessage(RebootFailedWith(error), acts[1..]);
  }

  lemma RestoredConcludes(row: Run, now: Instant)
    ensures Concludes(OnRestored(now), row,
                      Ended(row.(internetRestoredAt := Some(WholeSeconds(now))), Fine, now), [Restored], true)
  {
    var acts := OnRestored(now).acts;
    ClosingRow(row, OnRestored(now));
    LastFlush(acts);
    assert acts == [acts[0]] + acts[1..];
    OneMessage(Restored, acts[1..]);
  }

  lemma TimeoutConcludes(row: Run, s: Settings, now: Instant)
    ensures Concludes(OnTimeout(s, now), row, Ended(row, Timeout, now), [GaveUp(s.timeout)], true)
  {
    var acts := OnTimeout(s, now).acts;
    ClosingRow(row, OnTimeout(s, now));
    LastFlush(acts);
    assert acts == [acts[0]] + acts[1..];
    OneMessage(GaveUp(s.timeout), acts[1..]);
  }

  lemma CooldownConcludes(row: Run, w: World, age: int)
    ensures Concludes(OnCooldown(w, age), row, Ended(row.(action := SkippedCooldown), Skipped, w.closedAt),
                      if Announces(w.previous, Skipped) then [CoolingDown(age)] else [], false)
  {
    var rest := [UpdateRun(Closing(Skipped, w.closedAt).(action := Some(SkippedCooldown)))];
    ClosingRow(row, OnCooldown(w, age));
    NeverTimes(Flush, OnCooldown(w, age).acts);
    if Announces(w.previous, Skipped) {
      OneMessage(CoolingDown(age), rest);
    } else {
      NoMessages(OnCooldown(w, age).acts);
    }
  }

  lemma CooldownUnknownConcludes(row: Run, w: World, error: string)
    ensures Concludes(OnCooldownUnknown(w, error), row,
                      Ended(row.(action := SkippedCooldown, error := Some(error)), Skipped, w.closedAt),
                      [CooldownUnknown(error)], false)
  {
    var acts := OnCooldownUnknown(w, error).acts;
    ClosingRow(row, OnCooldownUnknown(w, error));
    NeverTimes(Flush, acts);
    assert acts == [acts[0]] + acts[1..];
    OneMessage(CooldownUnknown(error), acts[1..]);
  }

  lemma TellingLast(head: seq<Attempt>, rest: seq<Attempt>)
    requires forall i :: 0 <= i < |head| ==> !head[i].Notify?
    ensures Messages(head + rest) == Messages(rest)
  {
    NoMessages(head);
    MessagesAppend(head, rest);
    assert [] + Messages(rest) == Messages(rest);
  }

  // ---------- the record of a pass cut short ----------

  // No attempt of the pass sets these columns to anything else.
  predicate Honest(what: Attempt, rebooted: bool, at: Instant) {
    what.UpdateRun? ==>
      && what.update.internetOk in {None, Some(true)}
      && (what.update.rebootStartedAt.None? || (rebooted && what.update.rebootStartedAt == Some(at)))
  }

  predicate AllHonest(acts: seq<Attempt>, rebooted: bool, at: Instant) {
    forall i :: 0 <= i < |acts| ==> Honest(acts[i], rebooted, at)
  }

  lemma RebootingIsHonest(s: Settings, w: World, mode: Mode)
    requires Advances(s, w)
    ensures AllHonest(Rebooting(s, w, mode).acts, w.reboot.None?, w.rebootedAt)
  {
    if w.reboot.None? {
      var last := LastTick(s, w, 0);
      TicksPoll(w, last + 1);
      assert AllHonest(Ticks(w, last + 1), true, w.rebootedAt);
      assert AllHonest(RecoveryEnd(s, w, last).acts, true, w.rebootedAt);
      assert AllHonest(Recovering(s, w).acts, true, w.rebootedAt);
    }
  }

  ghost predicate Reboots(s: Settings, w: World, mode: Mode) {
    w.reboot.None? && if mode.Hard? then w.inserted && s.rebootEnabled else MayReboot(s, w)
  }

  lemma OpeningIsHonest(s: Settings, w: World, rebooted: bool)
    ensures AllHonest(OpeningSoft(w) + Verifying(s, w), rebooted, w.rebootedAt)
  {
    RoundChecksAreChecks(w, Rounds(s, w, 0));
  }

  lemma GradedIsHonest(s: Settings, w: World)
    requires Advances(s, w) && w.inserted
    ensures AllHonest(Graded(s, w).acts, Reboots(s, w, Soft), w.rebootedAt)
  {
    DecisiveMeaning(s, w);
    RebootingIsHonest(s, w, Soft);
  }

  lemma PassIsHonest(s: Settings, w: World, mode: Mode)
    requires Advances(s, w)
    ensures AllHonest(FullPass(s, w, mode).acts, Reboots(s, w, mode), w.rebootedAt)
  {
    if mode.Hard? {
      RebootingIsHonest(s, w, Hard);
    } else if w.inserted {
      OpeningIsHonest(s, w, Reboots(s, w, Soft));
      GradedIsHonest(s, w);
    }
  }

  lemma {:induction false} HonestWrites(row: Run, calls: seq<Call>, rebooted: bool, at: Instant)
    requires AllHonest(Attempts(calls), rebooted, at) && row.rebootStartedAt.None?
    ensures Written(row, calls).internetOk in {row.internetOk, Some(true)}
    ensures Written(row, calls).rebootStartedAt in {None, Some(WholeSeconds(at))}
    ensures Written(row, calls).rebootStartedAt.Some? ==> rebooted
    ensures Written(row, calls).mode == row.mode && Written(row, calls).startedAt == row.startedAt
  {
    if calls == [] {
    } else {
      var n := |calls| - 1;
      assert Attempts(calls)[..n] == Attempts(calls[..n]);
      HonestWrites(row, calls[..n], rebooted, at);
      assert Honest(Attempts(calls)[n], rebooted, at);
    }
  }

  // A pass that may have stopped anywhere, with any of its writes lost.
  ghost predicate Trace(s: Settings, w: World, mode: Mode, calls: seq<Call>) {
    Advances(s, w) && w.inserted && Attempts(calls) <= FullPass(s, w, mode).acts
  }

  // Even then its row never claims more than happened: `down` is only ever
  // the first verdict of a soft pass, and a stored reboot time is the time of
  // a reboot the guards let through.
  lemma PartialRecordsAreHonest(s: Settings, w: World, mode: Mode, calls: seq<Call>)
    requires Trace(s, w, mode, calls)
    ensures var row := Written(NewRow(w, mode), calls);
      && row.mode == mode && row.startedAt == WholeSeconds(w.startedAt)
      && (row.internetOk == Some(false) ==> mode.Soft? && LinkGone(w.initial))
      && (row.rebootStartedAt.Some? ==> Reboots(s, w, mode) && row.rebootStartedAt == Some(WholeSeconds(w.rebootedAt)))
  {
    PassIsHonest(s, w, mode);
    HonestWrites(NewRow(w, mode), calls, Reboots(s, w, mode), w.rebootedAt);
  }
}
