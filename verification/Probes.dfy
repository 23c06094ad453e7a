// The probes of a pass: how many confirmation rounds are run, which checks rows
// a pass writes and in which order, and what stands between them.
module Probes {
  import opened Instants
  import opened Options
  import opened Runs
  import opened Tables
  import opened Verdicts
  import opened Watchdog
  import opened Passes

  // A checks row: its phase and its probe.
  type Probe = (Phase, Target)

  function Checked(acts: seq<Attempt>): seq<Probe> {
    if acts == [] then []
    else
      var before, last := Checked(acts[..|acts| - 1]), acts[|acts| - 1];
      if last.InsertCheck? then before + [(last.phase, last.target)] else before
  }

  lemma {:induction false} CheckedAppend(a: seq<Attempt>, b: seq<Attempt>)
    ensures Checked(a + b) == Checked(a) + Checked(b)
  {
    if b == [] {
      assert a + b == a;
    } else {
      var n := |b| - 1;
      CheckedAppend(a, b[..n]);
      assert (a + b)[..|a + b| - 1] == a + b[..n];
    }
  }

  lemma {:induction false} NothingChecked(acts: seq<Attempt>)
    requires forall i :: 0 <= i < |acts| ==> !acts[i].InsertCheck?
    ensures Checked(acts) == []
  {
    if acts == [] {
    } else {
      NothingChecked(acts[..|acts| - 1]);
    }
  }

  lemma {:induction false} ChecksArePaired(phase: Phase, ts: seq<Target>)
    ensures Checked(Checks(phase, ts)) == Paired(phase, ts)
  {
    if ts == [] {
    } else {
      var n := |ts| - 1;
      ChecksArePaired(phase, ts[..n]);
      assert Checks(phase, ts)[..n] == Checks(phase, ts[..n]);
      assert Paired(phase, ts) == Paired(phase, ts[..n]) + [(phase, ts[n])];
    }
  }

  // ---------- confirmation ----------

  // The probing stops after n rounds: at the first that is not down, or when
  // as many as configured have been run.
  predicate StopsAfter(s: Settings, w: World, n: nat) {
    && n <= (if s.confirmations > 0 then s.confirmations else 0)
    && (forall i: nat :: i + 1 < n ==> LinkGone(w.confirm(i)))
    && (n < s.confirmations ==> n > 0 && !LinkGone(w.confirm(n - 1)))
  }

  lemma {:induction false} RoundsFrom(s: Settings, w: World, i: nat)
    requires 0 <= i <= s.confirmations
    ensures i <= Rounds(s, w, i) <= s.confirmations
    ensures forall j: nat :: i <= j && j + 1 < Rounds(s, w, i) ==> LinkGone(w.confirm(j))
    ensures Rounds(s, w, i) < s.confirmations ==> Rounds(s, w, i) > i && !LinkGone(w.confirm(Rounds(s, w, i) - 1))
    decreases s.confirmations - i
  {
    if i < s.confirmations && LinkGone(w.confirm(i)) {
      RoundsFrom(s, w, i + 1);
    }
  }

  // Exactly one number of rounds does so, and it is the one the pass runs.
  lemma RoundsStop(s: Settings, w: World, n: nat)
    ensures StopsAfter(s, w, n) <==> n == Rounds(s, w, 0)
  {
    var r := Rounds(s, w, 0);
    if s.confirmations > 0 {
      RoundsFrom(s, w, 0);
    }
    assert StopsAfter(s, w, r);
    if StopsAfter(s, w, n) {
      StopsOnce(s, w, n, r);
      StopsOnce(s, w, r, n);
    }
  }

  lemma StopsOnce(s: Settings, w: World, m: nat, n: nat)
    requires StopsAfter(s, w, m) && StopsAfter(s, w, n)
    ensures m >= n
  {
  }

  // The samples of the first n rounds, one after the other.
  function Samples(w: World, n: nat): seq<Target> {
    if n == 0 then [] else Samples(w, n - 1) + w.confirm(n - 1)
  }

  lemma PairedAppend(phase: Phase, a: seq<Target>, b: seq<Target>)
    ensures Paired(phase, a + b) == Paired(phase, a) + Paired(phase, b)
  {
  }

  lemma {:induction false} RoundsArePaired(w: World, n: nat)
    ensures Checked(RoundChecks(w, n)) == Paired(Confirm, Samples(w, n))
  {
    if n == 0 {
    } else {
      RoundsArePaired(w, n - 1);
      CheckedAppend(RoundChecks(w, n - 1), Checks(Confirm, w.confirm(n - 1)));
      ChecksArePaired(Confirm, w.confirm(n - 1));
      PairedAppend(Confirm, Samples(w, n - 1), w.confirm(n - 1));
    }
  }

  // ---------- recovery ----------

  // What a tick records: the gateway, then every target.
  function TickProbes(w: World, k: nat): seq<Probe> {
    [(Recovery, w.gateway(k))] + Paired(Recovery, w.recheck(k))
  }

  function RecoveryProbes(w: World, n: nat): seq<Probe> {
    if n == 0 then [] else RecoveryProbes(w, n - 1) + TickProbes(w, n - 1)
  }

  lemma TickIsChecked(w: World, k: nat)
    ensures Checked(Tick(w, k)) == TickProbes(w, k)
  {
    var gateway, checks := [InsertCheck(Recovery, w.gateway(k))], Checks(Recovery, w.recheck(k));
    CheckedAppend(gateway + Transition(w, k), checks);
    CheckedAppend(gateway, Transition(w, k));
    NothingChecked(Transition(w, k));
    ChecksArePaired(Recovery, w.recheck(k));
    assert gateway[..0] == [];
  }

  lemma {:induction false} TicksAreChecked(w: World, n: nat)
    ensures Checked(Ticks(w, n)) == RecoveryProbes(w, n)
  {
    if n == 0 {
    } else {
      TicksAreChecked(w, n - 1);
      TickComesNext(w, n - 1);
    }
  }

  lemma TickComesNext(w: World, n: nat)
    requires Checked(Ticks(w, n)) == RecoveryProbes(w, n)
    ensures Checked(Ticks(w, n + 1)) == RecoveryProbes(w, n + 1)
  {
    TickIsChecked(w, n);
    CheckedAppend(Ticks(w, n), Tick(w, n));
  }

  lemma RecoveringIsChecked(s: Settings, w: World)
    requires Advances(s, w)
    ensures Checked(Recovering(s, w).acts) == RecoveryProbes(w, LastTick(s, w, 0) + 1)
  {
    var last := LastTick(s, w, 0);
    CheckedAppend(Ticks(w, last + 1), RecoveryEnd(s, w, last).acts);
    TicksAreChecked(w, last + 1);
    NothingChecked(RecoveryEnd(s, w, last).acts);
  }

  lemma RebootingIsChecked(s: Settings, w: World, mode: Mode)
    requires Advances(s, w)
    ensures Checked(Rebooting(s, w, mode).acts) == if w.reboot.None? then RecoveryProbes(w, LastTick(s, w, 0) + 1) else []
  {
    CheckedAppend(Requesting(mode), AfterRequest(s, w).acts);
    NothingChecked(Requesting(mode));
    if w.reboot.Some? {
      NothingChecked(AfterRequest(s, w).acts);
    } else {
      var stamp := [UpdateRun(KEEP.(rebootStartedAt := Some(w.rebootedAt)))];
      CheckedAppend(stamp, Recovering(s, w).acts);
      NothingChecked(stamp);
      RecoveringIsChecked(s, w);
    }
  }

  // ---------- the checks of a pass ----------

  lemma VerifyingIsChecked(s: Settings, w: World, n: nat)
    requires StopsAfter(s, w, n)
    ensures Checked(Verifying(s, w)) == if LinkGone(w.initial) then Paired(Confirm, Samples(w, n)) else []
  {
    RoundsStop(s, w, n);
    if LinkGone(w.initial) {
      var correction := if LinkGone(Decisive(s, w)) then [] else [UpdateRun(KEEP.(internetOk := Some(true)))];
      CheckedAppend(RoundChecks(w, n), correction);
      RoundsArePaired(w, n);
      NothingChecked(correction);
    }
  }

  lemma OpeningIsChecked(w: World)
    ensures Checked(OpeningSoft(w)) == Paired(Initial, w.initial)
  {
    var first, checks := [FirstRow(w)], Checks(Initial, w.initial);
    CheckedAppend(first + checks, [SaveTelemetry]);
    CheckedAppend(first, checks);
    NothingChecked(first);
    NothingChecked([SaveTelemetry]);
    ChecksArePaired(Initial, w.initial);
  }

  lemma GradedIsChecked(s: Settings, w: World)
    requires Advances(s, w) && w.inserted
    ensures Checked(Graded(s, w).acts) == if Reboots(s, w, Soft) then RecoveryProbes(w, LastTick(s, w, 0) + 1) else []
  {
    DecisiveMeaning(s, w);
    if MayReboot(s, w) {
      RebootingIsChecked(s, w, Soft);
    } else {
      NothingChecked(Graded(s, w).acts);
    }
  }

  // A soft pass records the first sample, the samples of the confirmation
  // rounds it ran, and every probe of a recovery that followed a reboot the
  // router accepted: each under its phase, in order, and nothing else.
  lemma SoftPassChecks(s: Settings, w: World, n: nat)
    requires Advances(s, w) && w.inserted && StopsAfter(s, w, n)
    ensures Checked(SoftPass(s, w).acts)
         == Paired(Initial, w.initial)
            + (if LinkGone(w.initial) then Paired(Confirm, Samples(w, n)) else [])
            + (if Reboots(s, w, Soft) then RecoveryProbes(w, LastTick(s, w, 0) + 1) else [])
  {
    HeadIsChecked(s, w, n);
    GradedIsChecked(s, w);
    CheckedAppend(OpeningSoft(w) + Verifying(s, w), Graded(s, w).acts);
  }

  lemma HeadIsChecked(s: Settings, w: World, n: nat)
    requires StopsAfter(s, w, n)
    ensures Checked(OpeningSoft(w) + Verifying(s, w))
         == Paired(Initial, w.initial) + if LinkGone(w.initial) then Paired(Confirm, Samples(w, n)) else []
  {
    CheckedAppend(OpeningSoft(w), Verifying(s, w));
    OpeningIsChecked(w);
    VerifyingIsChecked(s, w, n);
  }

  // The sample the flow decides on is the last one probed before it decides.
  lemma DecisiveIsLast(s: Settings, w: World, n: nat)
    requires StopsAfter(s, w, n)
    ensures Decisive(s, w) == if LinkGone(w.initial) && n > 0 then w.confirm(n - 1) else w.initial
  {
    RoundsStop(s, w, n);
  }

  lemma HardPassChecks(s: Settings, w: World)
    requires Advances(s, w) && w.inserted
    ensures Checked(HardPass(s, w).acts) == if Reboots(s, w, Hard) then RecoveryProbes(w, LastTick(s, w, 0) + 1) else []
  {
    CheckedAppend(OpeningHard(w), AfterHardOpening(s, w).acts);
    NothingChecked(OpeningHard(w));
    if s.rebootEnabled {
      RebootingIsChecked(s, w, Hard);
    } else {
      NothingChecked(AfterHardOpening(s, w).acts);
    }
  }

  // ---------- what stands between the probes ----------

  predicate SetsRouter(what: Attempt) {
    what.UpdateRun? && (what.update.routerDownAt.Some? || what.update.routerUpAt.Some?)
  }

  // An update of a gateway time comes right after the gateway probe of its
  // tick, and says what that probe saw.
  ghost predicate EdgeInTurn(acts: seq<Attempt>, i: nat, w: World)
    requires i < |acts|
  {
    SetsRouter(acts[i]) ==> exists k: nat :: EdgeOf(acts, i, w, k)
  }

  predicate EdgeOf(acts: seq<Attempt>, i: nat, w: World, k: nat)
    requires i < |acts|
  {
    && i > 0 && acts[i - 1] == InsertCheck(Recovery, w.gateway(k))
    && acts[i] == UpdateRun(if w.gateway(k).ok then KEEP.(routerUpAt := Some(w.tick(k))) else KEEP.(routerDownAt := Some(w.tick(k))))
    && (if k == 0 then !w.gateway(0).ok else w.gateway(k - 1).ok != w.gateway(k).ok)
  }

  ghost predicate EdgesInTurn(acts: seq<Attempt>, w: World) {
    forall i :: 0 <= i < |acts| ==> EdgeInTurn(acts, i, w)
  }

  lemma EdgesAppend(a: seq<Attempt>, b: seq<Attempt>, w: World)
    requires EdgesInTurn(a, w) && EdgesInTurn(b, w) && (b != [] ==> !SetsRouter(b[0]))
    ensures EdgesInTurn(a + b, w)
  {
    forall i | 0 <= i < |a + b| && SetsRouter((a + b)[i])
      ensures exists k: nat :: EdgeOf(a + b, i, w, k)
    {
      if i < |a| {
        assert EdgeInTurn(a, i, w);
        var k: nat :| EdgeOf(a, i, w, k);
        assert EdgeOf(a + b, i, w, k);
      } else {
        assert EdgeInTurn(b, i - |a|, w);
        var k: nat :| EdgeOf(b, i - |a|, w, k);
        assert EdgeOf(a + b, i, w, k);
      }
    }
  }

  predicate NoEdge(acts: seq<Attempt>) {
    forall i :: 0 <= i < |acts| ==> !SetsRouter(acts[i])
  }

  lemma TickEdges(w: World, k: nat)
    ensures EdgesInTurn(Tick(w, k), w)
  {
    var acts := Tick(w, k);
    forall i | 0 <= i < |acts| && SetsRouter(acts[i])
      ensures exists j: nat :: EdgeOf(acts, i, w, j)
    {
      assert EdgeOf(acts, i, w, k);
    }
  }

  lemma {:induction false} TicksEdges(w: World, n: nat)
    ensures EdgesInTurn(Ticks(w, n), w)
  {
    if n == 0 {
    } else {
      TicksEdges(w, n - 1);
      TickEdges(w, n - 1);
      EdgesAppend(Ticks(w, n - 1), Tick(w, n - 1), w);
    }
  }

  lemma RecoveringEdges(s: Settings, w: World)
    requires Advances(s, w)
    ensures EdgesInTurn(Recovering(s, w).acts, w) && !SetsRouter(Recovering(s, w).acts[0])
  {
    var last := LastTick(s, w, 0);
    TicksEdges(w, last + 1);
    TickComesFirst(w, last + 1);
    EdgesAppend(Ticks(w, last + 1), RecoveryEnd(s, w, last).acts, w);
  }

  lemma {:induction false} TickComesFirst(w: World, n: nat)
    requires n > 0
    ensures Ticks(w, n) != [] && Ticks(w, n)[0] == InsertCheck(Recovery, w.gateway(0))
  {
    if n == 1 {
      assert Ticks(w, 0) == [];
    } else {
      TickComesFirst(w, n - 1);
    }
  }

  lemma RebootingEdges(s: Settings, w: World, mode: Mode)
    requires Advances(s, w)
    ensures EdgesInTurn(Rebooting(s, w, mode).acts, w)
  {
    if w.reboot.Some? {
      assert NoEdge(Rebooting(s, w, mode).acts);
    } else {
      var stamp := [UpdateRun(KEEP.(rebootStartedAt := Some(w.rebootedAt)))];
      RecoveringEdges(s, w);
      EdgesAppend(stamp, Recovering(s, w).acts, w);
      EdgesAppend(Requesting(mode), stamp + Recovering(s, w).acts, w);
    }
  }

  // In every pass: a gateway time is written only for an edge, right after the
  // probe that saw it, and from the clock of its tick.
  lemma EdgesFollowProbes(s: Settings, w: World, mode: Mode)
    requires Advances(s, w)
    ensures EdgesInTurn(FullPass(s, w, mode).acts, w)
  {
    if w.inserted {
      if mode.Hard? {
        RebootingEdges(s, w, Hard);
        EdgesAppend(OpeningHard(w), AfterHardOpening(s, w).acts, w);
      } else {
        GradedEdges(s, w);
        HeadHasNoEdge(s, w);
        EdgesAppend(OpeningSoft(w) + Verifying(s, w), Graded(s, w).acts, w);
      }
    }
  }

  lemma HeadHasNoEdge(s: Settings, w: World)
    ensures NoEdge(OpeningSoft(w) + Verifying(s, w))
  {
    RoundChecksAreChecks(w, Rounds(s, w, 0));
  }

  lemma GradedEdges(s: Settings, w: World)
    requires Advances(s, w)
    ensures EdgesInTurn(Graded(s, w).acts, w) && Graded(s, w).acts != [] && !SetsRouter(Graded(s, w).acts[0])
  {
    if LinkGone(Decisive(s, w)) && GuardsOpen(s, w) {
      RebootingEdges(s, w, Soft);
    } else {
      assert NoEdge(Graded(s, w).acts);
    }
  }

  predicate Corrects(what: Attempt) {
    what.UpdateRun? && what.update.internetOk.Some?
  }

  // A cleared verdict is corrected, to up, once the last probe is recorded.
  lemma CorrectionFollowsProbes(s: Settings, w: World)
    requires Advances(s, w) && w.inserted
    ensures var acts := SoftPass(s, w).acts;
      forall i, j :: 0 <= i < j < |acts| && Corrects(acts[i]) ==>
        acts[i].update == KEEP.(internetOk := Some(true)) && !acts[j].InsertCheck?
  {
    var head := OpeningSoft(w) + Verifying(s, w);
    RoundChecksAreChecks(w, Rounds(s, w, 0));
    assert forall i :: 0 <= i < |head| && Corrects(head[i]) ==>
      i == |head| - 1 && !LinkGone(Decisive(s, w)) && head[i].update == KEEP.(internetOk := Some(true));
    GradedCorrectsNothing(s, w);
  }

  lemma GradedCorrectsNothing(s: Settings, w: World)
    requires Advances(s, w)
    ensures forall a :: a in Graded(s, w).acts ==> !Corrects(a)
    ensures !LinkGone(Decisive(s, w)) ==> forall a :: a in Graded(s, w).acts ==> !a.InsertCheck?
  {
    if LinkGone(Decisive(s, w)) && GuardsOpen(s, w) {
      RebootingIsPlain(s, w, Soft);
    }
  }

  // A soft pass begins with its insert, the checks of the first sample and the
  // snapshots, which it takes once.
  lemma SoftPassBegins(s: Settings, w: World)
    requires Advances(s, w) && w.inserted
    ensures var acts, m := SoftPass(s, w).acts, |w.initial|;
      && |acts| > m + 2 && acts[0] == InsertRun(w.startedAt, Soft, Some(!LinkGone(w.initial)))
      && (forall i :: 0 <= i < m ==> acts[i + 1] == InsertCheck(Initial, w.initial[i]))
      && acts[m + 1] == SaveTelemetry && forall i :: 0 <= i < |acts| ==> (acts[i] == SaveTelemetry <==> i == m + 1)
  {
    var rest := Verifying(s, w) + Graded(s, w).acts;
    Regroup(OpeningSoft(w), Verifying(s, w), Graded(s, w).acts);
    RoundChecksAreChecks(w, Rounds(s, w, 0));
    GradedTakesNoSnapshot(s, w);
    OpeningComesFirst(w, rest);
  }

  lemma OpeningComesFirst(w: World, rest: seq<Attempt>)
    requires SaveTelemetry !in rest && rest != []
    ensures var acts, m := OpeningSoft(w) + rest, |w.initial|;
      && |acts| > m + 2 && acts[0] == FirstRow(w) && acts[m + 1] == SaveTelemetry
      && (forall i :: 0 <= i < m ==> acts[i + 1] == InsertCheck(Initial, w.initial[i]))
      && forall i :: 0 <= i < |acts| ==> (acts[i] == SaveTelemetry <==> i == m + 1)
  {
    OpeningIs(w);
    SnapshotOnce(OpeningSoft(w), rest, |w.initial|);
  }

  lemma SnapshotOnce(head: seq<Attempt>, rest: seq<Attempt>, m: nat)
    requires |head| == m + 2 && head[m + 1] == SaveTelemetry && SaveTelemetry !in rest
    requires forall i :: 0 <= i < m + 1 ==> head[i] != SaveTelemetry
    ensures forall i :: 0 <= i < |head + rest| ==> ((head + rest)[i] == SaveTelemetry <==> i == m + 1)
    ensures forall i :: 0 <= i < m + 2 ==> (head + rest)[i] == head[i]
  {
  }

  lemma OpeningIs(w: World)
    ensures var head, m := OpeningSoft(w), |w.initial|;
      && |head| == m + 2 && head[0] == FirstRow(w)
      && (forall i :: 1 <= i < m + 1 ==> head[i] == InsertCheck(Initial, w.initial[i - 1]))
      && head[m + 1] == SaveTelemetry
  {
  }

  lemma RebootingTakesNoSnapshot(s: Settings, w: World, mode: Mode)
    requires Advances(s, w)
    ensures SaveTelemetry !in Rebooting(s, w, mode).acts
  {
    RebootingIsPlain(s, w, mode);
  }

  predicate Plain(acts: seq<Attempt>) {
    forall i :: 0 <= i < |acts| ==> acts[i] != SaveTelemetry && !Corrects(acts[i])
  }

  lemma RecoveringIsPlain(s: Settings, w: World)
    requires Advances(s, w)
    ensures Plain(Recovering(s, w).acts)
  {
    var last := LastTick(s, w, 0);
    TicksPoll(w, last + 1);
    assert Plain(Ticks(w, last + 1)) && Plain(RecoveryEnd(s, w, last).acts);
  }

  lemma RebootingIsPlain(s: Settings, w: World, mode: Mode)
    requires Advances(s, w)
    ensures Plain(Rebooting(s, w, mode).acts)
  {
    RecoveringIsPlain(s, w);
    assert Plain(AfterRequest(s, w).acts);
  }

  lemma GradedTakesNoSnapshot(s: Settings, w: World)
    requires Advances(s, w)
    ensures SaveTelemetry !in Graded(s, w).acts && Graded(s, w).acts != []
  {
    if LinkGone(Decisive(s, w)) && GuardsOpen(s, w) {
      RebootingTakesNoSnapshot(s, w, Soft);
    }
  }

  lemma HardPassBegins(s: Settings, w: World)
    requires Advances(s, w) && w.inserted
    ensures var acts := HardPass(s, w).acts;
      && |acts| > 2 && acts[0] == InsertRun(w.startedAt, Hard, None)
      && forall i :: 0 <= i < |acts| ==> (acts[i] == SaveTelemetry <==> i == 1)
  {
    if s.rebootEnabled {
      RebootingTakesNoSnapshot(s, w, Hard);
    }
  }
}
