// Concurrent CheckUP calls sharing one router login, one step of one caller
// at a time, in any order.
module SingleFlight {
  import opened Options

  // An error value; None is nil.
  type Answer = Option<string>

  // Where a caller stands. The numbers name calls, in creation order.
  datatype Pc =
    | Idle
    | Locking
    | Deciding
    | Joined(call: nat)
    | Waiting(call: nat)
    | Opened(call: nat)
    | Leading(call: nat)
    | Running(call: nat)
    | Returned(call: nat, err: Answer)
    | Published(call: nat, err: Answer)
    | Closed(call: nat, err: Answer)
    | Clearing(call: nat, err: Answer)
    | Cleared(call: nat, err: Answer)
    | Done(err: Answer)

  // A call: its err field (None until written) and whether done is closed.
  // Who opened it and what its login came to are kept for the statements.
  datatype Call = Call(leader: nat, outcome: Option<Answer>, err: Option<Answer>, done: bool)

  datatype State = State(pcs: seq<Pc>, mutex: Option<nat>, inflight: Option<nat>, calls: seq<Call>)

  datatype Move =
    | Enter
    | Acquire
    | Look
    | Unlock
    | Receive
    | Cancel(reason: string)
    | Start
    | Return(err: Answer)
    | Panic(value: string)
    | Publish
    | Close
    | Reacquire
    | Clear
    | Release
    | Leave

  datatype Step = Step(who: nat, move: Move)

  const PANICKED := "router credential probe panicked: "

  predicate Enabled(s: State, step: Step) {
    step.who < |s.pcs|
    && var pc := s.pcs[step.who];
    match step.move
    case Enter => pc.Idle?
    case Acquire => pc.Locking? && s.mutex.None?
    case Look => pc.Deciding?
    case Unlock => pc.Joined? || pc.Opened?
    case Receive => pc.Waiting? && pc.call < |s.calls| && s.calls[pc.call].done
    case Cancel(_) => pc.Waiting?
    case Start => pc.Leading?
    case Return(_) => pc.Running?
    case Panic(_) => pc.Running?
    case Publish => pc.Returned?
    case Close => pc.Published?
    case Reacquire => pc.Closed? && s.mutex.None?
    case Clear => pc.Clearing?
    case Release => pc.Cleared?
    case Leave => pc.Done?
  }

  function At(s: State, who: nat, pc: Pc): State
    requires who < |s.pcs|
  {
    s.(pcs := s.pcs[who := pc])
  }

  function WithCall(s: State, c: nat, call: Call): State {
    if c < |s.calls| then s.(calls := s.calls[c := call]) else s
  }

  // The err field as a reader sees it; Go's zero value before it is written.
  function ErrOf(s: State, c: nat): Answer {
    if c < |s.calls| && s.calls[c].err.Some? then s.calls[c].err.value else None
  }

  function Ended(s: State, who: nat, c: nat, err: Answer): State
    requires who < |s.pcs|
  {
    var t := if c < |s.calls| then WithCall(s, c, s.calls[c].(outcome := Some(err))) else s;
    At(t, who, Returned(c, err))
  }

  function Next(s: State, step: Step): State
    requires Enabled(s, step)
  {
    var i := step.who;
    var pc := s.pcs[i];
    match step.move
    case Enter => At(s, i, Locking)
    case Acquire => At(s.(mutex := Some(i)), i, Deciding)
    case Look =>
      if s.inflight.Some? then At(s, i, Joined(s.inflight.value))
      else At(s.(inflight := Some(|s.calls|), calls := s.calls + [Call(i, None, None, false)]), i, Opened(|s.calls|))
    case Unlock => At(s.(mutex := None), i, if pc.Joined? then Waiting(pc.call) else Leading(pc.call))
    case Receive => At(s, i, Done(ErrOf(s, pc.call)))
    case Cancel(reason) => At(s, i, Done(Some(reason)))
    case Start => At(s, i, Running(pc.call))
    case Return(err) => Ended(s, i, pc.call, err)
    case Panic(value) => Ended(s, i, pc.call, Some(PANICKED + value))
    case Publish =>
      var t := if pc.call < |s.calls| then WithCall(s, pc.call, s.calls[pc.call].(err := Some(pc.err))) else s;
      At(t, i, Published(pc.call, pc.err))
    case Close =>
      var t := if pc.call < |s.calls| then WithCall(s, pc.call, s.calls[pc.call].(done := true)) else s;
      At(t, i, Closed(pc.call, pc.err))
    case Reacquire => At(s.(mutex := Some(i)), i, Clearing(pc.call, pc.err))
    case Clear => At(s.(inflight := None), i, Cleared(pc.call, pc.err))
    case Release => At(s.(mutex := None), i, Done(pc.err))
    case Leave => At(s, i, Idle)
  }

  function AllIdle(callers: nat): State {
    State(seq(callers, _ => Idle), None, None, [])
  }

  predicate IsRun(states: seq<State>, steps: seq<Step>) {
    && |states| == |steps| + 1
    && states[0] == AllIdle(|states[0].pcs|)
    && forall k :: 0 <= k < |steps| ==> Enabled(states[k], steps[k]) && states[k + 1] == Next(states[k], steps[k])
  }

  // ---------- the invariant ----------

  predicate HoldsLock(pc: Pc) {
    pc.Deciding? || pc.Joined? || pc.Opened? || pc.Clearing? || pc.Cleared?
  }

  // From opening a call until clearing the slot.
  predicate Active(pc: Pc) {
    pc.Opened? || pc.Leading? || pc.Running? || pc.Returned? || pc.Published? || pc.Closed? || pc.Clearing?
  }

  predicate Leads(pc: Pc, c: nat) {
    Active(pc) && pc.call == c
  }

  predicate Stage(pc: Pc, call: Call) {
    match pc
    case Opened(_) => call.outcome.None? && call.err.None? && !call.done
    case Leading(_) => call.outcome.None? && call.err.None? && !call.done
    case Running(_) => call.outcome.None? && call.err.None? && !call.done
    case Returned(_, e) => call.outcome == Some(e) && call.err.None? && !call.done
    case Published(_, e) => call.outcome == Some(e) && call.err == Some(e) && !call.done
    case Closed(_, e) => call.outcome == Some(e) && call.err == Some(e) && call.done
    case Clearing(_, e) => call.outcome == Some(e) && call.err == Some(e) && call.done
    case _ => true
  }

  predicate Finished(call: Call) {
    call.outcome.Some? && call.err == call.outcome && call.done
  }

  predicate CallerInv(s: State, i: nat)
    requires i < |s.pcs|
  {
    var pc := s.pcs[i];
    && (HoldsLock(pc) <==> s.mutex == Some(i))
    && (Active(pc) ==> s.inflight == Some(pc.call) && pc.call < |s.calls| && s.calls[pc.call].leader == i && Stage(pc, s.calls[pc.call]))
    && ((pc.Joined? || pc.Waiting?) ==> pc.call < |s.calls|)
    && (pc.Cleared? ==> pc.call < |s.calls| && s.calls[pc.call].leader == i && s.calls[pc.call].outcome == Some(pc.err))
  }

  predicate CallInv(s: State, c: nat)
    requires c < |s.calls|
  {
    var call := s.calls[c];
    call.leader < |s.pcs| && if s.inflight == Some(c) then Leads(s.pcs[call.leader], c) else Finished(call)
  }

  ghost predicate Inv(s: State) {
    && (forall i: nat :: i < |s.pcs| ==> CallerInv(s, i))
    && (forall c: nat :: c < |s.calls| ==> CallInv(s, c))
    && (s.mutex.Some? ==> s.mutex.value < |s.pcs|)
    && (s.inflight.Some? ==> s.inflight.value < |s.calls|)
  }

  lemma StepKeepsMover(s: State, step: Step)
    requires Inv(s) && Enabled(s, step)
    ensures CallerInv(Next(s, step), step.who)
  {
    assert CallerInv(s, step.who);
  }

  lemma StepKeepsOther(s: State, step: Step, i: nat)
    requires Inv(s) && Enabled(s, step) && i < |s.pcs| && i != step.who
    ensures CallerInv(Next(s, step), i)
  {
    assert CallerInv(s, step.who) && CallerInv(s, i);
  }

  lemma StepKeepsCall(s: State, step: Step, c: nat)
    requires Inv(s) && Enabled(s, step) && c < |Next(s, step).calls|
    ensures CallInv(Next(s, step), c)
  {
    assert CallerInv(s, step.who);
    if c < |s.calls| {
      assert CallInv(s, c);
    }
  }

  lemma StepKeeps(s: State, step: Step)
    requires Inv(s) && Enabled(s, step)
    ensures Inv(Next(s, step))
  {
    assert CallerInv(s, step.who);
    forall i: nat | i < |s.pcs|
      ensures CallerInv(Next(s, step), i)
    {
      if i == step.who {
        StepKeepsMover(s, step);
      } else {
        StepKeepsOther(s, step, i);
      }
    }
    forall c: nat | c < |Next(s, step).calls|
      ensures CallInv(Next(s, step), c)
    {
      StepKeepsCall(s, step, c);
    }
  }

  lemma {:induction false} RunKeeps(states: seq<State>, steps: seq<Step>, k: nat)
    requires IsRun(states, steps) && k < |states|
    ensures Inv(states[k])
  {
    if k == 0 {
    } else {
      RunKeeps(states, steps, k - 1);
      StepKeeps(states[k - 1], steps[k - 1]);
    }
  }

  // ---------- the promises ----------

  // At most one CheckCredentials runs at a time.
  lemma OneLoginAtATime(states: seq<State>, steps: seq<Step>, k: nat, i: nat, j: nat)
    requires IsRun(states, steps) && k < |states|
    requires i < |states[k].pcs| && j < |states[k].pcs| && states[k].pcs[i].Running? && states[k].pcs[j].Running?
    ensures i == j
  {
    RunKeeps(states, steps, k);
    assert CallerInv(states[k], i) && CallerInv(states[k], j);
  }

  // The slot holds a call exactly while its leader is between opening and
  // clearing it; so a leader clears its own call, and a caller that comes
  // after that opens a fresh one.
  lemma SlotFollowsLeader(states: seq<State>, steps: seq<Step>, k: nat, c: nat)
    requires IsRun(states, steps) && k < |states|
    ensures states[k].inflight == Some(c) <==> exists i :: 0 <= i < |states[k].pcs| && Leads(states[k].pcs[i], c)
  {
    RunKeeps(states, steps, k);
    if states[k].inflight == Some(c) {
      assert CallInv(states[k], c);
      assert Leads(states[k].pcs[states[k].calls[c].leader], c);
    }
    forall i | 0 <= i < |states[k].pcs| && Leads(states[k].pcs[i], c)
      ensures states[k].inflight == Some(c)
    {
      assert CallerInv(states[k], i);
    }
  }

  lemma LeaderClearsItsOwn(states: seq<State>, steps: seq<Step>, k: nat)
    requires IsRun(states, steps) && k < |steps| && steps[k].move.Clear?
    ensures states[k].inflight == Some(states[k].pcs[steps[k].who].call) && states[k + 1].inflight.None?
  {
    RunKeeps(states, steps, k);
    assert CallerInv(states[k], steps[k].who);
  }

  // The step in which the login of call c came to `err`.
  predicate LoginEnds(s: State, step: Step, c: nat, err: Answer) {
    && step.who < |s.pcs| && s.pcs[step.who] == Running(c)
    && (step.move == Return(err) || (step.move.Panic? && err == Some("router credential probe panicked: " + step.move.value)))
  }

  // An outcome on record is that of the one login made for the call.
  lemma {:induction false} OutcomeHasLogin(states: seq<State>, steps: seq<Step>, k: nat, c: nat) returns (m: nat)
    requires IsRun(states, steps) && k < |states|
    requires c < |states[k].calls| && states[k].calls[c].outcome.Some?
    ensures m < k && LoginEnds(states[m], steps[m], c, states[k].calls[c].outcome.value)
  {
    assert k > 0;
    var before := states[k - 1];
    RunKeeps(states, steps, k - 1);
    assert CallerInv(before, steps[k - 1].who);
    if c < |before.calls| && before.calls[c].outcome == states[k].calls[c].outcome {
      m := OutcomeHasLogin(states, steps, k - 1, c);
    } else {
      m := k - 1;
    }
  }

  // A waiter released by the closed channel returns exactly what the login of
  // the call it had found in the slot came to, panics included.
  lemma WaiterGetsTheLogin(states: seq<State>, steps: seq<Step>, k: nat) returns (m: nat)
    requires IsRun(states, steps) && k < |steps| && steps[k].move.Receive?
    ensures m < k && states[k + 1].pcs[steps[k].who].Done?
    ensures LoginEnds(states[m], steps[m], states[k].pcs[steps[k].who].call, states[k + 1].pcs[steps[k].who].err)
  {
    RunKeeps(states, steps, k);
    var c := states[k].pcs[steps[k].who].call;
    assert CallInv(states[k], c);
    assert CallerInv(states[k], states[k].calls[c].leader);
    m := OutcomeHasLogin(states, steps, k, c);
  }

  // So does the leader.
  lemma LeaderGetsTheLogin(states: seq<State>, steps: seq<Step>, k: nat) returns (m: nat)
    requires IsRun(states, steps) && k < |steps| && steps[k].move.Release?
    ensures m < k && states[k + 1].pcs[steps[k].who].Done?
    ensures LoginEnds(states[m], steps[m], states[k].pcs[steps[k].who].call, states[k + 1].pcs[steps[k].who].err)
  {
    RunKeeps(states, steps, k);
    assert CallerInv(states[k], steps[k].who);
    m := OutcomeHasLogin(states, steps, k, states[k].pcs[steps[k].who].call);
  }

  // Step j brought caller i its answer: its own context ended while it waited,
  // or the login of the call it had joined or led ended so in step m.
  predicate Explains(states: seq<State>, steps: seq<Step>, i: nat, err: Answer, j: nat, m: nat)
    requires |states| == |steps| + 1 && j < |steps|
  {
    && steps[j].who == i && i < |states[j].pcs|
    && match states[j].pcs[i]
       case Waiting(c) =>
         (steps[j].move.Cancel? && err == Some(steps[j].move.reason))
         || (steps[j].move.Receive? && m < j && LoginEnds(states[m], steps[m], c, err))
       case Cleared(c, _) => steps[j].move.Release? && m < j && LoginEnds(states[m], steps[m], c, err)
       case _ => false
  }

  lemma LastStepExplains(states: seq<State>, steps: seq<Step>, j: nat) returns (m: nat)
    requires IsRun(states, steps) && j < |steps| && steps[j].who < |states[j + 1].pcs|
    requires states[j + 1].pcs[steps[j].who].Done?
    ensures Explains(states, steps, steps[j].who, states[j + 1].pcs[steps[j].who].err, j, m)
  {
    m := 0;
    if steps[j].move.Receive? {
      m := WaiterGetsTheLogin(states, steps, j);
    } else if steps[j].move.Release? {
      m := LeaderGetsTheLogin(states, steps, j);
    }
  }

  lemma AllStartIdle(states: seq<State>, steps: seq<Step>, i: nat)
    requires IsRun(states, steps) && i < |states[0].pcs|
    ensures states[0].pcs[i].Idle?
  {
  }

  lemma {:induction false} CallersStay(states: seq<State>, steps: seq<Step>, k: nat)
    requires IsRun(states, steps) && k < |states|
    ensures |states[k].pcs| == |states[0].pcs|
  {
    if k == 0 {
    } else {
      CallersStay(states, steps, k - 1);
      assert states[k] == Next(states[k - 1], steps[k - 1]);
    }
  }

  lemma OthersStay(states: seq<State>, steps: seq<Step>, j: nat, i: nat)
    requires IsRun(states, steps) && j < |steps| && i < |states[j + 1].pcs| && steps[j].who != i
    ensures i < |states[j].pcs| && states[j].pcs[i] == states[j + 1].pcs[i]
  {
  }

  lemma {:induction false} EveryAnswerIsExplained(states: seq<State>, steps: seq<Step>, k: nat, i: nat) returns (j: nat, m: nat)
    requires IsRun(states, steps) && k < |states| && i < |states[k].pcs| && states[k].pcs[i].Done?
    ensures j < k && Explains(states, steps, i, states[k].pcs[i].err, j, m)
  {
    CallersStay(states, steps, k);
    AllStartIdle(states, steps, i);
    if steps[k - 1].who != i {
      OthersStay(states, steps, k - 1, i);
      j, m := EveryAnswerIsExplained(states, steps, k - 1, i);
    } else {
      j := k - 1;
      m := LastStepExplains(states, steps, j);
    }
  }

  // nil is returned only for a login that succeeded, of a call the caller
  // joined or led: a caller that gave up waiting never reports health.
  lemma NilMeansLogin(states: seq<State>, steps: seq<Step>, k: nat, i: nat) returns (j: nat, m: nat)
    requires IsRun(states, steps) && k < |states| && i < |states[k].pcs| && states[k].pcs[i] == Done(None)
    ensures m < j < k && steps[j].who == i && i < |states[j].pcs|
    ensures states[j].pcs[i].Waiting? || states[j].pcs[i].Cleared?
    ensures LoginEnds(states[m], steps[m], states[j].pcs[i].call, None) && steps[m].move == Return(None)
  {
    j, m := EveryAnswerIsExplained(states, steps, k, i);
  }

  lemma {:induction false} OutcomeStays(states: seq<State>, steps: seq<Step>, m: nat, k: nat, c: nat)
    requires IsRun(states, steps) && m <= k < |states|
    requires c < |states[m].calls| && states[m].calls[c].outcome.Some?
    ensures c < |states[k].calls| && states[k].calls[c].outcome.Some?
  {
    if m == k {
    } else {
      OutcomeStays(states, steps, m, k - 1, c);
      assert states[k] == Next(states[k - 1], steps[k - 1]);
    }
  }

  lemma LoginIsNew(states: seq<State>, steps: seq<Step>, m: nat, c: nat, err: Answer)
    requires IsRun(states, steps) && m < |steps| && LoginEnds(states[m], steps[m], c, err)
    ensures c < |states[m].calls| && states[m].calls[c].outcome.None?
    ensures c < |states[m + 1].calls| && states[m + 1].calls[c].outcome.Some?
  {
    RunKeeps(states, steps, m);
    assert CallerInv(states[m], steps[m].who);
  }

  // Every call has one login at most, so all who joined it share its result.
  lemma OneLoginACall(states: seq<State>, steps: seq<Step>, m: nat, n: nat, c: nat, a: Answer, b: Answer)
    requires IsRun(states, steps) && m < |steps| && n < |steps|
    requires LoginEnds(states[m], steps[m], c, a) && LoginEnds(states[n], steps[n], c, b)
    ensures m == n && a == b
  {
    LoginIsNew(states, steps, m, c, a);
    LoginIsNew(states, steps, n, c, b);
    if m < n {
      OutcomeStays(states, steps, m + 1, n, c);
    } else if n < m {
      OutcomeStays(states, steps, n + 1, m, c);
    }
  }

  // ---------- progress ----------

  // Running a list of steps.
  ghost predicate CanRun(s: State, steps: seq<Step>, t: State)
    decreases |steps|
  {
    if steps == [] then s == t else Enabled(s, steps[0]) && CanRun(Next(s, steps[0]), steps[1..], t)
  }

  function Remaining(pc: Pc): nat {
    match pc
    case Opened(_) => 5
    case Leading(_) => 4
    case Running(_) => 3
    case Returned(_, _) => 2
    case Published(_, _) => 1
    case _ => 0
  }

  function LeaderMove(pc: Pc): Move {
    match pc
    case Opened(_) => Unlock
    case Leading(_) => Start
    case Running(_) => Return(None)
    case Returned(_, _) => Publish
    case _ => Close
  }

  // No waiter is stuck: as soon as the login returns, the leader closes the
  // channel in its own next few steps, whoever holds the mutex.
  lemma {:induction false} LeaderCanClose(s: State, c: nat) returns (steps: seq<Step>, t: State)
    requires Inv(s) && c < |s.calls| && s.calls[c].leader < |s.pcs|
    ensures CanRun(s, steps, t)
    ensures forall k :: 0 <= k < |steps| ==> steps[k].who == s.calls[c].leader
    ensures c < |t.calls| && t.calls[c].done
    ensures |steps| <= Remaining(s.pcs[s.calls[c].leader])
    decreases Remaining(s.pcs[s.calls[c].leader])
  {
    assert CallInv(s, c);
    if s.calls[c].done {
      return [], s;
    }
    var i := s.calls[c].leader;
    assert CallerInv(s, i);
    var step := Step(i, LeaderMove(s.pcs[i]));
    StepKeeps(s, step);
    var rest, end := LeaderCanClose(Next(s, step), c);
    assert ([step] + rest)[1..] == rest;
    return [step] + rest, end;
  }

  // No run gets stuck: while some caller is inside CheckUP, a step is open.
  lemma NoDeadlock(states: seq<State>, steps: seq<Step>, k: nat, i: nat) returns (step: Step)
    requires IsRun(states, steps) && k < |states|
    requires i < |states[k].pcs| && !states[k].pcs[i].Idle? && !states[k].pcs[i].Waiting?
    ensures Enabled(states[k], step) && !step.move.Cancel? && !step.move.Enter?
  {
    RunKeeps(states, steps, k);
    var s := states[k];
    assert CallerInv(s, i);
    var j := if (s.pcs[i].Locking? || s.pcs[i].Closed?) && s.mutex.Some? then s.mutex.value else i;
    assert CallerInv(s, j);
    var pc := s.pcs[j];
    var move := match pc
      case Locking => Acquire
      case Deciding => Look
      case Joined(_) => Unlock
      case Closed(_, _) => Reacquire
      case Clearing(_, _) => Clear
      case Cleared(_, _) => Release
      case Done(_) => Leave
      case _ => LeaderMove(pc);
    return Step(j, move);
  }
}
