// The queries the guards ask of the hot runs table, and what one pass makes of
// the table it finds.
module Guards {
  import opened Instants
  import opened Options
  import opened Runs
  import opened Uuid
  import opened Tables
  import opened Verdicts
  import opened Watchdog
  import opened Passes
  import History

  type Table = map<Id, Run>

  // ---------- the runs before a run ----------

  function Last(ids: seq<Id>, below: Id): Id {
    if ids == [] then below else ids[|ids| - 1]
  }

  // A possible answer of SELECT ... FROM runs WHERE id < below ORDER BY id DESC
  // LIMIT limit: what it leaves out is under all it lists, and only for want of
  // room.
  ghost predicate Answers(runs: Table, below: Id, limit: nat, ids: seq<Id>) {
    |ids| <= limit && Listed(runs, below, ids) && Falling(ids) && LeavesOnlyLower(runs, below, limit, ids)
  }

  predicate Listed(runs: Table, below: Id, ids: seq<Id>) {
    forall i :: 0 <= i < |ids| ==> ids[i] in runs && Less(ids[i], below)
  }

  predicate Falling(ids: seq<Id>) {
    forall i, j :: 0 <= i < j < |ids| ==> Less(ids[j], ids[i])
  }

  predicate LeavesOnlyLower(runs: Table, below: Id, limit: nat, ids: seq<Id>) {
    forall k :: k in runs && Less(k, below) && k !in ids ==> |ids| == limit && Less(k, Last(ids, below))
  }

  function Under(runs: Table, below: Id): set<Id> {
    set id | id in runs && Less(id, below)
  }

  // The newest runs under an id, one after the other.
  ghost function Newest(runs: Table, below: Id, limit: nat): (ids: seq<Id>)
    ensures |ids| <= limit
    ensures forall i :: 0 <= i < |ids| ==> ids[i] in runs && Less(ids[i], below)
    decreases limit
  {
    var top := History.MaxId(Under(runs, below));
    if limit == 0 || top.None? then [] else [top.value] + Newest(runs, top.value, limit - 1)
  }

  lemma {:induction false} NewestAnswers(runs: Table, below: Id, limit: nat)
    ensures Answers(runs, below, limit, Newest(runs, below, limit))
    decreases limit
  {
    var top := History.MaxId(Under(runs, below));
    if limit == 0 || top.None? {
      assert forall k :: k in runs && Less(k, below) ==> k in Under(runs, below);
    } else {
      NewestAnswers(runs, top.value, limit - 1);
      TopAnswers(runs, below, limit, top.value, Newest(runs, top.value, limit - 1));
    }
  }

  lemma TopAnswers(runs: Table, below: Id, limit: nat, top: Id, rest: seq<Id>)
    requires limit > 0 && Answers(runs, top, limit - 1, rest)
    requires top in runs && Less(top, below) && forall k :: k in runs && Less(k, below) ==> k == top || Less(k, top)
    ensures Answers(runs, below, limit, [top] + rest)
  {
    TopLeaves(runs, below, limit, top, rest);
    TopFalls(runs, top, rest);
  }

  lemma TopFalls(runs: Table, top: Id, rest: seq<Id>)
    requires Listed(runs, top, rest) && Falling(rest)
    ensures Falling([top] + rest)
  {
  }

  lemma TopLeaves(runs: Table, below: Id, limit: nat, top: Id, rest: seq<Id>)
    requires limit > 0 && LeavesOnlyLower(runs, top, limit - 1, rest)
    requires forall k :: k in runs && Less(k, below) ==> k == top || Less(k, top)
    ensures LeavesOnlyLower(runs, below, limit, [top] + rest)
  {
    forall k | k in runs && Less(k, below) && k !in [top] + rest
      ensures |[top] + rest| == limit && Less(k, Last([top] + rest, below))
    {
      NotListed(k, top, rest);
    }
  }

  lemma NotListed(k: Id, top: Id, rest: seq<Id>)
    requires k !in [top] + rest
    ensures k != top && k !in rest
  {
    assert ([top] + rest)[0] == top;
    assert forall i :: 0 <= i < |rest| ==> ([top] + rest)[i + 1] == rest[i];
  }

  predicate Agree(a: seq<Id>, b: seq<Id>, n: nat) {
    n <= |a| && n <= |b| && a[..n] == b[..n]
  }

  // Where two answers first differ, neither has the larger id.
  lemma NoLarger(runs: Table, below: Id, limit: nat, a: seq<Id>, b: seq<Id>, i: nat)
    requires Listed(runs, below, a) && Falling(a) && |a| <= limit
    requires LeavesOnlyLower(runs, below, limit, b) && Falling(b)
    requires i < |a| && Agree(a, b, i)
    ensures i < |b| && (a[i] == b[i] || Less(a[i], b[i]))
  {
    forall j | 0 <= j < i
      ensures b[j] != a[i]
    {
      assert a[..i][j] == b[..i][j];
    }
    if a[i] in b {
      var j :| 0 <= j < |b| && b[j] == a[i];
    }
  }

  lemma SameAt(runs: Table, below: Id, limit: nat, a: seq<Id>, b: seq<Id>, i: nat)
    requires Answers(runs, below, limit, a) && Answers(runs, below, limit, b) && i < |a| && Agree(a, b, i)
    ensures i < |b| && a[i] == b[i]
  {
    NoLarger(runs, below, limit, a, b, i);
    NoLarger(runs, below, limit, b, a, i);
  }

  lemma {:induction false} AnswersAgree(runs: Table, below: Id, limit: nat, a: seq<Id>, b: seq<Id>, n: nat)
    requires Answers(runs, below, limit, a) && Answers(runs, below, limit, b) && n <= |a|
    ensures Agree(a, b, n)
  {
    if n == 0 {
    } else {
      AnswersAgree(runs, below, limit, a, b, n - 1);
      SameAt(runs, below, limit, a, b, n - 1);
      OneMoreAgrees(a, b, n - 1);
    }
  }

  lemma OneMoreAgrees(a: seq<Id>, b: seq<Id>, i: nat)
    requires Agree(a, b, i) && i < |a| && i < |b| && a[i] == b[i]
    ensures Agree(a, b, i + 1)
  {
    assert a[..i + 1] == a[..i] + [a[i]] && b[..i + 1] == b[..i] + [b[i]];
  }

  lemma AnswerIsNewest(runs: Table, below: Id, limit: nat, ids: seq<Id>)
    requires Answers(runs, below, limit, ids)
    ensures ids == Newest(runs, below, limit)
  {
    NewestAnswers(runs, below, limit);
    AnswersAgree(runs, below, limit, ids, Newest(runs, below, limit), |ids|);
    AnswersAgree(runs, below, limit, Newest(runs, below, limit), ids, |Newest(runs, below, limit)|);
    assert ids == ids[..|ids|];
  }

  // The query has exactly one answer.
  lemma QueryHasOneAnswer(runs: Table, below: Id, limit: nat, ids: seq<Id>)
    ensures Answers(runs, below, limit, ids) <==> ids == Newest(runs, below, limit)
  {
    NewestAnswers(runs, below, limit);
    if Answers(runs, below, limit, ids) {
      AnswerIsNewest(runs, below, limit, ids);
    }
  }

  // A run that is not under `below` does not show.
  lemma {:induction false} NewestIgnores(runs: Table, id: Id, r: Run, below: Id, limit: nat)
    requires !Less(id, below)
    ensures Newest(runs[id := r], below, limit) == Newest(runs, below, limit)
    decreases limit
  {
    assert Under(runs[id := r], below) == Under(runs, below);
    var top := History.MaxId(Under(runs, below));
    if limit == 0 || top.None? {
    } else {
      NewestIgnores(runs, id, r, top.value, limit - 1);
    }
  }

  function RowsOf(runs: Table, ids: seq<Id>): (rows: seq<Run>)
    requires forall i :: 0 <= i < |ids| ==> ids[i] in runs
    ensures |rows| == |ids| && forall i :: 0 <= i < |ids| ==> rows[i] == runs[ids[i]]
  {
    seq(|ids|, i requires 0 <= i < |ids| => runs[ids[i]])
  }

  // ---------- the latest reboot ----------

  predicate Rebooted(r: Run) {
    r.action == Action.Reboot && r.rebootStartedAt.Some?
  }

  predicate RebootedBy(runs: Table, at: int) {
    forall id :: id in runs && Rebooted(runs[id]) ==> runs[id].rebootStartedAt.value <= at
  }

  // SELECT reboot_started_at ... WHERE action = 'reboot' AND reboot_started_at
  // IS NOT NULL ORDER BY reboot_started_at DESC LIMIT 1
  predicate IsLastReboot(runs: Table, answer: Option<int>) {
    match answer
    case None => forall id :: id in runs ==> !Rebooted(runs[id])
    case Some(at) =>
      (exists id :: id in runs && Rebooted(runs[id]) && runs[id].rebootStartedAt == Some(at)) && RebootedBy(runs, at)
  }

  lemma {:induction false} LastRebootExists(runs: Table) returns (answer: Option<int>)
    ensures IsLastReboot(runs, answer)
    decreases |runs|
  {
    if runs == map[] {
      answer := None;
    } else {
      var id :| id in runs;
      var rest := runs - {id};
      assert |rest| < |runs| by {
        assert rest.Keys == runs.Keys - {id};
        assert |rest.Keys| == |rest| && |runs.Keys| == |runs|;
      }
      answer := LastRebootExists(rest);
      assert forall x :: x in runs ==> x == id || (x in rest && rest[x] == runs[x]);
      if Rebooted(runs[id]) && (answer.None? || answer.value < runs[id].rebootStartedAt.value) {
        answer := runs[id].rebootStartedAt;
      }
    }
  }

  // ---------- a pass and the table it finds ----------

  // A pass that inserted its row. `calls` stops early when the process died.
  datatype Entry = Entry(mode: Mode, world: World, calls: seq<Call>)

  function Row(e: Entry): Run {
    Written(NewRow(e.world, e.mode), e.calls)
  }

  ghost predicate Traced(s: Settings, e: Entry) {
    Trace(s, e.world, e.mode, e.calls)
  }

  function Need(s: Settings): nat {
    if s.minStreak <= 1 then 0 else s.minStreak - 1
  }

  // Any query of the pass may fail, but one that answers answers from this
  // table; and its clock does not go back between the guard and the reboot.
  ghost predicate Asked(s: Settings, runs: Table, id: Id, w: World) {
    && (w.streak.Ok? ==> exists ids :: Answers(runs, id, Need(s), ids) && w.streak.value == RowsOf(runs, ids))
    && (w.previous.Ok? ==> exists ids :: Answers(runs, id, 1, ids) && w.previous.value == RowsOf(runs, ids))
    && (w.lastReboot.Ok? ==> IsLastReboot(runs, w.lastReboot.value))
    && w.cooldownAt <= w.rebootedAt
  }

  // The same, with the answers worked out.
  ghost predicate Informed(s: Settings, runs: Table, id: Id, w: World) {
    && (w.streak.Ok? ==> w.streak.value == RowsOf(runs, Newest(runs, id, Need(s))))
    && (w.previous.Ok? ==> w.previous.value == RowsOf(runs, Newest(runs, id, 1)))
    && (w.lastReboot.Ok? ==> IsLastReboot(runs, w.lastReboot.value))
    && w.cooldownAt <= w.rebootedAt
  }

  lemma AskedIsInformed(s: Settings, runs: Table, id: Id, w: World)
    ensures Asked(s, runs, id, w) <==> Informed(s, runs, id, w)
  {
    NewestAnswers(runs, id, Need(s));
    NewestAnswers(runs, id, 1);
    forall ids, limit: nat | Answers(runs, id, limit, ids)
      ensures ids == Newest(runs, id, limit)
    {
      AnswerIsNewest(runs, id, limit, ids);
    }
  }

  // The pass's own row changes none of the answers before it records a reboot:
  // they are the same at every moment of the pass.
  lemma OwnRowIsInvisible(s: Settings, runs: Table, id: Id, r: Run, w: World)
    requires id !in runs && !Rebooted(r)
    ensures Informed(s, runs[id := r], id, w) <==> Informed(s, runs, id, w)
  {
    NewestIgnores(runs, id, r, id, Need(s));
    NewestIgnores(runs, id, r, id, 1);
    forall limit: nat
      ensures RowsOf(runs[id := r], Newest(runs, id, limit)) == RowsOf(runs, Newest(runs, id, limit))
    {
    }
    if w.lastReboot.Ok? {
      LastRebootIgnores(runs, id, r, w.lastReboot.value);
    }
  }

  lemma LastRebootIgnores(runs: Table, id: Id, r: Run, answer: Option<int>)
    requires id !in runs && !Rebooted(r)
    ensures IsLastReboot(runs[id := r], answer) <==> IsLastReboot(runs, answer)
  {
    var after := runs[id := r];
    assert forall x :: x in runs ==> x in after && after[x] == runs[x];
    if answer.Some? && IsLastReboot(after, answer) {
      var x :| x in after && Rebooted(after[x]) && after[x].rebootStartedAt == answer;
      assert x in runs;
    }
  }

  // ---------- what the guards conclude ----------

  // b is a soft reboot that came after the recorded reboot of a.
  predicate SpacedFrom(s: Settings, a: Run, b: Run) {
    b.mode.Soft? && b.rebootStartedAt.Some? && Rebooted(a) ==>
      b.rebootStartedAt.value >= a.rebootStartedAt.value + WholeSeconds(s.cooldown)
  }

  lemma NewRebootIsSpaced(s: Settings, runs: Table, id: Id, e: Entry, a: Id)
    requires Traced(s, e) && Informed(s, runs, id, e.world) && a in runs
    ensures SpacedFrom(s, runs[a], Row(e))
  {
    PartialRecordsAreHonest(s, e.world, e.mode, e.calls);
    if Row(e).mode.Soft? && Row(e).rebootStartedAt.Some? && Rebooted(runs[a]) {
      var last := e.world.lastReboot.value;
      assert last.Some? && runs[a].rebootStartedAt.value <= last.value;
      TruncationKeepsSpacing(e.world.rebootedAt, last.value, s.cooldown);
    }
  }

  // As many runs as the streak asks for, and each says down.
  ghost predicate StreakDown(s: Settings, runs: Table, id: Id) {
    var ids := Newest(runs, id, Need(s));
    |ids| == Need(s) && forall i :: 0 <= i < |ids| ==> runs[ids[i]].internetOk == Some(false)
  }

  lemma SustainedMeansStreak(s: Settings, runs: Table, id: Id, w: World)
    requires Informed(s, runs, id, w)
    ensures Sustained(s, w.streak) ==> StreakDown(s, runs, id)
    ensures w.streak.Ok? && StreakDown(s, runs, id) ==> Sustained(s, w.streak)
  {
    var ids := Newest(runs, id, Need(s));
    if w.streak.Ok? {
      assert forall i :: 0 <= i < |ids| ==> w.streak.value[i] == runs[ids[i]];
    }
  }

  // Some recorded reboot of the table is within the cooldown at `now`.
  predicate HeldBack(s: Settings, runs: Table, now: Instant) {
    exists id :: id in runs && Rebooted(runs[id]) && now - Parsed(runs[id].rebootStartedAt.value) < s.cooldown
  }

  // The query for the latest reboot decides for all of them.
  lemma CooldownIsOverAll(s: Settings, runs: Table, id: Id, w: World)
    requires Informed(s, runs, id, w) && w.lastReboot.Ok?
    ensures Cooling(s, w) <==> HeldBack(s, runs, w.cooldownAt)
  {
    var last := w.lastReboot.value;
    if last.Some? {
      var x :| x in runs && Rebooted(runs[x]) && runs[x].rebootStartedAt == last;
      assert Cooling(s, w) ==> w.cooldownAt - Parsed(runs[x].rebootStartedAt.value) < s.cooldown;
    }
  }

  // ---------- which reboots the next pass waits for ----------

  // A soft pass on this table that stamps a reboot at `at`.
  ghost predicate StampsAt(s: Settings, runs: Table, id: Id, e: Entry, at: Instant) {
    && Traced(s, e) && Asked(s, runs, id, e.world)
    && e.mode.Soft? && Row(e).rebootStartedAt.Some? && e.world.rebootedAt == at
  }

  const SILENT := Target("192.0.2.1", Ip, false, 0, "timeout")

  // A world in which every probe before the reboot is silent.
  function Outage(s: Settings, at: Instant, streak: Result<seq<Run>, string>, last: Option<int>): World {
    World(at, [SILENT], true, (i: nat) => [SILENT], streak, Err("unread"), Ok(last), at, None, at,
          (k: nat) => at + (k + 1) * s.interval, (k: nat) => SILENT, (k: nat) => [], at)
  }

  lemma OutageIsDown(s: Settings, at: Instant, streak: Result<seq<Run>, string>, last: Option<int>)
    requires s.interval > 0
    ensures var w := Outage(s, at, streak, last);
      Advances(s, w) && ConfirmedDown(s, w)
  {
    var w := Outage(s, at, streak, last);
    assert LinkGone([SILENT]) by {
      assert [SILENT][0].kind == Ip;
    }
    forall k: nat
      ensures Waits(s, w, k)
    {
      assert (k + 1 + 1) * s.interval == (k + 1) * s.interval + s.interval;
    }
    assert w.tick(0) == at + 1 * s.interval;
  }

  // The attempts of a rebooting soft pass up to the stamp of its reboot.
  function UpToStamp(s: Settings, w: World): seq<Attempt> {
    OpeningSoft(w) + Verifying(s, w) + (Requesting(Soft) + [UpdateRun(KEEP.(rebootStartedAt := Some(w.rebootedAt)))])
  }

  lemma UpToStampIsPrefix(s: Settings, w: World)
    requires Advances(s, w) && MayReboot(s, w) && w.reboot.None?
    ensures UpToStamp(s, w) <= FullPass(s, w, Soft).acts
  {
    DecisiveMeaning(s, w);
    var head, rest := OpeningSoft(w) + Verifying(s, w), Recovering(s, w).acts;
    var stamp := [UpdateRun(KEEP.(rebootStartedAt := Some(w.rebootedAt)))];
    assert Rebooting(s, w, Soft).acts == Requesting(Soft) + (stamp + rest);
    assert Graded(s, w) == Rebooting(s, w, Soft);
    Regroup(Requesting(Soft), stamp, rest);
    Regroup(head, Requesting(Soft) + stamp, rest);
    assert FullPass(s, w, Soft).acts == UpToStamp(s, w) + rest;
  }

  lemma StampedRow(s: Settings, w: World)
    requires ConfirmedDown(s, w)
    ensures RowOf(NewRow(w, Soft), UpToStamp(s, w))
         == NewRow(w, Soft).(action := Action.Reboot, rebootStartedAt := Some(WholeSeconds(w.rebootedAt)))
  {
    var row := NewRow(w, Soft);
    var stamp := UpdateRun(KEEP.(rebootStartedAt := Some(w.rebootedAt)));
    DecisiveMeaning(s, w);
    VerifiedRow(s, w);
    RowOfAppend(row, OpeningSoft(w) + Verifying(s, w), Requesting(Soft) + [stamp]);
    RowOfAppend(row, Requesting(Soft), [stamp]);
    RequestingRow(row, Soft);
    QuietTail(row.(action := Action.Reboot), [], stamp);
    assert [] + [stamp] == [stamp];
  }

  function AllOk(acts: seq<Attempt>): (calls: seq<Call>)
    ensures |calls| == |acts| && Attempts(calls) == acts
    ensures forall i :: 0 <= i < |calls| ==> calls[i] == Call(acts[i], true)
  {
    seq(|acts|, i requires 0 <= i < |acts| => Call(acts[i], true))
  }

  // The pass that reboots as soon as the table lets it.
  lemma QuickReboot(s: Settings, runs: Table, id: Id, at: Instant) returns (e: Entry)
    requires s.rebootEnabled && s.interval > 0 && StreakDown(s, runs, id) && !HeldBack(s, runs, at)
    ensures StampsAt(s, runs, id, e, at)
    ensures Row(e).rebootStartedAt == Some(WholeSeconds(at))
  {
    var last := LastRebootExists(runs);
    var w := Outage(s, at, Ok(RowsOf(runs, Newest(runs, id, Need(s)))), last);
    OutageIsDown(s, at, w.streak, last);
    AskedIsInformed(s, runs, id, w);
    SustainedMeansStreak(s, runs, id, w);
    CooldownIsOverAll(s, runs, id, w);
    UpToStampIsPrefix(s, w);
    StampedRow(s, w);
    e := Entry(Soft, w, AllOk(UpToStamp(s, w)));
    LandedWrites(NewRow(w, Soft), e.calls);
  }

  // With rebooting on and the streak down, the next soft pass may stamp a
  // reboot at `at` exactly when no recorded reboot is within the cooldown then:
  // an action without its time, or a time without its action, holds none back.
  lemma OnlyRecordedRebootsHoldBack(s: Settings, runs: Table, id: Id, at: Instant)
    requires s.rebootEnabled && s.interval > 0 && StreakDown(s, runs, id)
    ensures (exists e :: StampsAt(s, runs, id, e, at)) <==> !HeldBack(s, runs, at)
  {
    if !HeldBack(s, runs, at) {
      var e := QuickReboot(s, runs, id, at);
    }
    forall e | StampsAt(s, runs, id, e, at)
      ensures !HeldBack(s, runs, at)
    {
      AskedIsInformed(s, runs, id, e.world);
      PartialRecordsAreHonest(s, e.world, e.mode, e.calls);
      CooldownIsOverAll(s, runs, id, e.world);
    }
  }

  predicate Stored(r: Run) {
    r.rebootStartedAt.Some?
  }

  // Every stored reboot time is at or below that of a recorded reboot.
  predicate AllCovered(runs: Table) {
    forall x :: x in runs && Stored(runs[x]) ==> Covered(runs, runs[x].rebootStartedAt.value)
  }

  predicate Covered(runs: Table, at: int) {
    exists m :: m in runs && Rebooted(runs[m]) && runs[m].rebootStartedAt.value >= at
  }

  // A soft pass keeps the cooldown from every stored time.
  predicate SpacedFromStored(s: Settings, runs: Table, r: Run)
    requires Stored(r)
  {
    forall x :: x in runs && Stored(runs[x]) ==>
      r.rebootStartedAt.value >= runs[x].rebootStartedAt.value + WholeSeconds(s.cooldown)
  }

  ghost predicate NextIsSpaced(s: Settings, runs: Table, id: Id) {
    forall e, at :: StampsAt(s, runs, id, e, at) ==> SpacedFromStored(s, runs, Row(e))
  }

  lemma CoveredIsSpaced(s: Settings, runs: Table, id: Id, e: Entry, at: Instant)
    requires AllCovered(runs) && StampsAt(s, runs, id, e, at)
    ensures SpacedFromStored(s, runs, Row(e))
  {
    AskedIsInformed(s, runs, id, e.world);
    PartialRecordsAreHonest(s, e.world, e.mode, e.calls);
    forall x | x in runs && Stored(runs[x])
      ensures Row(e).rebootStartedAt.value >= runs[x].rebootStartedAt.value + WholeSeconds(s.cooldown)
    {
      var m :| m in runs && Rebooted(runs[m]) && runs[m].rebootStartedAt.value >= runs[x].rebootStartedAt.value;
      NewRebootIsSpaced(s, runs, id, e, m);
    }
  }

  // A moment at which no recorded reboot holds back, less than the cooldown
  // after a stored time that none covers.
  lemma TooSoon(s: Settings, runs: Table, x: Id) returns (at: Instant)
    requires x in runs && Stored(runs[x]) && !Covered(runs, runs[x].rebootStartedAt.value)
    ensures !HeldBack(s, runs, at) && WholeSeconds(at) < runs[x].rebootStartedAt.value + WholeSeconds(s.cooldown)
  {
    var stored := runs[x].rebootStartedAt.value;
    at := Parsed(stored - 1) + s.cooldown;
    assert WholeSeconds(at) == stored - 1 + WholeSeconds(s.cooldown);
    forall m | m in runs && Rebooted(runs[m])
      ensures at - Parsed(runs[m].rebootStartedAt.value) >= s.cooldown
    {
      assert runs[m].rebootStartedAt.value <= stored - 1;
    }
  }

  // With rebooting on and the streak down, every next soft reboot keeps the
  // cooldown from every stored time exactly when each stored time is covered
  // by a row that has both the action and the time.
  lemma SpacingNeedsTheRecord(s: Settings, runs: Table, id: Id)
    requires s.rebootEnabled && s.interval > 0 && StreakDown(s, runs, id)
    ensures NextIsSpaced(s, runs, id) <==> AllCovered(runs)
  {
    if AllCovered(runs) {
      forall e, at | StampsAt(s, runs, id, e, at)
        ensures SpacedFromStored(s, runs, Row(e))
      {
        CoveredIsSpaced(s, runs, id, e, at);
      }
    } else {
      var x :| x in runs && Stored(runs[x]) && !Covered(runs, runs[x].rebootStartedAt.value);
      var at := TooSoon(s, runs, x);
      var e := QuickReboot(s, runs, id, at);
      assert StampsAt(s, runs, id, e, at) && !SpacedFromStored(s, runs, Row(e));
    }
  }

  // A reboot whose start was never stamped is not waited for at all.
  lemma UnstampedRebootIsForgotten(s: Settings, runs: Table, id: Id, at: Instant)
    requires s.rebootEnabled && s.interval > 0 && StreakDown(s, runs, id)
    requires forall x :: x in runs ==> runs[x].rebootStartedAt.None?
    ensures exists e :: StampsAt(s, runs, id, e, at)
  {
    var e := QuickReboot(s, runs, id, at);
  }
}
