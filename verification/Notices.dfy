// How often the operator is told: a state that lasts is announced once, when
// it begins.
module Notices {
  import opened Instants
  import opened Options
  import opened Runs
  import opened Uuid
  import opened Tables
  import opened Verdicts
  import opened Watchdog
  import opened Passes
  import opened Endings
  import opened Guards
  import opened WatchHistory
  import H = History

  // The states that are told once: name resolution lost while the link holds,
  // and a reboot held back by the cooldown.
  datatype Topic = Degradation | HoldingBack

  function OutcomeOf(t: Topic): Outcome {
    match t
    case Degradation => OnlyDegraded
    case HoldingBack => Skipped
  }

  predicate About(t: Topic, m: Message) {
    match t
    case Degradation => m.DomainsFailing?
    case HoldingBack => m.CoolingDown?
  }

  function Mentions(t: Topic, told: seq<Message>): nat {
    if told == [] then 0 else Mentions(t, told[..|told| - 1]) + if About(t, told[|told| - 1]) then 1 else 0
  }

  lemma MentionsOfFew(t: Topic, told: seq<Message>)
    requires |told| <= 2
    ensures Mentions(t, told) == (if |told| > 0 && About(t, told[0]) then 1 else 0) + (if |told| > 1 && About(t, told[1]) then 1 else 0)
  {
    if |told| > 1 {
      assert told[..1][..0] == [];
    }
  }

  predicate EndedAs(e: Entry, o: Outcome) {
    Row(e).outcome == Some(o)
  }

  // A pass that could not read the last reboot also ends as skipped, but has
  // an error and a message of its own.
  predicate Shows(e: Entry, t: Topic) {
    EndedAs(e, OutcomeOf(t)) && (t.HoldingBack? ==> Row(e).error.None?)
  }

  // ---------- what one pass tells ----------

  ghost predicate Tells(p: Pass, row: Run, w: World, t: Topic) {
    var final := RowOf(row, p.acts);
    Mentions(t, Messages(p.acts))
    == if final.outcome == Some(OutcomeOf(t)) && (t.HoldingBack? ==> final.error.None?) && News(w.previous, OutcomeOf(t)) then 1 else 0
  }

  lemma RebootedTells(s: Settings, w: World, mode: Mode, p: Pass, row: Run, t: Topic)
    requires EndsRebooted(s, w, mode, p, row)
    ensures Tells(p, row, w, t)
  {
    MentionsOfFew(t, Messages(p.acts));
  }

  lemma DecidedTells(s: Settings, w: World, p: Pass, row: Run, t: Topic)
    requires DecidedEnds(s, w, p, row)
    ensures Tells(p, row, w, t)
  {
    if GuardsOpen(s, w) {
      RebootedTells(s, w, Soft, p, row, t);
    } else {
      MentionsOfFew(t, Messages(p.acts));
    }
  }

  lemma PassTells(s: Settings, w: World, mode: Mode, t: Topic)
    requires Advances(s, w) && w.inserted
    ensures Tells(FullPass(s, w, mode), NewRow(w, mode), w, t)
  {
    var p, row := FullPass(s, w, mode), NewRow(w, mode);
    if mode.Hard? {
      HardPassEnds(s, w);
      if s.rebootEnabled {
        RebootedTells(s, w, Hard, p, row, t);
      } else {
        MentionsOfFew(t, Messages(p.acts));
      }
    } else {
      SoftPassEnds(s, w);
      DecisiveMeaning(s, w);
      if ConfirmedDown(s, w) {
        DecidedTells(s, w, p, row, t);
      } else {
        MentionsOfFew(t, Messages(p.acts));
      }
    }
  }

  // ---------- what a history tells ----------

  // All messages on the topic the first n passes sent.
  function Notices(log: seq<Record>, n: nat, t: Topic): nat
    requires n <= |log|
  {
    if n == 0 then 0 else Notices(log, n - 1, t) + Mentions(t, Messages(Attempts(log[n - 1].entry.calls)))
  }

  // Pass i shows the state and the pass before it did not end as such a pass
  // does.
  predicate StartsEpisode(log: seq<Record>, i: nat, t: Topic)
    requires i < |log|
  {
    Shows(log[i].entry, t) && (i == 0 || !EndedAs(log[i - 1].entry, OutcomeOf(t)))
  }

  function Episodes(log: seq<Record>, n: nat, t: Topic): nat
    requires n <= |log|
  {
    if n == 0 then 0 else Episodes(log, n - 1, t) + if StartsEpisode(log, n - 1, t) then 1 else 0
  }

  // A pass begins with its read answered, and the run before it is still hot.
  ghost predicate SmoothBegin(f: Fleet, w: World) {
    w.previous.Ok? && (f.log != [] ==> f.log[|f.log| - 1].id in f.sys.db.hot.runs)
  }

  ghost predicate Smooth(fleets: seq<Fleet>, moves: seq<Move>) {
    |fleets| == |moves| + 1 && forall k :: 0 <= k < |moves| && moves[k].Begin? ==> SmoothBegin(fleets[k], moves[k].world)
  }

  // For pass i a state is news exactly when the pass before it did not end so.
  predicate KnowsNews(log: seq<Record>, i: nat, t: Topic)
    requires i < |log|
  {
    News(log[i].entry.world.previous, OutcomeOf(t)) <==> (i == 0 || !EndedAs(log[i - 1].entry, OutcomeOf(t)))
  }

  ghost predicate AllKnowNews(log: seq<Record>, t: Topic) {
    forall i {:trigger KnowsNews(log, i, t)} :: 0 <= i < |log| ==> KnowsNews(log, i, t)
  }

  lemma NewestIsLast(runs: Table, below: Id, last: Id)
    requires last in runs && Less(last, below) && forall x :: x in runs && Less(x, below) ==> x == last || Less(x, last)
    ensures Newest(runs, below, 1) == [last]
  {
    assert last in Under(runs, below);
    assert Newest(runs, last, 0) == [];
  }

  lemma NewestIsNone(runs: Table, below: Id)
    requires forall x :: x in runs ==> !Less(x, below)
    ensures Newest(runs, below, 1) == []
  {
    assert Under(runs, below) == {};
  }

  lemma BeginKnowsNews(
      s: Settings, hot: Table, flat: Table, passes: map<Id, Entry>, log: seq<Record>, id: Id, r: Run, w: World, t: Topic)
    requires RowsAreWritten(s, flat, passes) && LogInv(flat, passes, log, None)
    requires forall x :: x in hot ==> x in flat && flat[x] == hot[x]
    requires id !in flat && IsNewest(flat[id := r], id) && Informed(s, hot, id, w) && w.previous.Ok?
    requires log != [] ==> log[|log| - 1].id in hot
    ensures News(w.previous, OutcomeOf(t)) <==> (log == [] || !EndedAs(log[|log| - 1].entry, OutcomeOf(t)))
  {
    if log == [] {
      NewestIsNone(hot, id);
    } else {
      var last := log[|log| - 1];
      assert last.id in flat[id := r];
      NewestIsLast(hot, id, last.id);
      assert w.previous.value[0] == Row(last.entry);
    }
  }

  lemma NewsStays(log: seq<Record>, e: Entry, t: Topic)
    requires AllKnowNews(log, t)
    requires log != [] ==> e.world == log[|log| - 1].entry.world
    ensures AllKnowNews(Relogged(log, e), t)
  {
    var after := Relogged(log, e);
    forall i | 0 <= i < |after|
      ensures KnowsNews(after, i, t)
    {
      assert KnowsNews(log, i, t);
    }
  }

  lemma NewsGrows(log: seq<Record>, r: Record, t: Topic)
    requires AllKnowNews(log, t)
    requires News(r.entry.world.previous, OutcomeOf(t)) <==> (log == [] || !EndedAs(log[|log| - 1].entry, OutcomeOf(t)))
    ensures AllKnowNews(log + [r], t)
  {
    var after := log + [r];
    forall i | 0 <= i < |after|
      ensures KnowsNews(after, i, t)
    {
      if i < |log| {
        assert KnowsNews(log, i, t);
      }
    }
  }

  // The table a new pass finds, and what it learns of it.
  lemma BeginFinds(s: Settings, f: Fleet, mode: Mode, w: World)
    requires Inv(s, f) && Enabled(s, f, Begin(mode, w))
    ensures var hot, flat, id := f.sys.db.hot.runs, f.sys.flat.runs, f.sys.main[0].id;
      && (forall x :: x in hot ==> x in flat && flat[x] == hot[x])
      && id !in flat && IsNewest(flat[id := NewRow(w, mode)], id) && Informed(s, hot, id, w)
  {
    var hot, id := f.sys.db.hot.runs, f.sys.main[0].id;
    InsertionAdds(f.sys, w, mode);
    HotIsPart(f.sys);
    AskedIsInformed(s, hot[id := NewRow(w, mode)], id, w);
    OwnRowIsInvisible(s, hot, id, NewRow(w, mode), w);
  }

  lemma SystemNews(s: Settings, f: Fleet, step: H.Step)
    requires Enabled(s, f, System(step))
    ensures Next(s, f, System(step)).log == f.log
  {
  }

  lemma GoNews(s: Settings, f: Fleet, ok: bool, t: Topic)
    requires LogInv(f.sys.flat.runs, f.passes, f.log, f.running) && Enabled(s, f, Go(ok)) && AllKnowNews(f.log, t)
    ensures AllKnowNews(Next(s, f, Go(ok)).log, t)
  {
    var e := f.passes[f.running.value];
    NewsStays(f.log, Called(e, NextAttempt(s, e), ok), t);
  }

  lemma BeginNews(s: Settings, f: Fleet, mode: Mode, w: World, r: Record, t: Topic)
    requires Inv(s, f) && Enabled(s, f, Begin(mode, w)) && SmoothBegin(f, w) && AllKnowNews(f.log, t)
    requires f.sys.main != [] && r == BeginRecord(f.sys.main, mode, w)
    ensures AllKnowNews(f.log + [r], t)
  {
    BeginFinds(s, f, mode, w);
    BeginKnowsNews(s, f.sys.db.hot.runs, f.sys.flat.runs, f.passes, f.log, r.id, NewRow(w, mode), w, t);
    NewsGrows(f.log, r, t);
  }

  lemma BeginLogs(s: Settings, f: Fleet, mode: Mode, w: World)
    requires Enabled(s, f, Begin(mode, w))
    ensures Next(s, f, Begin(mode, w)).log == f.log + [BeginRecord(f.sys.main, mode, w)]
  {
  }

  lemma NewsStep(s: Settings, f: Fleet, move: Move, g: Fleet, t: Topic)
    requires Inv(s, f) && Enabled(s, f, move) && g == Next(s, f, move) && AllKnowNews(f.log, t)
    requires move.Begin? ==> SmoothBegin(f, move.world)
    ensures AllKnowNews(g.log, t)
  {
    if move.System? {
      SystemNews(s, f, move.step);
    } else if move.Begin? {
      BeginLogs(s, f, move.mode, move.world);
      BeginNews(s, f, move.mode, move.world, BeginRecord(f.sys.main, move.mode, move.world), t);
    } else {
      GoNews(s, f, move.ok, t);
    }
  }

  lemma {:induction false} NewsKeeps(s: Settings, fleets: seq<Fleet>, moves: seq<Move>, k: nat, t: Topic)
    requires IsWatch(s, fleets, moves) && Smooth(fleets, moves) && k < |fleets|
    ensures AllKnowNews(fleets[k].log, t)
  {
    if k == 0 {
    } else {
      NewsKeeps(s, fleets, moves, k - 1, t);
      WatchKeeps(s, fleets, moves, k - 1);
      NewsStep(s, fleets[k - 1], moves[k - 1], fleets[k], t);
    }
  }

  ghost predicate AllFinished(s: Settings, log: seq<Record>) {
    forall i {:trigger Finished(s, log[i].entry)} :: 0 <= i < |log| ==> Finished(s, log[i].entry)
  }

  lemma FinishedTells(s: Settings, e: Entry, t: Topic)
    requires Finished(s, e)
    ensures Mentions(t, Messages(Attempts(e.calls))) == if Shows(e, t) && News(e.world.previous, OutcomeOf(t)) then 1 else 0
  {
    LandedWrites(NewRow(e.world, e.mode), e.calls);
    PassTells(s, e.world, e.mode, t);
  }

  lemma {:induction false} NewsCounts(s: Settings, log: seq<Record>, n: nat, t: Topic)
    requires n <= |log| && AllKnowNews(log, t) && AllFinished(s, log)
    ensures Notices(log, n, t) == Episodes(log, n, t)
  {
    if n == 0 {
    } else {
      NewsCounts(s, log, n - 1, t);
      assert KnowsNews(log, n - 1, t) && Finished(s, log[n - 1].entry);
      FinishedTells(s, log[n - 1].entry, t);
    }
  }

  // One notice an episode, of lost name resolution as of a reboot held back:
  // once every pass is finished there are as many as passes that show the
  // state where the pass before them ended otherwise.
  lemma OneNoticeAnEpisode(s: Settings, fleets: seq<Fleet>, moves: seq<Move>, k: nat, t: Topic)
    requires IsWatch(s, fleets, moves) && Smooth(fleets, moves) && k < |fleets|
    requires AllFinished(s, fleets[k].log)
    ensures Notices(fleets[k].log, |fleets[k].log|, t) == Episodes(fleets[k].log, |fleets[k].log|, t)
  {
    NewsKeeps(s, fleets, moves, k, t);
    NewsCounts(s, fleets[k].log, |fleets[k].log|, t);
  }

  // A history that could not be read is told again: a pass in either state
  // whose query failed sends its message whatever came before.
  lemma FailedReadTells(s: Settings, e: Entry, t: Topic)
    requires Finished(s, e) && Shows(e, t) && e.world.previous.Err?
    ensures Mentions(t, Messages(Attempts(e.calls))) == 1
  {
    FinishedTells(s, e, t);
  }
}
