// Whole histories of one database: short processes that open it, mint ids on
// three goroutines, write rows, move and prune runs, and crash, under any wall
// clock and any entropy failures. Beside the tiered tables the state carries
// the one untiered store they stand for.
module History {
  import opened Instants
  import opened Options
  import opened Runs
  import opened Uuid
  import opened Generator
  import opened Tables
  import opened Store

  // An id minted but not yet stored, with the instant of its row.
  datatype Pending = Pending(id: Id, ts: Instant)

  // The goroutines that write: the main flow owns runs and checks.
  datatype Worker = Main | MetricsWorker | PingsWorker

  datatype Sys = Sys(
    db: Db,
    up: bool,
    mark: Watermark,
    main: seq<Pending>,
    metrics: seq<Pending>,
    pings: seq<Pending>,
    born: seq<Id>,      // minted by the running process, in order
    flat: Tier,         // the untiered store
    log: seq<Id>)       // its checks, in insertion order

  datatype Step =
    | Open
    | Crash
    | Mint(worker: Worker, ts: Instant, draw: Draw, tail: Option<seq<Byte>>)
    | Discard(worker: Worker)
    | PutRun(mode: Mode, internetOk: Option<bool>)
    | Update(run: Id, update: RunUpdate)
    | PutCheck(run: Id, check: CheckBody)
    | PutMetrics(run: Id, ts: Instant, host: HostBody, samples: seq<MetricBody>)
    | PutPings(run: Id, ts: Instant, results: seq<PingBody>)
    | Rollover(cutoff: int)
    | Prune(cutoff: int)

  const START := Sys(Db(EMPTY, EMPTY), false, Watermark(0, 0), [], [], [], [], EMPTY, [])

  // ---------- the eight id-bearing tables ----------

  function IdTables(db: Db): seq<set<Id>> {
    [db.hot.runs.Keys, db.hot.checks.Keys, db.hot.metrics.Keys, db.hot.pings.Keys,
     db.cold.runs.Keys, db.cold.checks.Keys, db.cold.metrics.Keys, db.cold.pings.Keys]
  }

  ghost predicate Stored(db: Db, id: Id) {
    exists i :: 0 <= i < 8 && id in IdTables(db)[i]
  }

  // SELECT MAX(id): None on an empty table.
  ghost function MaxId(ids: set<Id>): (m: Option<Id>)
    ensures m.None? <==> ids == {}
    ensures m.Some? ==> m.value in ids && forall x :: x in ids ==> x == m.value || Less(x, m.value)
  {
    if ids == {} then None
    else
      var x :| x in ids;
      var rest := MaxId(ids - {x});
      assert ids == (ids - {x}) + {x};
      if rest.None? || Less(rest.value, x) then Some(x) else rest
  }

  ghost function MaxText(ids: set<Id>): Option<string>
    requires forall id :: id in ids ==> Canonical(id)
  {
    match MaxId(ids)
    case None => None
    case Some(id) => Some(Text(id))
  }

  // It is the greatest id as text, as the engine compares it.
  lemma MaxTextIsGreatest(ids: set<Id>, id: Id)
    requires (forall x :: x in ids ==> Canonical(x)) && id in ids
    ensures MaxText(ids).Some?
    ensures exists m :: m in ids && MaxText(ids) == Some(Text(m))
    ensures Text(id) == MaxText(ids).value || Before(Text(id), MaxText(ids).value)
  {
    TextOrder(id, MaxId(ids).value);
  }

  ghost predicate AllCanonical(db: Db) {
    forall i :: 0 <= i < 8 ==> forall id :: id in IdTables(db)[i] ==> Canonical(id)
  }

  ghost function MaxTexts(db: Db): seq<Option<string>>
    requires AllCanonical(db)
  {
    seq(8, i requires 0 <= i < 8 => MaxText(IdTables(db)[i]))
  }

  // ---------- steps ----------

  function Queue(s: Sys, w: Worker): seq<Pending> {
    match w
    case Main => s.main
    case MetricsWorker => s.metrics
    case PingsWorker => s.pings
  }

  function WithQueue(s: Sys, w: Worker, q: seq<Pending>): Sys {
    match w
    case Main => s.(main := q)
    case MetricsWorker => s.(metrics := q)
    case PingsWorker => s.(pings := q)
  }

  function Ids(q: seq<Pending>): (ids: seq<Option<Id>>)
    ensures |ids| == |q| && forall i :: 0 <= i < |q| ==> ids[i] == Some(q[i].id)
  {
    seq(|q|, i requires 0 <= i < |q| => Some(q[i].id))
  }

  predicate StampedAt(q: seq<Pending>, ts: Instant) {
    forall i :: 0 <= i < |q| ==> q[i].ts == ts
  }

  // When a step can happen at all. Ids stay below 2^48 milliseconds; a child
  // row names a run that is still hot, as the pass that writes it inserted it.
  ghost predicate Enabled(s: Sys, step: Step) {
    match step
    case Open => !s.up && AllCanonical(s.db)
    case Crash => true
    case Mint(_, ts, draw, tail) =>
      s.up && Advance(s.mark, UnixMilli(ts), draw).mark.ms < MS_SPAN && (tail.Some? ==> |tail.value| == 8)
    case Discard(_) => s.up
    case PutRun(_, _) => s.up && s.main != []
    case Update(run, _) => s.up && run in s.db.hot.runs
    case PutCheck(run, _) => s.up && s.main != [] && run in s.db.hot.runs
    case PutMetrics(run, ts, _, samples) =>
      && s.up && |s.metrics| == |samples| && StampedAt(s.metrics, ts)
      && run in s.db.hot.runs && run !in s.db.hot.hosts
    case PutPings(run, ts, results) =>
      s.up && |s.pings| == |results| && StampedAt(s.pings, ts) && run in s.db.hot.runs
    case Rollover(_) => s.up
    case Prune(_) => s.up
  }

  // Enabled writes can still meet a taken key; Put* then store nothing.
  ghost function Next(s: Sys, step: Step): Sys
    requires Enabled(s, step)
  {
    match step
    case Open => s.(up := true, mark := SeedAll(Watermark(0, 0), MaxTexts(s.db)), main := [], metrics := [], pings := [], born := [])
    case Crash => s.(up := false, main := [], metrics := [], pings := [], born := [])
    case Mint(w, ts, draw, tail) =>
      var a := Advance(s.mark, UnixMilli(ts), draw);
      var t := s.(mark := a.mark);
      if a.minted && tail.Some? then
        var id := Stamp(a.mark.ms, a.mark.counter, RandB(tail.value));
        WithQueue(t, w, Queue(s, w) + [Pending(id, ts)]).(born := s.born + [id])
      else t
    case Discard(w) => WithQueue(s, w, [])
    case PutRun(mode, internetOk) =>
      var p := s.main[0];
      var t := s.(main := s.main[1..]);
      if p.id in s.db.hot.runs then t
      else
        var r := Fresh(p.ts, mode, internetOk);
        t.(db := AddRun(s.db, p.id, r), flat := s.flat.(runs := s.flat.runs[p.id := r]))
    case Update(run, u) =>
      s.(db := ChangeRun(s.db, run, u),
         flat := if run in s.flat.runs then s.flat.(runs := s.flat.runs[run := Apply(s.flat.runs[run], u)]) else s.flat)
    case PutCheck(run, body) =>
      var p := s.main[0];
      var t := s.(main := s.main[1..]);
      if p.id in s.db.hot.checks then t
      else
        var c := Child(run, p.ts, body);
        t.(db := AddCheck(s.db, p.id, c), flat := s.flat.(checks := s.flat.checks[p.id := c]), log := s.log + [p.id])
    case PutMetrics(run, ts, host, samples) =>
      var t := s.(metrics := []);
      var h := Child(run, ts, host);
      (match InsertAll(s.db.hot.metrics, run, ts, samples, Ids(s.metrics))
       case None => t
       case Some(hot) =>
         var flat := InsertAll(s.flat.metrics, run, ts, samples, Ids(s.metrics));
         t.(db := AddMetrics(s.db, h, hot),
            flat := s.flat.(hosts := s.flat.hosts[run := h], metrics := if flat.Some? then flat.value else s.flat.metrics)))
    case PutPings(run, ts, results) =>
      var t := s.(pings := []);
      (match InsertAll(s.db.hot.pings, run, ts, results, Ids(s.pings))
       case None => t
       case Some(hot) =>
         var flat := InsertAll(s.flat.pings, run, ts, results, Ids(s.pings));
         t.(db := AddPings(s.db, hot),
            flat := s.flat.(pings := if flat.Some? then flat.value else s.flat.pings)))
    case Rollover(cutoff) =>
      (match ExecuteAll(s.db, ROLLOVER + [DeleteRuns], cutoff)
       case None => s
       case Some(d) => s.(db := d))
    case Prune(cutoff) =>
      var gone := Aged(s.db.cold.runs, cutoff);
      (match ExecuteAll(s.db, PRUNE + [PruneRuns], cutoff)
       case None => s
       case Some(d) => s.(db := d, flat := Without(s.flat, gone), log := Remaining(s.log, s.flat.checks, gone)))
  }

  // The log without the checks of pruned runs.
  function Remaining(log: seq<Id>, checks: map<Id, Child<CheckBody>>, gone: set<Id>): seq<Id> {
    if log == [] then []
    else
      var rest := Remaining(log[..|log| - 1], checks, gone);
      var id := log[|log| - 1];
      if id in checks && checks[id].run in gone then rest else rest + [id]
  }

  ghost predicate IsHistory(states: seq<Sys>, steps: seq<Step>) {
    && |states| == |steps| + 1
    && states[0] == START
    && forall i :: 0 <= i < |steps| ==> Enabled(states[i], steps[i]) && states[i + 1] == Next(states[i], steps[i])
  }

  // ---------- the invariant ----------

  ghost predicate Increasing(ids: seq<Id>) {
    forall i, j :: 0 <= i < j < |ids| ==> Less(ids[i], ids[j])
  }

  // A child's id never carries an earlier millisecond than its row.
  ghost predicate NotEarly<T>(rows: map<Id, Child<T>>) {
    forall id :: id in rows ==> id.ms >= UnixMilli(rows[id].ts)
  }

  // Canonical, and at or under the watermark of a running process.
  ghost predicate UnderMark(up: bool, mark: Watermark, id: Id) {
    Canonical(id) && (up ==> Covers(mark, id))
  }

  ghost predicate KeysUnderMark(up: bool, mark: Watermark, ids: set<Id>) {
    forall id :: id in ids ==> UnderMark(up, mark, id)
  }

  ghost predicate RowsUnderMark(up: bool, mark: Watermark, t: Tier) {
    && KeysUnderMark(up, mark, t.runs.Keys)
    && KeysUnderMark(up, mark, t.checks.Keys)
    && KeysUnderMark(up, mark, t.metrics.Keys)
    && KeysUnderMark(up, mark, t.pings.Keys)
  }

  // A queue holds increasing ids under the mark, none earlier than its row.
  ghost predicate QueueInv(up: bool, mark: Watermark, q: seq<Pending>) {
    && (up || q == [])
    && (forall i :: 0 <= i < |q| ==> UnderMark(up, mark, q[i].id) && q[i].id.ms >= UnixMilli(q[i].ts))
    && (forall i, j :: 0 <= i < j < |q| ==> Less(q[i].id, q[j].id))
  }

  ghost predicate BornInv(up: bool, mark: Watermark, born: seq<Id>) {
    && (up || born == [])
    && (forall i :: 0 <= i < |born| ==> UnderMark(up, mark, born[i]))
    && Increasing(born)
  }

  ghost predicate MarkInv(s: Sys) {
    && (s.up ==> InRange(s.mark))
    && RowsUnderMark(s.up, s.mark, s.flat)
    && QueueInv(s.up, s.mark, s.main) && QueueInv(s.up, s.mark, s.metrics) && QueueInv(s.up, s.mark, s.pings)
    && BornInv(s.up, s.mark, s.born)
  }

  ghost predicate AheadOf(q: seq<Pending>, ids: set<Id>) {
    forall i, id :: 0 <= i < |q| && id in ids ==> Less(id, q[i].id)
  }

  ghost predicate LogBelow(log: seq<Id>, q: seq<Pending>) {
    forall i, k :: 0 <= i < |log| && 0 <= k < |q| ==> Less(log[i], q[k].id)
  }

  // Waiting ids are above every id of the table they are meant for, and a
  // waiting check id is above every check logged so far.
  ghost predicate WaitingInv(s: Sys) {
    && AheadOf(s.main, s.flat.runs.Keys) && LogBelow(s.log, s.main)
    && AheadOf(s.metrics, s.flat.metrics.Keys)
    && AheadOf(s.pings, s.flat.pings.Keys)
  }

  ghost predicate LogInv(log: seq<Id>, checks: set<Id>) {
    && Increasing(log)
    && (forall id :: id in log <==> id in checks)
  }

  ghost predicate TierInv(db: Db, flat: Tier) {
    && RunBoundary(db)
    && flat == Merge(db.hot, db.cold)
  }

  ghost predicate TimeInv(t: Tier) {
    NotEarly(t.checks) && NotEarly(t.metrics) && NotEarly(t.pings)
  }

  ghost predicate Inv(s: Sys) {
    && TierInv(s.db, s.flat)
    && MarkInv(s)
    && WaitingInv(s)
    && LogInv(s.log, s.flat.checks.Keys)
    && TimeInv(s.flat)
  }

  // ---------- opening seeds from the newest id of every table ----------

  lemma CoversBelow(w: Watermark, top: Id, id: Id)
    requires Covers(w, top) && (id == top || Less(id, top))
    ensures Covers(w, id)
  {
  }

  lemma SeedCoversTable(db: Db, i: nat, id: Id)
    requires AllCanonical(db) && i < 8 && id in IdTables(db)[i]
    ensures Covers(SeedAll(Watermark(0, 0), MaxTexts(db)), id)
  {
    var texts := MaxTexts(db);
    TextsDecode(db);
    SeedAllIsMaximum(Watermark(0, 0), texts);
    var top := MaxId(IdTables(db)[i]).value;
    assert texts[i] == Some(Text(top));
    DecodeText(top);
    assert Bounds(SeedAll(Watermark(0, 0), texts), texts[i]);
    CoversBelow(SeedAll(Watermark(0, 0), texts), top, id);
  }

  lemma TextsDecode(db: Db)
    requires AllCanonical(db)
    ensures forall i :: 0 <= i < 8 ==> Decodes(MaxTexts(db)[i])
    ensures forall i, w :: 0 <= i < 8 && Carries(MaxTexts(db)[i], w) ==> InRange(w)
  {
    forall i | 0 <= i < 8
      ensures Decodes(MaxTexts(db)[i]) && forall w :: Carries(MaxTexts(db)[i], w) ==> InRange(w)
    {
      var m := MaxId(IdTables(db)[i]);
      assert MaxTexts(db)[i] == MaxText(IdTables(db)[i]);
      if m.Some? {
        DecodeText(m.value);
      }
    }
  }

  lemma OpenKeepsMark(s: Sys)
    requires Inv(s) && Enabled(s, Open)
    ensures MarkInv(Next(s, Open))
  {
    var t := Next(s, Open);
    var texts := MaxTexts(s.db);
    TextsDecode(s.db);
    SeedAllIsMaximum(Watermark(0, 0), texts);
    assert InRange(t.mark);
    forall id | id in s.flat.runs || id in s.flat.checks || id in s.flat.metrics || id in s.flat.pings
      ensures Covers(t.mark, id)
    {
      var i := FlatTable(s, id);
      SeedCoversTable(s.db, i, id);
    }
  }

  // The table an id of the untiered store is in.
  lemma FlatTable(s: Sys, id: Id) returns (i: nat)
    requires TierInv(s.db, s.flat)
    requires id in s.flat.runs || id in s.flat.checks || id in s.flat.metrics || id in s.flat.pings
    ensures i < 8 && id in IdTables(s.db)[i]
  {
    i := if id in s.db.hot.runs then 0 else if id in s.db.hot.checks then 1
         else if id in s.db.hot.metrics then 2 else if id in s.db.hot.pings then 3
         else if id in s.db.cold.runs then 4 else if id in s.db.cold.checks then 5
         else if id in s.db.cold.metrics then 6 else 7;
  }

  lemma StoredIsFlat(s: Sys, id: Id)
    requires TierInv(s.db, s.flat) && Stored(s.db, id)
    ensures id in s.flat.runs || id in s.flat.checks || id in s.flat.metrics || id in s.flat.pings
  {
    var i :| 0 <= i < 8 && id in IdTables(s.db)[i];
  }

  // ---------- minting ----------

  lemma FreshCanonical(w: Watermark, tail: seq<Byte>)
    requires InRange(w) && w.ms < MS_SPAN && |tail| == 8
    ensures Canonical(Stamp(w.ms, w.counter, RandB(tail)))
  {
    Powers();
    ValueBound(tail[1..]);
  }

  lemma RaisedKeys(mark0: Watermark, mark: Watermark, ids: set<Id>)
    requires KeysUnderMark(true, mark0, ids) && AtLeast(mark, mark0)
    ensures KeysUnderMark(true, mark, ids)
  {
  }

  lemma RaisedQueue(mark0: Watermark, mark: Watermark, q: seq<Pending>)
    requires QueueInv(true, mark0, q) && AtLeast(mark, mark0)
    ensures QueueInv(true, mark, q)
  {
  }

  lemma RaisedBorn(mark0: Watermark, mark: Watermark, born: seq<Id>)
    requires BornInv(true, mark0, born) && AtLeast(mark, mark0)
    ensures BornInv(true, mark, born)
  {
  }

  lemma RaisingKeeps(s: Sys, mark: Watermark)
    requires Inv(s) && s.up && AtLeast(mark, s.mark) && InRange(mark)
    ensures Inv(s.(mark := mark))
  {
    RaisedKeys(s.mark, mark, s.flat.runs.Keys);
    RaisedKeys(s.mark, mark, s.flat.checks.Keys);
    RaisedKeys(s.mark, mark, s.flat.metrics.Keys);
    RaisedKeys(s.mark, mark, s.flat.pings.Keys);
    RaisedQueue(s.mark, mark, s.main);
    RaisedQueue(s.mark, mark, s.metrics);
    RaisedQueue(s.mark, mark, s.pings);
    RaisedBorn(s.mark, mark, s.born);
  }

  ghost predicate AboveKeys(ids: set<Id>, id: Id) {
    forall x :: x in ids ==> Less(x, id)
  }

  ghost predicate AboveQueue(q: seq<Pending>, id: Id) {
    forall i :: 0 <= i < |q| ==> Less(q[i].id, id)
  }

  ghost predicate AboveSeq(ids: seq<Id>, id: Id) {
    forall i :: 0 <= i < |ids| ==> Less(ids[i], id)
  }

  // `id` is above everything stored, waiting or minted in this process.
  ghost predicate Newest(s: Sys, id: Id) {
    && AboveKeys(s.flat.runs.Keys, id) && AboveKeys(s.flat.checks.Keys, id)
    && AboveKeys(s.flat.metrics.Keys, id) && AboveKeys(s.flat.pings.Keys, id)
    && AboveQueue(s.main, id) && AboveQueue(s.metrics, id) && AboveQueue(s.pings, id)
    && AboveSeq(s.born, id)
  }

  lemma AboveMarkIsNewest(s: Sys, id: Id)
    requires Inv(s) && s.up && Above(Watermark(id.ms, id.counter), s.mark)
    ensures Newest(s, id)
  {
    AboveMarkedKeys(s.mark, s.flat.runs.Keys, id);
    AboveMarkedKeys(s.mark, s.flat.checks.Keys, id);
    AboveMarkedKeys(s.mark, s.flat.metrics.Keys, id);
    AboveMarkedKeys(s.mark, s.flat.pings.Keys, id);
    AboveMarkedQueue(s.mark, s.main, id);
    AboveMarkedQueue(s.mark, s.metrics, id);
    AboveMarkedQueue(s.mark, s.pings, id);
    AboveMarkedBorn(s.mark, s.born, id);
  }

  lemma AboveMarkedKeys(mark: Watermark, ids: set<Id>, id: Id)
    requires KeysUnderMark(true, mark, ids) && Above(Watermark(id.ms, id.counter), mark)
    ensures AboveKeys(ids, id)
  {
  }

  lemma AboveMarkedQueue(mark: Watermark, q: seq<Pending>, id: Id)
    requires QueueInv(true, mark, q) && Above(Watermark(id.ms, id.counter), mark)
    ensures AboveQueue(q, id)
  {
  }

  lemma AboveMarkedBorn(mark: Watermark, born: seq<Id>, id: Id)
    requires BornInv(true, mark, born) && Above(Watermark(id.ms, id.counter), mark)
    ensures AboveSeq(born, id)
  {
  }

  lemma GrownQueue(mark: Watermark, q: seq<Pending>, p: Pending)
    requires QueueInv(true, mark, q)
    requires UnderMark(true, mark, p.id) && p.id.ms >= UnixMilli(p.ts) && AboveQueue(q, p.id)
    ensures QueueInv(true, mark, q + [p])
  {
  }

  lemma GrownBorn(mark: Watermark, born: seq<Id>, id: Id)
    requires BornInv(true, mark, born) && UnderMark(true, mark, id) && AboveSeq(born, id)
    ensures BornInv(true, mark, born + [id])
  {
  }

  lemma GrownNew(q: seq<Pending>, ids: set<Id>, p: Pending)
    requires AheadOf(q, ids) && AboveKeys(ids, p.id)
    ensures AheadOf(q + [p], ids)
  {
  }

  lemma GrownLogBelow(log: seq<Id>, checks: set<Id>, q: seq<Pending>, p: Pending)
    requires LogBelow(log, q) && LogInv(log, checks) && AboveKeys(checks, p.id)
    ensures LogBelow(log, q + [p])
  {
    assert forall i :: 0 <= i < |log| ==> log[i] in checks;
  }

  lemma EnqueueKeeps(s: Sys, w: Worker, p: Pending)
    requires Inv(s) && s.up && UnderMark(true, s.mark, p.id) && p.id.ms >= UnixMilli(p.ts) && Newest(s, p.id)
    ensures Inv(WithQueue(s, w, Queue(s, w) + [p]).(born := s.born + [p.id]))
  {
    GrownBorn(s.mark, s.born, p.id);
    GrownQueue(s.mark, Queue(s, w), p);
    match w {
      case Main =>
        GrownNew(s.main, s.flat.runs.Keys, p);
        GrownLogBelow(s.log, s.flat.checks.Keys, s.main, p);
      case MetricsWorker => GrownNew(s.metrics, s.flat.metrics.Keys, p);
      case PingsWorker => GrownNew(s.pings, s.flat.pings.Keys, p);
    }
  }

  lemma MintKeeps(s: Sys, w: Worker, ts: Instant, draw: Draw, tail: Option<seq<Byte>>)
    requires Inv(s) && Enabled(s, Mint(w, ts, draw, tail))
    ensures Inv(Next(s, Mint(w, ts, draw, tail)))
  {
    AdvanceRises(s.mark, UnixMilli(ts), draw);
    var a := Advance(s.mark, UnixMilli(ts), draw);
    RaisingKeeps(s, a.mark);
    if a.minted && tail.Some? {
      var id := Stamp(a.mark.ms, a.mark.counter, RandB(tail.value));
      FreshCanonical(a.mark, tail.value);
      AboveMarkIsNewest(s, id);
      EnqueueKeeps(s.(mark := a.mark), w, Pending(id, ts));
    }
  }

  // ---------- the other steps ----------

  lemma OpenKeeps(s: Sys)
    requires Inv(s) && Enabled(s, Open)
    ensures Inv(Next(s, Open))
  {
    OpenKeepsMark(s);
  }

  lemma ShortenedQueue(up: bool, mark: Watermark, q: seq<Pending>, log: seq<Id>)
    requires q != [] && QueueInv(up, mark, q) && LogBelow(log, q)
    ensures QueueInv(up, mark, q[1..]) && LogBelow(log, q[1..])
    ensures LogBelow(log + [q[0].id], q[1..])
    ensures AheadOf(q[1..], {q[0].id})
  {
  }

  lemma ShortenedNew(q: seq<Pending>, ids: set<Id>)
    requires q != [] && AheadOf(q, ids)
    ensures AheadOf(q[1..], ids)
  {
  }

  lemma PutRunKeeps(s: Sys, mode: Mode, internetOk: Option<bool>)
    requires Inv(s) && Enabled(s, PutRun(mode, internetOk))
    ensures Inv(Next(s, PutRun(mode, internetOk)))
    ensures s.main[0].id in Next(s, PutRun(mode, internetOk)).flat.runs
  {
    var p, t := s.main[0], Next(s, PutRun(mode, internetOk));
    assert p.id !in s.flat.runs;
    ShortenedQueue(s.up, s.mark, s.main, s.log);
    ShortenedNew(s.main, s.flat.runs.Keys);
    RunTiers(s.db, s.flat, p.id, Fresh(p.ts, mode, internetOk));
    assert t.flat.runs.Keys == s.flat.runs.Keys + {p.id};
  }

  lemma RunTiers(db: Db, flat: Tier, id: Id, r: Run)
    requires TierInv(db, flat) && id !in flat.runs
    ensures TierInv(AddRun(db, id, r), flat.(runs := flat.runs[id := r]))
  {
    assert flat.runs[id := r] == db.hot.runs[id := r] + db.cold.runs;
    BoundaryOfRun(db, id, r);
  }

  lemma UpdateKeeps(s: Sys, run: Id, u: RunUpdate)
    requires Inv(s) && Enabled(s, Update(run, u))
    ensures Inv(Next(s, Update(run, u)))
  {
    UpdateTiers(s.db, s.flat, run, u);
    assert (s.flat.runs[run := Apply(s.flat.runs[run], u)]).Keys == s.flat.runs.Keys;
  }

  lemma UpdateTiers(db: Db, flat: Tier, run: Id, u: RunUpdate)
    requires TierInv(db, flat) && run in db.hot.runs
    ensures run in flat.runs
    ensures TierInv(ChangeRun(db, run, u), flat.(runs := flat.runs[run := Apply(flat.runs[run], u)]))
  {
    var r := Apply(db.hot.runs[run], u);
    assert flat.runs[run := r] == db.hot.runs[run := r] + db.cold.runs;
    BoundaryOfRun(db, run, r);
  }

  lemma BoundaryOfRun(db: Db, run: Id, r: Run)
    requires RunBoundary(db) && run !in db.cold.runs
    ensures RunBoundary(AddRun(db, run, r))
  {
  }

  lemma NotLogged(log: seq<Id>, checks: set<Id>, q: seq<Pending>)
    requires LogInv(log, checks) && q != [] && LogBelow(log, q)
    ensures q[0].id !in checks
  {
    assert forall i :: 0 <= i < |log| ==> Less(log[i], q[0].id);
  }

  lemma GrownLog(log: seq<Id>, checks: set<Id>, q: seq<Pending>)
    requires LogInv(log, checks) && q != [] && LogBelow(log, q)
    ensures LogInv(log + [q[0].id], checks + {q[0].id})
  {
    assert forall i :: 0 <= i < |log| ==> Less(log[i], q[0].id);
  }

  lemma PutCheckKeeps(s: Sys, run: Id, body: CheckBody)
    requires Inv(s) && Enabled(s, PutCheck(run, body))
    ensures Inv(Next(s, PutCheck(run, body)))
    ensures s.main[0].id in Next(s, PutCheck(run, body)).flat.checks
  {
    var p, t := s.main[0], Next(s, PutCheck(run, body));
    NotLogged(s.log, s.flat.checks.Keys, s.main);
    GrownLog(s.log, s.flat.checks.Keys, s.main);
    ShortenedQueue(s.up, s.mark, s.main, s.log);
    ShortenedNew(s.main, s.flat.runs.Keys);
    CheckTiers(s.db, s.flat, p.id, Child(run, p.ts, body));
    assert t.flat.checks.Keys == s.flat.checks.Keys + {p.id};
  }

  lemma BoundaryOfCheck(db: Db, id: Id, c: Child<CheckBody>)
    requires RunBoundary(db) && id !in db.cold.checks && c.run in db.hot.runs
    ensures RunBoundary(AddCheck(db, id, c))
  {
  }

  lemma CheckTiers(db: Db, flat: Tier, id: Id, c: Child<CheckBody>)
    requires TierInv(db, flat) && id !in flat.checks && c.run in db.hot.runs
    ensures TierInv(AddCheck(db, id, c), flat.(checks := flat.checks[id := c]))
  {
    assert flat.checks[id := c] == db.hot.checks[id := c] + db.cold.checks;
    BoundaryOfCheck(db, id, c);
  }

  // ---------- batches of rows ----------

  lemma {:induction false} InsertUnion<T>(
      hot: map<Id, Child<T>>, cold: map<Id, Child<T>>, run: Id, ts: Instant, samples: seq<T>, ids: seq<Option<Id>>, n: nat)
    requires n <= |ids| == |samples| && hot.Keys !! cold.Keys && Storable(ids, n, (hot + cold).Keys)
    ensures var r := InsertUpTo(hot, run, ts, samples, ids, n);
      && r.Some? && r.value.Keys !! cold.Keys
      && InsertUpTo(hot + cold, run, ts, samples, ids, n) == Some(r.value + cold)
  {
    if n == 0 {
    } else {
      InsertUnion(hot, cold, run, ts, samples, ids, n - 1);
      InsertMeaning(hot + cold, run, ts, samples, ids, n);
      var r := InsertUpTo(hot, run, ts, samples, ids, n - 1).value;
      var id := ids[n - 1].value;
      assert id !in r + cold;
      assert (r + cold)[id := Child(run, ts, samples[n - 1])] == r[id := Child(run, ts, samples[n - 1])] + cold;
    }
  }

  lemma QueueStorable(up: bool, mark: Watermark, q: seq<Pending>, taken: set<Id>)
    requires QueueInv(up, mark, q) && AheadOf(q, taken)
    ensures Storable(Ids(q), |q|, taken)
  {
    assert forall i, j :: 0 <= i < j < |q| ==> Less(q[i].id, q[j].id);
  }

  lemma BatchKeeps<T>(
      up: bool, mark: Watermark, q: seq<Pending>, runs: map<Id, Run>, hot: map<Id, Child<T>>, cold: map<Id, Child<T>>,
      run: Id, ts: Instant, samples: seq<T>)
    requires |q| == |samples| && QueueInv(up, mark, q) && StampedAt(q, ts) && run in runs
    requires hot.Keys !! cold.Keys && AheadOf(q, (hot + cold).Keys)
    requires ChildrenOf(hot, runs) && NotEarly(hot + cold) && KeysUnderMark(up, mark, (hot + cold).Keys)
    ensures var h := InsertAll(hot, run, ts, samples, Ids(q));
      && h.Some? && h.value.Keys !! cold.Keys && ChildrenOf(h.value, runs)
      && InsertAll(hot + cold, run, ts, samples, Ids(q)) == Some(h.value + cold)
      && NotEarly(h.value + cold) && KeysUnderMark(up, mark, (h.value + cold).Keys)
  {
    var ids := Ids(q);
    QueueStorable(up, mark, q, (hot + cold).Keys);
    InsertUnion(hot, cold, run, ts, samples, ids, |ids|);
    InsertMeaning(hot + cold, run, ts, samples, ids, |ids|);
    InsertMeaning(hot, run, ts, samples, ids, |ids|);
    var h := InsertAll(hot, run, ts, samples, ids).value;
    BatchRows(up, mark, q, hot + cold, h + cold, run, ts, samples);
    forall k | k in h
      ensures h[k].run in runs
    {
      if k !in hot {
        var i :| 0 <= i < |ids| && ids[i] == Some(k);
      }
    }
  }

  lemma BatchRows<T>(
      up: bool, mark: Watermark, q: seq<Pending>, before: map<Id, Child<T>>, after: map<Id, Child<T>>,
      run: Id, ts: Instant, samples: seq<T>)
    requires |q| == |samples| && QueueInv(up, mark, q) && StampedAt(q, ts)
    requires NotEarly(before) && KeysUnderMark(up, mark, before.Keys)
    requires forall k :: k in before ==> k in after && after[k] == before[k]
    requires forall i :: 0 <= i < |q| ==> Ids(q)[i].value in after && after[Ids(q)[i].value] == Child(run, ts, samples[i])
    requires forall k :: k in after ==> k in before || exists i :: 0 <= i < |q| && Ids(q)[i] == Some(k)
    ensures NotEarly(after) && KeysUnderMark(up, mark, after.Keys)
  {
    forall k | k in after
      ensures k.ms >= UnixMilli(after[k].ts) && UnderMark(up, mark, k)
    {
      if k !in before {
        var i :| 0 <= i < |q| && Ids(q)[i] == Some(k);
        assert q[i].id == k && q[i].ts == ts;
      }
    }
  }

  lemma PutMetricsKeeps(s: Sys, run: Id, ts: Instant, host: HostBody, samples: seq<MetricBody>)
    requires Inv(s) && Enabled(s, PutMetrics(run, ts, host, samples))
    ensures Inv(Next(s, PutMetrics(run, ts, host, samples)))
  {
    BatchKeeps(s.up, s.mark, s.metrics, s.db.hot.runs, s.db.hot.metrics, s.db.cold.metrics, run, ts, samples);
    var h := Child(run, ts, host);
    HostTiers(s.db, s.flat, h);
    var metrics := InsertAll(s.db.hot.metrics, run, ts, samples, Ids(s.metrics)).value;
    MetricTiers(s.db, s.flat, h, metrics);
    assert MarkInv(Next(s, PutMetrics(run, ts, host, samples)));
  }

  lemma MetricTiers(db: Db, flat: Tier, h: Child<HostBody>, metrics: map<Id, Child<MetricBody>>)
    requires TierInv(db, flat) && h.run in db.hot.runs
    requires ChildrenOf(metrics, db.hot.runs) && metrics.Keys !! db.cold.metrics.Keys
    ensures TierInv(AddMetrics(db, h, metrics), flat.(hosts := flat.hosts[h.run := h], metrics := metrics + db.cold.metrics))
  {
    HostTiers(db, flat, h);
  }

  lemma HostTiers(db: Db, flat: Tier, h: Child<HostBody>)
    requires TierInv(db, flat) && h.run in db.hot.runs
    ensures flat.hosts[h.run := h] == db.hot.hosts[h.run := h] + db.cold.hosts
  {
  }

  lemma PutPingsKeeps(s: Sys, run: Id, ts: Instant, results: seq<PingBody>)
    requires Inv(s) && Enabled(s, PutPings(run, ts, results))
    ensures Inv(Next(s, PutPings(run, ts, results)))
  {
    BatchKeeps(s.up, s.mark, s.pings, s.db.hot.runs, s.db.hot.pings, s.db.cold.pings, run, ts, results);
  }

  // ---------- maintenance ----------

  lemma RolloverKeeps(s: Sys, cutoff: int)
    requires Inv(s) && Enabled(s, Rollover(cutoff))
    ensures Inv(Next(s, Rollover(cutoff)))
    ensures Next(s, Rollover(cutoff)).db == Partition(s.db, cutoff)
  {
    RolloverIsPartition(s.db, cutoff);
    MaintenanceKeepsBoundary(s.db, cutoff);
    RolloverConserves(s.db, cutoff);
  }

  lemma {:induction false} RemainingLog(log: seq<Id>, checks: map<Id, Child<CheckBody>>, gone: set<Id>)
    requires Increasing(log) && forall i :: 0 <= i < |log| ==> log[i] in checks
    ensures Increasing(Remaining(log, checks, gone))
    ensures forall id :: id in Remaining(log, checks, gone) <==> id in log && checks[id].run !in gone
  {
    if log == [] {
    } else {
      var init, id := log[..|log| - 1], log[|log| - 1];
      assert log == init + [id];
      RemainingLog(init, checks, gone);
      var rest := Remaining(init, checks, gone);
      forall i | 0 <= i < |rest|
        ensures Less(rest[i], id)
      {
        assert rest[i] in init;
        var j :| 0 <= j < |init| && init[j] == rest[i];
        assert Less(log[j], log[|log| - 1]);
      }
    }
  }

  lemma FewerRows(up: bool, mark: Watermark, t: Tier, gone: set<Id>)
    requires RowsUnderMark(up, mark, t) && TimeInv(t)
    ensures RowsUnderMark(up, mark, Without(t, gone)) && TimeInv(Without(t, gone))
  {
  }

  lemma FewerAhead(q: seq<Pending>, ids: set<Id>, fewer: set<Id>)
    requires AheadOf(q, ids) && fewer <= ids
    ensures AheadOf(q, fewer)
  {
  }

  lemma FewerLogged(log: seq<Id>, fewer: seq<Id>, q: seq<Pending>)
    requires LogBelow(log, q) && forall i :: 0 <= i < |fewer| ==> fewer[i] in log
    ensures LogBelow(fewer, q)
  {
    forall i, k | 0 <= i < |fewer| && 0 <= k < |q|
      ensures Less(fewer[i], q[k].id)
    {
      assert fewer[i] in log;
    }
  }

  lemma FewerWaiting(s: Sys, flat: Tier, log: seq<Id>)
    requires WaitingInv(s)
    requires flat.runs.Keys <= s.flat.runs.Keys && flat.metrics.Keys <= s.flat.metrics.Keys && flat.pings.Keys <= s.flat.pings.Keys
    requires forall i :: 0 <= i < |log| ==> log[i] in s.log
    ensures WaitingInv(s.(flat := flat, log := log))
  {
    FewerAhead(s.main, s.flat.runs.Keys, flat.runs.Keys);
    FewerAhead(s.metrics, s.flat.metrics.Keys, flat.metrics.Keys);
    FewerAhead(s.pings, s.flat.pings.Keys, flat.pings.Keys);
    FewerLogged(s.log, log, s.main);
  }

  lemma RemainingIsLog(s: Sys, gone: set<Id>)
    requires LogInv(s.log, s.flat.checks.Keys)
    ensures LogInv(Remaining(s.log, s.flat.checks, gone), Without(s.flat, gone).checks.Keys)
    ensures forall i :: 0 <= i < |Remaining(s.log, s.flat.checks, gone)| ==> Remaining(s.log, s.flat.checks, gone)[i] in s.log
  {
    RemainingLog(s.log, s.flat.checks, gone);
  }

  lemma PrunedTiers(db: Db, flat: Tier, cutoff: int)
    requires TierInv(db, flat)
    ensures TierInv(Forget(db, cutoff), Without(flat, Aged(db.cold.runs, cutoff)))
  {
    MaintenanceKeepsBoundary(db, cutoff);
    ForgetFlat(db, flat, cutoff);
  }

  function Pruned(s: Sys, cutoff: int): Sys {
    var gone := Aged(s.db.cold.runs, cutoff);
    s.(db := Forget(s.db, cutoff), flat := Without(s.flat, gone), log := Remaining(s.log, s.flat.checks, gone))
  }

  lemma PrunedKeeps(s: Sys, cutoff: int)
    requires Inv(s)
    ensures Inv(Pruned(s, cutoff))
  {
    var gone := Aged(s.db.cold.runs, cutoff);
    PrunedTiers(s.db, s.flat, cutoff);
    RemainingIsLog(s, gone);
    FewerRows(s.up, s.mark, s.flat, gone);
    FewerWaiting(s, Without(s.flat, gone), Remaining(s.log, s.flat.checks, gone));
  }

  lemma PruneKeeps(s: Sys, cutoff: int)
    requires Inv(s) && Enabled(s, Prune(cutoff))
    ensures Inv(Next(s, Prune(cutoff)))
    ensures Next(s, Prune(cutoff)).db == Forget(s.db, cutoff)
  {
    PruneIsForget(s.db, cutoff);
    PrunedKeeps(s, cutoff);
    assert Next(s, Prune(cutoff)) == Pruned(s, cutoff);
  }

  lemma ForgetFlat(db: Db, flat: Tier, cutoff: int)
    requires TierInv(db, flat)
    ensures var d := Forget(db, cutoff);
      Without(flat, Aged(db.cold.runs, cutoff)) == Merge(d.hot, d.cold)
  {
    var gone := Aged(db.cold.runs, cutoff);
    assert gone !! db.hot.runs.Keys;
    RowsWithout(db.hot.checks, db.cold.checks, gone, db.hot.runs);
    RowsWithout(db.hot.metrics, db.cold.metrics, gone, db.hot.runs);
    RowsWithout(db.hot.pings, db.cold.pings, gone, db.hot.runs);
    RowsWithout(db.hot.hosts, db.cold.hosts, gone, db.hot.runs);
    assert (db.hot.runs + db.cold.runs) - gone == db.hot.runs + (db.cold.runs - gone);
  }

  lemma RowsWithout<T>(hot: map<Id, Child<T>>, cold: map<Id, Child<T>>, gone: set<Id>, runs: map<Id, Run>)
    requires hot.Keys !! cold.Keys && ChildrenOf(hot, runs) && gone !! runs.Keys
    ensures Others(hot + cold, gone) == hot + Others(cold, gone)
  {
  }

  // ---------- every reachable state ----------

  lemma StepKeeps(s: Sys, step: Step)
    requires Inv(s) && Enabled(s, step)
    ensures Inv(Next(s, step))
  {
    match step {
      case Open => OpenKeeps(s);
      case Crash =>
      case Mint(w, ts, draw, tail) => MintKeeps(s, w, ts, draw, tail);
      case Discard(w) => DiscardKeeps(s, w);
      case PutRun(mode, internetOk) => PutRunKeeps(s, mode, internetOk);
      case Update(run, u) => UpdateKeeps(s, run, u);
      case PutCheck(run, body) => PutCheckKeeps(s, run, body);
      case PutMetrics(run, ts, host, samples) => PutMetricsKeeps(s, run, ts, host, samples);
      case PutPings(run, ts, results) => PutPingsKeeps(s, run, ts, results);
      case Rollover(cutoff) => RolloverKeeps(s, cutoff);
      case Prune(cutoff) => PruneKeeps(s, cutoff);
    }
  }

  lemma DiscardKeeps(s: Sys, w: Worker)
    requires Inv(s)
    ensures Inv(WithQueue(s, w, []))
  {
  }

  lemma {:induction false} HistoryKeeps(states: seq<Sys>, steps: seq<Step>, i: nat)
    requires IsHistory(states, steps) && i < |states|
    ensures Inv(states[i])
  {
    if i == 0 {
    } else {
      HistoryKeeps(states, steps, i - 1);
      StepKeeps(states[i - 1], steps[i - 1]);
    }
  }

  // A minted id sorts, as a field triple and as text, above every id then in
  // any of the eight tables and every id minted earlier in its process.
  lemma MintedIdSortsLast(states: seq<Sys>, steps: seq<Step>, i: nat)
    requires IsHistory(states, steps) && i < |steps| && steps[i].Mint?
    requires states[i + 1].born != states[i].born
    ensures states[i + 1].born == states[i].born + [states[i + 1].born[|states[i].born|]]
    ensures var id := states[i + 1].born[|states[i].born|];
      && Canonical(id)
      && (forall x :: Stored(states[i].db, x) ==> Canonical(x) && Less(x, id) && Before(Text(x), Text(id)))
      && (forall x :: x in states[i].born ==> Canonical(x) && Less(x, id) && Before(Text(x), Text(id)))
  {
    var s := states[i];
    var Mint(w, ts, draw, tail) := steps[i];
    HistoryKeeps(states, steps, i);
    HistoryKeeps(states, steps, i + 1);
    AdvanceRises(s.mark, UnixMilli(ts), draw);
    var id := states[i + 1].born[|s.born|];
    assert UnderMark(true, states[i + 1].mark, id);
    AboveMarkIsNewest(s, id);
    forall x | Stored(s.db, x)
      ensures Canonical(x) && Less(x, id) && Before(Text(x), Text(id))
    {
      StoredIsFlat(s, x);
      TextOrder(x, id);
    }
    forall x | x in s.born
      ensures Canonical(x) && Less(x, id) && Before(Text(x), Text(id))
    {
      TextOrder(x, id);
    }
  }

  // ---------- the tiers answer as one store ----------

  // The untiered store's checks of one run, in insertion order.
  function Journal(log: seq<Id>, checks: map<Id, Child<CheckBody>>, run: Id): seq<CheckRow> {
    if log == [] then []
    else
      var rest := Journal(log[..|log| - 1], checks, run);
      var id := log[|log| - 1];
      if id in checks && checks[id].run == run then rest + [(id, checks[id])] else rest
  }

  ghost predicate StrictlyById(rows: seq<CheckRow>) {
    forall i, j :: 0 <= i < j < |rows| ==> Less(rows[i].0, rows[j].0)
  }

  lemma {:induction false} JournalRows(log: seq<Id>, checks: map<Id, Child<CheckBody>>, run: Id)
    requires Increasing(log)
    ensures StrictlyById(Journal(log, checks, run))
    ensures forall x :: x in Journal(log, checks, run) <==>
      x.0 in log && x.0 in checks && checks[x.0] == x.1 && x.1.run == run
  {
    if log == [] {
    } else {
      var init, id := log[..|log| - 1], log[|log| - 1];
      assert log == init + [id];
      JournalRows(init, checks, run);
      var rest := Journal(init, checks, run);
      forall i | 0 <= i < |rest|
        ensures Less(rest[i].0, id)
      {
        assert rest[i] in rest;
        assert rest[i].0 in init;
        var j :| 0 <= j < |init| && init[j] == rest[i].0;
        assert Less(log[j], log[|log| - 1]);
      }
    }
  }

  lemma {:induction false} StrictHasNoDoubles(rows: seq<CheckRow>, x: CheckRow)
    requires StrictlyById(rows)
    ensures multiset(rows)[x] == if x in rows then 1 else 0
  {
    if rows == [] {
    } else {
      var init, last := rows[..|rows| - 1], rows[|rows| - 1];
      assert rows == init + [last];
      StrictHasNoDoubles(init, x);
      assert last !in init;
    }
  }

  lemma HeadsAgree(a: seq<CheckRow>, b: seq<CheckRow>)
    requires InIdOrder(a) && StrictlyById(b) && b != [] && multiset(a) == multiset(b)
    ensures a != [] && a[0] == b[0]
  {
    assert b[0] in multiset(a);
    var i :| 0 <= i < |a| && a[i] == b[0];
    assert a[0] in multiset(b);
    var j :| 0 <= j < |b| && b[j] == a[0];
    assert j > 0 ==> Less(b[0].0, b[j].0);
    assert i > 0 ==> !Less(a[i].0, a[0].0);
  }

  lemma TailOf(a: seq<CheckRow>)
    requires a != []
    ensures multiset(a[1..]) == multiset(a) - multiset{a[0]}
  {
    assert a == [a[0]] + a[1..];
  }

  // A list sorted by id with the same rows as a strictly sorted one is it.
  lemma {:induction false} SortedIsUnique(a: seq<CheckRow>, b: seq<CheckRow>)
    requires InIdOrder(a) && StrictlyById(b) && multiset(a) == multiset(b)
    ensures a == b
  {
    if b == [] {
      assert |multiset(a)| == 0;
    } else {
      HeadsAgree(a, b);
      TailOf(a);
      TailOf(b);
      SortedIsUnique(a[1..], b[1..]);
      assert a == [a[0]] + a[1..] && b == [b[0]] + b[1..];
    }
  }

  // RunByID answers as the untiered store; ListChecksByRun returns exactly the
  // run's checks, once each, in insertion order, whatever order the engine
  // visits the two legs in.
  lemma TiersAnswerAsOne(states: seq<Sys>, steps: seq<Step>, i: nat, id: Id, out: seq<CheckRow>)
    requires IsHistory(states, steps) && i < |states|
    ensures var s := states[i];
      && RunById(s.db, id) == (if id in s.flat.runs then Some(s.flat.runs[id]) else None)
      && !(id in s.db.hot.runs && id in s.db.cold.runs)
      && (IsChecksByRun(s.db, id, out) <==> out == Journal(s.log, s.flat.checks, id))
  {
    HistoryKeeps(states, steps, i);
    var s := states[i];
    RunAnswer(s.db, s.flat, id);
    ChecksAnswer(s.db, s.flat, s.log, id, out);
  }

  lemma RunAnswer(db: Db, flat: Tier, id: Id)
    requires TierInv(db, flat)
    ensures RunById(db, id) == (if id in flat.runs then Some(flat.runs[id]) else None)
    ensures !(id in db.hot.runs && id in db.cold.runs)
  {
  }

  lemma ChecksAnswer(db: Db, flat: Tier, log: seq<Id>, run: Id, out: seq<CheckRow>)
    requires TierInv(db, flat) && LogInv(log, flat.checks.Keys)
    ensures IsChecksByRun(db, run, out) <==> out == Journal(log, flat.checks, run)
  {
    JournalRows(log, flat.checks, run);
    JournalIsUnion(db, flat, log, run);
    if IsChecksByRun(db, run, out) {
      SortedIsUnique(out, Journal(log, flat.checks, run));
    }
  }

  lemma JournalIsUnion(db: Db, flat: Tier, log: seq<Id>, run: Id)
    requires TierInv(db, flat) && LogInv(log, flat.checks.Keys)
    ensures multiset(Journal(log, flat.checks, run)) ==
      multiset(OfRuns(db.hot.checks, {run}).Items) + multiset(OfRuns(db.cold.checks, {run}).Items)
  {
    var journal := Journal(log, flat.checks, run);
    var hot, cold := OfRuns(db.hot.checks, {run}), OfRuns(db.cold.checks, {run});
    JournalRows(log, flat.checks, run);
    forall x: CheckRow | true
      ensures multiset(journal)[x] == multiset(hot.Items)[x] + multiset(cold.Items)[x]
    {
      StrictHasNoDoubles(journal, x);
      assert x in hot.Items <==> x.0 in hot && hot[x.0] == x.1;
      assert x in cold.Items <==> x.0 in cold && cold[x.0] == x.1;
    }
  }

  // The table gained exactly the waiting ids, each with its own row.
  ghost predicate Landed<T>(q: seq<Pending>, before: map<Id, Child<T>>, after: map<Id, Child<T>>, run: Id, ts: Instant, samples: seq<T>) {
    && |q| == |samples|
    && (forall k :: k in before ==> k in after && after[k] == before[k])
    && (forall i :: 0 <= i < |q| ==> q[i].id !in before && q[i].id in after && after[q[i].id] == Child(run, ts, samples[i]))
    && (forall k :: k in after ==> k in before || exists i :: 0 <= i < |q| && q[i].id == k)
  }

  lemma BatchLands<T>(
      up: bool, mark: Watermark, q: seq<Pending>, runs: map<Id, Run>, hot: map<Id, Child<T>>, cold: map<Id, Child<T>>,
      run: Id, ts: Instant, samples: seq<T>)
    requires |q| == |samples| && QueueInv(up, mark, q) && StampedAt(q, ts) && run in runs
    requires hot.Keys !! cold.Keys && AheadOf(q, (hot + cold).Keys)
    ensures var h := InsertAll(hot, run, ts, samples, Ids(q));
      h.Some? && Landed(q, hot, h.value, run, ts, samples)
  {
    QueueStorable(up, mark, q, (hot + cold).Keys);
    InsertMeaning(hot, run, ts, samples, Ids(q), |q|);
    forall i | 0 <= i < |q|
      ensures q[i].id !in hot
    {
      assert Ids(q)[i] == Some(q[i].id);
    }
    var h := InsertAll(hot, run, ts, samples, Ids(q)).value;
    forall k | k in h && k !in hot
      ensures exists i :: 0 <= i < |q| && q[i].id == k
    {
      var i :| 0 <= i < |q| && Ids(q)[i] == Some(k);
      assert q[i].id == k;
    }
    forall i | 0 <= i < |q|
      ensures q[i].id in h && h[q[i].id] == Child(run, ts, samples[i])
    {
      assert Ids(q)[i].value in h;
    }
  }

  // The row of a run that has done nothing yet.
  predicate IsNewRun(r: Run, startedAt: Instant, mode: Mode, internetOk: Option<bool>) {
    r == Run(WholeSeconds(startedAt), mode, internetOk, Nothing, None, None, None, None, None, None, None)
  }

  lemma RunLands(s: Sys, mode: Mode, internetOk: Option<bool>)
    requires Inv(s) && Enabled(s, PutRun(mode, internetOk))
    ensures var t, id := Next(s, PutRun(mode, internetOk)), s.main[0].id;
      && id !in s.flat.runs && id in t.db.hot.runs
      && IsNewRun(t.db.hot.runs[id], s.main[0].ts, mode, internetOk)
      && t.db == s.db.(hot := s.db.hot.(runs := s.db.hot.runs[id := t.db.hot.runs[id]])) && t.main == s.main[1..]
  {
    PutRunKeeps(s, mode, internetOk);
  }

  lemma UpdateLands(s: Sys, run: Id, u: RunUpdate)
    requires Inv(s) && Enabled(s, Update(run, u))
    ensures var t := Next(s, Update(run, u));
      && run in t.db.hot.runs && Sets(u, s.db.hot.runs[run], t.db.hot.runs[run])
      && t.db == s.db.(hot := s.db.hot.(runs := s.db.hot.runs[run := t.db.hot.runs[run]]))
  {
  }

  lemma CheckLands(s: Sys, run: Id, body: CheckBody)
    requires Inv(s) && Enabled(s, PutCheck(run, body))
    ensures var t, id := Next(s, PutCheck(run, body)), s.main[0].id;
      && id !in s.flat.checks && t.log == s.log + [id] && t.main == s.main[1..]
      && t.db == s.db.(hot := s.db.hot.(checks := s.db.hot.checks[id := Child(run, s.main[0].ts, body)]))
  {
    NotLogged(s.log, s.flat.checks.Keys, s.main);
  }

  // What a mint adds: the new mark whatever else fails, and an id exactly when
  // the counter had room in its millisecond or a seed was drawn, and the
  // random tail was read.
  lemma MintAdds(s: Sys, w: Worker, ts: Instant, draw: Draw, tail: Option<seq<Byte>>)
    requires Inv(s) && Enabled(s, Mint(w, ts, draw, tail))
    ensures var t := Next(s, Mint(w, ts, draw, tail));
      && t.db == s.db && t.flat == s.flat && t.log == s.log && t.up
      && t.mark.ms == Later(s.mark.ms, UnixMilli(ts)) + (if UsesUp(s.mark, UnixMilli(ts)) then 1 else 0)
      && (if tail.Some? && ((UnixMilli(ts) <= s.mark.ms && s.mark.counter < MAX_COUNTER) || draw.Some?) then
            var id := Stamp(t.mark.ms, t.mark.counter, RandB(tail.value));
            && t.born == s.born + [id] && Queue(t, w) == Queue(s, w) + [Pending(id, ts)]
            && forall v :: v != w ==> Queue(t, v) == Queue(s, v)
          else t.born == s.born && forall v :: Queue(t, v) == Queue(s, v))
  {
    AdvanceRises(s.mark, UnixMilli(ts), draw);
  }

  lemma MetricsLand(s: Sys, run: Id, ts: Instant, host: HostBody, samples: seq<MetricBody>)
    requires Inv(s) && Enabled(s, PutMetrics(run, ts, host, samples))
    ensures var hot := Next(s, PutMetrics(run, ts, host, samples)).db.hot;
      hot.hosts == s.db.hot.hosts[run := Child(run, ts, host)] && Landed(s.metrics, s.db.hot.metrics, hot.metrics, run, ts, samples)
  {
    BatchLands(s.up, s.mark, s.metrics, s.db.hot.runs, s.db.hot.metrics, s.db.cold.metrics, run, ts, samples);
  }

  lemma PingsLand(s: Sys, run: Id, ts: Instant, results: seq<PingBody>)
    requires Inv(s) && Enabled(s, PutPings(run, ts, results))
    ensures Landed(s.pings, s.db.hot.pings, Next(s, PutPings(run, ts, results)).db.hot.pings, run, ts, results)
  {
    BatchLands(s.up, s.mark, s.pings, s.db.hot.runs, s.db.hot.pings, s.db.cold.pings, run, ts, results);
  }

  lemma RolloverLands(s: Sys, cutoff: int)
    requires Inv(s) && Enabled(s, Rollover(cutoff))
    ensures RolledOver(s.db, Next(s, Rollover(cutoff)).db, cutoff)
  {
    RolloverIsPartition(s.db, cutoff);
    RolloverGoesByAge(s.db, cutoff);
  }

  lemma PruneLands(s: Sys, cutoff: int)
    requires Inv(s) && Enabled(s, Prune(cutoff))
    ensures PrunedBefore(s.db, Next(s, Prune(cutoff)).db, cutoff)
  {
    PruneIsForget(s.db, cutoff);
    PruneGoesByAge(s.db, cutoff);
  }

  // What each step must leave in the tables.
  ghost predicate Lands(s: Sys, step: Step, t: Sys)
    requires Enabled(s, step)
  {
    match step
    case PutRun(mode, internetOk) =>
      var before, after, p := s.db.hot.runs, t.db.hot.runs, s.main[0];
      && p.id !in s.flat.runs && p.id in after && after == before[p.id := after[p.id]]
      && IsNewRun(after[p.id], p.ts, mode, internetOk) && t.main == s.main[1..]
    case Update(run, u) =>
      var before, after := s.db.hot.runs, t.db.hot.runs;
      run in after && after == before[run := after[run]] && Sets(u, before[run], after[run])
    case PutCheck(run, body) =>
      var p := s.main[0];
      && p.id !in s.flat.checks && t.log == s.log + [p.id] && t.main == s.main[1..]
      && t.db.hot.checks == s.db.hot.checks[p.id := Child(run, p.ts, body)]
    case PutMetrics(run, ts, host, samples) =>
      && t.db.hot.hosts == s.db.hot.hosts[run := Child(run, ts, host)]
      && Landed(s.metrics, s.db.hot.metrics, t.db.hot.metrics, run, ts, samples) && t.metrics == []
    case PutPings(run, ts, results) => Landed(s.pings, s.db.hot.pings, t.db.hot.pings, run, ts, results) && t.pings == []
    case Rollover(cutoff) => RolledOver(s.db, t.db, cutoff)
    case Prune(cutoff) => PrunedBefore(s.db, t.db, cutoff)
    case Open => t.db == s.db && t.up && t.born == [] && t.main == [] && t.metrics == [] && t.pings == []
    case Crash => t.db == s.db && !t.up
    case Discard(w) => t.db == s.db && Queue(t, w) == [] && forall v :: v != w ==> Queue(t, v) == Queue(s, v)
    case Mint(_, _, _, _) => t.db == s.db
  }

  lemma StepLands(s: Sys, step: Step)
    requires Inv(s) && Enabled(s, step)
    ensures Lands(s, step, Next(s, step))
  {
    match step
    case PutRun(mode, internetOk) => RunLands(s, mode, internetOk);
    case Update(run, u) => UpdateLands(s, run, u);
    case PutCheck(run, body) => CheckLands(s, run, body);
    case PutMetrics(run, ts, host, samples) => MetricsLand(s, run, ts, host, samples);
    case PutPings(run, ts, results) => PingsLand(s, run, ts, results);
    case Rollover(cutoff) => RolloverLands(s, cutoff);
    case Prune(cutoff) => PruneLands(s, cutoff);
    case _ => QuietStepLands(s, step);
  }

  lemma QuietStepLands(s: Sys, step: Step)
    requires Enabled(s, step) && (step.Open? || step.Crash? || step.Discard? || step.Mint?)
    ensures Lands(s, step, Next(s, step))
  {
  }

  // Every write of a history lands: a minted id never meets a taken key.
  lemma WritesLand(states: seq<Sys>, steps: seq<Step>, i: nat)
    requires IsHistory(states, steps) && i < |steps|
    ensures Lands(states[i], steps[i], states[i + 1])
  {
    HistoryKeeps(states, steps, i);
    StepLands(states[i], steps[i]);
  }

  // Runs reach the table in id order: a new run's id is above every run in
  // either tier.
  lemma RunsAreStoredInOrder(states: seq<Sys>, steps: seq<Step>, i: nat, id: Id)
    requires IsHistory(states, steps) && i < |steps| && steps[i].PutRun?
    requires id in states[i].db.hot.runs || id in states[i].db.cold.runs
    ensures Less(id, states[i].main[0].id)
  {
    HistoryKeeps(states, steps, i);
    assert id in states[i].flat.runs;
  }

  function All(db: Db): Tier {
    Merge(db.hot, db.cold)
  }

  // A prune leaves exactly what one store with a retention cutoff would, runs
  // and children alike, just when no hot run is past the cutoff.
  lemma PruneIsRetention(db: Db, cutoff: int)
    requires RunBoundary(db)
    ensures All(Forget(db, cutoff)) == Without(All(db), Aged(All(db).runs, cutoff)) <==> Aged(db.hot.runs, cutoff) == {}
  {
    if Aged(db.hot.runs, cutoff) == {} {
      OnlyColdExpire(db, cutoff);
    } else {
      HotRunOutlives(db, cutoff);
    }
  }

  lemma AgedOfAll(db: Db, cutoff: int)
    requires RunBoundary(db)
    ensures Aged(All(db).runs, cutoff) == Aged(db.hot.runs, cutoff) + Aged(db.cold.runs, cutoff)
  {
    assert All(db).runs == db.hot.runs + db.cold.runs;
  }

  lemma OnlyColdExpire(db: Db, cutoff: int)
    requires RunBoundary(db) && Aged(db.hot.runs, cutoff) == {}
    ensures All(Forget(db, cutoff)) == Without(All(db), Aged(All(db).runs, cutoff))
  {
    AgedOfAll(db, cutoff);
    var cold := Aged(db.cold.runs, cutoff);
    assert Aged(All(db).runs, cutoff) == cold by {
      assert {} + cold == cold;
    }
    ForgetFlat(db, All(db), cutoff);
  }

  lemma HotRunOutlives(db: Db, cutoff: int)
    requires RunBoundary(db) && Aged(db.hot.runs, cutoff) != {}
    ensures All(Forget(db, cutoff)) != Without(All(db), Aged(All(db).runs, cutoff))
  {
    var id :| id in Aged(db.hot.runs, cutoff);
    assert id in All(Forget(db, cutoff)).runs;
    assert All(db).runs[id] == db.hot.runs[id];
  }

  // After the rollover of the same startup no hot run is past the retention
  // cutoff, whatever the store held, exactly when the hot window is no longer
  // than the retention.
  lemma RolloverClearsWindow(now: Instant, hotWindowDays: int, retentionDays: int)
    ensures (forall db :: RunBoundary(db) ==>
               Aged(Partition(db, DaysBefore(now, hotWindowDays)).hot.runs, DaysBefore(now, retentionDays)) == {})
       <==> hotWindowDays <= retentionDays
  {
    var h, r := DaysBefore(now, hotWindowDays), DaysBefore(now, retentionDays);
    if hotWindowDays <= retentionDays {
      MillisFollowInstants(now - retentionDays * 86400 * SECOND, now - hotWindowDays * 86400 * SECOND);
    } else {
      DaysApart(now, retentionDays, hotWindowDays);
      var db := OneRun(h);
      assert Stamp(0, 0, 0) in Aged(Partition(db, h).hot.runs, r);
      assert RunBoundary(db);
    }
  }

  lemma DaysApart(now: Instant, fewer: int, more: int)
    requires fewer < more
    ensures DaysBefore(now, more) < DaysBefore(now, fewer)
  {
    assert now - fewer * 86400 * SECOND >= now - more * 86400 * SECOND + SECOND;
  }

  // A store that holds one run, started at a stored second.
  function OneRun(startedAt: int): Db {
    Db(EMPTY.(runs := map[Stamp(0, 0, 0) := Fresh(Parsed(startedAt), Soft, None)]), EMPTY)
  }

  // The startup maintenance, which takes one clock reading for both calls, is
  // plain retention for every store exactly under that condition.
  lemma MaintenanceIsRetention(now: Instant, hotWindowDays: int, retentionDays: int)
    ensures (forall db :: RunBoundary(db) ==> RetainsExactly(db, DaysBefore(now, hotWindowDays), DaysBefore(now, retentionDays)))
       <==> hotWindowDays <= retentionDays
  {
    var h, r := DaysBefore(now, hotWindowDays), DaysBefore(now, retentionDays);
    forall db | RunBoundary(db)
      ensures RetainsExactly(db, h, r) <==> Aged(Partition(db, h).hot.runs, r) == {}
    {
      MaintenanceKeepsBoundary(db, h);
      RolloverConserves(db, h);
      PruneIsRetention(Partition(db, h), r);
    }
    RolloverClearsWindow(now, hotWindowDays, retentionDays);
  }

  // Rollover then prune leave what retention alone would.
  ghost predicate RetainsExactly(db: Db, hotCutoff: int, cutoff: int) {
    All(Forget(Partition(db, hotCutoff), cutoff)) == Without(All(db), Aged(All(db).runs, cutoff))
  }

  // ---------- the sargable filter ----------

  // WHERE id >= floor(since) AND ts >= since, on the stored seconds.
  predicate KeptSince<T>(id: Id, row: Child<T>, since: Instant)
    requires Canonical(id)
  {
    !Before(Text(id), Floor(since)) && WholeSeconds(row.ts) >= WholeSeconds(since)
  }

  predicate FilterLosesNothing<T>(rows: map<Id, Child<T>>, since: Instant) {
    forall id :: id in rows ==>
      && Canonical(id)
      && (rows[id].ts >= since ==> KeptSince(id, rows[id], since))
      && (KeptSince(id, rows[id], since) ==> rows[id].ts > since - SECOND)
  }

  // In any reachable state no hot row at or after `since` is lost to the id
  // condition, and no kept row is from an earlier second.
  lemma SinceFilterKeepsRows(states: seq<Sys>, steps: seq<Step>, i: nat, since: Instant)
    requires IsHistory(states, steps) && i < |states| && since >= 0
    ensures FilterLosesNothing(states[i].db.hot.metrics, since)
    ensures FilterLosesNothing(states[i].db.hot.pings, since)
  {
    HistoryKeeps(states, steps, i);
    var s := states[i];
    FilterOnTable(s.up, s.mark, s.db.hot.metrics, s.db.cold.metrics, since);
    FilterOnTable(s.up, s.mark, s.db.hot.pings, s.db.cold.pings, since);
  }

  lemma FilterOnTable<T>(up: bool, mark: Watermark, hot: map<Id, Child<T>>, cold: map<Id, Child<T>>, since: Instant)
    requires hot.Keys !! cold.Keys && since >= 0
    requires NotEarly(hot + cold) && KeysUnderMark(up, mark, (hot + cold).Keys)
    ensures FilterLosesNothing(hot, since)
  {
    forall id | id in hot
      ensures Canonical(id)
      ensures hot[id].ts >= since ==> KeptSince(id, hot[id], since)
      ensures KeptSince(id, hot[id], since) ==> hot[id].ts > since - SECOND
    {
      assert id in hot + cold && (hot + cold)[id] == hot[id];
      KeptRow(id, hot[id], since);
    }
  }

  lemma KeptRow<T>(id: Id, row: Child<T>, since: Instant)
    requires Canonical(id) && id.ms >= UnixMilli(row.ts) && since >= 0
    ensures row.ts >= since ==> KeptSince(id, row, since)
    ensures KeptSince(id, row, since) ==> row.ts > since - SECOND
  {
    FloorAsksForMillis(id, since);
    Wrapped(UnixMilli(since));
    if row.ts >= since {
      MillisFollowInstants(since, row.ts);
    }
  }

  // For every hot row: the two conditions together keep it exactly when the
  // seconds agree and its id has reached the millisecond of `since`; so the id
  // condition hides a row the seconds keep only within the second of `since`.
  lemma SinceFilterMeaning<T>(id: Id, row: Child<T>, since: Instant)
    requires Canonical(id) && id.ms >= UnixMilli(row.ts) && 0 <= since && UnixMilli(since) < MS_SPAN
    ensures KeptSince(id, row, since) <==> WholeSeconds(row.ts) >= WholeSeconds(since) && id.ms >= UnixMilli(since)
    ensures WholeSeconds(row.ts) >= WholeSeconds(since) && !KeptSince(id, row, since)
       <==> WholeSeconds(row.ts) == WholeSeconds(since) && id.ms < UnixMilli(since)
  {
    FloorAsksForMillis(id, since);
    assert UnixMilli(since) % MS_SPAN == UnixMilli(since) by { InSpan(UnixMilli(since)); }
    SecondOfMilli(row.ts);
    SecondOfMilli(since);
  }

  // For a row whose id carries its own millisecond the whole filter is a
  // comparison of milliseconds, although the ts column only separates seconds.
  lemma SinceFilterIsMillisecond<T>(id: Id, row: Child<T>, since: Instant)
    requires Canonical(id) && id.ms == UnixMilli(row.ts) && 0 <= since && UnixMilli(since) < MS_SPAN
    ensures KeptSince(id, row, since) <==> UnixMilli(row.ts) >= UnixMilli(since)
  {
    SinceFilterMeaning(id, row, since);
    SecondOfMilli(row.ts);
    SecondOfMilli(since);
  }
}
