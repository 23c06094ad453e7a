// The process-wide id generator: minting, entropy failures, seeding from the
// ids already on disk, and the id floor history queries use.
module Generator {
  import opened Instants
  import opened Options
  import opened Uuid

  // Two random bytes, or an entropy failure.
  type Draw = Option<(Byte, Byte)>

  function CounterSeed(b: (Byte, Byte)): int {
    (b.0 * 256 + b.1) % 0x1000
  }

  datatype Advanced = Advanced(mark: Watermark, minted: bool)

  // One step of the generator for a row stamped `ms`.
  function Advance(w: Watermark, ms: int, draw: Draw): Advanced {
    if ms <= w.ms && w.counter < MAX_COUNTER then
      Advanced(w.(counter := w.counter + 1), true)
    else
      var tick := if ms > w.ms then ms else w.ms + 1;
      match draw
      case None => Advanced(w.(ms := tick), false)
      case Some(b) => Advanced(Watermark(tick, CounterSeed(b)), true)
  }

  predicate InRange(w: Watermark) {
    0 <= w.ms && 0 <= w.counter <= MAX_COUNTER
  }

  // A minted pair is the new watermark, strictly above the old one and never
  // before its row; a failed draw may only raise the watermark. Only a used-up
  // counter takes the mark past both the old millisecond and the row's, and
  // within a millisecond the next count needs no draw.
  lemma AdvanceRises(w: Watermark, ms: int, draw: Draw)
    requires InRange(w)
    ensures var a := Advance(w, ms, draw);
      && InRange(a.mark)
      && AtLeast(a.mark, w)
      && (a.minted ==> Above(a.mark, w) && a.mark.ms >= ms)
      && (!a.minted ==> draw.None? && a.mark.counter == w.counter)
      && a.mark.ms == Later(w.ms, ms) + (if UsesUp(w, ms) then 1 else 0)
      && (ms <= w.ms && w.counter < MAX_COUNTER ==> a == Advanced(Watermark(w.ms, w.counter + 1), true))
      && (a.minted && a.mark.ms > w.ms ==> draw.Some? && a.mark.counter == Low12(draw.value))
  {
  }

  function Later(a: int, b: int): int {
    if a >= b then a else b
  }

  // A mint that finds the counter of its millisecond at the end.
  predicate UsesUp(w: Watermark, ms: int) {
    ms <= w.ms && w.counter == MAX_COUNTER
  }

  // The low twelve bits of two bytes.
  function Low12(b: (Byte, Byte)): int {
    b.0 % 16 * 256 + b.1
  }

  // ---------- a run of mints ----------

  datatype Ask = Ask(ms: int, draw: Draw)

  function MarkAfter(w: Watermark, asks: seq<Ask>): Watermark {
    if asks == [] then w
    else
      var last := asks[|asks| - 1];
      Advance(MarkAfter(w, asks[..|asks| - 1]), last.ms, last.draw).mark
  }

  // The largest millisecond seeded or asked for.
  function LatestAsked(w: Watermark, asks: seq<Ask>): (m: int)
    ensures m >= w.ms && forall i :: 0 <= i < |asks| ==> m >= asks[i].ms
    ensures m == w.ms || exists i :: 0 <= i < |asks| && m == asks[i].ms
  {
    if asks == [] then w.ms else Later(LatestAsked(w, asks[..|asks| - 1]), asks[|asks| - 1].ms)
  }

  function TimesUsedUp(w: Watermark, asks: seq<Ask>): nat {
    if asks == [] then 0
    else
      var before, last := asks[..|asks| - 1], asks[|asks| - 1];
      TimesUsedUp(w, before) + if UsesUp(MarkAfter(w, before), last.ms) then 1 else 0
  }

  // However many rows share a millisecond and whatever the entropy does, ids
  // run ahead of their rows by at most the times a counter was used up.
  lemma {:induction false} MarkStaysNear(w: Watermark, asks: seq<Ask>)
    requires InRange(w)
    ensures InRange(MarkAfter(w, asks))
    ensures LatestAsked(w, asks) <= MarkAfter(w, asks).ms <= LatestAsked(w, asks) + TimesUsedUp(w, asks)
  {
    if asks == [] {
    } else {
      var before, last := asks[..|asks| - 1], asks[|asks| - 1];
      MarkStaysNear(w, before);
      AdvanceRises(MarkAfter(w, before), last.ms, last.draw);
    }
  }

  function Seed(w: Watermark, p: Watermark): (r: Watermark)
    ensures AtLeast(r, w) && AtLeast(r, p) && (r == w || r == p)
  {
    if Above(p, w) then p else w
  }

  // Seeding with every table's decoded MAX(id), in table order; the first id
  // that does not decode stops it. An empty table has no MAX(id).
  function SeedAll(w: Watermark, maxIds: seq<Option<string>>): Watermark
    decreases |maxIds|
  {
    if maxIds == [] then w
    else
      match maxIds[0]
      case None => SeedAll(w, maxIds[1..])
      case Some(id) =>
        match Decode(id)
        case Err(_) => w
        case Ok(p) => SeedAll(Seed(w, p), maxIds[1..])
  }

  // An id that does not decode ends the seeding where it stands.
  lemma {:induction false} SeedAllStops(w: Watermark, maxIds: seq<Option<string>>, i: nat)
    requires i < |maxIds| && !Decodes(maxIds[i])
    ensures SeedAll(w, maxIds) == SeedAll(w, maxIds[..i])
    decreases |maxIds|
  {
    if i == 0 {
    } else {
      assert maxIds[..i][1..] == maxIds[1..][..i - 1];
      SeedAllStops(w, maxIds[1..], i - 1);
      if maxIds[0].Some? && Decode(maxIds[0].value).Ok? {
        SeedAllStops(Seed(w, Decode(maxIds[0].value).value), maxIds[1..], i - 1);
      }
    }
  }

  predicate Decodes(m: Option<string>) {
    m.Some? ==> Decode(m.value).Ok?
  }

  predicate Carries(m: Option<string>, w: Watermark) {
    m.Some? && Decode(m.value) == Ok(w)
  }

  predicate Bounds(w: Watermark, m: Option<string>) {
    m.Some? && Decode(m.value).Ok? ==> AtLeast(w, Decode(m.value).value)
  }

  // The seeded watermark is the least one that covers the starting one and
  // every table: an upper bound that is itself one of them.
  lemma {:induction false} SeedAllIsMaximum(w: Watermark, maxIds: seq<Option<string>>)
    requires forall i :: 0 <= i < |maxIds| ==> Decodes(maxIds[i])
    ensures AtLeast(SeedAll(w, maxIds), w)
    ensures forall i :: 0 <= i < |maxIds| ==> Bounds(SeedAll(w, maxIds), maxIds[i])
    ensures SeedAll(w, maxIds) == w || exists i :: 0 <= i < |maxIds| && Carries(maxIds[i], SeedAll(w, maxIds))
    decreases |maxIds|
  {
    if maxIds == [] {
    } else {
      var rest := maxIds[1..];
      assert forall i :: 0 <= i < |rest| ==> rest[i] == maxIds[i + 1];
      assert Decodes(maxIds[0]);
      var next := if maxIds[0].Some? then Seed(w, Decode(maxIds[0].value).value) else w;
      SeedAllIsMaximum(next, rest);
      forall i | 0 <= i < |maxIds|
        ensures Bounds(SeedAll(w, maxIds), maxIds[i])
      {
        if i > 0 {
          assert rest[i - 1] == maxIds[i];
        }
      }
    }
  }

  // The 62 random bits a fresh id carries, from eight drawn bytes.
  function RandB(tail: seq<Byte>): int
    requires |tail| == 8
  {
    tail[0] % 64 * TAIL_SPAN + Value(tail[1..])
  }

  class IdSource {
    var lastMs: int
    var counter: int

    ghost predicate Valid()
      reads this
    {
      InRange(Mark())
    }

    ghost function Mark(): Watermark
      reads this
    {
      Watermark(lastMs, counter)
    }

    // A fresh process.
    constructor ()
      ensures Valid() && Mark() == Watermark(0, 0)
    {
      lastMs, counter := 0, 0;
    }

    method Next(ts: Instant, draw: Draw) returns (pair: Option<(int, int)>)
      requires Valid()
      modifies this
      ensures Valid()
      ensures var a := Advance(old(Mark()), UnixMilli(ts), draw);
        Mark() == a.mark && pair == if a.minted then Some((a.mark.ms, a.mark.counter)) else None
      ensures pair.Some? ==> Above(Mark(), old(Mark())) && lastMs >= UnixMilli(ts)
      ensures pair.None? ==> AtLeast(Mark(), old(Mark()))
      ensures old(counter) < MAX_COUNTER || UnixMilli(ts) > old(lastMs) ==> lastMs == Later(old(lastMs), UnixMilli(ts))
      ensures UnixMilli(ts) <= old(lastMs) && old(counter) < MAX_COUNTER ==>
                pair == Some((old(lastMs), old(counter) + 1)) && Mark() == Watermark(old(lastMs), old(counter) + 1)
      ensures UnixMilli(ts) <= old(lastMs) && old(counter) == MAX_COUNTER ==> lastMs == old(lastMs) + 1
      ensures lastMs > old(lastMs) ==>
                if draw.Some? then pair == Some((lastMs, Low12(draw.value))) && counter == Low12(draw.value)
                else pair.None? && counter == old(counter)
    {
      var ms := UnixMilli(ts);
      if ms > lastMs {
        lastMs := ms;
      } else if counter < MAX_COUNTER {
        counter := counter + 1;
        return Some((lastMs, counter));
      } else {
        lastMs := lastMs + 1;
      }
      match draw {
        case None => pair := None;
        case Some(b) =>
          counter := CounterSeed(b);
          pair := Some((lastMs, counter));
      }
    }

    // `tail` is the second random read; its failure loses the id but keeps
    // the raised watermark.
    method NewId(ts: Instant, draw: Draw, tail: Option<seq<Byte>>) returns (id: Option<string>)
      requires Valid()
      requires tail.Some? ==> |tail.value| == 8
      modifies this
      ensures Valid()
      ensures Mark() == Advance(old(Mark()), UnixMilli(ts), draw).mark
      ensures id.Some? <==> Advance(old(Mark()), UnixMilli(ts), draw).minted && tail.Some?
      ensures id.Some? ==>
        var s := Stamp(lastMs % MS_SPAN, counter, RandB(tail.value));
        Canonical(s) && id.value == Text(s)
    {
      var pair := Next(ts, draw);
      if pair.None? || tail.None? {
        return None;
      }
      var (ms, c) := pair.value;
      var b := Pack(ms, c, tail.value);
      FreshLayout(ms, c, tail.value);
      id := Some(Format(b[..]));
    }

    // The sixteen bytes, filled in place.
    static method Pack(ms: int, c: int, randB: seq<Byte>) returns (b: array<Byte>)
      requires 0 <= c <= MAX_COUNTER && |randB| == 8
      ensures fresh(b)
      ensures b[..] == ShiftBytes(ms) + [0x70 + c / 256, c % 256] + [0x80 + randB[0] % 64] + randB[1..]
    {
      b := new Byte[16];
      b[0], b[1], b[2] := (ms / 0x100_0000_0000) % 256, (ms / 0x1_0000_0000) % 256, (ms / 0x100_0000) % 256;
      b[3], b[4], b[5] := (ms / 0x1_0000) % 256, (ms / 0x100) % 256, ms % 256;
      b[6] := 0x70 + c / 256 % 16;
      b[7] := c % 256;
      b[8] := 0x80 + randB[0] % 64;
      forall i | 9 <= i < 16 {
        b[i] := randB[i - 8];
      }
    }

    method SeedWatermark(ms: int, c: int)
      modifies this
      ensures Mark() == Seed(old(Mark()), Watermark(ms, c))
    {
      if ms > lastMs {
        lastMs, counter := ms, c;
      } else if ms == lastMs && c > counter {
        counter := c;
      }
    }

    // `maxIds` holds SELECT MAX(id) of each id-bearing table, hot and archive;
    // `failAt == k` fails query k. Either failure stops the seeding.
    method SeedFromStore(maxIds: seq<Option<string>>, failAt: nat) returns (ok: bool)
      modifies this
      ensures ok <==> failAt >= |maxIds| && forall i :: 0 <= i < |maxIds| ==> Decodes(maxIds[i])
      ensures Mark() == SeedAll(old(Mark()), if failAt < |maxIds| then maxIds[..failAt] else maxIds)
    {
      ghost var read := if failAt < |maxIds| then maxIds[..failAt] else maxIds;
      for i := 0 to |maxIds|
        invariant i <= |read|
        invariant forall j :: 0 <= j < i ==> Decodes(maxIds[j])
        invariant SeedAll(Mark(), read[i..]) == SeedAll(old(Mark()), read)
      {
        if failAt == i {
          return false;
        }
        assert read[i..][1..] == read[i + 1..];
        match maxIds[i] {
          case None =>
          case Some(id) =>
            match Decode(id) {
              case Err(_) => return false;
              case Ok(p) => SeedWatermark(p.ms, p.counter);
            }
        }
      }
      ok := true;
    }
  }

  // The bytes a mint writes are the layout of the id it means.
  lemma FreshLayout(ms: int, c: int, randB: seq<Byte>)
    requires 0 <= ms && 0 <= c <= MAX_COUNTER && |randB| == 8
    ensures var s := Stamp(ms % MS_SPAN, c, RandB(randB));
      && Canonical(s)
      && Layout(s) == ShiftBytes(ms) + [0x70 + c / 256, c % 256] + [0x80 + randB[0] % 64] + randB[1..]
  {
    Powers();
    ShiftBytesAreBigEndian(ms);
    ValueBound(randB[1..]);
    BigEndianOfValue(randB[1..]);
  }

  // ---------- the id floor ----------

  // Smallest id text of the millisecond of `since`.
  function Floor(since: Instant): string {
    Format(ShiftBytes(UnixMilli(since)) + [0x70, 0x00] + [0x80] + [0, 0, 0, 0, 0, 0, 0])
  }

  lemma FloorText(since: Instant)
    ensures Floor(since) == Text(Stamp(UnixMilli(since) % MS_SPAN, 0, 0))
  {
    ShiftBytesAreBigEndian(UnixMilli(since));
    assert BigEndian(0, 7) == [0, 0, 0, 0, 0, 0, 0] by {
      assert BigEndian(0, 1) == [0];
      assert BigEndian(0, 2) == [0, 0];
      assert BigEndian(0, 3) == [0, 0, 0];
      assert BigEndian(0, 4) == [0, 0, 0, 0];
      assert BigEndian(0, 5) == [0, 0, 0, 0, 0];
      assert BigEndian(0, 6) == [0, 0, 0, 0, 0, 0];
    }
    assert Layout(Stamp(UnixMilli(since) % MS_SPAN, 0, 0)) ==
      ShiftBytes(UnixMilli(since)) + [0x70, 0x00] + [0x80] + [0, 0, 0, 0, 0, 0, 0];
  }

  // `id >= floor` asks exactly that the embedded millisecond has reached it.
  lemma FloorAsksForMillis(s: Stamp, since: Instant)
    requires Canonical(s)
    ensures !Before(Text(s), Floor(since)) <==> s.ms >= UnixMilli(since) % MS_SPAN
  {
    FloorText(since);
    TextOrder(s, Stamp(UnixMilli(since) % MS_SPAN, 0, 0));
  }

  // No id minted for a row at or after `since` falls below the floor.
  ghost predicate FloorIsSafe(since: Instant) {
    forall s: Stamp, ts: Instant ::
      Canonical(s) && s.ms >= UnixMilli(ts) && ts >= since ==> !Before(Text(s), Floor(since))
  }

  // The floor is safe from 1970 on. Before 1970 the timestamp bytes wrap
  // around and the floor cuts real rows off, except when they wrap to zero.
  lemma FloorSafety(since: Instant)
    ensures FloorIsSafe(since) <==> since >= 0 || UnixMilli(since) % MS_SPAN == 0
  {
    var w := UnixMilli(since) % MS_SPAN;
    if since >= 0 || w == 0 {
      Wrapped(UnixMilli(since));
      forall s: Stamp, ts: Instant | Canonical(s) && s.ms >= UnixMilli(ts) && ts >= since
        ensures !Before(Text(s), Floor(since))
      {
        MillisFollowInstants(since, ts);
        FloorAsksForMillis(s, since);
      }
    } else {
      var first := Stamp(0, 0, 0);
      FloorAsksForMillis(first, since);
      assert Canonical(first) && first.ms >= UnixMilli(0) && 0 >= since;
    }
  }

  // Beside the condition on whole seconds the id condition hides no row.
  ghost predicate FloorIsNoStricter(since: Instant) {
    forall s: Stamp, ts: Instant ::
      Canonical(s) && s.ms >= UnixMilli(ts) && WholeSeconds(ts) >= WholeSeconds(since) ==> !Before(Text(s), Floor(since))
  }

  // It hides none exactly when the floor's millisecond is not past the start
  // of the second of `since`; from 1970 on, below 2^48 milliseconds, exactly
  // when `since` has no part of a second in its milliseconds.
  lemma FloorAgainstSeconds(since: Instant)
    ensures FloorIsNoStricter(since) <==> UnixMilli(since) % MS_SPAN <= FirstMilli(since)
    ensures 0 <= since && UnixMilli(since) < MS_SPAN ==> (FloorIsNoStricter(since) <==> UnixMilli(since) % 1000 == 0)
  {
    var w, first := UnixMilli(since) % MS_SPAN, FirstMilli(since);
    SecondOfMilli(since);
    if w <= first {
      forall s: Stamp, ts: Instant | Canonical(s) && s.ms >= UnixMilli(ts) && WholeSeconds(ts) >= WholeSeconds(since)
        ensures !Before(Text(s), Floor(since))
      {
        SecondOfMilli(ts);
        FloorAsksForMillis(s, since);
      }
    } else {
      var s, ts := Stamp(first, 0, 0), WholeSeconds(since) * SECOND;
      assert WholeSeconds(ts) == WholeSeconds(since) && UnixMilli(ts) == WholeSeconds(since) * 1000;
      FloorAsksForMillis(s, since);
    }
    if 0 <= since && UnixMilli(since) < MS_SPAN {
      assert w == UnixMilli(since) by { InSpan(UnixMilli(since)); }
    }
  }

  // The first millisecond an id can carry in the second of `since`.
  function FirstMilli(since: Instant): int {
    if since < 0 then 0 else WholeSeconds(since) * 1000
  }

  lemma InSpan(ms: int)
    requires 0 <= ms < MS_SPAN
    ensures ms % MS_SPAN == ms
  {
  }

  // A row of the second of `since` that only the id condition hides.
  lemma FloorHidesSameSecond()
    ensures var since, row := 1_500 * MILLISECOND, Stamp(1_000, 0, 0);
      && Canonical(row) && row.ms == UnixMilli(SECOND)
      && WholeSeconds(SECOND) == WholeSeconds(since)
      && Before(Text(row), Floor(since))
  {
    FloorAsksForMillis(Stamp(1_000, 0, 0), 1_500 * MILLISECOND);
  }

  lemma Wrapped(ms: int)
    ensures 0 <= ms % MS_SPAN && (0 <= ms ==> ms % MS_SPAN <= ms)
  {
  }

  // One second before 1970 the floor is above the id of the first millisecond.
  lemma FloorBeforeEpochDropsRows()
    ensures Before(Text(Stamp(0, 0, 0)), Floor(-SECOND)) && !FloorIsSafe(-SECOND)
  {
    assert UnixMilli(-SECOND) == -1000 && -1000 % MS_SPAN == MS_SPAN - 1000;
    var first := Stamp(0, 0, 0);
    FloorAsksForMillis(first, -SECOND);
    assert Canonical(first) && first.ms >= UnixMilli(0) && 0 >= -SECOND;
  }
}
