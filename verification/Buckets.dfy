// The overview's fixed-width time buckets: the grouping SQL does, and the loop
// that turns its rows into one series a key.
module Buckets {
  import opened Instants
  import opened Options
  import Outages

  // ---------- bucket starts ----------

  const MINUTE := 60 * SECOND
  const HOUR := 3600 * SECOND
  const DAY := 86400 * SECOND

  function ClampBucket(width: int): int {
    if width <= 0 then HOUR else if width < MINUTE then MINUTE else if width > DAY then DAY else width
  }

  // Integer division in SQL and Go drops the fraction.
  function Quotient(a: int, b: int): int
    requires b > 0
  {
    if a >= 0 then a / b else -(-a / b)
  }

  function Seconds(width: int): (secs: int)
    ensures secs >= 1
    ensures width >= SECOND ==> secs * SECOND <= width < (secs + 1) * SECOND
    ensures width < SECOND ==> secs == 1
  {
    var secs := Quotient(width, SECOND);
    if secs < 1 then 1 else secs
  }

  function BucketStart(epoch: int, secs: int): int
    requires secs >= 1
  {
    Quotient(epoch, secs) * secs
  }

  lemma ClampedWidths(width: int)
    ensures MINUTE <= ClampBucket(width) <= DAY
    ensures MINUTE <= width <= DAY ==> ClampBucket(width) == width
    ensures width <= 0 ==> ClampBucket(width) == HOUR
    ensures 0 < width < MINUTE ==> ClampBucket(width) == MINUTE
    ensures width > DAY ==> ClampBucket(width) == DAY
    ensures 60 <= Seconds(ClampBucket(width)) <= 86400
  {
  }

  predicate Covers(start: int, secs: int, epoch: int) {
    start <= epoch < start + secs
  }

  lemma DivisionOf(a: int, b: int)
    requires b > 0
    ensures (a / b) * b <= a < (a / b) * b + b
    ensures (a / b) * b == a <==> a % b == 0
  {
  }

  // From 1970 on a sample's bucket covers it; before, only when the sample
  // falls exactly on a bucket's start.
  lemma BucketCovers(epoch: int, secs: int)
    requires secs >= 1
    ensures Covers(BucketStart(epoch, secs), secs, epoch) <==> epoch >= 0 || -epoch % secs == 0
  {
    if epoch >= 0 {
      DivisionOf(epoch, secs);
    } else {
      DivisionOf(-epoch, secs);
      assert (-(-epoch / secs)) * secs == -((-epoch / secs) * secs);
    }
  }

  // No other bucket covers it.
  lemma BucketIsUnique(epoch: int, secs: int, n: int)
    requires secs >= 1 && epoch >= 0 && Covers(n * secs, secs, epoch)
    ensures n * secs == BucketStart(epoch, secs)
  {
    var q := epoch / secs;
    DivisionOf(epoch, secs);
    assert (q + 1) * secs == q * secs + secs && (n + 1) * secs == n * secs + secs;
    Outages.Scaled(n, q + 1, secs);
    Outages.Scaled(q, n + 1, secs);
  }

  // ---------- grouping ----------

  // A selected sample, with its computed column `start`.
  datatype Point<+K, +B> = Point(key: K, epoch: int, start: int, body: B)

  predicate Bucketed<K, B>(ps: seq<Point<K, B>>, secs: int)
    requires secs >= 1
  {
    forall i :: 0 <= i < |ps| ==> ps[i].start == BucketStart(ps[i].epoch, secs)
  }

  // One row of SELECT key, unit, start, aggregates ... GROUP BY key, start; the
  // unit is empty for pings.
  datatype Row<+K, +A> = Row(key: K, unit: string, start: int, agg: A)

  predicate In<K(==), B>(p: Point<K, B>, key: K, start: int) {
    p.key == key && p.start == start
  }

  // SUM over one group.
  function GroupTotal<K(==), B>(ps: seq<Point<K, B>>, key: K, start: int, f: Point<K, B> -> real): real {
    if ps == [] then 0.0
    else
      var last := ps[|ps| - 1];
      GroupTotal(ps[..|ps| - 1], key, start, f) + if In(last, key, start) then f(last) else 0.0
  }

  function KeyTotal<K(==), B>(ps: seq<Point<K, B>>, key: K, f: Point<K, B> -> real): real {
    if ps == [] then 0.0
    else KeyTotal(ps[..|ps| - 1], key, f) + if ps[|ps| - 1].key == key then f(ps[|ps| - 1]) else 0.0
  }

  function RowsTotal<K(==), A>(rows: seq<Row<K, A>>, key: K, g: A -> real): real {
    if rows == [] then 0.0
    else RowsTotal(rows[..|rows| - 1], key, g) + if rows[|rows| - 1].key == key then g(rows[|rows| - 1].agg) else 0.0
  }

  // ORDER BY key, start over distinct groups.
  predicate Rising<K(==), A>(rows: seq<Row<K, A>>) {
    forall i, j :: 0 <= i < j < |rows| && rows[i].key == rows[j].key ==> rows[i].start < rows[j].start
  }

  predicate Contiguous<K(==), A>(rows: seq<Row<K, A>>) {
    forall i, j, k :: 0 <= i < j < k < |rows| && rows[i].key == rows[k].key ==> rows[j].key == rows[i].key
  }

  predicate Holds<K(==), B, A>(p: Point<K, B>, rows: seq<Row<K, A>>) {
    exists r :: 0 <= r < |rows| && In(p, rows[r].key, rows[r].start)
  }

  predicate Populated<K(==), B, A>(ps: seq<Point<K, B>>, row: Row<K, A>) {
    exists i :: 0 <= i < |ps| && In(ps[i], row.key, row.start)
  }

  // Exactly the groups that have points.
  predicate Groups<K(==), B, A>(ps: seq<Point<K, B>>, rows: seq<Row<K, A>>) {
    && (forall i :: 0 <= i < |ps| ==> Holds(ps[i], rows))
    && (forall r :: 0 <= r < |rows| ==> Populated(ps, rows[r]))
  }

  predicate Sums<K(==), B, A>(ps: seq<Point<K, B>>, rows: seq<Row<K, A>>, f: Point<K, B> -> real, g: A -> real) {
    forall r :: 0 <= r < |rows| ==> g(rows[r].agg) == GroupTotal(ps, rows[r].key, rows[r].start, f)
  }

  // ---------- conservation ----------

  // What the groups of one key make of the points.
  function Grouped<K(==), B, A>(ps: seq<Point<K, B>>, rows: seq<Row<K, A>>, key: K, f: Point<K, B> -> real): real
  {
    if rows == [] then 0.0
    else
      var last := rows[|rows| - 1];
      Grouped(ps, rows[..|rows| - 1], key, f)
      + if last.key == key then GroupTotal(ps, last.key, last.start, f) else 0.0
  }

  lemma {:induction false} SummedRows<K, B, A>(ps: seq<Point<K, B>>, rows: seq<Row<K, A>>, key: K, f: Point<K, B> -> real, g: A -> real)
    requires Sums(ps, rows, f, g)
    ensures RowsTotal(rows, key, g) == Grouped(ps, rows, key, f)
  {
    if rows == [] {
    } else {
      SummedRows(ps, rows[..|rows| - 1], key, f, g);
    }
  }

  lemma {:induction false} NoPoints<K, B, A>(rows: seq<Row<K, A>>, key: K, f: Point<K, B> -> real)
    ensures Grouped<K, B, A>([], rows, key, f) == 0.0
  {
    if rows == [] {
    } else {
      NoPoints(rows[..|rows| - 1], key, f);
    }
  }

  // A point counts in one group of its key and in no other.
  lemma {:induction false} PointCountsOnce<K, B, A>(
      ps: seq<Point<K, B>>, p: Point<K, B>, rows: seq<Row<K, A>>, key: K, f: Point<K, B> -> real)
    requires Rising(rows)
    ensures Grouped(ps + [p], rows, key, f)
         == Grouped(ps, rows, key, f) + if p.key == key && Holds(p, rows) then f(p) else 0.0
  {
    if rows == [] {
    } else {
      var n := |rows| - 1;
      var last := rows[n];
      PointCountsOnce(ps, p, rows[..n], key, f);
      assert (ps + [p])[..|ps|] == ps;
      assert Holds(p, rows) <==> Holds(p, rows[..n]) || In(p, last.key, last.start);
    }
  }

  lemma {:induction false} GroupedIsTotal<K, B, A>(ps: seq<Point<K, B>>, rows: seq<Row<K, A>>, key: K, f: Point<K, B> -> real)
    requires Rising(rows)
    requires forall i :: 0 <= i < |ps| ==> Holds(ps[i], rows)
    ensures Grouped(ps, rows, key, f) == KeyTotal(ps, key, f)
  {
    if ps == [] {
      NoPoints<K, B, A>(rows, key, f);
    } else {
      var n := |ps| - 1;
      GroupedIsTotal(ps[..n], rows, key, f);
      assert ps == ps[..n] + [ps[n]];
      PointCountsOnce(ps[..n], ps[n], rows, key, f);
    }
  }

  // ---------- from rows to series ----------

  datatype Bucket<+A> = Bucket(start: int, agg: A)

  datatype Series<+K, +A> = Series(key: K, unit: string, buckets: seq<Bucket<A>>, outages: seq<Outages.Outage>)

  // The buckets of one key, in row order.
  function Of<K(==), A>(rows: seq<Row<K, A>>, key: K): seq<Bucket<A>> {
    if rows == [] then []
    else
      var last := rows[|rows| - 1];
      var before := Of(rows[..|rows| - 1], key);
      if last.key == key then before + [Bucket(last.start, last.agg)] else before
  }

  predicate HasKey<K(==), A>(rows: seq<Row<K, A>>, key: K) {
    exists r :: 0 <= r < |rows| && rows[r].key == key
  }

  // The unit of a key's first row.
  function Unit<K(==), A>(rows: seq<Row<K, A>>, key: K): string {
    if rows == [] then ""
    else
      var init, last := rows[..|rows| - 1], rows[|rows| - 1];
      if HasKey(init, key) || last.key != key then Unit(init, key) else last.unit
  }

  predicate HasSeries<K(==), A>(out: seq<Series<K, A>>, key: K) {
    exists i :: 0 <= i < |out| && out[i].key == key
  }

  predicate Distinct<K(==), A>(out: seq<Series<K, A>>) {
    forall i, j :: 0 <= i < j < |out| ==> out[i].key != out[j].key
  }

  // One series for each key of the rows, holding just that key's buckets.
  ghost predicate Assembled<K(!new), A>(out: seq<Series<K, A>>, rows: seq<Row<K, A>>) {
    && Distinct(out)
    && (forall i :: 0 <= i < |out| ==> out[i] == Series(out[i].key, Unit(rows, out[i].key), Of(rows, out[i].key), []))
    && (forall key :: HasSeries(out, key) <==> HasKey(rows, key))
  }

  lemma {:induction false} OfNoRow<K, A>(rows: seq<Row<K, A>>, key: K)
    requires !HasKey(rows, key)
    ensures Of(rows, key) == []
  {
    if rows == [] {
    } else {
      OfNoRow(rows[..|rows| - 1], key);
    }
  }

  lemma KeysGrow<K, A>(rows: seq<Row<K, A>>, n: nat, key: K)
    requires n < |rows|
    ensures HasKey(rows[..n + 1], key) <==> HasKey(rows[..n], key) || rows[n].key == key
    ensures Of(rows[..n + 1], key)
         == if rows[n].key == key then Of(rows[..n], key) + [Bucket(rows[n].start, rows[n].agg)] else Of(rows[..n], key)
    ensures Unit(rows[..n + 1], key)
         == if HasKey(rows[..n], key) || rows[n].key != key then Unit(rows[..n], key) else rows[n].unit
  {
    assert rows[..n + 1][..n] == rows[..n];
    if HasKey(rows[..n], key) {
      var r :| 0 <= r < n && rows[..n][r].key == key;
      assert rows[..n + 1][r].key == key;
    }
    assert rows[..n + 1][n] == rows[n];
  }

  // A key that stopped does not come back.
  lemma NewKeyIsFresh<K, A>(rows: seq<Row<K, A>>, n: nat)
    requires Contiguous(rows) && n < |rows| && (n > 0 ==> rows[n - 1].key != rows[n].key)
    ensures !HasKey(rows[..n], rows[n].key)
  {
    forall r | 0 <= r < n
      ensures rows[..n][r].key != rows[n].key
    {
      assert rows[..n][r] == rows[r] && rows[n - 1].key != rows[n].key;
    }
  }

  lemma SeriesOpened<K(!new), A>(out: seq<Series<K, A>>, rows: seq<Row<K, A>>, n: nat)
    requires Contiguous(rows) && n < |rows| && Assembled(out, rows[..n]) && (n > 0 ==> rows[n - 1].key != rows[n].key)
    ensures Assembled(out + [Series(rows[n].key, rows[n].unit, [Bucket(rows[n].start, rows[n].agg)], [])], rows[..n + 1])
  {
    var r := rows[n];
    var s := Series(r.key, r.unit, [Bucket(r.start, r.agg)], []);
    NewKeyIsFresh(rows, n);
    OfNoRow(rows[..n], r.key);
    assert !HasSeries(out, r.key);
    KeysGrow(rows, n, r.key);
    forall key
      ensures HasSeries(out + [s], key) <==> HasKey(rows[..n + 1], key)
    {
      KeysGrow(rows, n, key);
      assert HasSeries(out + [s], key) <==> HasSeries(out, key) || key == r.key by {
        assert (out + [s])[|out|].key == r.key;
        assert forall i :: 0 <= i < |out| ==> (out + [s])[i] == out[i];
      }
    }
    forall i | 0 <= i < |out|
      ensures out[i] == Series(out[i].key, Unit(rows[..n + 1], out[i].key), Of(rows[..n + 1], out[i].key), [])
    {
      KeysGrow(rows, n, out[i].key);
      assert HasSeries(out, out[i].key);
    }
  }

  function Appended<K, A>(out: seq<Series<K, A>>, b: Bucket<A>): seq<Series<K, A>>
    requires out != []
  {
    out[|out| - 1 := out[|out| - 1].(buckets := out[|out| - 1].buckets + [b])]
  }

  lemma SeriesExtended<K(!new), A>(out: seq<Series<K, A>>, rows: seq<Row<K, A>>, n: nat)
    requires n < |rows| && Assembled(out, rows[..n]) && out != [] && out[|out| - 1].key == rows[n].key
    ensures Assembled(Appended(out, Bucket(rows[n].start, rows[n].agg)), rows[..n + 1])
  {
    var after := Appended(out, Bucket(rows[n].start, rows[n].agg));
    forall key
      ensures HasSeries(after, key) <==> HasKey(rows[..n + 1], key)
    {
      KeysGrow(rows, n, key);
      assert HasSeries(after, key) <==> HasSeries(out, key) by {
        assert forall i :: 0 <= i < |out| ==> after[i].key == out[i].key;
      }
      assert HasSeries(out, rows[n].key);
    }
    forall i | 0 <= i < |after|
      ensures after[i] == Series(after[i].key, Unit(rows[..n + 1], after[i].key), Of(rows[..n + 1], after[i].key), [])
    {
      KeysGrow(rows, n, out[i].key);
      assert HasSeries(out, out[i].key);
    }
  }

  // ---------- nothing is lost or moved ----------

  // A bucket with the key it belongs to.
  type Keyed<+K, +A> = (K, Bucket<A>)

  function KeyedRows<K, A>(rows: seq<Row<K, A>>): (out: seq<Keyed<K, A>>)
    ensures |out| == |rows| && forall i :: 0 <= i < |rows| ==> out[i] == (rows[i].key, Bucket(rows[i].start, rows[i].agg))
  {
    seq(|rows|, i requires 0 <= i < |rows| => (rows[i].key, Bucket(rows[i].start, rows[i].agg)))
  }

  // All buckets, series after series.
  function Flattened<K, A>(out: seq<Series<K, A>>): seq<Keyed<K, A>> {
    if out == [] then [] else Flattened(out[..|out| - 1]) + Paired(out[|out| - 1].key, out[|out| - 1].buckets)
  }

  lemma KeyedRowsGrow<K, A>(rows: seq<Row<K, A>>, n: nat)
    requires n < |rows|
    ensures KeyedRows(rows[..n + 1]) == KeyedRows(rows[..n]) + [(rows[n].key, Bucket(rows[n].start, rows[n].agg))]
  {
  }

  lemma PairedGrows<K, A>(key: K, bs: seq<Bucket<A>>, b: Bucket<A>)
    ensures Paired(key, bs + [b]) == Paired(key, bs) + [(key, b)]
  {
  }

  lemma FlattenedOpens<K, A>(out: seq<Series<K, A>>, key: K, unit: string, b: Bucket<A>)
    ensures Flattened(out + [Series(key, unit, [b], [])]) == Flattened(out) + [(key, b)]
  {
    assert (out + [Series(key, unit, [b], [])])[..|out|] == out;
    assert Paired(key, [b]) == [(key, b)];
  }

  lemma FlattenedExtends<K, A>(out: seq<Series<K, A>>, b: Bucket<A>)
    requires out != []
    ensures Flattened(Appended(out, b)) == Flattened(out) + [(out[|out| - 1].key, b)]
  {
    var n, after := |out| - 1, Appended(out, b);
    var key, bs, before := out[n].key, out[n].buckets, Flattened(out[..n]);
    assert after[..n] == out[..n] && after[n].key == key && after[n].buckets == bs + [b];
    PairedGrows(key, bs, b);
    Joined(before, Paired(key, bs), [(key, b)]);
  }

  lemma Joined<T>(a: seq<T>, b: seq<T>, c: seq<T>)
    ensures a + (b + c) == (a + b) + c
  {
  }

  // What the loop makes of one more row.
  function Taken<K(==), A>(out: seq<Series<K, A>>, r: Row<K, A>): seq<Series<K, A>> {
    if out == [] || out[|out| - 1].key != r.key then out + [Series(r.key, r.unit, [Bucket(r.start, r.agg)], [])]
    else Appended(out, Bucket(r.start, r.agg))
  }

  lemma OpenedThenFilled<K, A>(out: seq<Series<K, A>>, r: Row<K, A>)
    ensures Appended(out + [Series(r.key, r.unit, [], [])], Bucket(r.start, r.agg))
         == out + [Series(r.key, r.unit, [Bucket(r.start, r.agg)], [])]
  {
    assert [] + [Bucket(r.start, r.agg)] == [Bucket(r.start, r.agg)];
  }

  ghost predicate SeriesOf<K(!new), A>(out: seq<Series<K, A>>, rows: seq<Row<K, A>>) {
    && Assembled(out, rows) && Flattened(out) == KeyedRows(rows)
    && if rows == [] then out == [] else out != [] && out[|out| - 1].key == rows[|rows| - 1].key
  }

  lemma RowTaken<K(!new), A>(out: seq<Series<K, A>>, rows: seq<Row<K, A>>, n: nat)
    requires Contiguous(rows) && n < |rows| && SeriesOf(out, rows[..n])
    ensures SeriesOf(Taken(out, rows[n]), rows[..n + 1])
  {
    var r := rows[n];
    var b := Bucket(r.start, r.agg);
    KeyedRowsGrow(rows, n);
    if out == [] || out[|out| - 1].key != r.key {
      SeriesOpened(out, rows, n);
      FlattenedOpens(out, r.key, r.unit, b);
    } else {
      SeriesExtended(out, rows, n);
      FlattenedExtends(out, b);
    }
  }

  predicate FirstOf<K(==), A>(rows: seq<Row<K, A>>, key: K, r: nat) {
    r < |rows| && rows[r].key == key && forall q :: 0 <= q < r ==> rows[q].key != key
  }

  lemma {:induction false} UnitOfFirst<K, A>(rows: seq<Row<K, A>>, key: K) returns (r: nat)
    requires HasKey(rows, key)
    ensures FirstOf(rows, key, r) && Unit(rows, key) == rows[r].unit
  {
    var n := |rows| - 1;
    if HasKey(rows[..n], key) {
      r := UnitOfFirst(rows[..n], key);
    } else {
      r := n;
      forall q | 0 <= q < n
        ensures rows[q].key != key
      {
        assert rows[..n][q] == rows[q];
      }
    }
  }

  method Assemble<K(==,!new), A>(rows: seq<Row<K, A>>) returns (out: seq<Series<K, A>>)
    requires Contiguous(rows)
    ensures Assembled(out, rows)
    ensures Flattened(out) == KeyedRows(rows)
    ensures forall i :: 0 <= i < |out| ==> exists r: nat :: FirstOf(rows, out[i].key, r) && out[i].unit == rows[r].unit
  {
    out := [];
    for n := 0 to |rows|
      invariant SeriesOf(out, rows[..n])
    {
      var r := rows[n];
      ghost var before := out;
      if |out| == 0 || out[|out| - 1].key != r.key {
        OpenedThenFilled(out, r);
        out := out + [Series(r.key, r.unit, [], [])];
      }
      var cur := |out| - 1;
      out := out[cur := out[cur].(buckets := out[cur].buckets + [Bucket(r.start, r.agg)])];
      assert out == Taken(before, r);
      RowTaken(before, rows, n);
    }
    assert rows[..|rows|] == rows;
    forall i | 0 <= i < |out|
      ensures exists r: nat :: FirstOf(rows, out[i].key, r) && out[i].unit == rows[r].unit
    {
      assert HasSeries(out, out[i].key);
      var r := UnitOfFirst(rows, out[i].key);
    }
  }

  // Attaching each host's outages to its series.
  method Attach<A>(pings: seq<Series<string, A>>, outages: map<string, seq<Outages.Outage>>) returns (out: seq<Series<string, A>>)
    ensures |out| == |pings|
    ensures forall i :: 0 <= i < |out| ==> out[i] == pings[i].(outages := Outages.Of(outages, pings[i].key))
  {
    out := pings;
    for n := 0 to |pings|
      invariant |out| == |pings|
      invariant forall i :: 0 <= i < n ==> out[i] == pings[i].(outages := Outages.Of(outages, pings[i].key))
      invariant forall i :: n <= i < |pings| ==> out[i] == pings[i]
    {
      out := out[n := out[n].(outages := Outages.Of(outages, out[n].key))];
    }
  }

  // The ping half of the overview: a series for each host of the rows, with the
  // outages its own samples show.
  method PingOverview<A>(rows: seq<Row<string, A>>, samples: seq<Outages.Sample>) returns (out: seq<Series<string, A>>)
    requires Contiguous(rows)
    ensures Distinct(out) && forall host :: HasSeries(out, host) <==> HasKey(rows, host)
    ensures forall i :: 0 <= i < |out| ==>
              out[i] == Series(out[i].key, Unit(rows, out[i].key), Of(rows, out[i].key), Outages.Reports(samples, |samples|, out[i].key))
    ensures forall i :: 0 <= i < |out| ==> Outages.TellsAll(out[i].outages, samples, out[i].key)
  {
    var pings := Assemble(rows);
    var outages := Outages.CollapseOutages(samples);
    out := Attach(pings, outages);
    assert forall host :: HasSeries(out, host) <==> HasSeries(pings, host) by {
      assert forall i :: 0 <= i < |out| ==> out[i].key == pings[i].key;
    }
  }

  // ---------- what a series holds ----------

  function BucketsTotal<A>(bs: seq<Bucket<A>>, g: A -> real): real {
    if bs == [] then 0.0 else BucketsTotal(bs[..|bs| - 1], g) + g(bs[|bs| - 1].agg)
  }

  lemma {:induction false} SeriesTotal<K, A>(rows: seq<Row<K, A>>, key: K, g: A -> real)
    ensures BucketsTotal(Of(rows, key), g) == RowsTotal(rows, key, g)
  {
    if rows == [] {
    } else {
      var n := |rows| - 1;
      SeriesTotal(rows[..n], key, g);
      if rows[n].key == key {
        assert Of(rows, key)[..|Of(rows, key)| - 1] == Of(rows[..n], key);
      }
    }
  }

  lemma {:induction false} BucketIsRow<K, A>(rows: seq<Row<K, A>>, key: K, i: nat) returns (r: nat)
    requires i < |Of(rows, key)|
    ensures r < |rows| && rows[r].key == key && Bucket(rows[r].start, rows[r].agg) == Of(rows, key)[i]
  {
    var n := |rows| - 1;
    if i < |Of(rows[..n], key)| {
      r := BucketIsRow(rows[..n], key, i);
    } else {
      r := n;
    }
  }

  lemma {:induction false} StartsRise<K, A>(rows: seq<Row<K, A>>, key: K, i: nat, j: nat)
    requires Rising(rows) && i < j < |Of(rows, key)|
    ensures Of(rows, key)[i].start < Of(rows, key)[j].start
  {
    var n := |rows| - 1;
    if j < |Of(rows[..n], key)| {
      StartsRise(rows[..n], key, i, j);
    } else {
      var r := BucketIsRow(rows[..n], key, i);
    }
  }

  // Whatever a column sums, the buckets of a series hold exactly the points of
  // its key.
  lemma SeriesConservePoints<K, B, A>(ps: seq<Point<K, B>>, rows: seq<Row<K, A>>, f: Point<K, B> -> real, g: A -> real, key: K)
    requires Rising(rows) && Groups(ps, rows) && Sums(ps, rows, f, g)
    ensures BucketsTotal(Of(rows, key), g) == KeyTotal(ps, key, f)
  {
    SummedRows(ps, rows, key, f, g);
    GroupedIsTotal(ps, rows, key, f);
    SeriesTotal(rows, key, g);
  }

  // A bucket starts on a multiple of the width; from 1970 on, the points it
  // counts are those of its key that it covers.
  lemma BucketsAreAligned<K, B, A>(ps: seq<Point<K, B>>, rows: seq<Row<K, A>>, secs: int, key: K, i: nat, p: nat)
    requires secs >= 1 && Bucketed(ps, secs) && Groups(ps, rows) && i < |Of(rows, key)| && p < |ps|
    ensures exists n: int :: Of(rows, key)[i].start == n * secs
    ensures ps[p].epoch >= 0 ==>
              (In(ps[p], key, Of(rows, key)[i].start) <==> ps[p].key == key && Covers(Of(rows, key)[i].start, secs, ps[p].epoch))
  {
    var start := Of(rows, key)[i].start;
    var r := BucketIsRow(rows, key, i);
    assert Populated(ps, rows[r]);
    var q :| 0 <= q < |ps| && In(ps[q], rows[r].key, rows[r].start);
    var n := Quotient(ps[q].epoch, secs);
    assert start == n * secs;
    BucketCovers(ps[p].epoch, secs);
    if ps[p].epoch >= 0 && Covers(start, secs, ps[p].epoch) {
      BucketIsUnique(ps[p].epoch, secs, n);
    }
  }

  // Every point has a series and every series a point.
  lemma SeriesCoverPoints<K(!new), B, A>(ps: seq<Point<K, B>>, rows: seq<Row<K, A>>, out: seq<Series<K, A>>, key: K)
    requires Groups(ps, rows) && Assembled(out, rows)
    ensures HasSeries(out, key) <==> exists p :: 0 <= p < |ps| && ps[p].key == key
  {
    if HasKey(rows, key) {
      var r :| 0 <= r < |rows| && rows[r].key == key;
      assert Populated(ps, rows[r]);
    }
    if p :| 0 <= p < |ps| && ps[p].key == key {
      assert Holds(ps[p], rows);
    }
  }

  // ---------- metrics ----------

  type MetricPoint = Point<(string, string), real>

  datatype MetricAgg = MetricAgg(min: real, max: real, avg: real, count: nat)

  function One<K, B>(p: Point<K, B>): real {
    1.0
  }

  function Value(p: MetricPoint): real {
    p.body
  }

  // MIN, MAX, AVG and COUNT of one group.
  ghost predicate Aggregates(agg: MetricAgg, ps: seq<MetricPoint>, key: (string, string), start: int)
  {
    && agg.count > 0
    && agg.count as real == GroupTotal(ps, key, start, One)
    && agg.avg * agg.count as real == GroupTotal(ps, key, start, Value)
    && forall i :: 0 <= i < |ps| && In(ps[i], key, start) ==> agg.min <= ps[i].body <= agg.max
  }

  // A weighted sum lies between the bounds of its terms.
  lemma {:induction false} TotalsAreBounded<K, B>(
      ps: seq<Point<K, B>>, key: K, start: int, c: Point<K, B> -> real, v: Point<K, B> -> real, lo: real, hi: real)
    requires forall i :: 0 <= i < |ps| && In(ps[i], key, start) ==> lo * c(ps[i]) <= v(ps[i]) <= hi * c(ps[i])
    ensures lo * GroupTotal(ps, key, start, c) <= GroupTotal(ps, key, start, v) <= hi * GroupTotal(ps, key, start, c)
  {
    if ps == [] {
    } else {
      var n := |ps| - 1;
      var x, y := GroupTotal(ps[..n], key, start, c), if In(ps[n], key, start) then c(ps[n]) else 0.0;
      TotalsAreBounded(ps[..n], key, start, c, v, lo, hi);
      assert lo * (x + y) == lo * x + lo * y && hi * (x + y) == hi * x + hi * y;
    }
  }

  lemma Divided(a: real, b: real, k: real)
    requires k > 0.0
    ensures a <= b <==> a * k <= b * k
  {
    if a <= b {
      assert (b - a) * k >= 0.0;
    } else {
      assert (a - b) * k > 0.0;
    }
  }

  lemma MeanIsBetween(lo: real, mean: real, hi: real, count: real, total: real)
    requires count > 0.0 && mean * count == total
    requires lo * count <= total <= hi * count
    ensures lo <= mean <= hi
  {
    Divided(lo, mean, count);
    Divided(mean, hi, count);
  }

  lemma AverageIsBetween(agg: MetricAgg, ps: seq<MetricPoint>, key: (string, string), start: int)
    requires Aggregates(agg, ps, key, start)
    ensures agg.min <= agg.avg <= agg.max
  {
    TotalsAreBounded(ps, key, start, One, Value, agg.min, agg.max);
    MeanIsBetween(agg.min, agg.avg, agg.max, GroupTotal(ps, key, start, One), GroupTotal(ps, key, start, Value));
  }

  function CountOf(agg: MetricAgg): real {
    agg.count as real
  }

  // The counts of a metric's buckets add up to its samples, and each bucket's
  // average lies between its extremes.
  lemma MetricSeriesAreSound(ps: seq<MetricPoint>, rows: seq<Row<(string, string), MetricAgg>>, key: (string, string))
    requires Rising(rows) && Groups(ps, rows)
    requires forall r :: 0 <= r < |rows| ==> Aggregates(rows[r].agg, ps, rows[r].key, rows[r].start)
    ensures BucketsTotal(Of(rows, key), CountOf) == KeyTotal(ps, key, One)
    ensures forall a :: 0 <= a < |Of(rows, key)| ==> Of(rows, key)[a].agg.min <= Of(rows, key)[a].agg.avg <= Of(rows, key)[a].agg.max
  {
    SeriesConservePoints(ps, rows, One, CountOf, key);
    forall a | 0 <= a < |Of(rows, key)|
      ensures Of(rows, key)[a].agg.min <= Of(rows, key)[a].agg.avg <= Of(rows, key)[a].agg.max
    {
      var r := BucketIsRow(rows, key, a);
      AverageIsBetween(rows[r].agg, ps, rows[r].key, rows[r].start);
    }
  }

  // ---------- pings ----------

  datatype Reply = Reply(sent: int, received: int, avgMs: Option<real>)

  type PingPoint = Point<string, Reply>

  // AVG and MAX are null when no sample was reachable.
  datatype PingAgg = PingAgg(sent: int, received: int, avgMs: Option<real>, maxMs: Option<real>, samples: nat)

  function Sent(p: PingPoint): real {
    p.body.sent as real
  }

  function Received(p: PingPoint): real {
    p.body.received as real
  }

  predicate Timed(p: PingPoint) {
    p.body.received > 0 && p.body.avgMs.Some?
  }

  function TimedOne(p: PingPoint): real {
    if Timed(p) then 1.0 else 0.0
  }

  function TimedAvg(p: PingPoint): real {
    if Timed(p) then p.body.avgMs.value else 0.0
  }

  // SUM, AVG over reachable samples, MAX and COUNT of one group.
  ghost predicate PingAggregates(agg: PingAgg, ps: seq<PingPoint>, host: string, start: int)
  {
    && agg.sent as real == GroupTotal(ps, host, start, Sent)
    && agg.received as real == GroupTotal(ps, host, start, Received)
    && agg.samples as real == GroupTotal(ps, host, start, One)
    && var timed := GroupTotal(ps, host, start, TimedOne);
    && (agg.avgMs.Some? ==> timed > 0.0 && agg.avgMs.value * timed == GroupTotal(ps, host, start, TimedAvg))
    && (forall i :: 0 <= i < |ps| && In(ps[i], host, start) && ps[i].body.avgMs.Some?
                    ==> agg.maxMs.Some? && ps[i].body.avgMs.value <= agg.maxMs.value)
  }

  function SentOf(agg: PingAgg): real {
    agg.sent as real
  }

  function ReceivedOf(agg: PingAgg): real {
    agg.received as real
  }

  function SamplesOf(agg: PingAgg): real {
    agg.samples as real
  }

  lemma PingAverageIsBelow(agg: PingAgg, ps: seq<PingPoint>, host: string, start: int)
    requires PingAggregates(agg, ps, host, start) && agg.avgMs.Some? && agg.maxMs.Some?
    ensures agg.avgMs.value <= agg.maxMs.value
  {
    var timed := GroupTotal(ps, host, start, TimedOne);
    var least := Least(ps, agg.maxMs.value);
    TotalsAreBounded(ps, host, start, TimedOne, TimedAvg, least, agg.maxMs.value);
    MeanIsBetween(least, agg.avgMs.value, agg.maxMs.value, timed, GroupTotal(ps, host, start, TimedAvg));
  }

  // A lower bound of the measured averages.
  function Least(ps: seq<PingPoint>, top: real): (lo: real)
    ensures lo <= top
    ensures forall i :: 0 <= i < |ps| && ps[i].body.avgMs.Some? ==> lo <= ps[i].body.avgMs.value
  {
    if ps == [] then top
    else
      var p := ps[|ps| - 1];
      var lo := Least(ps[..|ps| - 1], top);
      if p.body.avgMs.Some? && p.body.avgMs.value < lo then p.body.avgMs.value else lo
  }

  // A host's buckets account for every probe it was sent and every reply.
  lemma PingSeriesAreSound(ps: seq<PingPoint>, rows: seq<Row<string, PingAgg>>, host: string)
    requires Rising(rows) && Groups(ps, rows)
    requires forall r :: 0 <= r < |rows| ==> PingAggregates(rows[r].agg, ps, rows[r].key, rows[r].start)
    ensures BucketsTotal(Of(rows, host), SentOf) == KeyTotal(ps, host, Sent)
    ensures BucketsTotal(Of(rows, host), ReceivedOf) == KeyTotal(ps, host, Received)
    ensures BucketsTotal(Of(rows, host), SamplesOf) == KeyTotal(ps, host, One)
  {
    SeriesConservePoints(ps, rows, Sent, SentOf, host);
    SeriesConservePoints(ps, rows, Received, ReceivedOf, host);
    SeriesConservePoints(ps, rows, One, SamplesOf, host);
  }

  // The samples behind the rows, as the outage query returns them.
  function AsSamples(ps: seq<PingPoint>): (samples: seq<Outages.Sample>)
    ensures |samples| == |ps|
    ensures forall i :: 0 <= i < |ps| ==>
              samples[i] == Outages.Sample(ps[i].key, ps[i].epoch, ps[i].body.sent, ps[i].body.received)
  {
    seq(|ps|, i requires 0 <= i < |ps| => Outages.Sample(ps[i].key, ps[i].epoch, ps[i].body.sent, ps[i].body.received))
  }

  // When both queries select the same samples, no outage goes unreported: a
  // host with an episode has a series to carry it.
  lemma NoOutageUnattached(
      ps: seq<PingPoint>, rows: seq<Row<string, PingAgg>>, out: seq<Series<string, PingAgg>>, host: string)
    requires Groups(ps, rows) && (forall h :: HasSeries(out, h) <==> HasKey(rows, h))
    requires Outages.Reports(AsSamples(ps), |ps|, host) != []
    ensures HasSeries(out, host)
  {
    var samples := AsSamples(ps);
    var e := Outages.Spans(samples, |ps|, host)[0];
    Outages.SpansAreEpisodes(samples, |ps|, host, 0);
    assert samples[e.lo].host == host;
    assert Holds(ps[e.lo], rows);
    var r :| 0 <= r < |rows| && In(ps[e.lo], rows[r].key, rows[r].start);
    assert HasKey(rows, host);
  }
}
