// Packet loss, and the episodes of loss the overview reports per host.
module Outages {
  import opened Options

  datatype Sample = Sample(host: string, ts: int, sent: int, received: int)

  datatype Outage = Outage(start: int, end: int, worstLossPct: int, unreachable: bool)

  // ---------- loss in percent ----------

  // The nearest integer to num / den, halves away from zero.
  function Rounded(num: int, den: int): int
    requires den > 0
  {
    if num >= 0 then (2 * num + den) / (2 * den) else -((den - 2 * num) / (2 * den))
  }

  // The exact value of (1 - received / sent) * 100, rounded.
  function LossPercent(sent: int, received: int): int {
    if sent <= 0 then 0 else Rounded(100 * (sent - received), sent)
  }

  lemma FloorBounds(a: int, b: int)
    requires b > 0
    ensures (a / b) * b <= a < (a / b) * b + b
  {
  }

  lemma Scaled(a: int, b: int, k: int)
    requires k > 0
    ensures a < b <==> a * k < b * k
    ensures a <= b <==> a * k <= b * k
  {
    if a < b {
      assert (b - a) * k > 0;
    } else {
      assert (a - b) * k >= 0;
    }
  }

  lemma AtMostQuotient(p: int, c: int, d: int)
    requires d > 0 && p * d <= c
    ensures p <= c / d
  {
    var q := c / d;
    FloorBounds(c, d);
    assert q * d + d == (q + 1) * d;
    Scaled(p, q + 1, d);
  }

  // a / b <= c / d as fractions keeps the order of the quotients.
  lemma FloorMonotone(a: int, b: int, c: int, d: int)
    requires b > 0 && d > 0 && a * d <= c * b
    ensures a / b <= c / d
  {
    var p := a / b;
    FloorBounds(a, b);
    Scaled(p * b, a, d);
    assert (p * b) * d == (p * d) * b;
    Scaled(p * d, c, b);
    AtMostQuotient(p, c, d);
  }

  // A lower share of replies never reads as less loss.
  lemma LossFollowsRatio(s1: int, r1: int, s2: int, r2: int)
    requires s1 > 0 && s2 > 0 && r1 <= s1 && r2 <= s2
    requires r1 * s2 <= r2 * s1
    ensures LossPercent(s1, r1) >= LossPercent(s2, r2)
  {
    var n1, n2 := 100 * (s1 - r1), 100 * (s2 - r2);
    assert n2 * s1 == 100 * (s2 * s1) - 100 * (r2 * s1);
    assert n1 * s2 == 100 * (s1 * s2) - 100 * (r1 * s2);
    assert (2 * n2 + s2) * (2 * s1) == 4 * (n2 * s1) + 2 * (s2 * s1);
    assert (2 * n1 + s1) * (2 * s2) == 4 * (n1 * s2) + 2 * (s1 * s2);
    FloorMonotone(2 * n2 + s2, 2 * s2, 2 * n1 + s1, 2 * s1);
  }

  // The reported percentage is the nearest to the exact one; a tie goes away
  // from zero. Nothing sent is nothing lost.
  lemma LossIsNearest(sent: int, received: int)
    ensures sent <= 0 ==> LossPercent(sent, received) == 0
    ensures sent > 0 ==>
      var exact := 100 * (sent - received);
      var off := 2 * (exact - LossPercent(sent, received) * sent);
      if exact >= 0 then -sent <= off < sent else -sent < off <= sent
  {
    if sent > 0 {
      LossIsNear(sent, received);
    }
  }

  lemma LossIsNear(sent: int, received: int)
    requires sent > 0
    ensures var exact := 100 * (sent - received);
      var off := 2 * (exact - LossPercent(sent, received) * sent);
      if exact >= 0 then -sent <= off < sent else -sent < off <= sent
  {
    var n := 100 * (sent - received);
    var q := if n >= 0 then (2 * n + sent) / (2 * sent) else (sent - 2 * n) / (2 * sent);
    FloorBounds(if n >= 0 then 2 * n + sent else sent - 2 * n, 2 * sent);
    assert q * (2 * sent) == 2 * (q * sent);
    assert (-q) * sent == -(q * sent);
  }

  lemma LossAtEnds(sent: int)
    requires sent > 0
    ensures LossPercent(sent, 0) == 100 && LossPercent(sent, sent) == 0
  {
    var q := (2 * (100 * sent) + sent) / (2 * sent);
    FloorBounds(2 * (100 * sent) + sent, 2 * sent);
    AtMostQuotient(100, 2 * (100 * sent) + sent, 2 * sent);
    Scaled(q, 101, 2 * sent);
    assert 100 * (sent - sent) == 0 && (2 * 0 + sent) / (2 * sent) == 0;
  }

  lemma LossEnds(sent: int, received: int)
    requires sent > 0 && 0 <= received <= sent
    ensures 0 <= LossPercent(sent, received) <= 100
    ensures received == 0 ==> LossPercent(sent, received) == 100
  {
    LossAtEnds(sent);
    Scaled(0, received, sent);
    Scaled(received, sent, sent);
    LossFollowsRatio(sent, 0, sent, received);
    LossFollowsRatio(sent, received, sent, sent);
  }

  // ---------- episodes ----------

  predicate Degraded(s: Sample) {
    s.received < s.sent
  }

  // Samples lo..hi-1.
  datatype Span = Span(lo: nat, hi: nat)

  // Samples i-1 and i belong to the same episode.
  predicate Continues(ss: seq<Sample>, i: nat)
    requires i < |ss|
  {
    i > 0 && ss[i - 1].host == ss[i].host && Degraded(ss[i - 1]) && Degraded(ss[i])
  }

  // A maximal run of adjacent degraded samples of one host, among the first n.
  predicate Episode(ss: seq<Sample>, n: nat, e: Span, host: string)
    requires n <= |ss|
  {
    && e.lo < e.hi <= n
    && (forall i :: e.lo <= i < e.hi ==> ss[i].host == host && Degraded(ss[i]))
    && !Continues(ss, e.lo)
    && (e.hi < n ==> !Continues(ss, e.hi))
  }

  // Those of `host` among the first n samples, in order.
  function Spans(ss: seq<Sample>, n: nat, host: string): (spans: seq<Span>)
    requires n <= |ss|
    ensures n > 0 && ss[n - 1].host == host && Degraded(ss[n - 1]) ==> spans != [] && spans[|spans| - 1].hi == n
  {
    if n == 0 then []
    else
      var before := Spans(ss, n - 1, host);
      if ss[n - 1].host != host || !Degraded(ss[n - 1]) then before
      else if Continues(ss, n - 1) then before[..|before| - 1] + [before[|before| - 1].(hi := n)]
      else before + [Span(n - 1, n)]
  }

  predicate Ordered(spans: seq<Span>, n: nat) {
    && (forall k :: 0 <= k < |spans| ==> spans[k].lo < spans[k].hi <= n)
    && (forall j, k :: 0 <= j < k < |spans| ==> spans[j].hi <= spans[k].lo)
  }

  lemma LastGrows(spans: seq<Span>, n: nat)
    requires Ordered(spans, n) && spans != [] && spans[|spans| - 1].hi == n
    ensures Ordered(spans[..|spans| - 1] + [spans[|spans| - 1].(hi := n + 1)], n + 1)
  {
  }

  lemma OneMore(spans: seq<Span>, n: nat)
    requires Ordered(spans, n)
    ensures Ordered(spans + [Span(n, n + 1)], n + 1)
  {
  }

  lemma LastIsOpen(ss: seq<Sample>, n: nat, host: string)
    requires n < |ss| && ss[n].host == host && Continues(ss, n)
    ensures var spans := Spans(ss, n, host);
      spans != [] && spans[|spans| - 1].hi == n
  {
  }

  lemma {:induction false} SpansAreOrdered(ss: seq<Sample>, n: nat, host: string)
    requires n <= |ss|
    ensures Ordered(Spans(ss, n, host), n)
  {
    if n == 0 {
    } else {
      SpansAreOrdered(ss, n - 1, host);
      OrderedStep(ss, n - 1, host, Spans(ss, n - 1, host));
    }
  }

  lemma OrderedStep(ss: seq<Sample>, n: nat, host: string, before: seq<Span>)
    requires n < |ss| && before == Spans(ss, n, host) && Ordered(before, n)
    ensures Ordered(Spans(ss, n + 1, host), n + 1)
  {
    if ss[n].host == host && Degraded(ss[n]) {
      if Continues(ss, n) {
        LastIsOpen(ss, n, host);
        LastGrows(before, n);
      } else {
        OneMore(before, n);
      }
    }
  }

  lemma EpisodeStays(ss: seq<Sample>, n: nat, e: Span, host: string)
    requires n < |ss| && Episode(ss, n, e, host) && (e.hi == n ==> !Continues(ss, n))
    ensures Episode(ss, n + 1, e, host)
  {
  }

  lemma EpisodeGrows(ss: seq<Sample>, n: nat, e: Span, host: string)
    requires n < |ss| && Episode(ss, n, e, host) && e.hi == n && Continues(ss, n)
    ensures Episode(ss, n + 1, e.(hi := n + 1), host)
  {
  }

  lemma SpanBeforeLast(ss: seq<Sample>, n: nat, host: string, k: nat)
    requires n <= |ss| && k + 1 < |Spans(ss, n, host)|
    ensures Spans(ss, n, host)[k].hi < n
  {
    SpansAreOrdered(ss, n, host);
  }

  lemma {:induction false} SpansAreEpisodes(ss: seq<Sample>, n: nat, host: string, k: nat)
    requires n <= |ss| && k < |Spans(ss, n, host)|
    ensures Episode(ss, n, Spans(ss, n, host)[k], host)
  {
    var before := Spans(ss, n - 1, host);
    if ss[n - 1].host != host || !Degraded(ss[n - 1]) {
      SpansAreEpisodes(ss, n - 1, host, k);
      EpisodeStays(ss, n - 1, before[k], host);
    } else if Continues(ss, n - 1) {
      SpansAreEpisodes(ss, n - 1, host, k);
      if k == |before| - 1 {
        EpisodeGrows(ss, n - 1, before[k], host);
      } else {
        SpanBeforeLast(ss, n - 1, host, k);
        EpisodeStays(ss, n - 1, before[k], host);
      }
    } else if k < |before| {
      SpansAreEpisodes(ss, n - 1, host, k);
      EpisodeStays(ss, n - 1, before[k], host);
    }
  }

  lemma EpisodeShrinks(ss: seq<Sample>, n: nat, e: Span, host: string)
    requires n < |ss| && Episode(ss, n + 1, e, host)
    ensures e.hi <= n ==> Episode(ss, n, e, host)
    ensures e.hi == n + 1 && e.lo < n ==> Continues(ss, n) && Episode(ss, n, e.(hi := n), host)
  {
    if e.hi == n + 1 && e.lo < n {
      assert Degraded(ss[n - 1]) && Degraded(ss[n]);
    }
  }

  predicate IsSpan(ss: seq<Sample>, n: nat, host: string, k: nat, e: Span)
    requires n <= |ss|
  {
    k < |Spans(ss, n, host)| && Spans(ss, n, host)[k] == e
  }

  lemma SpanKept(ss: seq<Sample>, n: nat, host: string, k: nat, e: Span)
    requires 0 < n <= |ss| && IsSpan(ss, n - 1, host, k, e) && (e.hi == n - 1 ==> !Continues(ss, n - 1))
    ensures IsSpan(ss, n, host, k, e)
  {
  }

  lemma SpanBegins(ss: seq<Sample>, n: nat, host: string)
    requires 0 < n <= |ss| && ss[n - 1].host == host && Degraded(ss[n - 1]) && !Continues(ss, n - 1)
    ensures IsSpan(ss, n, host, |Spans(ss, n - 1, host)|, Span(n - 1, n))
  {
  }

  // The last span ends at n - 1 and takes one sample more.
  lemma SpanGrows(ss: seq<Sample>, n: nat, host: string, k: nat, e: Span)
    requires 0 < n <= |ss| && IsSpan(ss, n - 1, host, k, e) && e.hi == n - 1
    requires ss[n - 1].host == host && Continues(ss, n - 1)
    ensures IsSpan(ss, n, host, k, e.(hi := n))
  {
    if k + 1 < |Spans(ss, n - 1, host)| {
      SpanBeforeLast(ss, n - 1, host, k);
    }
  }

  // Nothing is missed: each episode is one of the spans.
  lemma {:induction false} EpisodesAreSpans(ss: seq<Sample>, n: nat, host: string, e: Span) returns (k: nat)
    requires n <= |ss| && Episode(ss, n, e, host)
    ensures IsSpan(ss, n, host, k, e)
  {
    EpisodeShrinks(ss, n - 1, e, host);
    if e.hi < n {
      k := EpisodesAreSpans(ss, n - 1, host, e);
      SpanKept(ss, n, host, k, e);
    } else if e.lo == n - 1 {
      k := |Spans(ss, n - 1, host)|;
      SpanBegins(ss, n, host);
    } else {
      var shorter := e.(hi := n - 1);
      k := EpisodesAreSpans(ss, n - 1, host, shorter);
      SpanGrows(ss, n, host, k, shorter);
    }
  }

  predicate Inside(i: nat, e: Span) {
    e.lo <= i < e.hi
  }

  // Sample i lies in the k-th episode of host.
  predicate LiesIn(ss: seq<Sample>, i: nat, host: string, k: nat) {
    k < |Spans(ss, |ss|, host)| && Inside(i, Spans(ss, |ss|, host)[k])
  }

  // A sample lies in an episode exactly when it is degraded, in one episode
  // only, and in one of its own host.
  lemma EachLossOnce(ss: seq<Sample>, i: nat)
    requires i < |ss|
    ensures Degraded(ss[i]) <==> exists k: nat :: LiesIn(ss, i, ss[i].host, k)
    ensures forall host, k: nat :: LiesIn(ss, i, host, k) ==> host == ss[i].host
    ensures forall j: nat, k: nat :: LiesIn(ss, i, ss[i].host, j) && LiesIn(ss, i, ss[i].host, k) ==> j == k
  {
    SpansAreOrdered(ss, |ss|, ss[i].host);
    forall host, k: nat | LiesIn(ss, i, host, k)
      ensures host == ss[i].host && Degraded(ss[i])
    {
      SpansAreEpisodes(ss, |ss|, host, k);
    }
    if Degraded(ss[i]) {
      var e := Around(ss, i);
      var k := EpisodesAreSpans(ss, |ss|, ss[i].host, e);
      assert LiesIn(ss, i, ss[i].host, k);
    }
  }

  lemma Around(ss: seq<Sample>, i: nat) returns (e: Span)
    requires i < |ss| && Degraded(ss[i])
    ensures Episode(ss, |ss|, e, ss[i].host) && Inside(i, e)
  {
    var lo, hi := i, i + 1;
    while Continues(ss, lo)
      invariant 0 <= lo <= i
      invariant forall k :: lo <= k <= i ==> ss[k].host == ss[i].host && Degraded(ss[k])
      decreases lo
    {
      lo := lo - 1;
    }
    while hi < |ss| && Continues(ss, hi)
      invariant i < hi <= |ss|
      invariant forall k :: i <= k < hi ==> ss[k].host == ss[i].host && Degraded(ss[k])
    {
      hi := hi + 1;
    }
    e := Span(lo, hi);
  }

  // Samples come grouped by host.
  predicate Grouped(ss: seq<Sample>) {
    forall i, j, k :: 0 <= i < j < k < |ss| && ss[i].host == ss[k].host ==> ss[j].host == ss[i].host
  }

  // Two episodes of a host have a healthy sample of that host between them: a
  // recovery and a new failure are never reported as one.
  lemma EpisodesAreApart(ss: seq<Sample>, host: string, j: nat, k: nat)
    requires Grouped(ss) && j < k < |Spans(ss, |ss|, host)|
    ensures Spans(ss, |ss|, host)[j].hi < Spans(ss, |ss|, host)[k].lo <= |ss|
    ensures exists i :: Spans(ss, |ss|, host)[j].hi <= i < Spans(ss, |ss|, host)[k].lo && ss[i].host == host && !Degraded(ss[i])
  {
    SpansAreOrdered(ss, |ss|, host);
    SpansAreEpisodes(ss, |ss|, host, j);
    SpansAreEpisodes(ss, |ss|, host, k);
    var a, b := Spans(ss, |ss|, host)[j], Spans(ss, |ss|, host)[k];
    assert ss[a.lo].host == ss[b.lo].host;
    assert ss[a.hi - 1].host == host && ss[a.hi].host == host;
  }

  // ---------- what an episode reports ----------

  function Loss(s: Sample): int {
    LossPercent(s.sent, s.received)
  }

  function Worst(ss: seq<Sample>, lo: nat, hi: nat): (w: int)
    requires lo < hi <= |ss|
    ensures forall i :: lo <= i < hi ==> Loss(ss[i]) <= w
    ensures exists i :: lo <= i < hi && Loss(ss[i]) == w
  {
    if hi == lo + 1 then Loss(ss[lo])
    else
      var before := Worst(ss, lo, hi - 1);
      if Loss(ss[hi - 1]) > before then Loss(ss[hi - 1]) else before
  }

  predicate Unanswered(ss: seq<Sample>, lo: nat, hi: nat)
    requires hi <= |ss|
  {
    exists i :: lo <= i < hi && ss[i].received == 0
  }

  function Report(ss: seq<Sample>, e: Span): Outage
    requires e.lo < e.hi <= |ss|
  {
    Outage(ss[e.lo].ts, ss[e.hi - 1].ts, Worst(ss, e.lo, e.hi), Unanswered(ss, e.lo, e.hi))
  }

  // The worst loss is that of the sample with the least share of replies; an
  // unreachable episode reports 100.
  lemma WorstIsLeastRatio(ss: seq<Sample>, e: Span, host: string, k: nat)
    requires Episode(ss, |ss|, e, host) && Inside(k, e)
    requires forall i :: e.lo <= i < e.hi ==> ss[i].received >= 0
    requires forall i :: e.lo <= i < e.hi ==> ss[k].received * ss[i].sent <= ss[i].received * ss[k].sent
    ensures Report(ss, e).worstLossPct == Loss(ss[k])
    ensures Report(ss, e).unreachable <==> ss[k].received == 0
    ensures Report(ss, e).unreachable ==> Report(ss, e).worstLossPct == 100
    ensures 0 <= Report(ss, e).worstLossPct <= 100
  {
    forall i | e.lo <= i < e.hi
      ensures Loss(ss[i]) <= Loss(ss[k]) && (ss[i].received == 0 ==> ss[k].received == 0)
    {
      assert Degraded(ss[i]) && Degraded(ss[k]);
      LossFollowsRatio(ss[k].sent, ss[k].received, ss[i].sent, ss[i].received);
      if ss[i].received == 0 && ss[k].received > 0 {
        Scaled(0, ss[k].received, ss[i].sent);
      }
    }
    assert Degraded(ss[k]);
    LossEnds(ss[k].sent, ss[k].received);
  }

  predicate WellPlaced(ss: seq<Sample>, spans: seq<Span>) {
    forall k :: 0 <= k < |spans| ==> spans[k].lo < spans[k].hi <= |ss|
  }

  function ReportAll(ss: seq<Sample>, spans: seq<Span>): (out: seq<Outage>)
    requires WellPlaced(ss, spans)
    ensures |out| == |spans|
  {
    seq(|spans|, k requires 0 <= k < |spans| => Report(ss, spans[k]))
  }

  lemma ReportOneMore(ss: seq<Sample>, spans: seq<Span>, e: Span)
    requires WellPlaced(ss, spans) && e.lo < e.hi <= |ss|
    ensures ReportAll(ss, spans + [e]) == ReportAll(ss, spans) + [Report(ss, e)]
  {
  }

  // The outages of one host among the first n samples.
  function Reports(ss: seq<Sample>, n: nat, host: string): (out: seq<Outage>)
    requires n <= |ss|
    ensures |out| == |Spans(ss, n, host)|
  {
    SpansAreOrdered(ss, n, host);
    ReportAll(ss, Spans(ss, n, host))
  }

  function Begun(s: Sample): Outage {
    Outage(s.ts, s.ts, Loss(s), s.received == 0)
  }

  function Extended(o: Outage, s: Sample): Outage {
    Outage(o.start, s.ts, if Loss(s) > o.worstLossPct then Loss(s) else o.worstLossPct, o.unreachable || s.received == 0)
  }

  function LastExtended(before: seq<Outage>, s: Sample): seq<Outage>
    requires before != []
  {
    before[..|before| - 1] + [Extended(before[|before| - 1], s)]
  }

  lemma ReportGrows(ss: seq<Sample>, e: Span)
    requires e.lo < e.hi < |ss|
    ensures Report(ss, e.(hi := e.hi + 1)) == Extended(Report(ss, e), ss[e.hi])
  {
    assert Unanswered(ss, e.lo, e.hi + 1) <==> Unanswered(ss, e.lo, e.hi) || ss[e.hi].received == 0;
  }

  lemma ReportAllGrows(ss: seq<Sample>, spans: seq<Span>, i: nat)
    requires WellPlaced(ss, spans) && spans != [] && spans[|spans| - 1].hi == i < |ss|
    ensures ReportAll(ss, spans[..|spans| - 1] + [spans[|spans| - 1].(hi := i + 1)]) == LastExtended(ReportAll(ss, spans), ss[i])
  {
    ReportGrows(ss, spans[|spans| - 1]);
  }

  // One sample more: another host's reports stay and a healthy sample adds
  // nothing; a degraded one extends the open episode or begins one.
  lemma ReportsStay(ss: seq<Sample>, i: nat, host: string)
    requires i < |ss| && (ss[i].host != host || !Degraded(ss[i]))
    ensures Reports(ss, i + 1, host) == Reports(ss, i, host)
  {
    SpansAreOrdered(ss, i, host);
  }

  lemma ReportsExtend(ss: seq<Sample>, i: nat, host: string)
    requires i < |ss| && ss[i].host == host && Continues(ss, i)
    ensures Reports(ss, i, host) != [] && Reports(ss, i + 1, host) == LastExtended(Reports(ss, i, host), ss[i])
  {
    SpansAreOrdered(ss, i, host);
    ReportAllGrows(ss, Spans(ss, i, host), i);
  }

  lemma ReportsBegin(ss: seq<Sample>, i: nat, host: string)
    requires i < |ss| && ss[i].host == host && Degraded(ss[i]) && !Continues(ss, i)
    ensures Reports(ss, i + 1, host) == Reports(ss, i, host) + [Begun(ss[i])]
  {
    SpansAreOrdered(ss, i, host);
    ReportOneMore(ss, Spans(ss, i, host), Span(i, i + 1));
    assert Report(ss, Span(i, i + 1)) == Begun(ss[i]);
  }

  lemma ReportsTake(ss: seq<Sample>, i: nat, host: string)
    requires i < |ss|
    ensures ss[i].host != host || !Degraded(ss[i]) ==> Reports(ss, i + 1, host) == Reports(ss, i, host)
    ensures ss[i].host == host && Continues(ss, i) ==>
              Reports(ss, i, host) != [] && Reports(ss, i + 1, host) == LastExtended(Reports(ss, i, host), ss[i])
    ensures ss[i].host == host && Degraded(ss[i]) && !Continues(ss, i) ==>
              Reports(ss, i + 1, host) == Reports(ss, i, host) + [Begun(ss[i])]
  {
    if ss[i].host != host || !Degraded(ss[i]) {
      ReportsStay(ss, i, host);
    } else if Continues(ss, i) {
      ReportsExtend(ss, i, host);
    } else {
      ReportsBegin(ss, i, host);
    }
  }

  // ---------- what the reports say of the samples ----------

  // The samples from lo to hi - 1 are one host's, each lost replies, and
  // neither neighbour belongs to them.
  predicate IsLoss(ss: seq<Sample>, lo: nat, hi: nat, host: string) {
    && lo < hi <= |ss|
    && (forall i :: lo <= i < hi ==> ss[i].host == host && ss[i].received < ss[i].sent)
    && (lo > 0 ==> ss[lo - 1].host != host || ss[lo - 1].received >= ss[lo - 1].sent)
    && (hi < |ss| ==> ss[hi].host != host || ss[hi].received >= ss[hi].sent)
  }

  // It begins and ends with those samples, and shows the worst of them.
  predicate Tells(o: Outage, ss: seq<Sample>, lo: nat, hi: nat)
    requires lo < hi <= |ss|
  {
    && o.start == ss[lo].ts && o.end == ss[hi - 1].ts
    && (o.unreachable <==> exists i :: lo <= i < hi && ss[i].received == 0)
    && (forall i :: lo <= i < hi ==> LossPercent(ss[i].sent, ss[i].received) <= o.worstLossPct)
    && (exists i :: lo <= i < hi && LossPercent(ss[i].sent, ss[i].received) == o.worstLossPct)
  }

  predicate TellsEach(outages: seq<Outage>, ss: seq<Sample>, host: string, spans: seq<Span>) {
    && |outages| == |spans|
    && (forall k :: 0 <= k < |spans| ==> IsLoss(ss, spans[k].lo, spans[k].hi, host) && Tells(outages[k], ss, spans[k].lo, spans[k].hi))
    && (forall j, k :: 0 <= j < k < |spans| ==> spans[j].hi <= spans[k].lo)
  }

  // One report for each maximal loss of the host, in the order they happened,
  // and no other.
  ghost predicate TellsAll(outages: seq<Outage>, ss: seq<Sample>, host: string) {
    exists spans :: TellsEach(outages, ss, host, spans)
                    && forall lo: nat, hi: nat :: IsLoss(ss, lo, hi, host) ==> Span(lo, hi) in spans
  }

  lemma LossIsEpisode(ss: seq<Sample>, e: Span, host: string)
    ensures Episode(ss, |ss|, e, host) <==> IsLoss(ss, e.lo, e.hi, host)
  {
  }

  lemma ReportTells(ss: seq<Sample>, e: Span)
    requires e.lo < e.hi <= |ss|
    ensures Tells(Report(ss, e), ss, e.lo, e.hi)
  {
    var i :| e.lo <= i < e.hi && Loss(ss[i]) == Worst(ss, e.lo, e.hi);
    assert forall j :: e.lo <= j < e.hi ==> Loss(ss[j]) == LossPercent(ss[j].sent, ss[j].received);
  }

  lemma ReportsTellAll(ss: seq<Sample>, host: string)
    ensures TellsAll(Reports(ss, |ss|, host), ss, host)
  {
    var spans, outages := Spans(ss, |ss|, host), Reports(ss, |ss|, host);
    SpansAreOrdered(ss, |ss|, host);
    forall k | 0 <= k < |spans|
      ensures IsLoss(ss, spans[k].lo, spans[k].hi, host) && Tells(outages[k], ss, spans[k].lo, spans[k].hi)
    {
      SpansAreEpisodes(ss, |ss|, host, k);
      LossIsEpisode(ss, spans[k], host);
      ReportTells(ss, spans[k]);
    }
    forall lo: nat, hi: nat | IsLoss(ss, lo, hi, host)
      ensures Span(lo, hi) in spans
    {
      LossIsEpisode(ss, Span(lo, hi), host);
      var k := EpisodesAreSpans(ss, |ss|, host, Span(lo, hi));
    }
    assert TellsEach(outages, ss, host, spans);
  }

  // ---------- the loop ----------

  // Indexing a Go map of slices.
  function Of(out: map<string, seq<Outage>>, host: string): seq<Outage> {
    if host in out then out[host] else []
  }

  function Flushed(out: map<string, seq<Outage>>, cur: Option<Outage>, curHost: string): map<string, seq<Outage>> {
    if cur.Some? then out[curHost := Of(out, curHost) + [cur.value]] else out
  }

  ghost predicate NoEmpty(out: map<string, seq<Outage>>) {
    forall host :: host in out ==> out[host] != []
  }

  lemma FlushedAt(out: map<string, seq<Outage>>, cur: Option<Outage>, curHost: string, host: string)
    ensures Of(Flushed(out, cur, curHost), host)
         == if cur.Some? && host == curHost then Of(out, host) + [cur.value] else Of(out, host)
  {
  }

  ghost predicate Tracks(ss: seq<Sample>, i: nat, out: map<string, seq<Outage>>, cur: Option<Outage>, curHost: string)
    requires i <= |ss|
  {
    && NoEmpty(out)
    && forall host :: Of(Flushed(out, cur, curHost), host) == Reports(ss, i, host)
  }

  lemma TracksHealthy(ss: seq<Sample>, i: nat, out: map<string, seq<Outage>>)
    requires i < |ss| && !Degraded(ss[i]) && Tracks(ss, i, out, None, ss[i].host)
    ensures Tracks(ss, i + 1, out, None, ss[i].host)
  {
    forall host
      ensures Of(Flushed(out, None, ss[i].host), host) == Reports(ss, i + 1, host)
    {
      ReportsTake(ss, i, host);
    }
  }

  lemma TracksFirst(ss: seq<Sample>, i: nat, out: map<string, seq<Outage>>)
    requires i < |ss| && Degraded(ss[i]) && !Continues(ss, i) && Tracks(ss, i, out, None, ss[i].host)
    ensures Tracks(ss, i + 1, out, Some(Begun(ss[i])), ss[i].host)
  {
    forall host
      ensures Of(Flushed(out, Some(Begun(ss[i])), ss[i].host), host) == Reports(ss, i + 1, host)
    {
      ReportsTake(ss, i, host);
      FlushedAt(out, None, ss[i].host, host);
      FlushedAt(out, Some(Begun(ss[i])), ss[i].host, host);
    }
  }

  lemma TracksNext(ss: seq<Sample>, i: nat, out: map<string, seq<Outage>>, cur: Outage)
    requires i < |ss| && Continues(ss, i) && Tracks(ss, i, out, Some(cur), ss[i].host)
    ensures Tracks(ss, i + 1, out, Some(Extended(cur, ss[i])), ss[i].host)
  {
    forall host
      ensures Of(Flushed(out, Some(Extended(cur, ss[i])), ss[i].host), host) == Reports(ss, i + 1, host)
    {
      ReportsTake(ss, i, host);
      FlushedAt(out, Some(cur), ss[i].host, host);
      FlushedAt(out, Some(Extended(cur, ss[i])), ss[i].host, host);
    }
  }

  method CollapseOutages(samples: seq<Sample>) returns (out: map<string, seq<Outage>>)
    ensures forall host :: Of(out, host) == Reports(samples, |samples|, host)
    ensures forall host :: host in out ==> out[host] != []
    ensures forall host :: TellsAll(Of(out, host), samples, host)
  {
    out := map[];
    var cur: Option<Outage>, curHost := None, "";
    for i := 0 to |samples|
      invariant Tracks(samples, i, out, cur, curHost)
      invariant i > 0 ==> curHost == samples[i - 1].host
      invariant cur.Some? <==> i > 0 && Degraded(samples[i - 1])
    {
      var s := samples[i];
      if s.host != curHost {
        out, cur := Flushed(out, cur, curHost), None;
        curHost := s.host;
      }
      if s.received >= s.sent {
        out, cur := Flushed(out, cur, curHost), None;
        TracksHealthy(samples, i, out);
        continue;
      }
      var lossPct := LossPercent(s.sent, s.received);
      if cur.None? {
        TracksFirst(samples, i, out);
        cur := Some(Outage(s.ts, s.ts, lossPct, s.received == 0));
        continue;
      }
      TracksNext(samples, i, out, cur.value);
      var c := cur.value.(end := s.ts);
      if lossPct > c.worstLossPct {
        c := c.(worstLossPct := lossPct);
      }
      if s.received == 0 {
        c := c.(unreachable := true);
      }
      cur := Some(c);
    }
    out := Flushed(out, cur, curHost);
    forall host
      ensures TellsAll(Of(out, host), samples, host)
    {
      ReportsTellAll(samples, host);
    }
  }
}
