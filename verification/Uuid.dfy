// Time-ordered row ids: the UUIDv7 text encoding and the shared monotonic
// generator behind it. Bytes are integers below 256; `x >> k` is division by
// a power of two (rounding down) and a conversion to a byte is `% 256`, which
// on Dafny's integers is also what Go does to negative operands.
module Uuid {
  import opened Instants
  import opened Options

  type Byte = b: int | 0 <= b < 256

  const MAX_COUNTER: int := 0x0FFF
  const MS_SPAN: int := 0x1_0000_0000_0000
  const TAIL_SPAN: int := 0x100_0000_0000_0000

  // ---------- what an id encodes ----------

  // An id as the three fields it carries; `rand` is the 62-bit rand_b.
  datatype Stamp = Stamp(ms: int, counter: int, rand: int)

  predicate Canonical(s: Stamp) {
    && 0 <= s.ms < MS_SPAN
    && 0 <= s.counter <= MAX_COUNTER
    && 0 <= s.rand < 64 * TAIL_SPAN
  }

  predicate Less(a: Stamp, b: Stamp) {
    a.ms < b.ms || (a.ms == b.ms && (a.counter < b.counter || (a.counter == b.counter && a.rand < b.rand)))
  }

  // ---------- big-endian bytes ----------

  function Power256(n: nat): nat {
    if n == 0 then 1 else 256 * Power256(n - 1)
  }

  function Value(bs: seq<Byte>): nat {
    if bs == [] then 0 else bs[0] * Power256(|bs| - 1) + Value(bs[1..])
  }

  function BigEndian(x: nat, n: nat): (bs: seq<Byte>)
    ensures |bs| == n
  {
    if n == 0 then [] else BigEndian(x / 256, n - 1) + [x % 256]
  }

  lemma ProductMonotone(a: int, b: int, k: int)
    requires a <= b && 0 <= k
    ensures a * k <= b * k
  {
  }

  lemma {:induction false} ValueBound(bs: seq<Byte>)
    ensures Value(bs) < Power256(|bs|)
  {
    if bs == [] {
    } else {
      ValueBound(bs[1..]);
      ProductMonotone(bs[0], 255, Power256(|bs| - 1));
    }
  }

  lemma {:induction false} ValueSnoc(bs: seq<Byte>, b: Byte)
    ensures Value(bs + [b]) == Value(bs) * 256 + b
  {
    if bs == [] {
      assert Value([b]) == b * Power256(0) + Value([]);
    } else {
      ValueSnoc(bs[1..], b);
      assert (bs + [b])[1..] == bs[1..] + [b];
      assert Power256(|bs|) == 256 * Power256(|bs| - 1);
      assert bs[0] * Power256(|bs|) == 256 * (bs[0] * Power256(|bs| - 1));
    }
  }

  lemma {:induction false} ValueOfBigEndian(x: nat, n: nat)
    requires x < Power256(n)
    ensures Value(BigEndian(x, n)) == x
  {
    if n != 0 {
      assert x / 256 < Power256(n - 1);
      ValueOfBigEndian(x / 256, n - 1);
      ValueSnoc(BigEndian(x / 256, n - 1), x % 256);
    }
  }

  lemma {:induction false} BigEndianOfValue(bs: seq<Byte>)
    ensures BigEndian(Value(bs), |bs|) == bs
  {
    if bs == [] {
    } else {
      var init, last := bs[..|bs| - 1], bs[|bs| - 1];
      assert bs == init + [last];
      ValueSnoc(init, last);
      BigEndianOfValue(init);
    }
  }

  // ---------- text ----------

  function HexDigit(d: int): (c: char)
    requires 0 <= d < 16
    ensures c != '-'
  {
    if d < 10 then ('0' as int + d) as char else ('a' as int + d - 10) as char
  }

  function HexByte(b: Byte): string {
    [HexDigit(b / 16), HexDigit(b % 16)]
  }

  function Hex(bs: seq<Byte>): (s: string)
    ensures |s| == 2 * |bs|
    ensures '-' !in s
  {
    if bs == [] then "" else HexByte(bs[0]) + Hex(bs[1..])
  }

  // Where the five groups end.
  const CUTS: seq<nat> := [4, 6, 8, 10, 16]

  function FormatTo(bs: seq<Byte>, k: nat): string
    requires |bs| == 16 && k < 5
  {
    if k == 0 then Hex(bs[0..4]) else FormatTo(bs, k - 1) + "-" + Hex(bs[CUTS[k - 1]..CUTS[k]])
  }

  // Canonical 8-4-4-4-12 text of sixteen bytes.
  function Format(bs: seq<Byte>): string
    requires |bs| == 16
  {
    FormatTo(bs, 4)
  }

  predicate IsLowerHex(c: char) {
    '0' <= c <= '9' || 'a' <= c <= 'f'
  }

  lemma {:induction false} HexIsLower(bs: seq<Byte>)
    ensures forall i :: 0 <= i < |Hex(bs)| ==> IsLowerHex(Hex(bs)[i])
  {
    if bs == [] {
    } else {
      HexIsLower(bs[1..]);
      assert Hex(bs) == HexByte(bs[0]) + Hex(bs[1..]);
    }
  }

  const DASHES: set<int> := {8, 13, 18, 23}

  // The canonical form: 36 characters, dashes after the 8th, 12th, 16th and
  // 20th digit, every digit in lower case.
  lemma FormatShape(bs: seq<Byte>)
    requires |bs| == 16
    ensures |Format(bs)| == 36
    ensures forall i :: 0 <= i < 36 ==> if i in DASHES then Format(bs)[i] == '-' else IsLowerHex(Format(bs)[i])
  {
    var a, b, c, d, e := Hex(bs[0..4]), Hex(bs[4..6]), Hex(bs[6..8]), Hex(bs[8..10]), Hex(bs[10..16]);
    HexIsLower(bs[0..4]);
    HexIsLower(bs[4..6]);
    HexIsLower(bs[6..8]);
    HexIsLower(bs[8..10]);
    HexIsLower(bs[10..16]);
    assert FormatTo(bs, 1) == a + "-" + b;
    assert FormatTo(bs, 2) == FormatTo(bs, 1) + "-" + c;
    assert FormatTo(bs, 3) == FormatTo(bs, 2) + "-" + d;
    assert FormatTo(bs, 4) == FormatTo(bs, 3) + "-" + e;
  }

  // The six timestamp bytes exactly as the code shifts them out; `ms` may be
  // negative.
  function ShiftBytes(ms: int): (bs: seq<Byte>)
    ensures |bs| == 6
  {
    [(ms / 0x100_0000_0000) % 256, (ms / 0x1_0000_0000) % 256, (ms / 0x100_0000) % 256,
     (ms / 0x1_0000) % 256, (ms / 0x100) % 256, ms % 256]
  }

  // Section 5.7 of RFC 9562: 48 timestamp bits, version 7, 12 bits of rand_a
  // (here the counter), variant 10, 62 bits of rand_b.
  function Layout(s: Stamp): (bs: seq<Byte>)
    requires Canonical(s)
    ensures |bs| == 16
    ensures bs[6] / 16 == 7 && bs[8] / 64 == 2
  {
    BigEndian(s.ms, 6) + [0x70 + s.counter / 256, s.counter % 256]
      + [0x80 + s.rand / TAIL_SPAN] + BigEndian(s.rand % TAIL_SPAN, 7)
  }

  function Text(s: Stamp): string
    requires Canonical(s)
  {
    Format(Layout(s))
  }

  lemma ShiftBytesAreBigEndian(ms: int)
    ensures ShiftBytes(ms) == BigEndian(ms % MS_SPAN, 6)
  {
    var x := ms % MS_SPAN;
    var q := ms / MS_SPAN;
    assert ms == q * MS_SPAN + x;
    ShiftMod(ms, x, q, 0x100_0000_0000, 1);
    ShiftMod(ms, x, q, 0x1_0000_0000, 0x100);
    ShiftMod(ms, x, q, 0x100_0000, 0x1_0000);
    ShiftMod(ms, x, q, 0x1_0000, 0x100_0000);
    ShiftMod(ms, x, q, 0x100, 0x1_0000_0000);
    ShiftMod(ms, x, q, 1, 0x100_0000_0000);
    SixDigits(x);
  }

  // Shifting right by `d` and keeping one byte never sees bits above the span.
  lemma ShiftMod(ms: int, x: int, q: int, d: int, e: int)
    requires ms == q * MS_SPAN + x
    requires 0 < d && d * e * 256 == MS_SPAN
    ensures (ms / d) % 256 == (x / d) % 256
  {
    var m := q * e * 256;
    assert m * d == q * MS_SPAN by {
      assert m * d == q * (d * e * 256);
    }
    QuotientShift(x, m, d);
    assert ms / d == m + x / d;
    assert (m + x / d) % 256 == (x / d) % 256 by { RemainderShift(x / d, q * e); }
  }

  lemma QuotientShift(x: int, m: int, d: int)
    requires 0 < d
    ensures (m * d + x) / d == m + x / d
  {
    var q, r := x / d, x % d;
    var y := m * d + x;
    var p := y / d - (m + q);
    assert (m + q) * d == m * d + q * d;
    assert p * d == (y / d) * d - (m + q) * d;
    assert p * d == r - y % d;
    if p >= 1 {
      ProductMonotone(1, p, d);
    } else if p <= -1 {
      ProductMonotone(p, -1, d);
    }
  }

  lemma RemainderShift(x: int, k: int)
    ensures (k * 256 + x) % 256 == x % 256
  {
  }

  lemma SixDigits(x: nat)
    requires x < MS_SPAN
    ensures BigEndian(x, 6) ==
      [(x / 0x100_0000_0000) % 256, (x / 0x1_0000_0000) % 256, (x / 0x100_0000) % 256,
       (x / 0x1_0000) % 256, (x / 0x100) % 256, x % 256]
  {
    assert x / 0x100 / 256 == x / 0x1_0000;
    assert x / 0x1_0000 / 256 == x / 0x100_0000;
    assert x / 0x100_0000 / 256 == x / 0x1_0000_0000;
    assert x / 0x1_0000_0000 / 256 == x / 0x100_0000_0000;
    var a, b, c, d, e := x / 256, x / 0x1_0000, x / 0x100_0000, x / 0x1_0000_0000, x / 0x100_0000_0000;
    assert BigEndian(e, 1) == [e % 256];
    assert BigEndian(d, 2) == BigEndian(e, 1) + [d % 256];
    assert BigEndian(c, 3) == BigEndian(d, 2) + [c % 256];
    assert BigEndian(b, 4) == BigEndian(c, 3) + [b % 256];
    assert BigEndian(a, 5) == BigEndian(b, 4) + [a % 256];
    assert BigEndian(x, 6) == BigEndian(a, 5) + [x % 256];
  }

  // ---------- order ----------

  // Byte-wise string order, as Go's `<` and SQLite's default collation have it.
  predicate Before(a: string, b: string) {
    b != "" && (a == "" || a[0] < b[0] || (a[0] == b[0] && Before(a[1..], b[1..])))
  }

  // Two equally long texts compare the way two numbers do.
  predicate Alike(u: string, v: string, p: int, q: int) {
    && |u| == |v|
    && (Before(u, v) <==> p < q)
    && (u == v <==> p == q)
  }

  lemma {:induction false} BeforeConcat(u: string, v: string, x: string, y: string)
    requires |u| == |v|
    ensures Before(u + x, v + y) <==> Before(u, v) || (u == v && Before(x, y))
  {
    if u == "" {
      assert u + x == x && v + y == y;
    } else {
      assert (u + x)[1..] == u[1..] + x && (v + y)[1..] == v[1..] + y;
      BeforeConcat(u[1..], v[1..], x, y);
      assert u == v <==> u[0] == v[0] && u[1..] == v[1..] by {
        assert u == [u[0]] + u[1..] && v == [v[0]] + v[1..];
      }
    }
  }

  lemma ScaledOrder(p: int, q: int, k: int, x: int, y: int)
    requires 0 <= x < k && 0 <= y < k
    ensures p * k + x < q * k + y <==> p < q || (p == q && x < y)
    ensures p * k + x == q * k + y <==> p == q && x == y
  {
    if p < q {
      ProductMonotone(p + 1, q, k);
      assert (p + 1) * k == p * k + k;
    } else if p > q {
      ProductMonotone(q + 1, p, k);
      assert (q + 1) * k == q * k + k;
    }
  }

  lemma AlikeConcat(u: string, v: string, p: int, q: int, x: string, y: string, a: int, b: int, k: int)
    requires Alike(u, v, p, q) && Alike(x, y, a, b)
    requires 0 <= a < k && 0 <= b < k
    ensures Alike(u + x, v + y, p * k + a, q * k + b)
  {
    BeforeConcat(u, v, x, y);
    ScaledOrder(p, q, k, a, b);
    assert u + x == v + y ==> u == v && x == y by {
      if u + x == v + y {
        assert u == (u + x)[..|u|] && v == (v + y)[..|v|];
        assert x == (u + x)[|u|..] && y == (v + y)[|v|..];
      }
    }
  }

  lemma HexByteAlike(a: Byte, b: Byte)
    ensures Alike(HexByte(a), HexByte(b), a, b)
  {
    var s, t := HexByte(a), HexByte(b);
    assert Before(s[1..], t[1..]) <==> s[1] < t[1] by {
      assert s[1..][1..] == "" && t[1..][1..] == "";
    }
  }

  lemma {:induction false} HexAlike(a: seq<Byte>, b: seq<Byte>)
    requires |a| == |b|
    ensures Alike(Hex(a), Hex(b), Value(a), Value(b))
  {
    if a == [] {
    } else {
      HexByteAlike(a[0], b[0]);
      HexAlike(a[1..], b[1..]);
      ValueBound(a[1..]);
      ValueBound(b[1..]);
      AlikeConcat(HexByte(a[0]), HexByte(b[0]), a[0], b[0],
                  Hex(a[1..]), Hex(b[1..]), Value(a[1..]), Value(b[1..]), Power256(|a| - 1));
    }
  }

  // Appending "-" and one more hex group.
  lemma GroupAlike(u: string, v: string, p: int, q: int, x: seq<Byte>, y: seq<Byte>)
    requires Alike(u, v, p, q) && |x| == |y|
    ensures Alike(u + "-" + Hex(x), v + "-" + Hex(y), p * Power256(|x|) + Value(x), q * Power256(|x|) + Value(y))
  {
    assert Alike("-", "-", 0, 0);
    AlikeConcat(u, v, p, q, "-", "-", 0, 0, 1);
    HexAlike(x, y);
    ValueBound(x);
    ValueBound(y);
    AlikeConcat(u + "-", v + "-", p, q, Hex(x), Hex(y), Value(x), Value(y), Power256(|x|));
  }

  function GroupedTo(bs: seq<Byte>, k: nat): int
    requires |bs| == 16 && k < 5
  {
    if k == 0 then Value(bs[0..4])
    else GroupedTo(bs, k - 1) * Power256(CUTS[k] - CUTS[k - 1]) + Value(bs[CUTS[k - 1]..CUTS[k]])
  }

  lemma {:induction false} FormatToAlike(a: seq<Byte>, b: seq<Byte>, k: nat)
    requires |a| == |b| == 16 && k < 5
    ensures Alike(FormatTo(a, k), FormatTo(b, k), GroupedTo(a, k), GroupedTo(b, k))
  {
    if k == 0 {
      HexAlike(a[0..4], b[0..4]);
    } else {
      FormatToAlike(a, b, k - 1);
      GroupAlike(FormatTo(a, k - 1), FormatTo(b, k - 1), GroupedTo(a, k - 1), GroupedTo(b, k - 1),
                 a[CUTS[k - 1]..CUTS[k]], b[CUTS[k - 1]..CUTS[k]]);
    }
  }

  lemma ByteAppended(v: int, p: int, a: int, b: int)
    ensures (v * p + a) * 256 + b == v * (256 * p) + (a * 256 + b)
  {
  }

  lemma {:induction false} ValueConcat(x: seq<Byte>, y: seq<Byte>)
    ensures Value(x + y) == Value(x) * Power256(|y|) + Value(y)
  {
    if y == [] {
      assert x + y == x;
    } else {
      var init, last := y[..|y| - 1], y[|y| - 1];
      assert y == init + [last];
      assert x + y == (x + init) + [last];
      ValueSnoc(x + init, last);
      ValueConcat(x, init);
      ValueSnoc(init, last);
      ByteAppended(Value(x), Power256(|init|), Value(init), last);
    }
  }

  lemma Powers()
    ensures Power256(1) == 0x100 && Power256(2) == 0x1_0000 && Power256(4) == 0x1_0000_0000
    ensures Power256(6) == MS_SPAN && Power256(7) == TAIL_SPAN
  {
    assert Power256(3) == 0x100_0000;
    assert Power256(5) == 0x100_0000_0000;
  }

  lemma PairValue(x: Byte, y: Byte)
    ensures Value([x, y]) == x * 0x100 + y
  {
    Powers();
    assert [x, y] == [x] + [y];
    ValueSnoc([x], y);
    SingleByte(x);
  }

  // Layout's slices as numbers.
  lemma LayoutSlices(s: Stamp)
    requires Canonical(s)
    ensures var a := Layout(s);
      && Value(a[..6]) == s.ms
      && Value(a[0..4]) * 0x1_0000 + Value(a[4..6]) == s.ms
      && Value(a[6..8]) == 0x7000 + s.counter
      && Value(a[8..10]) * MS_SPAN + Value(a[10..16]) == 0x80 * TAIL_SPAN + s.rand
  {
    Powers();
    var a := Layout(s);
    ValueOfBigEndian(s.ms, 6);
    assert a[..6] == BigEndian(s.ms, 6);
    assert a[0..4] + a[4..6] == a[..6];
    ValueConcat(a[0..4], a[4..6]);
    assert a[6..8] == [a[6], a[7]];
    PairValue(a[6], a[7]);
    RandSlices(a, s.rand);
  }

  lemma RandSlices(a: seq<Byte>, rand: int)
    requires |a| == 16 && 0 <= rand < 64 * TAIL_SPAN
    requires a[8] == 0x80 + rand / TAIL_SPAN && a[9..16] == BigEndian(rand % TAIL_SPAN, 7)
    ensures Value(a[8..10]) * MS_SPAN + Value(a[10..16]) == 0x80 * TAIL_SPAN + rand
  {
    Powers();
    ValueOfBigEndian(rand % TAIL_SPAN, 7);
    assert [a[9]] + a[10..16] == a[9..16];
    ValueConcat([a[9]], a[10..16]);
    SingleByte(a[9]);
    assert a[8..10] == [a[8], a[9]];
    PairValue(a[8], a[9]);
  }

  // The number the text compares as, in terms of the encoded fields.
  lemma GroupedOfLayout(s: Stamp)
    requires Canonical(s)
    ensures GroupedTo(Layout(s), 4) == ((s.ms * 0x1_0000 + 0x7000 + s.counter) * 0x100 + 0x80) * TAIL_SPAN + s.rand
  {
    LayoutSlices(s);
    GroupedMeaning(Layout(s));
  }

  lemma GroupStep(a: seq<Byte>, k: nat, span: int)
    requires |a| == 16 && 0 < k < 5 && span == Power256(CUTS[k] - CUTS[k - 1])
    ensures GroupedTo(a, k) == GroupedTo(a, k - 1) * span + Value(a[CUTS[k - 1]..CUTS[k]])
  {
  }

  lemma GroupedMeaning(a: seq<Byte>)
    requires |a| == 16
    ensures GroupedTo(a, 4) ==
      (((Value(a[0..4]) * 0x1_0000 + Value(a[4..6])) * 0x1_0000 + Value(a[6..8])) * 0x1_0000
        + Value(a[8..10])) * MS_SPAN + Value(a[10..16])
  {
    Powers();
    assert CUTS[0] == 4 && CUTS[1] == 6 && CUTS[2] == 8 && CUTS[3] == 10 && CUTS[4] == 16;
    GroupStep(a, 1, 0x1_0000);
    GroupStep(a, 2, 0x1_0000);
    GroupStep(a, 3, 0x1_0000);
    GroupStep(a, 4, MS_SPAN);
  }

  lemma SingleByte(b: Byte)
    ensures Value([b]) == b
  {
    assert [b][1..] == [];
    assert Power256(0) == 1;
  }

  // Comparing canonical ids as text is comparing (ms, counter, rand_b).
  lemma TextOrder(a: Stamp, b: Stamp)
    requires Canonical(a) && Canonical(b)
    ensures Before(Text(a), Text(b)) <==> Less(a, b)
    ensures Text(a) == Text(b) <==> a == b
  {
    FormatToAlike(Layout(a), Layout(b), 4);
    GroupedOfLayout(a);
    GroupedOfLayout(b);
    var p, q := Prefix(a), Prefix(b);
    ScaledOrder(p, q, 64 * TAIL_SPAN, a.rand, b.rand);
  }

  // Everything above rand_b, counted in units of rand_b's span.
  function Prefix(s: Stamp): int {
    (s.ms * 0x1_0000 + 0x7000 + s.counter) * 4 + 2
  }

  // ---------- reading an id back ----------

  datatype DecodeError = NotCanonical(digits: nat) | BadTimestamp | BadCounter

  function StripDashes(s: string): (t: string)
    ensures |t| <= |s|
  {
    if s == "" then "" else (if s[0] == '-' then "" else [s[0]]) + StripDashes(s[1..])
  }

  function DigitOf(c: char): Option<int> {
    if '0' <= c <= '9' then Some(c as int - '0' as int)
    else if 'a' <= c <= 'f' then Some(c as int - 'a' as int + 10)
    else if 'A' <= c <= 'F' then Some(c as int - 'A' as int + 10)
    else None
  }

  // Reads base-16 digits on top of what has been read so far.
  function ParseDigits(s: string, sofar: int): Option<int> {
    if s == "" then Some(sofar)
    else
      match DigitOf(s[0])
      case None => None
      case Some(d) => ParseDigits(s[1..], sofar * 16 + d)
  }

  // Unsigned base-16 number; an empty text is a syntax error.
  function ParseUnsigned(s: string): Option<int> {
    if s == "" then None else ParseDigits(s, 0)
  }

  // Signed base-16 number: one leading sign is allowed.
  function ParseSigned(s: string): Option<int> {
    if s != "" && s[0] == '+' then ParseUnsigned(s[1..])
    else if s != "" && s[0] == '-' then
      match ParseUnsigned(s[1..])
      case None => None
      case Some(n) => Some(-n)
    else ParseUnsigned(s)
  }

  // The (ms, counter) an id on disk carries.
  function Decode(id: string): (r: Result<Watermark, DecodeError>)
    ensures r.Ok? ==> 0 <= r.value.counter <= MAX_COUNTER
  {
    var digits := StripDashes(id);
    if |digits| != 32 then Err(NotCanonical(|digits|))
    else
      match ParseSigned(digits[..12])
      case None => Err(BadTimestamp)
      case Some(ms) =>
        match ParseUnsigned(digits[12..16])
        case None => Err(BadCounter)
        case Some(raw) => Ok(Watermark(ms, raw % 0x1_0000 % 0x1000))
  }

  predicate IsHex(c: char) {
    '0' <= c <= '9' || 'a' <= c <= 'f' || 'A' <= c <= 'F'
  }

  predicate AllHex(s: string) {
    forall i :: 0 <= i < |s| ==> IsHex(s[i])
  }

  lemma {:induction false} HexParses(s: string, sofar: int)
    ensures ParseDigits(s, sofar).Some? <==> AllHex(s)
  {
    if s == "" {
    } else {
      assert AllHex(s) <==> IsHex(s[0]) && AllHex(s[1..]) by {
        assert forall i :: 1 <= i < |s| ==> s[i] == s[1..][i - 1];
      }
      if DigitOf(s[0]).Some? {
        HexParses(s[1..], sofar * 16 + DigitOf(s[0]).value);
      }
    }
  }

  // A digit in either case has its value.
  lemma DigitsOfEitherCase(d: int)
    requires 0 <= d < 16
    ensures DigitOf(HexDigit(d)) == Some(d)
    ensures d >= 10 ==> DigitOf((HexDigit(d) as int - 32) as char) == Some(d)
  {
  }

  lemma {:induction false} NoDashLeft(s: string)
    ensures '-' !in StripDashes(s)
  {
    if s == "" {
    } else {
      NoDashLeft(s[1..]);
    }
  }

  // What counts as an id on disk: 32 characters that are no dashes, wherever
  // the dashes are, with hexadecimal digits of either case in the first
  // sixteen; the first may be a plus sign instead, and the last sixteen are not
  // read.
  lemma DecodeAccepts(id: string)
    ensures var digits := StripDashes(id);
      if |digits| != 32 then Decode(id) == Err(NotCanonical(|digits|))
      else if !(AllHex(digits[..12]) || (digits[0] == '+' && AllHex(digits[1..12]))) then Decode(id) == Err(BadTimestamp)
      else if !AllHex(digits[12..16]) then Decode(id) == Err(BadCounter)
      else Decode(id).Ok?
  {
    var digits := StripDashes(id);
    if |digits| == 32 {
      var ms := digits[..12];
      NoDashLeft(id);
      assert ms[1..] == digits[1..12];
      assert ms[0] == digits[0] != '-';
      HexParses(ms, 0);
      HexParses(ms[1..], 0);
      HexParses(digits[12..16], 0);
      if ms[0] == '+' {
        assert !AllHex(ms) by { assert !IsHex(ms[0]); }
      }
    }
  }

  lemma {:induction false} StripConcat(u: string, v: string)
    ensures StripDashes(u + v) == StripDashes(u) + StripDashes(v)
  {
    if u == "" {
      assert u + v == v;
    } else {
      assert (u + v)[1..] == u[1..] + v;
      StripConcat(u[1..], v);
    }
  }

  lemma {:induction false} StripNothing(s: string)
    requires '-' !in s
    ensures StripDashes(s) == s
  {
    if s != "" {
      StripNothing(s[1..]);
    }
  }

  lemma {:induction false} HexConcat(x: seq<Byte>, y: seq<Byte>)
    ensures Hex(x + y) == Hex(x) + Hex(y)
  {
    if x == [] {
      assert x + y == y;
    } else {
      assert (x + y)[1..] == x[1..] + y;
      HexConcat(x[1..], y);
    }
  }

  lemma StripDash(u: string)
    ensures StripDashes(u + "-") == StripDashes(u)
  {
    StripConcat(u, "-");
    assert "-"[1..] == "";
    assert StripDashes("-") == "";
  }

  lemma StripGroup(u: string, bs: seq<Byte>, i: nat, j: nat)
    requires i <= j <= |bs| && StripDashes(u) == Hex(bs[..i])
    ensures StripDashes(u + "-" + Hex(bs[i..j])) == Hex(bs[..j])
  {
    var x := bs[i..j];
    StripConcat(u + "-", Hex(x));
    StripDash(u);
    StripNothing(Hex(x));
    HexConcat(bs[..i], x);
    assert bs[..i] + x == bs[..j];
  }

  lemma {:induction false} StripFormat(bs: seq<Byte>, k: nat)
    requires |bs| == 16 && k < 5
    ensures StripDashes(FormatTo(bs, k)) == Hex(bs[..CUTS[k]])
  {
    if k == 0 {
      assert bs[0..4] == bs[..4];
      StripNothing(Hex(bs[0..4]));
    } else {
      StripFormat(bs, k - 1);
      StripGroup(FormatTo(bs, k - 1), bs, CUTS[k - 1], CUTS[k]);
    }
  }

  lemma {:induction false} ParseHex(bs: seq<Byte>, sofar: int)
    ensures ParseDigits(Hex(bs), sofar) == Some(sofar * Power256(|bs|) + Value(bs))
  {
    if bs == [] {
      assert sofar * Power256(0) == sofar;
    } else {
      var next := sofar * 256 + bs[0];
      ParseHexByte(bs, sofar);
      ParseHex(bs[1..], next);
      ShiftedSum(sofar, bs[0], Power256(|bs| - 1), Value(bs[1..]));
    }
  }

  lemma ParseHexByte(bs: seq<Byte>, sofar: int)
    requires bs != []
    ensures ParseDigits(Hex(bs), sofar) == ParseDigits(Hex(bs[1..]), sofar * 256 + bs[0])
  {
    var s := Hex(bs);
    var hi, lo := bs[0] / 16, bs[0] % 16;
    assert s[0] == HexDigit(hi) && s[1..][0] == HexDigit(lo);
    assert s[1..][1..] == Hex(bs[1..]);
    assert DigitOf(s[0]) == Some(hi) && DigitOf(s[1..][0]) == Some(lo);
    assert ParseDigits(s, sofar) == ParseDigits(s[1..], sofar * 16 + hi);
    assert ParseDigits(s[1..], sofar * 16 + hi) == ParseDigits(Hex(bs[1..]), (sofar * 16 + hi) * 16 + lo);
  }

  lemma ShiftedSum(a: int, b: int, k: int, v: int)
    ensures (a * 256 + b) * k + v == a * (256 * k) + (b * k + v)
  {
  }

  // The digit groups of a canonical text, once the dashes are gone.
  lemma DigitGroups(bs: seq<Byte>)
    requires |bs| == 16
    ensures var digits := StripDashes(Format(bs));
      |digits| == 32 && digits[..12] == Hex(bs[..6]) && digits[12..16] == Hex(bs[6..8])
  {
    var ms, mid, rest := bs[..6], bs[6..8], bs[8..];
    StripFormat(bs, 4);
    assert bs[..16] == bs;
    assert bs == ms + (mid + rest);
    HexConcat(ms, mid + rest);
    HexConcat(mid, rest);
  }

  // Decoding inverts encoding.
  lemma DecodeText(s: Stamp)
    requires Canonical(s)
    ensures Decode(Text(s)) == Ok(Watermark(s.ms, s.counter))
  {
    var bs := Layout(s);
    DigitGroups(bs);
    LayoutSlices(s);
    ParseHex(bs[..6], 0);
    ParseHex(bs[6..8], 0);
    var digits := StripDashes(Format(bs));
    assert digits[..12][0] == HexDigit(bs[0] / 16) != '+';
    assert ParseSigned(digits[..12]) == Some(s.ms);
    assert ParseUnsigned(digits[12..16]) == Some(0x7000 + s.counter);
  }

  // ---------- the generator ----------

  // The shared (ms, counter) state, which is also what Decode recovers.
  datatype Watermark = Watermark(ms: int, counter: int)

  predicate Above(a: Watermark, b: Watermark) {
    a.ms > b.ms || (a.ms == b.ms && a.counter > b.counter)
  }

  predicate AtLeast(a: Watermark, b: Watermark) {
    a == b || Above(a, b)
  }

  predicate Covers(w: Watermark, s: Stamp) {
    AtLeast(w, Watermark(s.ms, s.counter))
  }
}
