/** Version strings: parsing into numbers and comparing. */
module Versions {
  predicate IsSeparator(c: char) {
    c == '.' || c == '-' || c == '_' || c == '+'
  }

  predicate IsDigit(c: char) {
    '0' <= c <= '9'
  }

  /** The non-empty runs between separators; `open` is the run being read. */
  function Fields(s: string, open: string): seq<string>
    decreases |s|
  {
    var closed := if open == [] then [] else [open];
    if s == [] then closed
    else if IsSeparator(s[0]) then closed + Fields(s[1..], [])
    else Fields(s[1..], open + [s[0]])
  }

  function DigitRun(s: string): (n: nat)
    ensures n <= |s|
    ensures forall k | 0 <= k < n :: IsDigit(s[k])
    ensures n < |s| ==> !IsDigit(s[n])
  {
    if s == [] || !IsDigit(s[0]) then 0 else 1 + DigitRun(s[1..])
  }

  function DigitValue(c: char): nat {
    if IsDigit(c) then c as nat - '0' as nat else 0
  }

  /** A 64-bit machine integer: what does not fit wraps around. */
  function Wrap(n: int): (r: int)
    ensures -HALF_RANGE <= r < HALF_RANGE
    ensures -HALF_RANGE <= n < HALF_RANGE ==> r == n
  {
    (n + HALF_RANGE) % (2 * HALF_RANGE) - HALF_RANGE
  }

  const HALF_RANGE := 0x8000_0000_0000_0000

  function Value(digits: string): int {
    if digits == [] then 0
    else Wrap(Value(digits[..|digits| - 1]) * 10 + DigitValue(digits[|digits| - 1]))
  }

  /** The number a field starts with, as a list of at most one. */
  function LeadingNumber(field: string): seq<int> {
    var n := DigitRun(field);
    if n == 0 then [] else [Value(field[..n])]
  }

  function Numbers(fields: seq<string>): seq<int> {
    if fields == [] then [] else Numbers(fields[..|fields| - 1]) + LeadingNumber(fields[|fields| - 1])
  }

  function Parse(version: string): seq<int> {
    Numbers(Fields(version, []))
  }

  method SplitVersionParts(value: string) returns (parts: seq<int>)
    ensures parts == Parse(value)
  {
    hide Wrap, Fields;
    var rawParts := Fields(value, []);
    parts := [];
    var p := 0;
    while p < |rawParts|
      invariant 0 <= p <= |rawParts|
      invariant parts == Numbers(rawParts[..p])
    {
      var part := rawParts[p];
      var number: int, found, i := 0, false, 0;
      while i < |part|
        invariant 0 <= i <= DigitRun(part)
        invariant number == Value(part[..i])
        invariant found <==> i > 0
      {
        if part[i] < '0' || part[i] > '9' {
          break;
        }
        found := true;
        assert part[..i + 1][..i] == part[..i];
        number := Wrap(number * 10 + (part[i] as nat - '0' as nat));
        i := i + 1;
      }
      if found {
        parts := parts + [number];
      }
      assert rawParts[..p + 1][..p] == rawParts[..p];
      p := p + 1;
    }
    assert rawParts[..p] == rawParts;
  }

  /** Missing parts count as zero. */
  function PartAt(parts: seq<int>, i: nat): int {
    if i < |parts| then parts[i] else 0
  }

  function Longer(a: seq<int>, b: seq<int>): nat {
    if |b| > |a| then |b| else |a|
  }

  function CompareFrom(a: seq<int>, b: seq<int>, i: nat): int
    decreases Longer(a, b) - i
  {
    if i >= Longer(a, b) then 0
    else if PartAt(a, i) < PartAt(b, i) then -1
    else if PartAt(a, i) > PartAt(b, i) then 1
    else CompareFrom(a, b, i + 1)
  }

  function Compare(left: string, right: string): int {
    CompareFrom(Parse(left), Parse(right), 0)
  }

  method CompareVersionStrings(left: string, right: string) returns (r: int)
    ensures r == Compare(left, right)
  {
    var leftParts := SplitVersionParts(left);
    var rightParts := SplitVersionParts(right);
    var maxLen := |leftParts|;
    if |rightParts| > maxLen {
      maxLen := |rightParts|;
    }
    var i := 0;
    while i < maxLen
      invariant 0 <= i <= maxLen == Longer(leftParts, rightParts)
      invariant Compare(left, right) == CompareFrom(leftParts, rightParts, i)
    {
      var leftValue, rightValue := 0, 0;
      if i < |leftParts| {
        leftValue := leftParts[i];
      }
      if i < |rightParts| {
        rightValue := rightParts[i];
      }
      if leftValue < rightValue {
        return -1;
      }
      if leftValue > rightValue {
        return 1;
      }
      i := i + 1;
    }
    return 0;
  }

  // ----- the comparison is an order -----

  predicate SameUpTo(a: seq<int>, b: seq<int>, i: nat) {
    forall j | 0 <= j < i :: PartAt(a, j) == PartAt(b, j)
  }

  /** b is the first to have the larger part, at i. */
  predicate BelowAt(a: seq<int>, b: seq<int>, i: nat) {
    SameUpTo(a, b, i) && PartAt(a, i) < PartAt(b, i)
  }

  lemma {:induction false} CompareDecides(a: seq<int>, b: seq<int>, i: nat)
    requires SameUpTo(a, b, i)
    ensures CompareFrom(a, b, i) in {-1, 0, 1}
    ensures CompareFrom(a, b, i) == -1 ==> exists k: nat :: BelowAt(a, b, k)
    ensures CompareFrom(a, b, i) == 1 ==> exists k: nat :: BelowAt(b, a, k)
    ensures CompareFrom(a, b, i) == 0 ==> forall j: nat :: PartAt(a, j) == PartAt(b, j)
    decreases Longer(a, b) - i
  {
    if i < Longer(a, b) {
      if PartAt(a, i) < PartAt(b, i) {
        assert BelowAt(a, b, i);
      } else if PartAt(a, i) > PartAt(b, i) {
        assert BelowAt(b, a, i);
      } else {
        CompareDecides(a, b, i + 1);
      }
    }
  }

  /** The sign of the comparison says which list is below the other at the first difference, or that there is none. */
  lemma CompareMeaning(a: seq<int>, b: seq<int>)
    ensures CompareFrom(a, b, 0) in {-1, 0, 1}
    ensures CompareFrom(a, b, 0) == -1 <==> exists k: nat :: BelowAt(a, b, k)
    ensures CompareFrom(a, b, 0) == 1 <==> exists k: nat :: BelowAt(b, a, k)
    ensures CompareFrom(a, b, 0) == 0 <==> forall j: nat :: PartAt(a, j) == PartAt(b, j)
  {
    CompareDecides(a, b, 0);
    if k: nat, l: nat :| BelowAt(a, b, k) && BelowAt(b, a, l) {
      OneWay(a, b, k, l);
    }
  }

  lemma OneWay(a: seq<int>, b: seq<int>, k: nat, l: nat)
    requires BelowAt(a, b, k)
    ensures !BelowAt(b, a, l)
  {
    assert l < k ==> PartAt(a, l) == PartAt(b, l);
  }

  lemma Antisymmetric(left: string, right: string)
    ensures Compare(left, right) == -Compare(right, left)
  {
    CompareMeaning(Parse(left), Parse(right));
    CompareMeaning(Parse(right), Parse(left));
  }

  lemma Transitive(x: string, y: string, z: string)
    requires Compare(x, y) <= 0 && Compare(y, z) <= 0
    ensures Compare(x, z) <= 0
    ensures Compare(x, z) == 0 ==> Compare(x, y) == 0 && Compare(y, z) == 0
  {
    hide CompareFrom, Parse, PartAt;
    var a, b, c := Parse(x), Parse(y), Parse(z);
    CompareMeaning(a, b);
    CompareMeaning(b, c);
    CompareMeaning(a, c);
    if Compare(x, y) == -1 {
      var k: nat :| BelowAt(a, b, k);
      if Compare(y, z) == -1 {
        var l: nat :| BelowAt(b, c, l);
        assert BelowAt(a, c, if k < l then k else l);
      } else {
        assert BelowAt(a, c, k);
      }
    } else if Compare(y, z) == -1 {
      var l: nat :| BelowAt(b, c, l);
      assert BelowAt(a, c, l);
    }
  }

  function StripZeros(parts: seq<int>): (r: seq<int>)
    ensures r <= parts
    ensures forall i | |r| <= i < |parts| :: parts[i] == 0
    ensures r != [] ==> r[|r| - 1] != 0
  {
    if parts != [] && parts[|parts| - 1] == 0 then StripZeros(parts[..|parts| - 1]) else parts
  }

  /** Versions compare equal exactly when their part lists agree up to trailing zeros. */
  lemma EqualUpToZeros(left: string, right: string)
    ensures Compare(left, right) == 0 <==> StripZeros(Parse(left)) == StripZeros(Parse(right))
  {
    var a, b := Parse(left), Parse(right);
    CompareMeaning(a, b);
    var p, q := StripZeros(a), StripZeros(b);
    forall j: nat ensures PartAt(a, j) == PartAt(p, j) && PartAt(b, j) == PartAt(q, j) {
      assert j < |p| ==> p[j] == a[j];
      assert j < |q| ==> q[j] == b[j];
    }
    if Compare(left, right) == 0 {
      assert forall j: nat :: PartAt(p, j) == PartAt(q, j);
      SameStripped(p, q);
    }
  }

  lemma SameStripped(p: seq<int>, q: seq<int>)
    requires forall j: nat :: PartAt(p, j) == PartAt(q, j)
    requires p != [] ==> p[|p| - 1] != 0
    requires q != [] ==> q[|q| - 1] != 0
    ensures p == q
  {
    assert p != [] ==> PartAt(q, |p| - 1) != 0;
    assert q != [] ==> PartAt(p, |q| - 1) != 0;
    forall j | 0 <= j < |p| ensures p[j] == q[j] {
      assert PartAt(p, j) == PartAt(q, j);
    }
  }

  // ----- separators -----

  /** Alike but for which of the four separators stands where one stands. */
  predicate SameShape(s: string, t: string) {
    && |s| == |t|
    && forall i | 0 <= i < |s| :: s[i] == t[i] || (s[i] in ".-_+" && t[i] in ".-_+")
  }

  lemma {:induction false} SameFields(s: string, t: string, open: string)
    requires SameShape(s, t)
    ensures Fields(s, open) == Fields(t, open)
    decreases |s|
  {
    if s != [] {
      assert SameShape(s[1..], t[1..]);
      SameFields(s[1..], t[1..], []);
      SameFields(s[1..], t[1..], open + [s[0]]);
    }
  }

  /** Point, dash, underscore and plus separate alike. */
  lemma SeparatorsAlike(s: string, t: string, other: string)
    requires SameShape(s, t)
    ensures Compare(s, other) == Compare(t, other)
  {
    SameFields(s, t, []);
  }

  /** Nothing else separates: without one, the text is one part, which counts for the number it starts with, if any. */
  lemma {:induction false} OnePart(s: string, open: string)
    requires forall i | 0 <= i < |s| :: s[i] !in ".-_+"
    ensures Fields(s, open) == if open + s == [] then [] else [open + s]
    decreases |s|
  {
    if s == [] {
      assert open + s == open;
    } else {
      assert s[0] in s;
      OnePart(s[1..], open + [s[0]]);
      assert open + [s[0]] + s[1..] == open + s;
    }
  }

  lemma DigitChars()
    ensures forall c :: c in "0123456789" <==> IsDigit(c)
  {
    forall c | IsDigit(c) ensures c in "0123456789" {
      assert "0123456789"[c as int - '0' as int] == c;
    }
  }

  lemma OneNumber(s: string)
    ensures Numbers([s]) == LeadingNumber(s)
  {
    NumbersCons(s, []);
    assert [s] + [] == [s] && LeadingNumber(s) + [] == LeadingNumber(s);
  }

  /** A part that starts with no digit does not count; one that does counts for its leading number, wrapped. */
  lemma PartCounts(s: string, n: nat)
    requires s != [] && forall i | 0 <= i < |s| :: s[i] !in ".-_+"
    ensures s[0] !in "0123456789" ==> Parse(s) == []
    ensures Decimal(n) <= s && (|s| > |Decimal(n)| ==> s[|Decimal(n)|] !in "0123456789") ==> Parse(s) == [Wrap(n)]
  {
    hide Wrap, Value, Decimal, Numbers, Fields;
    OnePart(s, []);
    assert [] + s == s;
    DigitChars();
    OneNumber(s);
    var d := Decimal(n);
    if d <= s && (|s| > |d| ==> s[|d|] !in "0123456789") {
      assert forall k | 0 <= k < |d| :: s[k] == d[k];
      RunOf(s, |d|);
      ValueDecimal(n);
      assert s[..|d|] == d;
    }
  }

  lemma {:induction false} RunOf(s: string, n: nat)
    requires n <= |s| && (forall k | 0 <= k < n :: IsDigit(s[k])) && (n < |s| ==> !IsDigit(s[n]))
    ensures DigitRun(s) == n
  {
    if n > 0 {
      assert forall k | 0 <= k < n - 1 :: s[1..][k] == s[k + 1];
      RunOf(s[1..], n - 1);
    }
  }

  // ----- parsing inverts printing -----

  function Decimal(n: nat): (r: string)
    ensures r != [] && forall k | 0 <= k < |r| :: IsDigit(r[k])
  {
    var last := ['0' + (n % 10) as char];
    if n < 10 then last else Decimal(n / 10) + last
  }

  function Print(parts: seq<nat>): string {
    if parts == [] then ""
    else if |parts| == 1 then Decimal(parts[0])
    else Decimal(parts[0]) + "." + Print(parts[1..])
  }

  function Decimals(parts: seq<nat>): seq<string> {
    if parts == [] then [] else [Decimal(parts[0])] + Decimals(parts[1..])
  }

  /** Wrapping along the way is wrapping at the end. */
  lemma WrapStep(n: int, d: int)
    ensures Wrap(Wrap(n) * 10 + d) == Wrap(n * 10 + d)
  {
    var m := 2 * HALF_RANGE;
    var q := (n + HALF_RANGE) / m;
    assert Wrap(n) == n - q * m;
    WrapShift(n * 10 + d, -10 * q);
  }

  lemma WrapShift(n: int, q: int)
    ensures Wrap(n + q * (2 * HALF_RANGE)) == Wrap(n)
  {
    var m, a := 2 * HALF_RANGE, n + HALF_RANGE;
    var k := a / m;
    assert a == k * m + a % m;
    Residue(a + q * m, m, k + q, a % m);
  }

  lemma Residue(a: int, m: int, k: int, r: int)
    requires 0 <= r < m && a == k * m + r
    ensures a % m == r
  {
    var d := a / m - k;
    assert d * m == r - a % m;
    MultipleOf(d, m);
  }

  lemma MultipleOf(d: int, m: int)
    requires m > 0
    ensures d >= 1 ==> d * m >= m
    ensures d <= -1 ==> d * m <= -m
  {
  }

  lemma {:induction false} ValueDecimal(n: nat)
    ensures Value(Decimal(n)) == Wrap(n)
  {
    hide Wrap, Value, Decimal, DigitValue;
    var r := Decimal(n);
    LastDigit(n);
    if n < 10 {
      assert r == [r[0]] == [] + [r[0]];
      ValueSnoc([], r[0]);
    } else {
      ValueDecimal(n / 10);
      ValueSnoc(Decimal(n / 10), r[|r| - 1]);
      WrapStep(n / 10, n % 10);
      assert n / 10 * 10 + n % 10 == n;
    }
  }

  lemma ValueSnoc(digits: string, c: char)
    ensures Value(digits + [c]) == Wrap(Value(digits) * 10 + DigitValue(c))
    ensures Value([]) == 0
  {
    assert (digits + [c])[..|digits|] == digits;
  }

  lemma LastDigit(n: nat)
    ensures var r := Decimal(n);
            && DigitValue(r[|r| - 1]) == n % 10
            && r == (if n < 10 then [] else Decimal(n / 10)) + [r[|r| - 1]]
  {
  }

  lemma DecimalNumber(n: nat)
    ensures LeadingNumber(Decimal(n)) == [Wrap(n)]
  {
    hide Wrap;
    var d := Decimal(n);
    ValueDecimal(n);
    assert DigitRun(d) == |d|;
    assert d[..|d|] == d;
  }

  lemma {:induction false} FieldsRun(d: string, t: string, open: string)
    requires forall k | 0 <= k < |d| :: IsDigit(d[k])
    ensures Fields(d + t, open) == Fields(t, open + d)
    decreases |d|
  {
    if d == [] {
      assert d + t == t && open + d == open;
    } else {
      assert (d + t)[1..] == d[1..] + t;
      FieldsRun(d[1..], t, open + [d[0]]);
      assert open + [d[0]] + d[1..] == open + d;
    }
  }

  lemma {:induction false} FieldsPrint(parts: seq<nat>)
    ensures Fields(Print(parts), []) == Decimals(parts)
    decreases |parts|
  {
    if parts != [] {
      var d := Decimal(parts[0]);
      FieldsPrint(parts[1..]);
      assert [] + d == d;
      if |parts| == 1 {
        FieldsRun(d, [], []);
        assert d + [] == d;
        assert Decimals(parts[1..]) == [];
      } else {
        var rest := Print(parts[1..]);
        FieldsRun(d, "." + rest, []);
        assert d + "." + rest == d + ("." + rest);
        assert ("." + rest)[1..] == rest;
      }
    }
  }

  lemma {:induction false} NumbersCons(field: string, fields: seq<string>)
    ensures Numbers([field] + fields) == LeadingNumber(field) + Numbers(fields)
    decreases |fields|
  {
    var all := [field] + fields;
    if fields == [] {
      assert all[..0] == [] && all[0] == field;
      assert [] + LeadingNumber(field) == LeadingNumber(field) + [];
    } else {
      var n := |fields| - 1;
      assert all[..n + 1] == [field] + fields[..n];
      NumbersCons(field, fields[..n]);
      assert LeadingNumber(field) + (Numbers(fields[..n]) + LeadingNumber(fields[n]))
          == LeadingNumber(field) + Numbers(fields[..n]) + LeadingNumber(fields[n]);
    }
  }

  function Wrapped(parts: seq<nat>): (r: seq<int>)
    ensures |r| == |parts| && forall i | 0 <= i < |parts| :: r[i] == Wrap(parts[i])
  {
    seq(|parts|, i requires 0 <= i < |parts| => Wrap(parts[i]))
  }

  lemma {:induction false} NumbersDecimals(parts: seq<nat>)
    ensures Numbers(Decimals(parts)) == Wrapped(parts)
  {
    hide Wrap;
    if parts != [] {
      NumbersDecimals(parts[1..]);
      DecimalNumber(parts[0]);
      NumbersCons(Decimal(parts[0]), Decimals(parts[1..]));
      assert Wrapped(parts) == [Wrap(parts[0])] + Wrapped(parts[1..]);
    }
  }

  /** A list of numbers survives being printed in dotted form and parsed again if and only if each fits 64 bits. */
  lemma ParsePrintIff(parts: seq<nat>)
    ensures Parse(Print(parts)) == Wrapped(parts)
    ensures Parse(Print(parts)) == parts <==> forall p | p in parts :: p < HALF_RANGE
  {
    hide Wrap;
    FieldsPrint(parts);
    NumbersDecimals(parts);
    if forall p | p in parts :: p < HALF_RANGE {
      assert forall i | 0 <= i < |parts| :: parts[i] in parts;
    }
    if p :| p in parts && p >= HALF_RANGE {
      var i :| 0 <= i < |parts| && parts[i] == p;
      assert Wrapped(parts)[i] != parts[i];
    }
  }
}
