/** White space, in strings and in UTF-8 bytes: exactly the code points with the Unicode property White_Space. */
module SpaceLaws {
  import S = SqlSplitter
  import Text

  type Bytes = S.Text

  /** The code points below U+10000 that are white space; there are none above. */
  predicate IsWhite(n: nat) {
    || 0x9 <= n <= 0xD || n == 0x20 || n == 0x85 || n == 0xA0 || n == 0x1680 || 0x2000 <= n <= 0x200A
    || n == 0x2028 || n == 0x2029 || n == 0x202F || n == 0x205F || n == 0x3000
  }

  /** The UTF-8 encoding, section 3 of RFC 3629, of a code point below U+10000. */
  function Utf8(n: nat): (r: Bytes)
    requires n < 0x10000
  {
    if n < 0x80 then [n as S.byte]
    else if n < 0x800 then [(0xC0 + n / 64) as S.byte, (0x80 + n % 64) as S.byte]
    else [(0xE0 + n / 4096) as S.byte, (0x80 + n / 64 % 64) as S.byte, (0x80 + n % 64) as S.byte]
  }

  lemma WhiteChars(c: char)
    ensures Text.IsSpace(c) <==> IsWhite(c as int)
  {
  }

  /** One white code point, written. */
  ghost predicate White(w: Bytes) {
    exists n: nat | IsWhite(n) :: Utf8(n) == w
  }

  /** White code points, one after the other. */
  ghost predicate Blank(s: Bytes)
    decreases |s|
  {
    s == [] || exists k | 0 < k <= |s| :: White(s[..k]) && Blank(s[k..])
  }

  ghost predicate StartsWhite(s: Bytes) {
    exists k | 0 < k <= |s| :: White(s[..k])
  }

  ghost predicate EndsWhite(s: Bytes) {
    exists k | 0 <= k < |s| :: White(s[k..])
  }

  /** The byte patterns of the splitter. */
  predicate Pattern(w: Bytes) {
    || (|w| == 1 && S.IsAsciiSpace(w[0]))
    || (|w| == 2 && S.IsSpace2(w[0], w[1]))
    || (|w| == 3 && S.IsSpace3(w[0], w[1], w[2]))
  }

  lemma WhitePattern(n: nat)
    requires IsWhite(n)
    ensures Pattern(Utf8(n))
  {
  }

  lemma PatternWhite(w: Bytes) returns (n: nat)
    requires Pattern(w)
    ensures IsWhite(n) && Utf8(n) == w
  {
    n := if |w| == 1 then w[0] as nat
         else if |w| == 2 then w[1] as nat
         else (w[0] as nat - 0xE0) * 4096 + (w[1] as nat - 0x80) * 64 + (w[2] as nat - 0x80);
  }

  /** The patterns are the encodings of the white code points, and nothing else. */
  lemma WhiteIff(w: Bytes)
    ensures White(w) <==> Pattern(w)
  {
    hide Pattern, Utf8;
    if Pattern(w) {
      var n := PatternWhite(w);
    }
    if n: nat :| IsWhite(n) && Utf8(n) == w {
      WhitePattern(n);
    }
  }

  /** What a trim takes off the front at a time is one white code point, whenever there is one. */
  lemma LeadingMeans(s: Bytes)
    ensures S.LeadingSpace(s) > 0 <==> StartsWhite(s)
    ensures S.LeadingSpace(s) > 0 ==> White(s[..S.LeadingSpace(s)])
  {
    hide White;
    WhiteIff(s[..S.LeadingSpace(s)]);
    if k :| 0 < k <= |s| && White(s[..k]) {
      WhiteIff(s[..k]);
    }
  }

  lemma TrailingMeans(s: Bytes)
    ensures S.TrailingSpace(s) > 0 <==> EndsWhite(s)
    ensures S.TrailingSpace(s) > 0 ==> White(s[|s| - S.TrailingSpace(s)..])
  {
    hide White;
    WhiteIff(s[|s| - S.TrailingSpace(s)..]);
    if k :| 0 <= k < |s| && White(s[k..]) {
      WhiteIff(s[k..]);
    }
  }

  lemma {:induction false} BlankAppend(a: Bytes, b: Bytes)
    requires Blank(a) && Blank(b)
    ensures Blank(a + b)
    decreases |a|
  {
    hide White;
    if a == [] {
      assert a + b == b;
    } else {
      var k :| 0 < k <= |a| && White(a[..k]) && Blank(a[k..]);
      BlankAppend(a[k..], b);
      assert (a + b)[k..] == a[k..] + b && (a + b)[..k] == a[..k];
    }
  }

  lemma OneBlank(w: Bytes)
    requires White(w) && w != []
    ensures Blank(w)
  {
    hide White;
    assert w[|w|..] == [] && w[..|w|] == w;
  }

  lemma NothingBlank()
    ensures Blank([])
  {
  }

  lemma {:induction false} TrimLeftMeans(s: Bytes)
    ensures Blank(s[..|s| - |S.TrimLeft(s)|])
    decreases |s|
  {
    hide Blank, White, S.LeadingSpace, StartsWhite;
    var k := S.LeadingSpace(s);
    if k == 0 {
      NothingBlank();
      assert s[..0] == [];
    } else {
      LeadingMeans(s);
      TrimLeftMeans(s[k..]);
      OneBlank(s[..k]);
      var r := S.TrimLeft(s);
      BlankAppend(s[..k], s[k..][..|s| - k - |r|]);
      assert s[..|s| - |r|] == s[..k] + s[k..][..|s| - k - |r|];
    }
  }

  lemma {:induction false} TrimRightMeans(s: Bytes)
    ensures Blank(s[|S.TrimRight(s)|..])
    decreases |s|
  {
    hide Blank, White, S.TrailingSpace, EndsWhite;
    var k := S.TrailingSpace(s);
    if k == 0 {
      NothingBlank();
      assert s[|s|..] == [];
    } else {
      TrailingMeans(s);
      var front := s[..|s| - k];
      TrimRightMeans(front);
      OneBlank(s[|s| - k..]);
      var r := S.TrimRight(s);
      BlankAppend(front[|r|..], s[|s| - k..]);
      assert s[|r|..] == front[|r|..] + s[|s| - k..];
    }
  }

  /** Trimming takes white code points off both ends, and leaves none there. */
  lemma TrimMeans(s: Bytes) returns (before: Bytes, after: Bytes)
    ensures s == before + S.Trim(s) + after && Blank(before) && Blank(after)
    ensures !StartsWhite(S.Trim(s)) && !EndsWhite(S.Trim(s))
  {
    hide Blank, S.LeadingSpace, S.TrailingSpace, StartsWhite, EndsWhite, S.TrimLeft, S.TrimRight;
    var l := S.TrimLeft(s);
    var r := S.Trim(s);
    before, after := s[..|s| - |l|], l[|r|..];
    TrimLeftMeans(s);
    TrimRightMeans(l);
    TrailingMeans(r);
    LeadingMeans(r);
    LeadingOfPrefix(l, r);
  }

  lemma LeadingOfPrefix(l: Bytes, r: Bytes)
    requires r <= l && S.LeadingSpace(l) == 0
    ensures S.LeadingSpace(r) == 0
  {
  }

  // ----- strings -----

  /** Trimming a string takes white characters off both ends, and leaves none there. */
  lemma TrimSpaceMeans(s: string) returns (i: nat, j: nat)
    ensures i <= j <= |s| && Text.TrimSpace(s) == s[i..j]
    ensures forall k | 0 <= k < |s| && !(i <= k < j) :: IsWhite(s[k] as int)
    ensures i < j ==> !IsWhite(s[i] as int) && !IsWhite(s[j - 1] as int)
  {
    hide Text.IsSpace, IsWhite;
    var l := Text.TrimLeft(s);
    i := |s| - |l|;
    j := i + |Text.TrimSpace(s)|;
    LeftOff(s);
    RightOff(l);
    forall k | 0 <= k < |s| && !(i <= k < j) ensures IsWhite(s[k] as int) {
      if k >= j {
        assert s[k] == l[k - i];
      }
      WhiteChars(s[k]);
    }
    if i < j {
      WhiteChars(s[i]);
      WhiteChars(s[j - 1]);
      assert l[0] == s[i];
    }
  }

  lemma {:induction false} LeftOff(s: string)
    ensures forall k | 0 <= k < |s| - |Text.TrimLeft(s)| :: Text.IsSpace(s[k])
  {
    if s != [] && Text.IsSpace(s[0]) {
      LeftOff(s[1..]);
      assert forall k | 0 < k < |s| - |Text.TrimLeft(s)| :: s[k] == s[1..][k - 1];
    }
  }

  lemma {:induction false} RightOff(s: string)
    ensures forall k | |Text.TrimRight(s)| <= k < |s| :: Text.IsSpace(s[k])
  {
    if s != [] && Text.IsSpace(s[|s| - 1]) {
      RightOff(s[..|s| - 1]);
    }
  }

  /** The same character, or the same ASCII letter in the other case. */
  predicate SameLetter(x: char, y: char) {
    || x == y
    || ('A' <= x <= 'Z' && y as int == x as int + 32)
    || ('A' <= y <= 'Z' && x as int == y as int + 32)
  }

  /** Lower case has no capitals and is the same text but for case. */
  lemma LowerMeans(s: string)
    ensures var r := Text.ToLower(s);
            |r| == |s| && forall i | 0 <= i < |s| :: SameLetter(s[i], r[i]) && !('A' <= r[i] <= 'Z')
  {
  }

  /** Folded equality is equality but for case. */
  lemma EqualFoldIff(a: string, b: string)
    ensures Text.EqualFold(a, b) <==> |a| == |b| && forall i | 0 <= i < |a| :: SameLetter(a[i], b[i])
  {
    var x, y := Text.ToLower(a), Text.ToLower(b);
    forall c: char, d: char ensures Text.LowerChar(c) == Text.LowerChar(d) <==> SameLetter(c, d) {
    }
    if x == y {
      assert forall i | 0 <= i < |a| :: Text.LowerChar(a[i]) == x[i] == y[i] == Text.LowerChar(b[i]);
    } else if |a| == |b| {
      assert exists i | 0 <= i < |a| :: x[i] != y[i];
    }
  }

  /** The texts agree up to k, where a ends or has the smaller character. */
  predicate BelowFrom(a: string, b: string, k: nat) {
    k <= |a| && k < |b| && a[..k] == b[..k] && (k == |a| || a[k] < b[k])
  }

  /** The string order is the dictionary's. */
  lemma {:induction false} LessIff(a: string, b: string)
    ensures Text.Less(a, b) <==> exists k: nat :: BelowFrom(a, b, k)
  {
    if a != [] && b != [] && a[0] == b[0] {
      LessIff(a[1..], b[1..]);
      if k: nat :| BelowFrom(a, b, k) {
        assert k > 0;
        assert a[1..][..k - 1] == a[..k][1..] && b[1..][..k - 1] == b[..k][1..];
        assert BelowFrom(a[1..], b[1..], k - 1);
      }
      if k: nat :| BelowFrom(a[1..], b[1..], k) {
        assert a[..k + 1] == [a[0]] + a[1..][..k] && b[..k + 1] == [b[0]] + b[1..][..k];
        assert BelowFrom(a, b, k + 1);
      }
    } else {
      assert b != [] && (a == [] || a[0] < b[0]) ==> BelowFrom(a, b, 0);
      forall k: nat | BelowFrom(a, b, k) ensures Text.Less(a, b) {
        assert k > 0 ==> a[..k][0] == b[..k][0];
      }
    }
  }
}
