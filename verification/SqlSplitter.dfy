/** The migration runner's SQL splitter: bytes in, trimmed statements out. */
module SqlSplitter {

  newtype byte = b: int | 0 <= b < 256
  type Text = seq<byte>

  const NEWLINE: byte := 10
  const DOUBLE_QUOTE: byte := 34
  const DOLLAR: byte := 36
  const QUOTE: byte := 39
  const STAR: byte := 42
  const DASH: byte := 45
  const SLASH: byte := 47
  const SEMICOLON: byte := 59
  const UNDERSCORE: byte := 95

  // ----- white space, as Go's strings.TrimSpace sees it in UTF-8 bytes -----

  predicate IsAsciiSpace(b: byte) {
    9 <= b <= 13 || b == 32
  }

  /** U+0085 and U+00A0. */
  predicate IsSpace2(a: byte, b: byte) {
    a == 0xC2 && (b == 0x85 || b == 0xA0)
  }

  /** U+1680, U+2000..U+200A, U+2028, U+2029, U+202F, U+205F and U+3000. */
  predicate IsSpace3(a: byte, b: byte, c: byte) {
    || (a == 0xE1 && b == 0x9A && c == 0x80)
    || (a == 0xE2 && b == 0x80 && (0x80 <= c <= 0x8A || c == 0xA8 || c == 0xA9 || c == 0xAF))
    || (a == 0xE2 && b == 0x81 && c == 0x9F)
    || (a == 0xE3 && b == 0x80 && c == 0x80)
  }

  /** Length of the white space rune s starts with, or 0. */
  function LeadingSpace(s: Text): (n: nat)
    ensures n <= |s|
    ensures forall k | 0 <= k < n :: IsBlank(s[k])
  {
    if |s| >= 1 && IsAsciiSpace(s[0]) then 1
    else if |s| >= 2 && IsSpace2(s[0], s[1]) then 2
    else if |s| >= 3 && IsSpace3(s[0], s[1], s[2]) then 3
    else 0
  }

  /** Length of the white space rune s ends with, or 0. */
  function TrailingSpace(s: Text): (n: nat)
    ensures n <= |s|
    ensures forall k | |s| - n <= k < |s| :: IsBlank(s[k])
  {
    var e := |s|;
    if e >= 1 && IsAsciiSpace(s[e - 1]) then 1
    else if e >= 2 && IsSpace2(s[e - 2], s[e - 1]) then 2
    else if e >= 3 && IsSpace3(s[e - 3], s[e - 2], s[e - 1]) then 3
    else 0
  }

  function TrimLeft(s: Text): (r: Text)
    ensures |r| <= |s| && r == s[|s| - |r|..]
    ensures forall k | 0 <= k < |s| - |r| :: IsBlank(s[k])
    ensures LeadingSpace(r) == 0
  {
    var n := LeadingSpace(s);
    if n == 0 then s else TrimLeft(s[n..])
  }

  function TrimRight(s: Text): (r: Text)
    ensures |r| <= |s| && r == s[..|r|]
    ensures forall k | |r| <= k < |s| :: IsBlank(s[k])
    ensures TrailingSpace(r) == 0
  {
    var n := TrailingSpace(s);
    if n == 0 then s else TrimRight(s[..|s| - n])
  }

  function Trim(s: Text): Text {
    TrimRight(TrimLeft(s))
  }

  /** Any byte white space can be made of; none of them opens, closes or continues a token. */
  predicate IsBlank(b: byte) {
    IsAsciiSpace(b) || b >= 128
  }

  predicate IsBarrier(b: byte) {
    IsBlank(b) || b == SEMICOLON
  }

  // ----- the reference lexer -----

  datatype Mode = Neutral | SingleQuoted | DoubleQuoted | LineComment | BlockComment | Dollar(tag: Text)

  predicate IsTagByte(b: byte) {
    97 <= b <= 122 || 65 <= b <= 90 || 48 <= b <= 57 || b == UNDERSCORE
  }

  predicate IsTag(tag: Text) {
    && |tag| >= 2
    && tag[0] == DOLLAR
    && tag[|tag| - 1] == DOLLAR
    && forall k | 0 < k < |tag| - 1 :: IsTagByte(tag[k])
  }

  predicate ModeOk(m: Mode) {
    m.Dollar? ==> IsTag(m.tag)
  }

  /** Index just past the "$" that ends a tag whose bytes from i on are still to be read; 0 when there is none. */
  function TagEnd(s: Text, i: nat): (n: nat)
    requires i <= |s|
    ensures n == 0 || i < n <= |s|
    ensures n > 0 ==> s[n - 1] == DOLLAR && forall k | i <= k < n - 1 :: IsTagByte(s[k])
    decreases |s| - i
  {
    if i == |s| then 0
    else if s[i] == DOLLAR then i + 1
    else if IsTagByte(s[i]) then TagEnd(s, i + 1)
    else 0
  }

  function TagLength(s: Text): (n: nat)
    ensures n <= |s|
    ensures n > 0 ==> s[0] == DOLLAR && IsTag(s[..n])
  {
    if s == [] || s[0] != DOLLAR then 0 else TagEnd(s, 1)
  }

  predicate StartsPair(s: Text, first: byte, second: byte) {
    |s| >= 2 && s[0] == first && s[1] == second
  }

  /** How many bytes the token at the head of s takes when it is read in mode m. */
  function TokenLength(m: Mode, s: Text): (n: nat)
    requires ModeOk(m) && s != []
    ensures 1 <= n <= |s|
  {
    match m
    case LineComment => 1
    case BlockComment => if StartsPair(s, STAR, SLASH) then 2 else 1
    case Dollar(tag) => if tag <= s then |tag| else 1
    case SingleQuoted => if StartsPair(s, QUOTE, QUOTE) then 2 else 1
    case DoubleQuoted => 1
    case Neutral =>
      if StartsPair(s, DASH, DASH) || StartsPair(s, SLASH, STAR) then 2
      else if TagLength(s) > 0 then TagLength(s)
      else 1
  }

  /** The mode the rest of the text is read in after that token. */
  function ModeAfter(m: Mode, s: Text): (m': Mode)
    requires ModeOk(m) && s != []
    ensures ModeOk(m')
  {
    match m
    case LineComment => if s[0] == NEWLINE then Neutral else LineComment
    case BlockComment => if StartsPair(s, STAR, SLASH) then Neutral else BlockComment
    case Dollar(tag) => if tag <= s then Neutral else m
    case SingleQuoted => if s[0] == QUOTE && !StartsPair(s, QUOTE, QUOTE) then Neutral else SingleQuoted
    case DoubleQuoted => if s[0] == DOUBLE_QUOTE then Neutral else DoubleQuoted
    case Neutral =>
      if StartsPair(s, DASH, DASH) then LineComment
      else if StartsPair(s, SLASH, STAR) then BlockComment
      else if TagLength(s) > 0 then Dollar(s[..TagLength(s)])
      else if s[0] == QUOTE then SingleQuoted
      else if s[0] == DOUBLE_QUOTE then DoubleQuoted
      else Neutral
  }

  predicate IsCut(m: Mode, s: Text)
    requires s != []
  {
    m == Neutral && s[0] == SEMICOLON
  }

  function EndMode(m: Mode, s: Text): (m': Mode)
    requires ModeOk(m)
    ensures ModeOk(m')
    decreases |s|
  {
    if s == [] then m else EndMode(ModeAfter(m, s), s[TokenLength(m, s)..])
  }

  /** The untrimmed pieces of s, read from mode m on: the text between the cutting semicolons. */
  function Pieces(m: Mode, s: Text): (ps: seq<Text>)
    requires ModeOk(m)
    ensures |ps| >= 1
    decreases |s|
  {
    if s == [] then [[]]
    else
      var n := TokenLength(m, s);
      var rest := Pieces(ModeAfter(m, s), s[n..]);
      if IsCut(m, s) then [[]] + rest else Attach(s[..n], rest)
  }

  /** Glue text in front of the first piece. */
  function Attach(front: Text, ps: seq<Text>): (r: seq<Text>)
    requires |ps| >= 1
    ensures |r| == |ps|
  {
    [front + ps[0]] + ps[1..]
  }

  /** A piece becomes a statement unless it is blank. */
  function Kept(p: Text): seq<Text> {
    if Trim(p) == [] then [] else [Trim(p)]
  }

  function KeepStatements(ps: seq<Text>): seq<Text> {
    if ps == [] then [] else Kept(ps[0]) + KeepStatements(ps[1..])
  }

  function Split(s: Text): seq<Text> {
    KeepStatements(Pieces(Neutral, s))
  }

  // ----- the loops of the source -----

  method ReadDollarTag(text: Text) returns (tag: Text, ok: bool)
    ensures ok <==> TagLength(text) > 0
    ensures ok ==> tag == text[..TagLength(text)]
    ensures !ok ==> tag == []
  {
    if text == [] || text[0] != DOLLAR {
      return [], false;
    }
    var i := 1;
    while i < |text|
      invariant 1 <= i <= |text|
      invariant TagEnd(text, 1) == TagEnd(text, i)
    {
      var ch := text[i];
      if ch == DOLLAR {
        return text[..i + 1], true;
      }
      if (97 <= ch <= 122) || (65 <= ch <= 90) || (48 <= ch <= 57) || ch == UNDERSCORE {
        i := i + 1;
        continue;
      }
      return [], false;
    }
    return [], false;
  }

  /** The mode that the source's four flags and its open tag stand for. */
  ghost function ModeOf(single: bool, double: bool, line: bool, block: bool, tag: Text): Mode {
    if line then LineComment
    else if block then BlockComment
    else if tag != [] then Dollar(tag)
    else if single then SingleQuoted
    else if double then DoubleQuoted
    else Neutral
  }

  /** At most one of the flags is up. */
  ghost predicate FlagsOk(single: bool, double: bool, line: bool, block: bool, tag: Text) {
    && (tag != [] ==> IsTag(tag))
    && !(single && double)
    && (line ==> !single && !double && !block && tag == [])
    && (block ==> !single && !double && tag == [])
    && (tag != [] ==> !single && !double)
  }

  method SplitSqlStatements(sqlText: Text) returns (statements: seq<Text>)
    ensures statements == Split(sqlText)
  {
    hide Progress, Pieces, Split, KeepStatements, Trim, TagLength, TagEnd, IsTag, IsTagByte;
    statements := [];
    var b: Text := [];
    var inSingleQuote, inDoubleQuote, inLineComment, inBlockComment := false, false, false, false;
    var dollarTag: Text := [];
    var i := 0;
    Start(sqlText);
    assert sqlText[0..] == sqlText;
    while i < |sqlText|
      invariant 0 <= i <= |sqlText|
      invariant FlagsOk(inSingleQuote, inDoubleQuote, inLineComment, inBlockComment, dollarTag)
      invariant Split(sqlText) == Progress(statements, b,
                  ModeOf(inSingleQuote, inDoubleQuote, inLineComment, inBlockComment, dollarTag), sqlText[i..])
    {
      ghost var m := ModeOf(inSingleQuote, inDoubleQuote, inLineComment, inBlockComment, dollarTag);
      if IsCut(m, sqlText[i..]) {
        AdvanceCut(statements, b, sqlText[i..]);
      } else {
        AdvanceToken(statements, b, m, sqlText[i..]);
      }
      ghost var n := TokenLength(m, sqlText[i..]);
      assert sqlText[i..][n..] == sqlText[i + n..];
      assert sqlText[i..][..1] == [sqlText[i]];

      var ch := sqlText[i];
      var next: byte := 0;
      if i + 1 < |sqlText| {
        next := sqlText[i + 1];
        assert b + sqlText[i..][..2] == b + [ch] + [next];
      }

      if inLineComment {
        b := b + [ch];
        if ch == NEWLINE {
          inLineComment := false;
        }
        i := i + 1;
        continue;
      }
      if inBlockComment {
        b := b + [ch];
        if ch == STAR && next == SLASH {
          b := b + [next];
          i := i + 1;
          inBlockComment := false;
        }
        i := i + 1;
        continue;
      }
      if dollarTag != [] {
        if dollarTag <= sqlText[i..] {
          assert sqlText[i..][..|dollarTag|] == dollarTag;
          b := b + dollarTag;
          i := i + |dollarTag| - 1;
          dollarTag := [];
          i := i + 1;
          continue;
        }
        b := b + [ch];
        i := i + 1;
        continue;
      }

      if !inSingleQuote && !inDoubleQuote {
        if ch == DASH && next == DASH {
          b := b + [ch];
          b := b + [next];
          i := i + 1;
          inLineComment := true;
          i := i + 1;
          continue;
        }
        if ch == SLASH && next == STAR {
          b := b + [ch];
          b := b + [next];
          i := i + 1;
          inBlockComment := true;
          i := i + 1;
          continue;
        }
        if ch == DOLLAR {
          var tag, ok := ReadDollarTag(sqlText[i..]);
          if ok {
            b := b + tag;
            i := i + |tag| - 1;
            dollarTag := tag;
            i := i + 1;
            continue;
          }
        }
      }

      if ch == QUOTE {
        b := b + [ch];
        if !inDoubleQuote {
          if inSingleQuote && next == QUOTE {
            b := b + [next];
            i := i + 1;
            i := i + 1;
            continue;
          }
          inSingleQuote := !inSingleQuote;
        }
      } else if ch == DOUBLE_QUOTE {
        b := b + [ch];
        if !inSingleQuote {
          inDoubleQuote := !inDoubleQuote;
        }
      } else if ch == SEMICOLON {
        if inSingleQuote || inDoubleQuote {
          b := b + [ch];
          i := i + 1;
          continue;
        }
        var statement := Trim(b);
        assert statements + [] == statements;
        if statement != [] {
          statements := statements + [statement];
        }
        b := [];
      } else {
        b := b + [ch];
      }
      i := i + 1;
    }
    assert sqlText[i..] == [];
    Finish(statements, b, ModeOf(inSingleQuote, inDoubleQuote, inLineComment, inBlockComment, dollarTag));
    var statement := Trim(b);
    if statement != [] {
      statements := statements + [statement];
    }
  }

  /** What the loop still owes: the statements found, then those of the open piece and the unread text. */
  ghost function Progress(found: seq<Text>, open: Text, m: Mode, rest: Text): seq<Text>
    requires ModeOk(m)
  {
    found + KeepStatements(Attach(open, Pieces(m, rest)))
  }

  lemma Start(s: Text)
    ensures Split(s) == Progress([], [], Neutral, s)
  {
    AttachNothing(Pieces(Neutral, s));
  }

  lemma Finish(found: seq<Text>, open: Text, m: Mode)
    requires ModeOk(m)
    ensures Progress(found, open, m, []) == found + Kept(open)
  {
    hide Kept;
    assert open + [] == open;
    assert KeepStatements([open]) == Kept(open) + KeepStatements([]);
  }

  lemma AttachNothing(ps: seq<Text>)
    requires |ps| >= 1
    ensures Attach([], ps) == ps
  {
    assert [] + ps[0] == ps[0];
    assert ps == [ps[0]] + ps[1..];
  }

  lemma AttachAttach(a: Text, b: Text, ps: seq<Text>)
    requires |ps| >= 1
    ensures Attach(a, Attach(b, ps)) == Attach(a + b, ps)
  {
    assert a + (b + ps[0]) == a + b + ps[0];
  }

  /** A cutting semicolon closes the open piece. */
  lemma AdvanceCut(found: seq<Text>, open: Text, rest: Text)
    requires rest != [] && rest[0] == SEMICOLON
    ensures Progress(found, open, Neutral, rest) == Progress(found + Kept(open), [], Neutral, rest[1..])
  {
    hide Kept;
    var tail := Pieces(Neutral, rest[1..]);
    AttachNothing(tail);
    assert Pieces(Neutral, rest) == [[]] + tail;
    assert open + [] == open;
    assert Attach(open, [[]] + tail) == [open] + tail;
    KeepCons(open, tail);
    assert found + (Kept(open) + KeepStatements(tail)) == found + Kept(open) + KeepStatements(tail);
  }

  lemma KeepCons(p: Text, ps: seq<Text>)
    ensures KeepStatements([p] + ps) == Kept(p) + KeepStatements(ps)
  {
    hide Kept;
    assert ([p] + ps)[1..] == ps;
  }

  /** Any other token joins the open piece. */
  lemma AdvanceToken(found: seq<Text>, open: Text, m: Mode, rest: Text)
    requires ModeOk(m) && rest != [] && !IsCut(m, rest)
    ensures var n := TokenLength(m, rest);
            Progress(found, open, m, rest) == Progress(found, open + rest[..n], ModeAfter(m, rest), rest[n..])
  {
    var n := TokenLength(m, rest);
    AttachAttach(open, rest[..n], Pieces(ModeAfter(m, rest), rest[n..]));
  }
}
