/** What the splitter does, told in the terms of SQL: a text given as its lexemes is cut at its cuts and nowhere else. */
module SqlLexemes {
  import S = SqlSplitter
  import opened SqlSplitterLaws

  type Text = S.Text

  function Byte(c: char): S.byte
    requires c < 256 as char
  {
    c as int as S.byte
  }

  /** A text in ASCII. */
  function Bytes(s: string): Text
    requires forall c | c in s :: c < 128 as char
  {
    seq(|s|, i requires 0 <= i < |s| => assert s[i] in s; Byte(s[i]))
  }

  /**
   What SQL text is made of, and last an unclosed literal, name, comment or body, which takes the rest of the text.
   A literal is what it stands for: its quotes are doubled when it is written.
   */
  datatype Lexeme =
    | Plain(b: S.byte)
    | Literal(value: Text)
    | Name(name: Text)
    | LineNote(note: Text)
    | BlockNote(note: Text)
    | Tagged(tag: Text, body: Text)
    | Cut
    | Unclosed(start: Text, rest: Text)

  /** A literal's value as written between its quotes. */
  function Doubled(value: Text): Text {
    if value == [] then []
    else (if value[0] == Byte('\'') then Bytes("''") else [value[0]]) + Doubled(value[1..])
  }

  /** "$", letters, digits and underscores, or nothing, and "$". */
  function TagOf(name: Text): Text {
    Bytes("$") + name + Bytes("$")
  }

  predicate IsNameByte(b: S.byte) {
    var c := b as int as char;
    'a' <= c <= 'z' || 'A' <= c <= 'Z' || '0' <= c <= '9' || c == '_'
  }

  predicate IsName(s: Text) {
    forall k | 0 <= k < |s| :: IsNameByte(s[k])
  }

  function Write(l: Lexeme): Text {
    match l
    case Plain(b) => [b]
    case Literal(value) => Bytes("'") + (Doubled(value) + Bytes("'"))
    case Name(name) => Bytes("\"") + (name + Bytes("\""))
    case LineNote(note) => Bytes("--") + (note + Bytes("\n"))
    case BlockNote(note) => Bytes("/*") + (note + Bytes("*/"))
    case Tagged(tag, body) => TagOf(tag) + (body + TagOf(tag))
    case Cut => Bytes(";")
    case Unclosed(start, rest) => start + rest
  }

  function Render(ls: seq<Lexeme>): Text {
    if ls == [] then [] else Write(ls[0]) + Render(ls[1..])
  }

  // ----- well-formed lists -----

  /** The first occurrence of `end` in body + end is the last: nothing in the body closes it early. */
  predicate ClosedBy(body: Text, end: Text) {
    forall k | 0 <= k < |body| :: !(end <= (body + end)[k..])
  }

  predicate Absent(part: Text, s: Text) {
    forall k | 0 <= k <= |s| :: !(part <= s[k..])
  }

  /** After a "$": letters, digits or underscores up to another "$". */
  ghost predicate CompletesTag(s: Text) {
    exists n: nat | n < |s| :: IsName(s[..n]) && s[n] == Byte('$')
  }

  /** A plain byte opens nothing and cuts nothing, read with what follows it. */
  ghost predicate OpensNothing(b: S.byte, after: Text) {
    && b != Byte('\'') && b != Byte('"') && b != Byte(';')
    && !(b == Byte('-') && Bytes("-") <= after)
    && !(b == Byte('/') && Bytes("*") <= after)
    && !(b == Byte('$') && CompletesTag(after))
  }

  /** The literal, name, comment or body that starts so is nowhere closed in the rest of the text. */
  ghost predicate NeverClosed(start: Text, rest: Text) {
    || (start == Bytes("'") && exists value :: rest == Doubled(value))
    || (start == Bytes("\"") && Byte('"') !in rest)
    || (start == Bytes("--") && Byte('\n') !in rest)
    || (start == Bytes("/*") && Absent(Bytes("*/"), rest))
    || (exists tag :: start == TagOf(tag) && IsName(tag) && Absent(start, rest))
  }

  /** Read with what follows it, the lexeme is what it says it is. */
  ghost predicate Fits(l: Lexeme, after: Text) {
    match l
    case Plain(b) => OpensNothing(b, after)
    case Literal(_) => !(Bytes("'") <= after)
    case Name(name) => Byte('"') !in name
    case LineNote(note) => Byte('\n') !in note
    case BlockNote(note) => ClosedBy(note, Bytes("*/"))
    case Tagged(tag, body) => IsName(tag) && ClosedBy(body, TagOf(tag))
    case Cut => true
    case Unclosed(start, rest) => after == [] && NeverClosed(start, rest)
  }

  ghost predicate WellFormed(ls: seq<Lexeme>) {
    ls == [] || (Fits(ls[0], Render(ls[1..])) && WellFormed(ls[1..]))
  }

  // ----- the statements of a list of lexemes -----

  /** The stretches between the cuts, one more than there are cuts. */
  function Stretches(ls: seq<Lexeme>): (r: seq<seq<Lexeme>>)
    ensures r != []
  {
    if ls == [] then [[]]
    else
      var rest := Stretches(ls[1..]);
      if ls[0].Cut? then [[]] + rest else [[ls[0]] + rest[0]] + rest[1..]
  }

  /** Each stretch written and trimmed, the blank ones left out. */
  function Statements(stretches: seq<seq<Lexeme>>): seq<Text> {
    if stretches == [] then []
    else
      var statement := S.Trim(Render(stretches[0]));
      (if statement == [] then [] else [statement]) + Statements(stretches[1..])
  }

  // ----- one lexeme read by the automaton -----

  lemma Constants()
    ensures Byte('\'') == S.QUOTE && Byte('"') == S.DOUBLE_QUOTE && Byte(';') == S.SEMICOLON && Byte('-') == S.DASH
    ensures Byte('/') == S.SLASH && Byte('*') == S.STAR && Byte('$') == S.DOLLAR && Byte('\n') == S.NEWLINE
    ensures Bytes("'") == [S.QUOTE] && Bytes("''") == [S.QUOTE, S.QUOTE] && Bytes("\"") == [S.DOUBLE_QUOTE]
    ensures Bytes("--") == [S.DASH, S.DASH] && Bytes("/*") == [S.SLASH, S.STAR] && Bytes("*/") == [S.STAR, S.SLASH]
    ensures Bytes("$") == [S.DOLLAR] && Bytes(";") == [S.SEMICOLON] && Bytes("\n") == [S.NEWLINE]
    ensures Bytes("-") == [S.DASH] && Bytes("*") == [S.STAR]
    ensures forall b :: IsNameByte(b) <==> S.IsTagByte(b)
  {
  }

  /** Read in mode m, the text is one stretch of its piece, and what follows is read in mode m'. */
  ghost predicate Reads(m: S.Mode, s: Text, m': S.Mode, rest: Text)
    requires S.ModeOk(m) && S.ModeOk(m')
  {
    S.Pieces(m, s + rest) == S.Attach(s, S.Pieces(m', rest))
  }

  lemma ReadsNothing(m: S.Mode, rest: Text)
    requires S.ModeOk(m)
    ensures Reads(m, [], m, rest)
  {
    assert [] + rest == rest;
    S.AttachNothing(S.Pieces(m, rest));
  }

  /** One token, then the rest of the stretch. */
  lemma ReadsOn(m: S.Mode, token: Text, m1: S.Mode, s: Text, m2: S.Mode, rest: Text)
    requires S.ModeOk(m) && S.ModeOk(m1) && S.ModeOk(m2) && token != []
    requires var all := token + (s + rest);
             S.TokenLength(m, all) == |token| && S.ModeAfter(m, all) == m1 && !S.IsCut(m, all)
    requires Reads(m1, s, m2, rest)
    ensures Reads(m, token + s, m2, rest)
  {
    hide S.TokenLength, S.ModeAfter, S.IsCut;
    var all := token + (s + rest);
    assert token + s + rest == all;
    assert all[|token|..] == s + rest && all[..|token|] == token;
    S.AttachAttach(token, s, S.Pieces(m2, rest));
  }

  lemma {:induction false} ReadsLiteral(value: Text, rest: Text)
    requires !(Bytes("'") <= rest)
    ensures Reads(S.SingleQuoted, Doubled(value) + Bytes("'"), S.Neutral, rest)
  {
    hide Reads;
    Constants();
    if value == [] {
      ReadsNothing(S.Neutral, rest);
      ReadsOn(S.SingleQuoted, Bytes("'"), S.Neutral, [], S.Neutral, rest);
      assert Doubled(value) + Bytes("'") == Bytes("'") + [];
    } else {
      ReadsLiteral(value[1..], rest);
      var token := if value[0] == Byte('\'') then Bytes("''") else [value[0]];
      var s := Doubled(value[1..]) + Bytes("'");
      assert token + (s + rest) == token + s + rest;
      ReadsOn(S.SingleQuoted, token, S.SingleQuoted, s, S.Neutral, rest);
      assert Doubled(value) + Bytes("'") == token + s;
    }
  }

  lemma {:induction false} ReadsName(name: Text, rest: Text)
    requires Byte('"') !in name
    ensures Reads(S.DoubleQuoted, name + Bytes("\""), S.Neutral, rest)
  {
    hide Reads;
    Constants();
    if name == [] {
      ReadsNothing(S.Neutral, rest);
      ReadsOn(S.DoubleQuoted, Bytes("\""), S.Neutral, [], S.Neutral, rest);
      assert name + Bytes("\"") == Bytes("\"") + [];
    } else {
      ReadsName(name[1..], rest);
      ReadsOn(S.DoubleQuoted, [name[0]], S.DoubleQuoted, name[1..] + Bytes("\""), S.Neutral, rest);
      assert name + Bytes("\"") == [name[0]] + (name[1..] + Bytes("\""));
    }
  }

  lemma {:induction false} ReadsLineNote(note: Text, rest: Text)
    requires Byte('\n') !in note
    ensures Reads(S.LineComment, note + Bytes("\n"), S.Neutral, rest)
  {
    hide Reads;
    Constants();
    if note == [] {
      ReadsNothing(S.Neutral, rest);
      ReadsOn(S.LineComment, Bytes("\n"), S.Neutral, [], S.Neutral, rest);
      assert note + Bytes("\n") == Bytes("\n") + [];
    } else {
      ReadsLineNote(note[1..], rest);
      ReadsOn(S.LineComment, [note[0]], S.LineComment, note[1..] + Bytes("\n"), S.Neutral, rest);
      assert note + Bytes("\n") == [note[0]] + (note[1..] + Bytes("\n"));
    }
  }

  /** What is closed only at its end stays so without its first byte, and is not closed at that byte. */
  lemma ClosedTail(body: Text, end: Text, rest: Text)
    requires body != [] && end != [] && ClosedBy(body, end)
    ensures ClosedBy(body[1..], end) && !(end <= [body[0]] + (body[1..] + end + rest))
  {
    assert (body + end)[0..] == body + end == [body[0]] + (body[1..] + end);
    assert [body[0]] + (body[1..] + end + rest) == (body + end) + rest;
    assert end <= (body + end) + rest ==> end <= body + end;
    forall k | 0 <= k < |body| - 1 ensures !(end <= (body[1..] + end)[k..]) {
      assert (body[1..] + end)[k..] == (body + end)[k + 1..];
    }
  }

  lemma {:induction false} ReadsBlockNote(note: Text, rest: Text)
    requires ClosedBy(note, Bytes("*/"))
    ensures Reads(S.BlockComment, note + Bytes("*/"), S.Neutral, rest)
    decreases |note|
  {
    hide Reads;
    Constants();
    var end := Bytes("*/");
    if note == [] {
      ReadsNothing(S.Neutral, rest);
      ReadsOn(S.BlockComment, end, S.Neutral, [], S.Neutral, rest);
      assert note + end == end + [];
    } else {
      ClosedTail(note, end, rest);
      ReadsBlockNote(note[1..], rest);
      var all := [note[0]] + (note[1..] + end + rest);
      assert S.StartsPair(all, S.STAR, S.SLASH) ==> end <= all;
      ReadsOn(S.BlockComment, [note[0]], S.BlockComment, note[1..] + end, S.Neutral, rest);
      assert note + end == [note[0]] + (note[1..] + end);
    }
  }

  lemma {:induction false} ReadsBody(tag: Text, body: Text, rest: Text)
    requires S.IsTag(tag) && ClosedBy(body, tag)
    ensures Reads(S.Dollar(tag), body + tag, S.Neutral, rest)
    decreases |body|
  {
    hide Reads, S.IsTag;
    if body == [] {
      ReadsNothing(S.Neutral, rest);
      TagNotEmpty(tag);
      assert tag <= tag + ([] + rest);
      ReadsOn(S.Dollar(tag), tag, S.Neutral, [], S.Neutral, rest);
      assert body + tag == tag + [];
    } else {
      TagNotEmpty(tag);
      ClosedTail(body, tag, rest);
      ReadsBody(tag, body[1..], rest);
      ReadsOn(S.Dollar(tag), [body[0]], S.Dollar(tag), body[1..] + tag, S.Neutral, rest);
      assert body + tag == [body[0]] + (body[1..] + tag);
    }
  }

  lemma TagNotEmpty(tag: Text)
    requires S.IsTag(tag)
    ensures tag != []
  {
  }

  // ----- tags -----

  lemma TagIsTag(name: Text)
    requires IsName(name)
    ensures S.IsTag(TagOf(name))
  {
    Constants();
  }

  lemma {:induction false} TagEndAt(s: Text, i: nat, n: nat)
    requires i <= n < |s| && s[n] == S.DOLLAR && forall k | i <= k < n :: S.IsTagByte(s[k])
    ensures S.TagEnd(s, i) == n + 1
    decreases n - i
  {
    assert !S.IsTagByte(S.DOLLAR);
    if i < n {
      TagEndAt(s, i + 1, n);
    }
  }

  /** A tag is found at the head of a text exactly when the text after its "$" completes one. */
  lemma TagFound(after: Text)
    ensures S.TagLength([S.DOLLAR] + after) > 0 <==> CompletesTag(after)
  {
    Constants();
    var s := [S.DOLLAR] + after;
    if CompletesTag(after) {
      var n: nat :| n < |after| && IsName(after[..n]) && after[n] == Byte('$');
      assert forall k | 1 <= k < n + 1 :: s[k] == after[..n][k - 1];
      TagEndAt(s, 1, n + 1);
    }
    var e := S.TagEnd(s, 1);
    if e > 0 {
      var name := after[..e - 2];
      assert forall k | 0 <= k < |name| :: name[k] == s[k + 1];
      assert IsName(after[..e - 2]) && after[e - 2] == Byte('$');
    }
  }

  lemma TagRead(name: Text, rest: Text)
    requires IsName(name)
    ensures S.TagLength(TagOf(name) + rest) == |TagOf(name)|
  {
    Constants();
    var s := TagOf(name) + rest;
    assert forall k | 1 <= k <= |name| :: s[k] == name[k - 1];
    TagEndAt(s, 1, |name| + 1);
  }

  // ----- one lexeme -----

  lemma ReadsPlain(b: S.byte, rest: Text)
    requires OpensNothing(b, rest)
    ensures Reads(S.Neutral, [b], S.Neutral, rest)
  {
    hide Reads;
    Constants();
    assert [b] + rest == [b] + ([] + rest);
    if b == S.DOLLAR {
      TagFound(rest);
    }
    ReadsNothing(S.Neutral, rest);
    ReadsOn(S.Neutral, [b], S.Neutral, [], S.Neutral, rest);
    assert [b] + [] == [b];
  }

  /** Every closed lexeme but a cut belongs whole to its piece, and leaves the reader where it started. */
  lemma ReadsLexeme(l: Lexeme, rest: Text)
    requires Fits(l, rest) && !l.Cut? && !l.Unclosed?
    ensures Reads(S.Neutral, Write(l), S.Neutral, rest)
  {
    hide Reads, ClosedBy, S.TagLength, S.IsTag;
    Constants();
    match l
    case Plain(b) => ReadsPlain(b, rest);
    case Literal(value) =>
      ReadsLiteral(value, rest);
      NoTagAt(Bytes("'") + (Doubled(value) + Bytes("'") + rest));
      ReadsOn(S.Neutral, Bytes("'"), S.SingleQuoted, Doubled(value) + Bytes("'"), S.Neutral, rest);
    case Name(name) =>
      ReadsName(name, rest);
      NoTagAt(Bytes("\"") + (name + Bytes("\"") + rest));
      ReadsOn(S.Neutral, Bytes("\""), S.DoubleQuoted, name + Bytes("\""), S.Neutral, rest);
    case LineNote(note) =>
      ReadsLineNote(note, rest);
      ReadsOn(S.Neutral, Bytes("--"), S.LineComment, note + Bytes("\n"), S.Neutral, rest);
    case BlockNote(note) =>
      ReadsBlockNote(note, rest);
      ReadsOn(S.Neutral, Bytes("/*"), S.BlockComment, note + Bytes("*/"), S.Neutral, rest);
    case Tagged(name, body) =>
      var tag := TagOf(name);
      TagIsTag(name);
      TagRead(name, body + tag + rest);
      ReadsBody(tag, body, rest);
      assert (tag + (body + tag + rest))[..|tag|] == tag;
      ReadsOn(S.Neutral, tag, S.Dollar(tag), body + tag, S.Neutral, rest);
  }

  lemma NoTagAt(s: Text)
    requires s != [] && s[0] != S.DOLLAR
    ensures S.TagLength(s) == 0
  {
  }

  // ----- what is never closed -----

  lemma {:induction false} ReadsValue(value: Text)
    ensures Reads(S.SingleQuoted, Doubled(value), S.SingleQuoted, [])
  {
    hide Reads;
    Constants();
    if value == [] {
      ReadsNothing(S.SingleQuoted, []);
    } else {
      ReadsValue(value[1..]);
      var token := if value[0] == Byte('\'') then Bytes("''") else [value[0]];
      ReadsOn(S.SingleQuoted, token, S.SingleQuoted, Doubled(value[1..]), S.SingleQuoted, []);
    }
  }

  lemma {:induction false} ReadsOpenName(s: Text)
    requires Byte('"') !in s
    ensures Reads(S.DoubleQuoted, s, S.DoubleQuoted, [])
  {
    hide Reads;
    Constants();
    if s == [] {
      ReadsNothing(S.DoubleQuoted, []);
    } else {
      ReadsOpenName(s[1..]);
      ReadsOn(S.DoubleQuoted, [s[0]], S.DoubleQuoted, s[1..], S.DoubleQuoted, []);
      assert s == [s[0]] + s[1..];
    }
  }

  lemma {:induction false} ReadsLastNote(s: Text)
    requires Byte('\n') !in s
    ensures Reads(S.LineComment, s, S.LineComment, [])
  {
    hide Reads;
    Constants();
    if s == [] {
      ReadsNothing(S.LineComment, []);
    } else {
      ReadsLastNote(s[1..]);
      ReadsOn(S.LineComment, [s[0]], S.LineComment, s[1..], S.LineComment, []);
      assert s == [s[0]] + s[1..];
    }
  }

  lemma AbsentTail(part: Text, s: Text)
    requires s != [] && Absent(part, s)
    ensures Absent(part, s[1..]) && !(part <= s)
  {
    assert s[0..] == s;
    forall k | 0 <= k <= |s| - 1 ensures !(part <= s[1..][k..]) {
      assert s[1..][k..] == s[k + 1..];
    }
  }

  lemma {:induction false} ReadsOpenBlock(s: Text)
    requires Absent(Bytes("*/"), s)
    ensures Reads(S.BlockComment, s, S.BlockComment, [])
  {
    hide Reads;
    Constants();
    if s == [] {
      ReadsNothing(S.BlockComment, []);
    } else {
      var end := Bytes("*/");
      AbsentTail(end, s);
      ReadsOpenBlock(s[1..]);
      assert s == [s[0]] + s[1..] == [s[0]] + (s[1..] + []);
      assert S.StartsPair(s, S.STAR, S.SLASH) ==> end <= s;
      ReadsOn(S.BlockComment, [s[0]], S.BlockComment, s[1..], S.BlockComment, []);
    }
  }

  lemma {:induction false} ReadsOpenBody(tag: Text, s: Text)
    requires S.IsTag(tag) && Absent(tag, s)
    ensures Reads(S.Dollar(tag), s, S.Dollar(tag), [])
  {
    hide Reads, S.IsTag;
    if s == [] {
      ReadsNothing(S.Dollar(tag), []);
    } else {
      AbsentTail(tag, s);
      ReadsOpenBody(tag, s[1..]);
      assert s == [s[0]] + s[1..] == [s[0]] + (s[1..] + []);
      ReadsOn(S.Dollar(tag), [s[0]], S.Dollar(tag), s[1..], S.Dollar(tag), []);
    }
  }

  lemma ReadsUnclosed(start: Text, s: Text)
    requires NeverClosed(start, s)
    ensures S.Pieces(S.Neutral, start + s) == [start + s]
  {
    hide Reads, Absent, S.TagLength, S.IsTag;
    Constants();
    assert start + (s + []) == start + s;
    if start == Bytes("'") && exists value :: s == Doubled(value) {
      var value :| s == Doubled(value);
      ReadsValue(value);
      NoTagAt(start + s);
      ReadsOn(S.Neutral, start, S.SingleQuoted, s, S.SingleQuoted, []);
      OneStretch(start + s, S.SingleQuoted);
    } else if start == Bytes("\"") {
      ReadsOpenName(s);
      NoTagAt(start + s);
      ReadsOn(S.Neutral, start, S.DoubleQuoted, s, S.DoubleQuoted, []);
      OneStretch(start + s, S.DoubleQuoted);
    } else if start == Bytes("--") {
      ReadsLastNote(s);
      ReadsOn(S.Neutral, start, S.LineComment, s, S.LineComment, []);
      OneStretch(start + s, S.LineComment);
    } else if start == Bytes("/*") {
      ReadsOpenBlock(s);
      ReadsOn(S.Neutral, start, S.BlockComment, s, S.BlockComment, []);
      OneStretch(start + s, S.BlockComment);
    } else {
      var name :| start == TagOf(name) && IsName(name) && Absent(start, s);
      TagIsTag(name);
      TagRead(name, s);
      ReadsOpenBody(start, s);
      assert (start + s)[..|start|] == start;
      ReadsOn(S.Neutral, start, S.Dollar(start), s, S.Dollar(start), []);
      OneStretch(start + s, S.Dollar(start));
    }
  }

  lemma OneStretch(s: Text, m: S.Mode)
    requires S.ModeOk(m) && Reads(S.Neutral, s, m, [])
    ensures S.Pieces(S.Neutral, s) == [s]
  {
    assert s + [] == s;
    assert S.Pieces(m, []) == [[]];
  }

  // ----- the whole text -----

  /** Each stretch written. */
  function Written(stretches: seq<seq<Lexeme>>): (r: seq<Text>)
    ensures |r| == |stretches|
  {
    seq(|stretches|, k requires 0 <= k < |stretches| => Render(stretches[k]))
  }

  lemma {:induction false} StretchesRead(ls: seq<Lexeme>)
    requires WellFormed(ls)
    ensures S.Pieces(S.Neutral, Render(ls)) == Written(Stretches(ls))
  {
    hide Fits, Write, S.Pieces, Written;
    if ls == [] {
      NothingRead();
    } else {
      StretchesRead(ls[1..]);
      if ls[0].Cut? {
        CutRead(ls);
      } else if ls[0].Unclosed? {
        UnclosedRead(ls);
      } else {
        ReadsLexeme(ls[0], Render(ls[1..]));
        WrittenCons(ls[0], Stretches(ls[1..]));
      }
    }
  }

  lemma NothingRead()
    ensures S.Pieces(S.Neutral, []) == Written([[]])
  {
    assert Written([[]]) == [[]];
  }

  lemma CutRead(ls: seq<Lexeme>)
    requires ls != [] && ls[0].Cut?
    requires S.Pieces(S.Neutral, Render(ls[1..])) == Written(Stretches(ls[1..]))
    ensures S.Pieces(S.Neutral, Render(ls)) == Written(Stretches(ls))
  {
    hide Write, S.Pieces, Written;
    Constants();
    CutWritten();
    CutHere(Render(ls[1..]));
    WrittenCut(Stretches(ls[1..]));
  }

  lemma WrittenCut(stretches: seq<seq<Lexeme>>)
    ensures Written([[]] + stretches) == [[]] + Written(stretches)
  {
    assert Render([]) == [];
    hide Render;
    var a, b := Written([[]] + stretches), [[]] + Written(stretches);
    forall k | 0 <= k < |a| ensures a[k] == b[k] {
      assert k > 0 ==> ([[]] + stretches)[k] == stretches[k - 1];
    }
  }

  lemma UnclosedRead(ls: seq<Lexeme>)
    requires WellFormed(ls) && ls != [] && ls[0].Unclosed?
    ensures S.Pieces(S.Neutral, Render(ls)) == Written(Stretches(ls))
  {
    hide Fits, S.Pieces, Stretches;
    var l := ls[0];
    UnclosedLast(l, Render(ls[1..]));
    ReadsUnclosed(l.start, l.rest);
    NothingAfter(ls);
    assert Render([l]) == Write(l) by {
      assert Write(l) + [] == Write(l);
    }
    assert Written([[l]]) == [Write(l)];
  }

  lemma CutWritten()
    ensures Write(Cut) == Bytes(";")
  {
  }

  lemma UnclosedLast(l: Lexeme, rest: Text)
    requires l.Unclosed? && Fits(l, rest)
    ensures rest == [] && NeverClosed(l.start, l.rest) && Write(l) == l.start + l.rest
  {
  }

  /** A list that writes nothing is empty. */
  lemma NothingAfter(ls: seq<Lexeme>)
    requires WellFormed(ls) && ls != [] && ls[0].Unclosed? && Render(ls[1..]) == []
    ensures ls[1..] == [] && Stretches(ls) == [[ls[0]]]
    ensures Render(ls) == Write(ls[0])
  {
    if ls[1..] != [] {
      SomethingWritten(ls[1]);
    }
    assert [ls[0]] + [] == [ls[0]];
  }

  lemma SomethingWritten(l: Lexeme)
    requires exists after :: Fits(l, after)
    ensures Write(l) != []
  {
  }

  lemma WrittenCons(l: Lexeme, stretches: seq<seq<Lexeme>>)
    requires stretches != []
    ensures Written([[l] + stretches[0]] + stretches[1..]) == S.Attach(Write(l), Written(stretches))
  {
    hide Write;
    assert ([l] + stretches[0])[1..] == stretches[0];
    assert Written(stretches)[1..] == Written(stretches[1..]);
  }

  lemma {:induction false} StatementsKept(stretches: seq<seq<Lexeme>>)
    ensures S.KeepStatements(Written(stretches)) == Statements(stretches)
  {
    hide S.Trim, Render;
    if stretches != [] {
      StatementsKept(stretches[1..]);
      assert Written(stretches)[1..] == Written(stretches[1..]);
    }
  }

  /**
   A text is cut at its cuts and nowhere else: its statements are the stretches between them, written and trimmed,
   the blank ones left out. No ";" in a literal, a name, a comment or a tagged body separates anything.
   */
  lemma SplitsAtCuts(ls: seq<Lexeme>)
    requires WellFormed(ls)
    ensures S.Split(Render(ls)) == Statements(Stretches(ls))
  {
    hide S.Pieces, S.KeepStatements, Written, Stretches, Statements;
    StretchesRead(ls);
    StatementsKept(Stretches(ls));
  }

  // ----- every text has its lexemes -----

  /** The text from j to the end of the part found at k. */
  lemma FromThere(s: Text, part: Text, k: nat, j: nat)
    requires j <= k && k + |part| <= |s| && s[k..k + |part|] == part
    ensures (s[..k] + part)[j..] == s[j..k + |part|]
    ensures part <= s[j..k + |part|] ==> part <= s[j..]
  {
    assert s[..k] + part == s[..k + |part|];
    assert s[j..k + |part|] == s[j..][..k - j + |part|];
  }

  /** Found in what follows the first byte is found in the text, if it does not stand at its head. */
  lemma FoundLater(s: Text, part: Text, k: nat)
    requires s != [] && k + |part| <= |s[1..]| && s[1..][k..k + |part|] == part
    requires ClosedBy(s[1..][..k], part) && part != [] && !(part <= s)
    ensures s[k + 1..k + 1 + |part|] == part && ClosedBy(s[..k + 1], part)
  {
    var tail, front := s[1..], s[..k + 1];
    assert s[k + 1..k + 1 + |part|] == tail[k..k + |part|];
    forall j | 0 <= j < |front| ensures !(part <= (front + part)[j..]) {
      FromThere(s, part, k + 1, j);
      if j == 0 {
        assert s[0..] == s;
      } else {
        FromThere(tail, part, k, j - 1);
        assert s[j..k + 1 + |part|] == tail[j - 1..k + |part|];
      }
    }
  }

  /** The first place in s where the part stands, or none. */
  lemma {:induction false} Find(part: Text, s: Text) returns (k: nat, found: bool)
    requires part != []
    ensures found ==> k + |part| <= |s| && s[k..k + |part|] == part && ClosedBy(s[..k], part)
    ensures !found ==> Absent(part, s)
  {
    if part <= s {
      k, found := 0, true;
      assert s[..0] == [];
    } else if s == [] {
      k, found := 0, false;
    } else {
      k, found := Find(part, s[1..]);
      if found {
        FoundLater(s, part, k);
        k := k + 1;
      } else {
        assert s[0..] == s;
        forall j | 0 <= j <= |s| ensures !(part <= s[j..]) {
          if j > 0 {
            assert s[j..] == s[1..][j - 1..];
          }
        }
      }
    }
  }

  lemma {:induction false} FindByte(b: S.byte, s: Text) returns (k: nat, found: bool)
    ensures found ==> k < |s| && s[k] == b && b !in s[..k]
    ensures !found ==> b !in s
  {
    k, found := 0, false;
    if s != [] {
      if s[0] == b {
        found := true;
      } else {
        k, found := FindByte(b, s[1..]);
        if found {
          k := k + 1;
          assert s[..k] == [s[0]] + s[1..][..k - 1];
        }
      }
    }
  }

  /** A literal's value from the text after its opening quote, and the text after its closing one. */
  lemma {:induction false} FindValue(s: Text) returns (value: Text, closed: bool, rest: Text)
    ensures closed ==> s == Doubled(value) + Bytes("'") + rest && !(Bytes("'") <= rest)
    ensures !closed ==> s == Doubled(value)
    decreases |s|
  {
    Constants();
    if s == [] {
      value, closed, rest := [], false, [];
    } else if s[0] == S.QUOTE && (|s| == 1 || s[1] != S.QUOTE) {
      value, closed, rest := [], true, s[1..];
      assert s == Doubled([]) + Bytes("'") + rest;
    } else {
      var n := if s[0] == S.QUOTE then 2 else 1;
      value, closed, rest := FindValue(s[n..]);
      assert s == s[..n] + s[n..];
      var all := [s[0]] + value;
      assert all[1..] == value;
      assert Doubled(all) == s[..n] + Doubled(value);
      value := all;
    }
  }

  lemma Prepend(l: Lexeme, ls: seq<Lexeme>)
    requires WellFormed(ls) && Fits(l, Render(ls))
    ensures WellFormed([l] + ls) && Render([l] + ls) == Write(l) + Render(ls)
  {
    hide Fits;
    assert ([l] + ls)[1..] == ls;
  }

  /** The lexeme a text begins with, and the text after it. */
  lemma FirstLexeme(s: Text) returns (l: Lexeme, rest: Text)
    requires s != []
    ensures Fits(l, rest) && s == Write(l) + rest && |rest| < |s|
  {
    hide Doubled, ClosedBy, Absent;
    Constants();
    var after, dash, dashes, star, note := s[1..], Bytes("-"), Bytes("--"), Bytes("*"), Bytes("/*");
    assert s == [s[0]] + after;
    if s[0] == S.QUOTE {
      l, rest := FirstLiteral(s);
    } else if s[0] == S.DOUBLE_QUOTE {
      l, rest := FirstName(s);
    } else if s[0] == S.SEMICOLON {
      l, rest := Cut, after;
    } else if Bytes("--") <= s {
      l, rest := FirstLineNote(s);
    } else if Bytes("/*") <= s {
      l, rest := FirstBlockNote(s);
    } else if s[0] == S.DOLLAR && CompletesTag(after) {
      l, rest := FirstTagged(s);
    } else {
      l, rest := Plain(s[0]), after;
      assert dash <= after && s[0] == S.DASH ==> dashes <= s;
      assert star <= after && s[0] == S.SLASH ==> note <= s;
    }
  }

  lemma FirstLiteral(s: Text) returns (l: Lexeme, rest: Text)
    requires Bytes("'") <= s
    ensures Fits(l, rest) && s == Write(l) + rest && |rest| < |s|
  {
    hide Doubled;
    var start, after := Bytes("'"), s[1..];
    var value, closed, r := FindValue(after);
    assert s == start + after;
    l, rest := if closed then Literal(value) else Unclosed(start, after), if closed then r else [];
    assert s == Write(l) + rest;
  }

  lemma FirstName(s: Text) returns (l: Lexeme, rest: Text)
    requires Bytes("\"") <= s
    ensures Fits(l, rest) && s == Write(l) + rest && |rest| < |s|
  {
    Constants();
    var start, after := Bytes("\""), s[1..];
    var k, found := FindByte(S.DOUBLE_QUOTE, after);
    assert s == start + after;
    l, rest := if found then Name(after[..k]) else Unclosed(start, after), if found then after[k + 1..] else [];
    assert found ==> after == after[..k] + start + rest;
    assert s == Write(l) + rest;
  }

  lemma FirstLineNote(s: Text) returns (l: Lexeme, rest: Text)
    requires Bytes("--") <= s
    ensures Fits(l, rest) && s == Write(l) + rest && |rest| < |s|
  {
    Constants();
    var start, after := Bytes("--"), s[2..];
    var k, found := FindByte(S.NEWLINE, after);
    assert s == start + after;
    l, rest := if found then LineNote(after[..k]) else Unclosed(start, after), if found then after[k + 1..] else [];
    assert found ==> after == after[..k] + Bytes("\n") + rest;
    assert s == Write(l) + rest;
  }

  lemma FirstBlockNote(s: Text) returns (l: Lexeme, rest: Text)
    requires Bytes("/*") <= s
    ensures Fits(l, rest) && s == Write(l) + rest && |rest| < |s|
  {
    Constants();
    hide ClosedBy, Absent;
    var start, end, after := Bytes("/*"), Bytes("*/"), s[2..];
    var k, found := Find(end, after);
    assert s == start + after;
    l, rest := if found then BlockNote(after[..k]) else Unclosed(start, after), if found then after[k + 2..] else [];
    assert found ==> after == after[..k] + end + rest;
    assert s == Write(l) + rest;
  }

  lemma FirstTagged(s: Text) returns (l: Lexeme, rest: Text)
    requires s != [] && s[0] == Byte('$') && CompletesTag(s[1..])
    ensures Fits(l, rest) && s == Write(l) + rest && |rest| < |s|
  {
    hide ClosedBy, Absent, CompletesTag;
    var name, after := TagTaken(s);
    var tag := TagOf(name);
    var k, found := Find(tag, after);
    hide TagOf, IsName;
    if found {
      l, rest := Tagged(name, after[..k]), after[k + |tag|..];
      assert after == after[..k] + tag + rest;
      assert s == tag + (after[..k] + tag) + rest;
    } else {
      l, rest := Unclosed(tag, after), [];
      assert s == tag + after + [];
    }
  }

  lemma TagTaken(s: Text) returns (name: Text, after: Text)
    requires s != [] && s[0] == Byte('$') && CompletesTag(s[1..])
    ensures IsName(name) && s == TagOf(name) + after
  {
    Constants();
    var n: nat :| n < |s[1..]| && IsName(s[1..][..n]) && s[1..][n] == Byte('$');
    name, after := s[1..][..n], s[n + 2..];
  }

  /** Every text is one well-formed list of lexemes written out, so its statements are always told by the cuts. */
  lemma {:induction false} EveryTextLexes(s: Text) returns (ls: seq<Lexeme>)
    ensures WellFormed(ls) && Render(ls) == s
    ensures S.Split(s) == Statements(Stretches(ls))
    decreases |s|
  {
    hide Fits, Write, S.Split, Statements, Stretches;
    if s == [] {
      ls := [];
    } else {
      var l, rest := FirstLexeme(s);
      ls := EveryTextLexes(rest);
      Prepend(l, ls);
      ls := [l] + ls;
    }
    SplitsAtCuts(ls);
  }
}
