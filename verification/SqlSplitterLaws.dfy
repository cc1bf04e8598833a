/** What the splitter promises: no byte is lost, cuts fall exactly on neutral semicolons, and splitting is stable. */
module SqlSplitterLaws {
  import opened SqlSplitter

  // ----- conservation -----

  /** The pieces with the cutting semicolons put back. */
  function Rejoin(ps: seq<Text>): Text
    requires ps != []
  {
    if |ps| == 1 then ps[0] else ps[0] + [SEMICOLON] + Rejoin(ps[1..])
  }

  lemma RejoinAttach(front: Text, ps: seq<Text>)
    requires ps != []
    ensures Rejoin(Attach(front, ps)) == front + Rejoin(ps)
  {
    if |ps| == 1 {
    } else {
      assert Attach(front, ps)[1..] == ps[1..];
    }
  }

  lemma {:induction false} PiecesConserve(m: Mode, s: Text)
    requires ModeOk(m)
    ensures Rejoin(Pieces(m, s)) == s
    decreases |s|
  {
    hide ModeAfter, TokenLength, Rejoin, Attach;
    if s == [] {
      RejoinCut([[]]);
    } else {
      var n := TokenLength(m, s);
      var rest := Pieces(ModeAfter(m, s), s[n..]);
      PiecesConserve(ModeAfter(m, s), s[n..]);
      if IsCut(m, s) {
        InsideToken(m, s, 0);
        RejoinCut(rest);
        assert s == [SEMICOLON] + s[1..];
      } else {
        RejoinAttach(s[..n], rest);
        assert s == s[..n] + s[n..];
      }
    }
  }

  lemma RejoinCut(rest: seq<Text>)
    requires rest != []
    ensures Rejoin([[]] + rest) == [SEMICOLON] + Rejoin(rest)
    ensures Rejoin([[]]) == []
  {
    assert ([[]] + rest)[1..] == rest;
  }

  // ----- where the cuts are -----

  /** Is there a cut at offset p of the text that ps were cut from? */
  predicate CutsAt(ps: seq<Text>, p: int)
    requires ps != []
  {
    |ps| > 1 && (p == |ps[0]| || CutsAt(ps[1..], p - |ps[0]| - 1))
  }

  /** The mode in which byte p is read; the later bytes of a token count as read with its first. */
  function ReadIn(m: Mode, s: Text, p: nat): Mode
    requires ModeOk(m) && p < |s|
    decreases |s|
  {
    var n := TokenLength(m, s);
    if p < n then m else ReadIn(ModeAfter(m, s), s[n..], p - n)
  }

  lemma {:induction false} NoEarlyCut(ps: seq<Text>, p: int)
    requires ps != [] && p < 0
    ensures !CutsAt(ps, p)
    decreases |ps|
  {
    if |ps| > 1 {
      NoEarlyCut(ps[1..], p - |ps[0]| - 1);
    }
  }

  lemma CutsShift(front: Text, ps: seq<Text>, p: int)
    requires ps != []
    ensures CutsAt(Attach(front, ps), p) <==> CutsAt(ps, p - |front|)
  {
    assert Attach(front, ps)[1..] == ps[1..];
  }

  /** A semicolon read in neutral mode is a token of its own. */
  lemma InsideToken(m: Mode, s: Text, p: nat)
    requires ModeOk(m) && p < |s| && p < TokenLength(m, s)
    ensures m == Neutral && s[p] == SEMICOLON ==> p == 0 && TokenLength(m, s) == 1
    ensures IsCut(m, s) ==> TokenLength(m, s) == 1 && ModeAfter(m, s) == Neutral
  {
    if m == Neutral && TagLength(s) > 0 {
      var tag := s[..TagLength(s)];
      assert IsTag(tag);
      if p < |tag| {
        assert tag[p] == s[p];
      }
    }
  }

  lemma {:induction false} CutsAreNeutralSemicolons(m: Mode, s: Text, p: nat)
    requires ModeOk(m) && p < |s|
    ensures CutsAt(Pieces(m, s), p) <==> s[p] == SEMICOLON && ReadIn(m, s, p) == Neutral
    decreases |s|
  {
    hide TokenLength, ModeAfter;
    var n := TokenLength(m, s);
    var m' := ModeAfter(m, s);
    var rest := Pieces(m', s[n..]);
    InsideToken(m, s, 0);
    if IsCut(m, s) {
      assert ([[]] + rest)[1..] == rest;
    } else {
      CutsShift(s[..n], rest, p);
    }
    if p < n {
      NoEarlyCut(rest, p - n);
      InsideToken(m, s, p);
    } else {
      CutsAreNeutralSemicolons(m', s[n..], p - n);
    }
  }

  // ----- lexing a concatenation -----

  /** The last piece of ps and the first of qs become one. */
  function Glue(ps: seq<Text>, qs: seq<Text>): (r: seq<Text>)
    requires ps != [] && qs != []
    ensures |r| == |ps| + |qs| - 1
  {
    ps[..|ps| - 1] + Attach(ps[|ps| - 1], qs)
  }

  lemma GlueAttach(front: Text, ps: seq<Text>, qs: seq<Text>)
    requires ps != [] && qs != []
    ensures Glue(Attach(front, ps), qs) == Attach(front, Glue(ps, qs))
  {
    if |ps| == 1 {
      AttachAttach(front, ps[0], qs);
    } else {
      assert Attach(front, ps)[..|ps| - 1] == Attach(front, ps[..|ps| - 1]);
    }
  }

  lemma GlueCut(ps: seq<Text>, qs: seq<Text>)
    requires ps != [] && qs != []
    ensures Glue([[]] + ps, qs) == [[]] + Glue(ps, qs)
  {
    assert ([[]] + ps)[..|ps|] == [[]] + ps[..|ps| - 1];
  }

  lemma GlueNothing(qs: seq<Text>)
    requires qs != []
    ensures Glue([[]], qs) == qs
  {
    AttachNothing(qs);
  }

  lemma GlueClosed(ps: seq<Text>, qs: seq<Text>)
    requires ps != []
    ensures Glue(ps, [[]] + qs) == ps + qs
  {
    var last := ps[|ps| - 1];
    assert last + [] == last;
    assert Attach(last, [[]] + qs) == [last] + qs;
  }

  lemma {:induction false} TagEndLocal(a: Text, t: Text, i: nat)
    requires i <= |a| && (t != [] ==> IsBarrier(t[0]))
    ensures TagEnd(a + t, i) == TagEnd(a, i)
    decreases |a| - i
  {
    if i < |a| && a[i] != DOLLAR && IsTagByte(a[i]) {
      TagEndLocal(a, t, i + 1);
    }
  }

  /** A closing tag has no barrier byte in it. */
  lemma NoStraddle(tag: Text, a: Text, t: Text)
    requires IsTag(tag) && tag <= a + t && (t != [] ==> IsBarrier(t[0]))
    ensures tag <= a
  {
    assert t != [] ==> (a + t)[|a|] == t[0];
    assert forall k | 0 <= k < |tag| :: (a + t)[k] == tag[k] && !IsBarrier(tag[k]);
  }

  /** A token never reaches across a barrier byte, so what follows the barrier cannot change it. */
  lemma TokenLocal(m: Mode, a: Text, t: Text)
    requires ModeOk(m) && a != [] && (t != [] ==> IsBarrier(t[0]))
    ensures TokenLength(m, a + t) == TokenLength(m, a)
    ensures ModeAfter(m, a + t) == ModeAfter(m, a)
    ensures IsCut(m, a + t) == IsCut(m, a)
  {
    TagEndLocal(a, t, 1);
    assert TagLength(a + t) == TagLength(a);
    assert (a + t)[..TagLength(a)] == a[..TagLength(a)];
    if m.Dollar? && m.tag <= a + t {
      NoStraddle(m.tag, a, t);
    }
  }

  lemma {:induction false} Continue(m: Mode, a: Text, t: Text)
    requires ModeOk(m) && (t != [] ==> IsBarrier(t[0]))
    ensures EndMode(m, a + t) == EndMode(EndMode(m, a), t)
    ensures Pieces(m, a + t) == Glue(Pieces(m, a), Pieces(EndMode(m, a), t))
    decreases |a|
  {
    hide TokenLength, ModeAfter, IsCut, Glue, Attach;
    if a == [] {
      assert a + t == t;
      GlueNothing(Pieces(m, t));
    } else {
      var n, m' := TokenLength(m, a), ModeAfter(m, a);
      TokenLocal(m, a, t);
      assert (a + t)[n..] == a[n..] + t;
      assert (a + t)[..n] == a[..n];
      Continue(m', a[n..], t);
      var ps, qs := Pieces(m', a[n..]), Pieces(EndMode(m, a), t);
      if IsCut(m, a) {
        GlueCut(ps, qs);
      } else {
        GlueAttach(a[..n], ps, qs);
      }
    }
  }

  // ----- homomorphism -----

  lemma {:induction false} KeepAppend(ps: seq<Text>, qs: seq<Text>)
    ensures KeepStatements(ps + qs) == KeepStatements(ps) + KeepStatements(qs)
  {
    hide Kept;
    if ps == [] {
      assert ps + qs == qs;
    } else {
      assert (ps + qs)[1..] == ps[1..] + qs;
      KeepAppend(ps[1..], qs);
    }
  }

  lemma CutHere(b: Text)
    ensures Pieces(Neutral, [SEMICOLON] + b) == [[]] + Pieces(Neutral, b)
    ensures EndMode(Neutral, [SEMICOLON] + b) == EndMode(Neutral, b)
  {
    assert ([SEMICOLON] + b)[1..] == b;
  }

  /** A semicolon after text that ends in neutral mode separates the two sides completely. */
  lemma SplitConcat(a: Text, b: Text)
    requires EndMode(Neutral, a) == Neutral
    ensures Pieces(Neutral, a + [SEMICOLON] + b) == Pieces(Neutral, a) + Pieces(Neutral, b)
    ensures EndMode(Neutral, a + [SEMICOLON] + b) == EndMode(Neutral, b)
    ensures Split(a + [SEMICOLON] + b) == Split(a) + Split(b)
  {
    hide Kept, TokenLength, ModeAfter, Glue;
    var t := [SEMICOLON] + b;
    CutHere(b);
    assert a + [SEMICOLON] + b == a + t;
    assert t[1..] == b;
    Continue(Neutral, a, t);
    var ps, qs := Pieces(Neutral, a), Pieces(Neutral, b);
    GlueClosed(ps, qs);
    KeepAppend(ps, qs);
  }

  // ----- stability of re-splitting -----

  /** Only a cut makes the first piece of non-empty text empty. */
  lemma EmptyFirst(m: Mode, t: Text)
    requires ModeOk(m) && t != [] && Pieces(m, t)[0] == []
    ensures m == Neutral && Pieces(m, t) == [[]] + Pieces(Neutral, t[1..])
  {
  }

  lemma OnlyPiece(ps: seq<Text>, qs: seq<Text>, a: Text)
    requires ps != [] && qs != []
    requires Rejoin(ps) == a && Glue(ps, qs)[0] == a
    ensures ps == [a]
  {
    if |ps| > 1 {
      RejoinLonger(ps);
    }
  }

  lemma RejoinLonger(ps: seq<Text>)
    requires |ps| > 1
    ensures |Rejoin(ps)| > |ps[0]|
  {
  }

  /** A first piece lexes without a cut and, when a semicolon follows it, back to neutral. */
  lemma FirstPiece(a: Text, t: Text)
    requires Pieces(Neutral, a + t)[0] == a && (t != [] ==> t[0] == SEMICOLON)
    ensures Pieces(Neutral, a) == [a]
    ensures t != [] ==> EndMode(Neutral, a) == Neutral && Pieces(Neutral, a + t) == [a] + Pieces(Neutral, t[1..])
  {
    hide Pieces, EndMode;
    Continue(Neutral, a, t);
    PiecesConserve(Neutral, a);
    var inner, outer := Pieces(Neutral, a), Pieces(EndMode(Neutral, a), t);
    OnlyPiece(inner, outer, a);
    if t != [] {
      assert a + outer[0] == a;
      EmptyFirst(EndMode(Neutral, a), t);
      assert a + [] == a;
      assert Attach(a, [[]] + Pieces(Neutral, t[1..])) == [a] + Pieces(Neutral, t[1..]);
    }
  }

  lemma BlankToken(t: Text)
    requires t != [] && IsBlank(t[0])
    ensures TokenLength(Neutral, t) == 1 && ModeAfter(Neutral, t) == Neutral && !IsCut(Neutral, t)
  {
  }

  lemma {:induction false} BlankStart(w: Text, t: Text)
    requires forall k | 0 <= k < |w| :: IsBlank(w[k])
    ensures Pieces(Neutral, w + t) == Attach(w, Pieces(Neutral, t))
    ensures EndMode(Neutral, w + t) == EndMode(Neutral, t)
    decreases |w|
  {
    hide TokenLength, ModeAfter, IsCut, Attach;
    if w == [] {
      assert w + t == t;
      AttachNothing(Pieces(Neutral, t));
    } else {
      BlankToken(w + t);
      assert (w + t)[1..] == w[1..] + t;
      assert (w + t)[..1] == w[..1];
      assert w[..1] + w[1..] == w;
      BlankStart(w[1..], t);
      AttachAttach(w[..1], w[1..], Pieces(Neutral, t));
    }
  }

  /** Blank text never cuts, and brings only a line comment back to neutral. */
  lemma {:induction false} BlankEnd(m: Mode, w: Text)
    requires ModeOk(m) && forall k | 0 <= k < |w| :: IsBlank(w[k])
    ensures EndMode(m, w) == Neutral ==> m == Neutral || m == LineComment
    ensures EndMode(m, w) == m || m == LineComment
    decreases |w|
  {
    if w != [] {
      assert TokenLength(m, w) == 1;
      BlankEnd(ModeAfter(m, w), w[1..]);
    }
  }

  /** Trimming cuts blanks off both ends. */
  lemma TrimPosition(a: Text) returns (i: nat, j: nat)
    ensures i <= j <= |a| && a[i..j] == Trim(a)
    ensures (forall k | 0 <= k < i :: IsBlank(a[k])) && (forall k | j <= k < |a| :: IsBlank(a[k]))
  {
    hide TrimLeft, TrimRight, LeadingSpace, TrailingSpace, IsBlank;
    var l := TrimLeft(a);
    i := |a| - |l|;
    j := i + |Trim(a)|;
    forall k | j <= k < |a| ensures IsBlank(a[k]) {
      assert a[k] == l[k - i];
    }
  }

  lemma TrimEnds(a: Text)
    requires Trim(a) != []
    ensures LeadingSpace(Trim(a)) == 0 && TrailingSpace(Trim(a)) == 0
  {
    hide TrimLeft, TrimRight;
    var l, p := TrimLeft(a), Trim(a);
    assert p == l[..|p|];
  }

  lemma TrimAgain(p: Text)
    requires p != [] && LeadingSpace(p) == 0 && TrailingSpace(p) == 0
    ensures Trim(p) == p
    ensures Trim(p + [NEWLINE]) == p
  {
    var q := p + [NEWLINE];
    assert LeadingSpace(q) == 0;
    assert TrailingSpace(q) == 1;
    assert q[..|p|] == p;
  }

  /** Trimming a piece keeps it one piece; a newline then stands in for the blanks cut off its end. */
  lemma TrimmedPiece(a: Text)
    requires Pieces(Neutral, a) == [a] && Trim(a) != []
    ensures Pieces(Neutral, Trim(a)) == [Trim(a)]
    ensures EndMode(Neutral, a) == Neutral ==>
              && Pieces(Neutral, Trim(a) + [NEWLINE]) == [Trim(a) + [NEWLINE]]
              && EndMode(Neutral, Trim(a) + [NEWLINE]) == Neutral
  {
    hide Trim, Pieces, EndMode;
    var p := Trim(a);
    var i, j := TrimPosition(a);
    var w := a[j..];
    assert a == a[..i] + (p + w);
    BlankStart(a[..i], p + w);
    Continue(Neutral, p, w);
    var e := EndMode(Neutral, p);
    BlankEnd(e, w);
    OnePiece(p);
    if EndMode(Neutral, a) == Neutral {
      Continue(Neutral, p, [NEWLINE]);
      NewlineEnds(e);
      OnePiece(p + [NEWLINE]);
    }
  }

  lemma NewlineEnds(m: Mode)
    requires m == Neutral || m == LineComment
    ensures EndMode(m, [NEWLINE]) == Neutral && |Pieces(m, [NEWLINE])| == 1
  {
    assert [NEWLINE][1..] == [];
  }

  lemma KeptPiece(p: Text)
    requires Pieces(Neutral, p) == [p]
    ensures Split(p) == Kept(p)
  {
    hide Kept, Pieces;
    assert KeepStatements([p]) == Kept(p) + KeepStatements([]);
  }

  lemma OnePiece(p: Text)
    requires |Pieces(Neutral, p)| == 1
    ensures Pieces(Neutral, p) == [p]
  {
    hide Pieces;
    PiecesConserve(Neutral, p);
  }

  /** The statements written out again, each but the last closed by a newline and a semicolon. */
  function Script(statements: seq<Text>): Text {
    if statements == [] then []
    else if |statements| == 1 then statements[0]
    else statements[0] + [NEWLINE, SEMICOLON] + Script(statements[1..])
  }

  /** Splitting, writing out and splitting again gives the same statements, whatever the text. */
  lemma {:induction false} ResplitStable(s: Text)
    ensures Split(Script(Split(s))) == Split(s)
    decreases |s|
  {
    hide Kept, Pieces, Split;
    var ps := Pieces(Neutral, s);
    var a := ps[0];
    PiecesConserve(Neutral, s);
    if |ps| == 1 {
      KeptPiece(s);
      ResplitEmpty();
      ResplitFirst(a, []);
      assert Kept(a) + [] == Kept(a);
    } else {
      var s' := Rejoin(ps[1..]);
      assert s == a + ([SEMICOLON] + s') == a + [SEMICOLON] + s';
      FirstPiece(a, [SEMICOLON] + s');
      assert ([SEMICOLON] + s')[1..] == s';
      ResplitStable(s');
      SplitConcat(a, s');
      KeptPiece(a);
      ResplitFirst(a, Split(s'));
    }
  }

  lemma ResplitEmpty()
    ensures Split(Script([])) == []
  {
    assert Trim([]) == [];
    assert KeepStatements([[]]) == Kept([]) + KeepStatements([]);
  }

  lemma ResplitFirst(a: Text, rest: seq<Text>)
    requires Pieces(Neutral, a) == [a] && (rest != [] ==> EndMode(Neutral, a) == Neutral)
    requires Split(Script(rest)) == rest
    ensures Split(Script(Kept(a) + rest)) == Kept(a) + rest
  {
    hide Trim, Pieces, EndMode, Split;
    var p := Trim(a);
    if p == [] {
      assert Kept(a) + rest == rest;
    } else {
      TrimmedPiece(a);
      TrimEnds(a);
      TrimAgain(p);
      KeptPiece(p);
      assert Kept(p) == [p] == Kept(a);
      if rest == [] {
        assert [p] + rest == [p];
      } else {
        var closed := p + [NEWLINE];
        assert ([p] + rest)[1..] == rest;
        assert p + [NEWLINE, SEMICOLON] + Script(rest) == closed + [SEMICOLON] + Script(rest);
        SplitConcat(closed, Script(rest));
        KeptPiece(closed);
        assert Kept(closed) == [p];
      }
    }
  }
}
