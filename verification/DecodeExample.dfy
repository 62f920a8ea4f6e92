/** A call that the text conversion tears apart, because a literal among its arguments has a comma, and one that it
    leaves as it is, because a literal has a parenthesis. */
module DecodeExample {
  import opened Collections
  import opened DecodeText
  import opened DecodeScan
  import opened DecodeTree
  import opened DecodePrint
  import opened DecodeConversion

  /** DECODE(a, 'x,y', b). */
  function CommaInResult(): Expr { Decode("DECODE", "", More(Atom("a"), More(Literal("x,y"), More(Atom("b"), Nil)))) }

  lemma CommaInResultPrints()
    ensures Print(CommaInResult()) == "DECODE(a, 'x,y', b)" && PrintArgs(CommaInResult().args, Commas) == "a, 'x,y', b"
  {
    var last := More(Atom("b"), Nil);
    var rest := More(Literal("x,y"), last);
    assert Print(Literal("x,y")) == "'x,y'";
    assert PrintArgs(last, Commas) == "b";
    assert PrintArgs(rest, Commas) == "'x,y'" + (", " + "b") == "'x,y', b";
    assert PrintArgs(CommaInResult().args, Commas) == "a" + (", " + "'x,y', b") == "a, 'x,y', b";
    assert Print(CommaInResult()) == "DECODE" + ("" + ("(" + "a, 'x,y', b" + ")"));
  }

  lemma CommaInResultIsCut()
    ensures WellFormed(CommaInResult()) && Decodes(CommaInResult()) == 1 && !FirstIsClear(CommaInResult())
  {
    var last := More(Atom("b"), Nil);
    var rest := More(Literal("x,y"), last);
    assert "x,y"[1..] == ",y" && ",y"[1..] == "y" && "y"[1..] == "";
    assert CommaCount("x,y") > 0 by {
      CountPositive("x,y", Comma());
      assert Comma()("x,y"[1]);
    }
    assert Length(rest) == 2 && WellFormedArgs(rest) && DecodesArgs(rest) == 0;
    assert TopCommasArgs(rest) == CommaCount("x,y") + TopCommasArgs(last);
  }

  /** DECODE(a, 'x,y', b) is not converted as it should be: the literal is cut in two. */
  lemma LiteralIsCut()
    ensures var e := CommaInResult();
            WellFormed(e) && Print(e) == "DECODE(a, 'x,y', b)" && ConvertOnce(Print(e)) != Print(Step(e))
  {
    hide *;
    CommaInResultPrints();
    CommaInResultIsCut();
    StepIsExactly(CommaInResult());
  }

  lemma CommaInResultParts()
    ensures Split("a, 'x,y', b", ',') == ["a", " 'x", "y'", " b"]
  {
    var s := "a, 'x,y', b";
    SplitPasses(s, 0, 1, 0, 0);
    SplitPasses(s, 2, 5, 2, 0);
    SplitPasses(s, 6, 8, 6, 0);
    SplitPasses(s, 9, 11, 9, 0);
    assert s[0..1] == "a" && s[2..5] == " 'x" && s[6..8] == "y'" && s[9..] == " b";
  }

  lemma CommaInResultBranches(parts: seq<string>)
    requires parts == ["a", " 'x", "y'", " b"]
    ensures Branches(parts, 1) == " WHEN 'x THEN y' ELSE b"
  {
    hide TrimSpace;
    assert TrimSpace(parts[1]) == "'x" by { TrimPiece(" ", "'x"); assert " " + "'x" == parts[1]; }
    assert TrimSpace(parts[2]) == "y'" by { TrimPiece("", "y'"); assert "" + "y'" == parts[2]; }
    assert TrimSpace(parts[3]) == "b" by { TrimPiece(" ", "b"); assert " " + "b" == parts[3]; }
    assert Branches(parts, 3) == " ELSE " + "b";
    assert Branches(parts, 1) == " WHEN " + "'x" + " THEN " + "y'" + (" ELSE " + "b");
    BranchPieces();
  }

  lemma BranchPieces()
    ensures " WHEN " + "'x" + " THEN " + "y'" + (" ELSE " + "b") == " WHEN 'x THEN y' ELSE b"
  {
  }

  lemma CommaInResultCase(parts: seq<string>)
    requires parts == ["a", " 'x", "y'", " b"]
    ensures CaseText(parts) == "CASE a WHEN 'x THEN y' ELSE b END"
  {
    hide TrimSpace, Branches;
    CommaInResultBranches(parts);
    TrimPiece("", "a");
    assert "" + "a" == parts[0];
    Pieces();
  }

  lemma Pieces()
    ensures "CASE " + "a" + " WHEN 'x THEN y' ELSE b" + " END" == "CASE a WHEN 'x THEN y' ELSE b END"
  {
  }

  lemma TrimPiece(pad: string, x: string)
    requires Trimmed(x) && (pad == "" || pad == " ")
    ensures TrimSpace(pad + x) == x
  {
    TrimFront(pad, x);
  }

  lemma CommaInResultConverts()
    ensures ConvertOnce(Print(CommaInResult())) == CaseText(Split("a, 'x,y', b", ','))
  {
    hide CaseText, Split, ConvertOnce;
    var e := CommaInResult();
    CommaInResultPrints();
    CommaInResultIsCut();
    CommaInResultParts();
    SiteIsFirst(e, Fresh);
    SiteIs(e);
    SiteConverts(FirstSite(e).value, Print(e));
    Alone(CaseText(Split("a, 'x,y', b", ',')));
  }

  /** What comes out is no SQL. */
  lemma LiteralComesApart()
    ensures ConvertOnce("DECODE(a, 'x,y', b)") == "CASE a WHEN 'x THEN y' ELSE b END"
  {
    hide *;
    CommaInResultPrints();
    CommaInResultParts();
    CommaInResultConverts();
    CommaInResultCase(["a", " 'x", "y'", " b"]);
  }

  /** Splitting cuts any literal at its comma. */
  lemma SplitCutsLiteral(a: string, b: string)
    requires Plain(a) && Plain(b)
    ensures Split("'" + a + "," + b + "'", ',') == ["'" + a, b + "'"]
  {
    var s, n := "'" + a + "," + b + "'", 1 + |a|;
    assert s[0..n] == "'" + a && s[n + 1..|s|] == b + "'" && s[n + 1..] == b + "'";
    assert forall c :: c in s[0..n] ==> c == '\'' || c in a;
    assert forall c :: c in s[n + 1..|s|] ==> c == '\'' || c in b;
    SplitPasses(s, 0, n, 0, 0);
    SplitPasses(s, n + 1, |s|, n + 1, 0);
  }

  // ---------- A parenthesis in a literal

  const OPEN: string := "DECODE(a, '(', b)"

  lemma FoundAtStart(s: string)
    requires |s| > 6 && s[0..6] == DECODE && s[6] == '('
    ensures FindDecode(s, 0) == Some(Hit(0, 7))
  {
    assert MatchEnd(s, 0) == AfterGap(s, 6) == Some(7);
  }

  lemma OpenCloses()
    ensures CloseAt(OPEN, 7, 1) == Some(17)
  {
    assert LiteralClose(OPEN, 11) == LiteralClose(OPEN, 12) == Some(12);
    assert CloseAt(OPEN, 13, 1) == CloseAt(OPEN, 14, 1) == CloseAt(OPEN, 15, 1) == CloseAt(OPEN, 16, 1) == Some(17);
    assert CloseAt(OPEN, 7, 1) == CloseAt(OPEN, 8, 1) == CloseAt(OPEN, 9, 1) == CloseAt(OPEN, 10, 1);
  }

  lemma OpenParts(s: string)
    requires s == "a, '(', b"
    ensures |Split(s, ',')| == 2
  {
    assert SplitAt(s, ',', 9, 2, 1) == SplitAt(s, ',', 8, 2, 1) == SplitAt(s, ',', 7, 2, 1) == SplitAt(s, ',', 6, 2, 1)
           == SplitAt(s, ',', 5, 2, 1);
    assert SplitAt(s, ',', 5, 2, 1) == SplitAt(s, ',', 4, 2, 0) == SplitAt(s, ',', 3, 2, 0) == SplitAt(s, ',', 2, 2, 0);
    assert SplitAt(s, ',', 0, 0, 0) == SplitAt(s, ',', 1, 0, 0);
  }

  /** A parenthesis in a literal hides the commas behind it, so that this call of three arguments stays. */
  lemma ParenthesisHidesArguments()
    ensures ConvertOnce("DECODE(a, '(', b)") == "DECODE(a, '(', b)"
  {
    hide FindDecode, CloseAt, Split;
    assert OPEN[0..6] == DECODE;
    FoundAtStart(OPEN);
    OpenCloses();
    assert OPEN[7..16] == "a, '(', b";
    OpenParts(OPEN[7..16]);
  }
}
