/** On printed expressions, the text conversion is the rewriting of the tree. */
module DecodeConversion {
  import opened Collections
  import opened Naming
  import opened DecodeText
  import opened DecodeScan
  import opened DecodeTree
  import opened DecodePrint
  import opened DecodeCuts

  // ---------- The arguments are found

  /** From index j on, the parts are the printed arguments but for white space around them. */
  ghost predicate Matches(args: Args, parts: seq<string>, j: nat) {
    if args.Nil? then j == |parts|
    else j < |parts| && TrimSpace(parts[j]) == Print(args.head) && Matches(args.tail, parts, j + 1)
  }

  lemma {:induction false} MatchesBehind(args: Args, part: string, parts: seq<string>, j: nat)
    requires Matches(args, parts, j)
    ensures Matches(args, [part] + parts, j + 1)
    decreases args
  {
    if args.More? {
      assert ([part] + parts)[j + 1] == parts[j];
      MatchesBehind(args.tail, part, parts, j + 1);
    }
  }

  lemma {:induction false} MatchesLength(args: Args, parts: seq<string>, j: nat)
    requires Matches(args, parts, j)
    ensures |parts| == j + Length(args)
    decreases args
  {
    if args.More? {
      MatchesLength(args.tail, parts, j + 1);
    }
  }

  /** Splitting printed arguments gives the printed arguments; one part may be preceded by white space. */
  lemma {:induction false} SplitFinds(s: string, start: nat, i: nat, args: Args)
    requires WellFormedArgs(args) && args.More? && TopCommasArgs(args) == 0
    requires start <= i <= |s| && s[i..] == PrintArgs(args, Commas) && forall k :: start <= k < i ==> IsSpace(s[k])
    ensures Matches(args, SplitAt(s, ',', i, start, 0), 0)
    decreases args
  {
    hide SplitAt, TrimSpace, TopCommas;
    var n := i + |Print(args.head)|;
    HeadLies(s, i, args);
    HeadPassed(s, start, i, n, args.head);
    PieceTrims(s, start, i, n, args.head);
    if args.tail.Nil? {
      assert s[start..n] == s[start..];
      LastPiece(s, start);
    } else {
      CommaCuts(s, start, n);
      SplitFinds(s, n + 1, n + 2, args.tail);
      MatchesFront(args, s[start..n], SplitAt(s, ',', n + 2, n + 1, 0));
    }
  }

  lemma LastPiece(s: string, start: nat)
    requires start <= |s|
    ensures SplitAt(s, ',', |s|, start, 0) == [s[start..]]
  {
  }

  lemma HeadPassed(s: string, start: nat, i: nat, n: nat, e: Expr)
    requires WellFormed(e) && TopCommas(e) == 0 && start <= i <= n <= |s| && s[i..n] == Print(e)
    ensures SplitAt(s, ',', i, start, 0) == SplitAt(s, ',', n, start, 0)
  {
    PrintRuns(e, false);
    SplitRun(s, i, n, start, 0);
  }

  lemma MatchesFront(args: Args, part: string, parts: seq<string>)
    requires args.More? && TrimSpace(part) == Print(args.head) && Matches(args.tail, parts, 0)
    ensures Matches(args, [part] + parts, 0)
  {
    MatchesBehind(args.tail, part, parts, 0);
  }

  lemma HeadLies(s: string, i: nat, args: Args)
    requires args.More? && i <= |s| && s[i..] == PrintArgs(args, Commas)
    ensures var n := i + |Print(args.head)|;
            && n <= |s| && s[i..n] == Print(args.head) && (args.tail.Nil? ==> n == |s|)
            && (args.tail.More? ==>
                  n + 2 <= |s| && s[n] == ',' && s[n + 1] == ' ' && s[n + 2..] == PrintArgs(args.tail, Commas))
  {
    var head, rest := Print(args.head), PrintTail(args.tail, Commas);
    var n := i + |head|;
    assert s[i..] == head + rest;
    assert s[i..n] == s[i..][..|head|] == head;
    assert s[n..] == s[i..][|head|..] == rest;
    if args.tail.More? {
      var more := PrintArgs(args.tail, Commas);
      assert s[n..] == ", " + more;
      assert s[n] == s[n..][0] && s[n + 1] == s[n..][1];
      assert s[n + 2..] == s[n..][2..] == more;
    }
  }

  lemma CommaCuts(s: string, start: nat, n: nat)
    requires start <= n && n + 2 <= |s| && s[n] == ',' && s[n + 1] == ' '
    ensures SplitAt(s, ',', n, start, 0) == [s[start..n]] + SplitAt(s, ',', n + 2, n + 1, 0)
  {
  }

  lemma PieceTrims(s: string, start: nat, i: nat, n: nat, e: Expr)
    requires WellFormed(e) && start <= i <= n <= |s| && s[i..n] == Print(e)
    requires forall k :: start <= k < i ==> IsSpace(s[k])
    ensures TrimSpace(s[start..n]) == Print(e)
  {
    PrintTrimmed(e);
    assert s[start..n] == s[start..i] + s[i..n];
    TrimFront(s[start..i], Print(e));
  }

  lemma SplitIs(args: Args)
    requires WellFormedArgs(args) && args.More? && TopCommasArgs(args) == 0
    ensures Matches(args, Split(PrintArgs(args, Commas), ','), 0)
  {
    var s := PrintArgs(args, Commas);
    assert s[0..] == s;
    SplitFinds(s, 0, 0, args);
  }

  lemma NoArgs()
    ensures |Split(PrintArgs(Nil, Commas), ',')| == 1
  {
  }

  // ---------- The CASE is built from them

  lemma {:induction false} BranchesAre(args: Args, parts: seq<string>, j: nat)
    requires Matches(args, parts, j)
    ensures Branches(parts, j) == PrintTail(args, Results)
    decreases args
  {
    if args.More? {
      MatchesLength(args.tail, parts, j + 1);
      if args.tail.More? {
        BranchesAre(args.tail.tail, parts, j + 2);
        var rest := PrintTail(args.tail.tail, Results);
        assert PrintTail(args.tail, Searches) == " THEN " + (Print(args.tail.head) + rest);
        assert PrintTail(args, Results) == " WHEN " + (Print(args.head) + PrintTail(args.tail, Searches));
        JoinBranch(Print(args.head), Print(args.tail.head), rest);
      } else {
        assert PrintArgs(args, Searches) == Print(args.head) + "" == Print(args.head);
      }
    }
  }

  lemma JoinBranch(search: string, result: string, rest: string)
    ensures " WHEN " + search + " THEN " + result + rest == " WHEN " + (search + (" THEN " + (result + rest)))
  {
  }

  lemma CaseTextIs(args: Args, parts: seq<string>)
    requires args.More? && Matches(args, parts, 0)
    ensures parts != [] && CaseText(parts) == Print(Case(args))
  {
    BranchesAre(args.tail, parts, 1);
    var head, tail := Print(args.head), PrintTail(args.tail, Results);
    assert "CASE " + head + tail + " END" == "CASE " + ((head + tail) + " END");
  }

  // ---------- One step

  /** The text of a site, in the pieces that the scanners see. */
  lemma SitePieces(s: Site, text: string)
    requires text == Around(s, SiteText(s))
    ensures var inner := PrintArgs(s.args, Commas);
            text == s.pre + (s.word + (s.gap + ("(" + (inner + (")" + s.post)))))
  {
    var inner := PrintArgs(s.args, Commas);
    Shuffle(s.word, s.gap, inner, s.post);
  }

  lemma Shuffle(word: string, gap: string, inner: string, post: string)
    ensures (word + (gap + ("(" + inner + ")"))) + post == word + (gap + ("(" + (inner + (")" + post))))
  {
    var open := "(" + inner + ")";
    assert open + post == "(" + (inner + (")" + post));
    Associate(word, gap + open, post);
    Associate(gap, open, post);
  }

  /** Where the pieces lie. */
  lemma PiecesLie(text: string, pre: string, word: string, gap: string, inner: string, post: string)
    requires |word| == 6 && text == pre + (word + (gap + ("(" + (inner + (")" + post)))))
    ensures var k := |pre| + 6 + |gap| + 1;
            && k + |inner| < |text| && text[k..k + |inner|] == inner && text[k + |inner|] == ')'
            && text[..|pre|] == pre && text[k + |inner| + 1..] == post
  {
  }

  lemma ClosesAfter(text: string, k: nat, n: nat)
    requires k <= n < |text| && Balanced(text[k..n]) && text[n] == ')'
    ensures CloseAt(text, k, 1) == Some(n + 1)
  {
    CloseRun(text, k, n, 0);
  }

  ghost predicate FirstIn(s: Site, text: string) {
    && WellFormed(Decode(s.word, s.gap, s.args)) && text == Around(s, SiteText(s))
    && Quiet(s.pre, Fresh).Some? && AtStart(Quiet(s.pre, Fresh).value)
  }

  lemma SiteFound(s: Site, text: string, k: nat)
    requires FirstIn(s, text) && k == |s.pre| + 6 + |s.gap| + 1
    ensures FindDecode(text, 0) == Some(Hit(|s.pre|, k))
  {
    SitePieces(s, text);
    CallFound(text, s.pre, s.word, s.gap, PrintArgs(s.args, Commas) + (")" + s.post));
  }

  lemma SiteLies(s: Site, text: string, k: nat, n: nat)
    requires FirstIn(s, text) && k == |s.pre| + 6 + |s.gap| + 1 && n == k + |PrintArgs(s.args, Commas)|
    ensures n < |text| && text[k..n] == PrintArgs(s.args, Commas) && text[n] == ')'
    ensures text[..|s.pre|] == s.pre && text[n + 1..] == s.post
  {
    SitePieces(s, text);
    PiecesLie(text, s.pre, s.word, s.gap, PrintArgs(s.args, Commas), s.post);
  }

  lemma SiteCloses(s: Site, text: string, k: nat, n: nat)
    requires WellFormedArgs(s.args) && k <= n < |text| && text[k..n] == PrintArgs(s.args, Commas) && text[n] == ')'
    ensures CloseAt(text, k, 1) == Some(n + 1)
  {
    ArgsRun(s.args, Commas, true);
    ClosesAfter(text, k, n);
  }

  lemma ConvertsTo(text: string, lo: nat, k: nat, n: nat, inner: string)
    requires lo <= k <= n < |text| && FindDecode(text, 0) == Some(Hit(lo, k))
    requires CloseAt(text, k, 1) == Some(n + 1) && text[k..n] == inner
    ensures ConvertOnce(text) == Replaced(text, lo, n + 1, Split(inner, ','))
  {
    assert ConvertOnce(text) == ConvertAt(text, Hit(lo, k));
  }

  /** What a step on the text makes of the call at a site: it splits the arguments, and puts a CASE of the parts
      in its place if there are enough of them. */
  lemma SiteConverts(s: Site, text: string)
    requires FirstIn(s, text)
    ensures var parts := Split(PrintArgs(s.args, Commas), ',');
            ConvertOnce(text) == if |parts| < 3 then text else Around(s, CaseText(parts))
  {
    var inner := PrintArgs(s.args, Commas);
    var k := |s.pre| + 6 + |s.gap| + 1;
    SiteFound(s, text, k);
    SiteConvertsFrom(s, text, |s.pre|, k, k + |inner|, inner);
  }

  lemma SiteConvertsFrom(s: Site, text: string, lo: nat, k: nat, n: nat, inner: string)
    requires FirstIn(s, text) && lo == |s.pre| && k == lo + 6 + |s.gap| + 1 && n == k + |inner|
    requires inner == PrintArgs(s.args, Commas) && FindDecode(text, 0) == Some(Hit(lo, k))
    ensures var parts := Split(inner, ',');
            ConvertOnce(text) == if |parts| < 3 then text else Around(s, CaseText(parts))
  {
    SiteLies(s, text, k, n);
    SiteCloses(s, text, k, n);
    ConvertsTo(text, lo, k, n, inner);
    var parts := Split(inner, ',');
    if |parts| >= 3 {
      Associate(s.pre, CaseText(parts), s.post);
    }
  }

  /** Where the splitting is right or not used, that is what the step on the tree puts there. */
  lemma ClearSite(s: Site, text: string)
    requires FirstIn(s, text) && ClearArgs(s.args)
    ensures ConvertOnce(text) == Around(s, SiteStep(s))
  {
    SiteConverts(s, text);
    if s.args.Nil? {
      NoArgs();
    } else {
      PartsCount(s.args);
      if TopCommasArgs(s.args) == 0 {
        SplitIs(s.args);
        CaseTextIs(s.args, Split(PrintArgs(s.args, Commas), ','));
      }
    }
  }

  lemma SameAround(s: Site, x: string, y: string)
    requires Around(s, x) == Around(s, y)
    ensures x == y
  {
    assert x + s.post == Around(s, x)[|s.pre|..] == Around(s, y)[|s.pre|..] == y + s.post;
    assert |x| == |y|;
    assert x == (x + s.post)[..|x|] == (y + s.post)[..|y|] == y;
  }

  /** Where a literal is cut, it is not. */
  lemma CutSite(s: Site, text: string)
    requires FirstIn(s, text) && !ClearArgs(s.args)
    ensures ConvertOnce(text) != Around(s, SiteStep(s))
  {
    var parts := Split(PrintArgs(s.args, Commas), ',');
    SiteConverts(s, text);
    PartsCount(s.args);
    if Length(s.args) >= 3 {
      CutCaseDiffers(s.args);
    } else {
      CaseIsNoDecode(s, parts);
    }
    if Around(s, CaseText(parts)) == Around(s, SiteStep(s)) {
      SameAround(s, CaseText(parts), SiteStep(s));
    }
  }

  lemma CaseIsNoDecode(s: Site, parts: seq<string>)
    requires IsDecodeWord(s.word) && parts != []
    ensures CaseText(parts) != SiteText(s)
  {
    assert UpChar(s.word[0]) == DECODE[0];
    assert CaseText(parts)[0] == 'C' && SiteText(s)[0] == s.word[0];
  }

  /** The first DECODE has no literal with a comma outside of parentheses among its arguments, or so few arguments
      that it stays even so. */
  predicate FirstIsClear(e: Expr) { Decodes(e) > 0 ==> ClearArgs(FirstSite(e).value.args) }

  /** One step of the text conversion is one step on the tree if and only if the first DECODE is clear. */
  lemma StepIsExactly(e: Expr)
    requires WellFormed(e)
    ensures ConvertOnce(Print(e)) == Print(Step(e)) <==> FirstIsClear(e)
  {
    if Decodes(e) > 0 {
      SiteIs(e);
      SiteIsFirst(e, Fresh);
      var s := FirstSite(e).value;
      if ClearArgs(s.args) {
        ClearSite(s, Print(e));
      } else {
        CutSite(s, Print(e));
      }
    } else {
      NothingIn(e);
      StepNothing(e);
    }
  }

  lemma NothingIn(e: Expr)
    requires WellFormed(e) && Decodes(e) == 0
    ensures FindDecode(Print(e), 0).None?
  {
    PrintIsQuiet(e, Fresh);
    NothingFound(Print(e));
  }

  lemma {:induction false} StepNothing(e: Expr)
    requires Decodes(e) == 0
    ensures Step(e) == e
    decreases e
  {
    match e
    case Atom(_) =>
    case Literal(_) =>
    case Infix(_, _, right) => StepNothing(right);
    case Call(_, args) => StepNothingArgs(args);
    case Case(args) => StepNothingArgs(args);
  }

  lemma {:induction false} StepNothingArgs(args: Args)
    requires DecodesArgs(args) == 0
    ensures StepArgs(args) == args
    decreases args
  {
    if args.More? {
      StepNothingArgs(args.tail);
    }
  }

  // ---------- Many steps

  lemma {:induction false} StepWellFormed(e: Expr)
    requires WellFormed(e)
    ensures WellFormed(Step(e))
    decreases e
  {
    match e
    case Atom(_) =>
    case Literal(_) =>
    case Infix(left, _, right) =>
      StepWellFormed(left);
      StepWellFormed(right);
    case Call(_, args) => StepWellFormedArgs(args);
    case Decode(_, _, args) =>
    case Case(args) => StepWellFormedArgs(args);
  }

  lemma {:induction false} StepWellFormedArgs(args: Args)
    requires WellFormedArgs(args)
    ensures WellFormedArgs(StepArgs(args))
    decreases args
  {
    if args.More? {
      StepWellFormed(args.head);
      StepWellFormedArgs(args.tail);
    }
  }

  function StepTimes(e: Expr, n: nat): Expr
    decreases n
  {
    if n == 0 then e else StepTimes(Step(e), n - 1)
  }

  /** The DECODE that is first is clear at each of these steps. */
  predicate ClearFor(e: Expr, n: nat)
    decreases n
  {
    n > 0 ==> FirstIsClear(e) && ClearFor(Step(e), n - 1)
  }

  /** The conversion of a printed expression is the print of its converted tree. */
  lemma {:induction false} ConversionIs(e: Expr, n: nat)
    requires WellFormed(e) && ClearFor(e, n)
    ensures ConvertTimes(Print(e), n) == Print(StepTimes(e, n)) && WellFormed(StepTimes(e, n))
    decreases n
  {
    if n > 0 {
      StepIsExactly(e);
      StepWellFormed(e);
      ConversionIs(Step(e), n - 1);
    }
  }

  /** Every DECODE of the expression is clear, as it is written. */
  predicate AllClear(e: Expr) {
    match e
    case Atom(_) => true
    case Literal(_) => true
    case Infix(left, _, right) => AllClear(left) && AllClear(right)
    case Call(_, args) => AllClearArgs(args)
    case Decode(_, _, args) => ClearArgs(args) && AllClearArgs(args)
    case Case(args) => AllClearArgs(args)
  }

  predicate AllClearArgs(args: Args) { args.More? ==> AllClear(args.head) && AllClearArgs(args.tail) }

  /** A step rewrites no DECODE inside of another one, so that all of them stay clear. */
  lemma {:induction false} StepStaysClear(e: Expr)
    requires AllClear(e)
    ensures AllClear(Step(e)) && FirstIsClear(e)
    decreases e
  {
    match e
    case Atom(_) =>
    case Literal(_) =>
    case Infix(left, _, right) =>
      StepStaysClear(left);
      StepStaysClear(right);
    case Call(_, args) => StepStaysClearArgs(args, Commas);
    case Decode(_, _, args) =>
    case Case(args) => StepStaysClearArgs(args, Results);
  }

  lemma {:induction false} StepStaysClearArgs(args: Args, style: Style)
    requires AllClearArgs(args)
    ensures AllClearArgs(StepArgs(args))
    ensures DecodesArgs(args) > 0 ==> ClearArgs(FirstSiteArgs(args, style).value.args)
    decreases args
  {
    if args.More? {
      StepStaysClear(args.head);
      StepStaysClearArgs(args.tail, After(style));
    }
  }

  lemma {:induction false} ClearStays(e: Expr, n: nat)
    requires AllClear(e)
    ensures ClearFor(e, n)
    decreases n
  {
    StepStaysClear(e);
    if n > 0 {
      ClearStays(Step(e), n - 1);
    }
  }

  // ---------- When everything is converted

  /** Every DECODE has a selector, a search and a result at least. */
  predicate AllWide(e: Expr) {
    match e
    case Atom(_) => true
    case Literal(_) => true
    case Infix(left, _, right) => AllWide(left) && AllWide(right)
    case Call(_, args) => AllWideArgs(args)
    case Decode(_, _, args) => Length(args) >= 3 && AllWideArgs(args)
    case Case(args) => AllWideArgs(args)
  }

  predicate AllWideArgs(args: Args) { args.More? ==> AllWide(args.head) && AllWideArgs(args.tail) }

  /** A step converts one DECODE or, if the first one is too short, none; and it never removes a short one. */
  lemma {:induction false} StepCounts(e: Expr)
    ensures AllWide(Step(e)) == AllWide(e)
    ensures AllWide(e) && Decodes(e) > 0 ==> Decodes(Step(e)) == Decodes(e) - 1
    decreases e
  {
    match e
    case Atom(_) =>
    case Literal(_) =>
    case Infix(left, _, right) =>
      StepCounts(left);
      StepCounts(right);
    case Call(_, args) => StepCountsArgs(args);
    case Decode(_, _, args) =>
    case Case(args) => StepCountsArgs(args);
  }

  lemma {:induction false} StepCountsArgs(args: Args)
    ensures AllWideArgs(StepArgs(args)) == AllWideArgs(args)
    ensures AllWideArgs(args) && DecodesArgs(args) > 0 ==> DecodesArgs(StepArgs(args)) == DecodesArgs(args) - 1
    decreases args
  {
    if args.More? {
      StepCounts(args.head);
      StepCountsArgs(args.tail);
    }
  }

  lemma {:induction false} NoneIsWide(e: Expr)
    requires Decodes(e) == 0
    ensures AllWide(e)
    decreases e
  {
    match e
    case Atom(_) =>
    case Literal(_) =>
    case Infix(left, _, right) =>
      NoneIsWide(left);
      NoneIsWide(right);
    case Call(_, args) => NoneIsWideArgs(args);
    case Case(args) => NoneIsWideArgs(args);
  }

  lemma {:induction false} NoneIsWideArgs(args: Args)
    requires DecodesArgs(args) == 0
    ensures AllWideArgs(args)
    decreases args
  {
    if args.More? {
      NoneIsWide(args.head);
      NoneIsWideArgs(args.tail);
    }
  }

  /** So many steps are enough exactly for as many calls, all of them long enough. */
  lemma {:induction false} AllConverted(e: Expr, n: nat)
    ensures Decodes(StepTimes(e, n)) == 0 <==> AllWide(e) && Decodes(e) <= n
    decreases n
  {
    if Decodes(e) == 0 {
      NoneIsWide(e);
      StepNothing(e);
    }
    if n > 0 {
      StepCounts(e);
      AllConverted(Step(e), n - 1);
    }
  }

  lemma SiteRemains(e: Expr)
    requires WellFormed(e) && Decodes(e) > 0
    ensures FindDecode(Print(e), 0).Some?
  {
    SiteIs(e);
    SiteIsFirst(e, Fresh);
    var s := FirstSite(e).value;
    SitePieces(s, Print(e));
    CallFound(Print(e), s.pre, s.word, s.gap, PrintArgs(s.args, Commas) + (")" + s.post));
  }

  /** The converted text has no DECODE call left if and only if there were at most ten, each with at least three
      arguments. */
  lemma ConvertedExactly(e: Expr)
    requires WellFormed(e) && ClearFor(e, 10)
    ensures FindDecode(ConvertTimes(Print(e), 10), 0).None? <==> AllWide(e) && Decodes(e) <= 10
  {
    ConversionIs(e, MAX_STEPS);
    AllConverted(e, MAX_STEPS);
    var r := StepTimes(e, MAX_STEPS);
    if Decodes(r) == 0 {
      NothingIn(r);
    } else {
      SiteRemains(r);
    }
  }

  // ---------- The result

  /** The tree with every DECODE turned into a CASE. */
  function AllCases(e: Expr): Expr {
    match e
    case Atom(_) => e
    case Literal(_) => e
    case Infix(left, op, right) => Infix(AllCases(left), op, AllCases(right))
    case Call(name, args) => Call(name, AllCasesArgs(args))
    case Decode(_, _, args) => Case(AllCasesArgs(args))
    case Case(args) => Case(AllCasesArgs(args))
  }

  function AllCasesArgs(args: Args): Args {
    if args.Nil? then Nil else More(AllCases(args.head), AllCasesArgs(args.tail))
  }

  lemma {:induction false} StepTowards(e: Expr)
    requires AllWide(e)
    ensures AllCases(Step(e)) == AllCases(e) && (Decodes(e) == 0 ==> AllCases(e) == e)
    decreases e
  {
    match e
    case Atom(_) =>
    case Literal(_) =>
    case Infix(left, _, right) =>
      StepTowards(left);
      StepTowards(right);
    case Call(_, args) => StepTowardsArgs(args);
    case Decode(_, _, args) =>
    case Case(args) => StepTowardsArgs(args);
  }

  lemma {:induction false} StepTowardsArgs(args: Args)
    requires AllWideArgs(args)
    ensures AllCasesArgs(StepArgs(args)) == AllCasesArgs(args)
            && (DecodesArgs(args) == 0 ==> AllCasesArgs(args) == args)
    decreases args
  {
    if args.More? {
      StepTowards(args.head);
      StepTowardsArgs(args.tail);
    }
  }

  lemma {:induction false} StepsReach(e: Expr, n: nat)
    requires AllWide(e) && Decodes(e) <= n
    ensures StepTimes(e, n) == AllCases(e)
    decreases n
  {
    StepTowards(e);
    if Decodes(e) == 0 {
      StepNothing(e);
    }
    if n > 0 {
      StepCounts(e);
      StepsReach(Step(e), n - 1);
    }
  }

  /** Up to ten DECODE calls, each long enough, all become CASE expressions in their places. */
  lemma ConversionIsComplete(e: Expr)
    requires WellFormed(e) && ClearFor(e, 10) && AllWide(e) && Decodes(e) <= 10
    ensures ConvertTimes(Print(e), 10) == Print(AllCases(e))
  {
    ConversionIs(e, MAX_STEPS);
    StepsReach(e, MAX_STEPS);
  }
}
