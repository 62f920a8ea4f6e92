/** Counting commas: into how many parts the arguments of a call are cut, and what a CASE keeps of them. */
module DecodeCuts {
  import opened Collections
  import opened Naming
  import opened DecodeText
  import opened DecodeScan
  import opened DecodeTree
  import opened DecodePrint

  // ---------- Where the splitting cuts

  /** By how much the text changes the depth. */
  function Net(t: string): int {
    if t == "" then 0 else (if t[0] == '(' then 1 else if t[0] == ')' then -1 else 0) + Net(t[1..])
  }

  /** The commas at depth 0, for a scanner that knows no literals. */
  function Cuts(t: string, depth: int): nat {
    if t == "" then 0
    else match t[0]
      case '(' => Cuts(t[1..], depth + 1)
      case ')' => Cuts(t[1..], depth - 1)
      case c => (if c == ',' && depth == 0 then 1 else 0) + Cuts(t[1..], depth)
  }

  lemma {:induction false} CutsConcat(a: string, b: string, depth: int)
    ensures Cuts(a + b, depth) == Cuts(a, depth) + Cuts(b, depth + Net(a)) && Net(a + b) == Net(a) + Net(b)
    decreases |a|
  {
    if a == "" {
      assert a + b == b;
    } else {
      assert (a + b)[0] == a[0] && (a + b)[1..] == a[1..] + b;
      match a[0] {
        case '(' => CutsConcat(a[1..], b, depth + 1);
        case ')' => CutsConcat(a[1..], b, depth - 1);
        case _ => CutsConcat(a[1..], b, depth);
      }
    }
  }

  /** There is one part more than there are cuts. */
  lemma {:induction false} SplitCounts(s: string, i: nat, start: nat, depth: int)
    requires start <= i <= |s|
    ensures |SplitAt(s, ',', i, start, depth)| == 1 + Cuts(s[i..], depth)
    decreases |s| - i
  {
    if i < |s| {
      assert s[i..][0] == s[i] && s[i..][1..] == s[i + 1..];
      match s[i] {
        case '(' => SplitCounts(s, i + 1, start, depth + 1);
        case ')' => SplitCounts(s, i + 1, start, depth - 1);
        case c => SplitCounts(s, i + 1, if c == ',' && depth == 0 then i + 1 else start, depth);
      }
    }
  }

  lemma {:induction false} FlatCuts(t: string, depth: int)
    requires NoParens(t)
    ensures Net(t) == 0 && Cuts(t, depth) == if depth == 0 then CommaCount(t) else 0
    decreases |t|
  {
    if t != "" {
      assert NoParens(t[1..]);
      FlatCuts(t[1..], depth);
    }
  }

  /** Inside of parentheses nothing is cut. */
  lemma {:induction false} NestedCuts(t: string, depth: nat)
    requires Run(t, depth, true).Some?
    ensures Net(t) == Run(t, depth, true).value - depth && Cuts(t, depth + 1) == 0
    decreases |t|
  {
    if t != "" {
      match t[0] {
        case '(' => NestedCuts(t[1..], depth + 1);
        case ')' => NestedCuts(t[1..], depth - 1);
        case '\'' =>
          var next := PassLiteral(t, depth, true);
          FlatCuts(t[..next], depth + 1);
          assert t == t[..next] + t[next..];
          CutsConcat(t[..next], t[next..], depth + 1);
          NestedCuts(t[next..], depth);
        case _ => NestedCuts(t[1..], depth);
      }
    }
  }

  // ---------- Printed expressions

  /** The text keeps the depth and is cut so many times. */
  ghost predicate CutAt(t: string, n: nat) { Net(t) == 0 && Cuts(t, 0) == n }

  lemma CutJoin(a: string, b: string, m: nat, n: nat)
    requires CutAt(a, m) && CutAt(b, n)
    ensures CutAt(a + b, m + n)
  {
    CutsConcat(a, b, 0);
  }

  lemma CutNone(t: string)
    requires NoParens(t) && ',' !in t
    ensures CutAt(t, 0)
  {
    FlatCuts(t, 0);
    NoCommas(t);
  }

  lemma {:induction false} NoCommas(t: string)
    requires ',' !in t
    ensures CommaCount(t) == 0
  {
    CountPositive(t, Comma());
  }

  lemma CutParen(x: string)
    requires Balanced(x)
    ensures CutAt("(" + x + ")", 0)
  {
    NestedCuts(x, 0);
    CutsConcat(x, ")", 1);
    assert ("(" + x + ")")[1..] == x + ")" && ")"[1..] == "";
  }

  lemma {:induction false} PrintCuts(e: Expr)
    requires WellFormed(e)
    ensures CutAt(Print(e), TopCommas(e))
    decreases e, 0
  {
    match e
    case Atom(text) => CutNone(text);
    case Literal(body) => LiteralCuts(body);
    case Infix(left, op, right) =>
      PrintCuts(left);
      CutNone(op);
      PrintCuts(right);
      CutJoin(op, Print(right), 0, TopCommas(right));
      CutJoin(Print(left), op + Print(right), TopCommas(left), TopCommas(right));
    case Call(name, args) =>
      ArgsRun(args, Commas, true);
      CutParen(PrintArgs(args, Commas));
      assert forall k :: 0 <= k < |name| ==> IsIdentChar(name[k]);
      CutNone(name);
      CutJoin(name, "(" + PrintArgs(args, Commas) + ")", 0, 0);
    case Decode(word, gap, args) =>
      DecodeCuts(word, gap, args);
    case Case(args) =>
      ArgsCuts(args, Results);
      CutNone("CASE ");
      CutNone(" END");
      CutJoin(PrintArgs(args, Results), " END", TopCommasArgs(args), 0);
      CutJoin("CASE ", PrintArgs(args, Results) + " END", 0, TopCommasArgs(args));
  }

  lemma LiteralCuts(body: string)
    requires NoParens(body)
    ensures CutAt("'" + body + "'", CommaCount(body))
  {
    FlatCuts(body, 0);
    CutNone("'");
    CutJoin("'", body, 0, CommaCount(body));
    CutJoin("'" + body, "'", CommaCount(body), 0);
  }

  lemma DecodeCuts(word: string, gap: string, args: Args)
    requires WellFormed(Decode(word, gap, args))
    ensures CutAt(Print(Decode(word, gap, args)), 0)
  {
    var rest := "(" + PrintArgs(args, Commas) + ")";
    ArgsRun(args, Commas, true);
    CutParen(PrintArgs(args, Commas));
    forall k | 0 <= k < 6 ensures IsIdentChar(word[k]) {
      assert UpChar(word[k]) == DECODE[k];
    }
    CutNone(word);
    CutNone(gap);
    CutJoin(gap, rest, 0, 0);
    CutJoin(word, gap + rest, 0, 0);
  }

  /** The separators that are commas. */
  function CommaSeparators(args: Args, style: Style): nat {
    if style == Commas && args.More? then Length(args) - 1 else 0
  }

  lemma SeparatorCuts(style: Style, last: bool)
    ensures CutAt(Separator(style, last), if style == Commas then 1 else 0)
  {
    if style == Commas {
      assert ", "[1..] == " " && " "[1..] == "";
    } else {
      CutNone(Separator(style, last));
    }
  }

  lemma {:induction false} ArgsCuts(args: Args, style: Style)
    requires WellFormedArgs(args)
    ensures CutAt(PrintArgs(args, style), TopCommasArgs(args) + CommaSeparators(args, style))
    decreases args, 1
  {
    if args.More? {
      PrintCuts(args.head);
      var tail := args.tail;
      if tail.More? {
        ArgsCuts(tail, After(style));
        SeparatorCuts(style, tail.tail.Nil?);
        CutJoin(Separator(style, tail.tail.Nil?), PrintArgs(tail, After(style)), if style == Commas then 1 else 0,
                TopCommasArgs(tail) + CommaSeparators(tail, After(style)));
      }
      CutJoin(Print(args.head), PrintTail(tail, style), TopCommas(args.head),
              TopCommasArgs(tail) + CommaSeparators(args, style));
    }
  }

  /** The arguments are cut into one part each, and once more at each comma in a literal of theirs. */
  lemma PartsCount(args: Args)
    requires WellFormedArgs(args) && args.More?
    ensures |Split(PrintArgs(args, Commas), ',')| == Length(args) + TopCommasArgs(args)
  {
    ArgsCuts(args, Commas);
    var s := PrintArgs(args, Commas);
    assert s[0..] == s;
    SplitCounts(s, 0, 0, 0);
  }

  // ---------- The commas that a CASE keeps

  lemma Joins(a: string, b: string)
    ensures CommaCount(a + b) == CommaCount(a) + CommaCount(b)
  {
    CountConcat(a, b, Comma());
  }

  function SumCommas(parts: seq<string>): nat {
    if parts == [] then 0 else CommaCount(parts[0]) + SumCommas(parts[1..])
  }

  lemma {:induction false} JoinedCommas(parts: seq<string>)
    requires parts != []
    ensures CommaCount(Joined(parts, ',')) == SumCommas(parts) + |parts| - 1
  {
    if |parts| == 1 {
      assert parts[1..] == [];
    } else {
      JoinedCommas(parts[1..]);
      Joins(parts[0] + [','], Joined(parts[1..], ','));
      Joins(parts[0], [',']);
      assert [','][1..] == [];
    }
  }

  lemma {:induction false} TrimLeftCommas(s: string)
    ensures CommaCount(TrimLeft(s)) == CommaCount(s)
  {
    if s != "" && IsSpace(s[0]) {
      TrimLeftCommas(s[1..]);
    }
  }

  lemma {:induction false} TrimRightCommas(s: string)
    ensures CommaCount(TrimRight(s)) == CommaCount(s)
  {
    if s != "" && IsSpace(s[|s| - 1]) {
      var front, last := s[..|s| - 1], s[|s| - 1..];
      assert s == front + last && ',' !in last;
      NoCommas(last);
      Joins(front, last);
      TrimRightCommas(front);
    }
  }

  lemma TrimCommas(s: string)
    ensures CommaCount(TrimSpace(s)) == CommaCount(s)
  {
    TrimLeftCommas(s);
    TrimRightCommas(TrimLeft(s));
  }

  lemma KeywordCommas()
    ensures CommaCount(" WHEN ") == CommaCount(" THEN ") == CommaCount(" ELSE ") == 0
    ensures CommaCount("CASE ") == CommaCount(" END") == 0
  {
    NoCommas(" WHEN ");
    NoCommas(" THEN ");
    NoCommas(" ELSE ");
    NoCommas("CASE ");
    NoCommas(" END");
  }

  lemma {:induction false} BranchCommas(parts: seq<string>, j: nat)
    requires j <= |parts|
    ensures CommaCount(Branches(parts, j)) == SumCommas(parts[j..])
    decreases |parts| - j
  {
    KeywordCommas();
    if j + 1 < |parts| {
      var search, result := TrimSpace(parts[j]), TrimSpace(parts[j + 1]);
      TrimCommas(parts[j]);
      TrimCommas(parts[j + 1]);
      BranchCommas(parts, j + 2);
      Joins(" WHEN " + search + " THEN " + result, Branches(parts, j + 2));
      Joins(" WHEN " + search + " THEN ", result);
      Joins(" WHEN " + search, " THEN ");
      Joins(" WHEN ", search);
      assert parts[j..][1..] == parts[j + 1..] && parts[j + 1..][1..] == parts[j + 2..];
    } else if j < |parts| {
      TrimCommas(parts[j]);
      Joins(" ELSE ", TrimSpace(parts[j]));
      assert parts[j..] == [parts[j]] && [parts[j]][1..] == [];
    } else {
      assert parts[j..] == [];
    }
  }

  /** The commas of a CASE are those of its parts. */
  lemma CaseCommas(parts: seq<string>)
    requires parts != []
    ensures CommaCount(CaseText(parts)) == SumCommas(parts)
  {
    KeywordCommas();
    var selector := TrimSpace(parts[0]);
    TrimCommas(parts[0]);
    BranchCommas(parts, 1);
    Joins("CASE " + selector + Branches(parts, 1), " END");
    Joins("CASE " + selector, Branches(parts, 1));
    Joins("CASE ", selector);
  }

  function ArgCommas(args: Args): nat {
    if args.Nil? then 0 else CommaCount(Print(args.head)) + ArgCommas(args.tail)
  }

  lemma {:induction false} ArgsCommas(args: Args, style: Style)
    ensures CommaCount(PrintArgs(args, style)) == ArgCommas(args) + CommaSeparators(args, style)
    decreases args
  {
    if args.More? {
      var tail := args.tail;
      Joins(Print(args.head), PrintTail(tail, style));
      if tail.More? {
        var sep := Separator(style, tail.tail.Nil?);
        ArgsCommas(tail, After(style));
        Joins(sep, PrintArgs(tail, After(style)));
        SeparatorCommas(style, tail.tail.Nil?);
        assert PrintTail(tail, style) == sep + PrintArgs(tail, After(style));
      } else {
        assert PrintTail(tail, style) == "" && CommaCount("") == 0;
        assert Length(tail) == 0 && ArgCommas(tail) == 0;
      }
    }
  }

  lemma SeparatorCommas(style: Style, last: bool)
    ensures CommaCount(Separator(style, last)) == if style == Commas then 1 else 0
  {
    SeparatorCuts(style, last);
    FlatCuts(Separator(style, last), 0);
  }

  lemma PrintedCaseCommas(args: Args)
    ensures CommaCount(Print(Case(args))) == ArgCommas(args)
  {
    KeywordCommas();
    ArgsCommas(args, Results);
    Joins("CASE ", PrintArgs(args, Results) + " END");
    Joins(PrintArgs(args, Results), " END");
  }

  /** A CASE built from too many parts has lost the commas at which a literal was cut. */
  lemma CutCaseDiffers(args: Args)
    requires WellFormedArgs(args) && args.More? && TopCommasArgs(args) > 0
    ensures var parts := Split(PrintArgs(args, Commas), ','); parts != [] && CaseText(parts) != Print(Case(args))
  {
    var inner := PrintArgs(args, Commas);
    var parts := Split(inner, ',');
    PartsCount(args);
    SplitJoins(inner, ',', 0, 0, 0);
    assert inner[0..] == inner;
    JoinedCommas(parts);
    CaseCommas(parts);
    ArgsCommas(args, Commas);
    PrintedCaseCommas(args);
  }
}
