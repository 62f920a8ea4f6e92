/** What the scanners see of a printed expression. */
module DecodePrint {
  import opened Collections
  import opened Naming
  import opened DecodeText
  import opened DecodeScan
  import opened DecodeTree

  // ---------- Its ends

  lemma TrimmedJoin(a: string, b: string)
    requires a != "" && b != "" && !IsSpace(a[0]) && !IsSpace(b[|b| - 1])
    ensures Trimmed(a + b)
  {
  }

  lemma {:induction false} PrintTrimmed(e: Expr)
    requires WellFormed(e)
    ensures Trimmed(Print(e))
    decreases e
  {
    match e
    case Atom(_) =>
    case Literal(_) =>
    case Infix(left, op, right) =>
      PrintTrimmed(left);
      PrintTrimmed(right);
      TrimmedJoin(Print(left), op + Print(right));
    case Call(name, args) =>
      TrimmedJoin(name, "(" + PrintArgs(args, Commas) + ")");
    case Decode(word, gap, args) =>
      assert UpChar(word[0]) == DECODE[0];
      TrimmedJoin(word, gap + ("(" + PrintArgs(args, Commas) + ")"));
    case Case(args) =>
      TrimmedJoin("CASE ", PrintArgs(args, Results) + " END");
  }

  lemma {:induction false} TrimFront(pad: string, x: string)
    requires Trimmed(x) && forall k :: 0 <= k < |pad| ==> IsSpace(pad[k])
    ensures TrimSpace(pad + x) == x
  {
    if pad == "" {
      assert pad + x == x;
    } else {
      assert (pad + x)[1..] == pad[1..] + x;
      TrimFront(pad[1..], x);
    }
  }

  // ---------- It is balanced

  lemma PlainRuns(t: string, commas: bool)
    requires Plain(t)
    ensures Run(t, 0, commas) == Some(0)
  {
    PlainIsSolid(t);
    RunShift(t, 0, false, 0, commas);
  }

  lemma RunJoin(a: string, b: string, commas: bool)
    requires Run(a, 0, commas) == Some(0) && Run(b, 0, commas) == Some(0) && Joinable(a, b)
    ensures Run(a + b, 0, commas) == Some(0)
  {
    RunConcat(a, b, 0, commas);
  }

  lemma CommasZero(s: string)
    requires CommaCount(s) == 0
    ensures ',' !in s
  {
    CountPositive(s, Comma());
    forall k | 0 <= k < |s| ensures s[k] != ',' {
      assert !Comma()(s[k]);
    }
  }

  /** A printed expression is balanced, and solid if no literal with a comma stands outside of its parentheses. */
  lemma {:induction false} PrintRuns(e: Expr, commas: bool)
    requires WellFormed(e) && (commas || TopCommas(e) == 0)
    ensures Run(Print(e), 0, commas) == Some(0)
    decreases e, 0
  {
    match e
    case Atom(text) => PlainRuns(text, commas);
    case Literal(body) =>
      if !commas {
        CommasZero(body);
      }
      LiteralRuns(body, commas);
    case Infix(left, op, right) =>
      PrintRuns(left, commas);
      PlainRuns(op, commas);
      PrintRuns(right, commas);
      RunJoin(op, Print(right), commas);
      RunJoin(Print(left), op + Print(right), commas);
    case Call(name, args) =>
      ArgsRun(args, Commas, true);
      ParenRuns(PrintArgs(args, Commas), commas);
      PlainRuns(name, commas);
      RunJoin(name, "(" + PrintArgs(args, Commas) + ")", commas);
    case Decode(word, gap, args) =>
      DecodeRuns(word, gap, args, commas);
    case Case(args) =>
      ArgsRun(args, Results, commas);
      PlainRuns("CASE ", commas);
      PlainRuns(" END", commas);
      RunJoin(PrintArgs(args, Results), " END", commas);
      RunJoin("CASE ", PrintArgs(args, Results) + " END", commas);
  }

  lemma ParenRuns(x: string, commas: bool)
    requires Balanced(x)
    ensures Run("(" + x + ")", 0, commas) == Some(0)
  {
    ParenIsSolid(x);
    RunShift("(" + x + ")", 0, false, 0, commas);
  }

  lemma {:induction false} DecodeRuns(word: string, gap: string, args: Args, commas: bool)
    requires WellFormed(Decode(word, gap, args))
    ensures Run(Print(Decode(word, gap, args)), 0, commas) == Some(0)
    decreases args, 2
  {
    var rest := "(" + PrintArgs(args, Commas) + ")";
    ArgsRun(args, Commas, true);
    ParenRuns(PrintArgs(args, Commas), commas);
    forall k | 0 <= k < 6 ensures IsIdentChar(word[k]) {
      assert UpChar(word[k]) == DECODE[k];
    }
    PlainRuns(word, commas);
    PlainRuns(gap, commas);
    RunJoin(gap, rest, commas);
    RunJoin(word, gap + rest, commas);
  }

  lemma {:induction false} ArgsRun(args: Args, style: Style, commas: bool)
    requires WellFormedArgs(args) && (commas || (style != Commas && TopCommasArgs(args) == 0))
    ensures Run(PrintArgs(args, style), 0, commas) == Some(0)
    decreases args, 1
  {
    if args.More? {
      PrintRuns(args.head, commas);
      var tail := args.tail;
      if tail.More? {
        var sep := Separator(style, tail.tail.Nil?);
        ArgsRun(tail, After(style), commas);
        SeparatorRuns(style, tail.tail.Nil?, commas);
        RunJoin(sep, PrintArgs(tail, After(style)), commas);
      }
      RunJoin(Print(args.head), PrintTail(tail, style), commas);
    }
  }

  lemma SeparatorRuns(style: Style, last: bool, commas: bool)
    requires commas || style != Commas
    ensures Run(Separator(style, last), 0, commas) == Some(0)
  {
    if style == Commas {
      assert ", "[1..] == " " && " "[1..] == "";
    } else {
      PlainRuns(Separator(style, last), commas);
    }
  }

  // ---------- It starts no call before its first DECODE

  lemma {:induction false} TextIsQuiet(t: string, st: State)
    requires NoParens(t)
    ensures Quiet(t, st).Some?
    decreases |t|
  {
    if t != "" {
      TextIsQuiet(t[1..], Next(st, t[0]).value);
    }
  }

  lemma {:induction false} OtherStays(w: string)
    requires AllIdent(w)
    ensures Quiet(w, Other) == Some(Other)
    decreases |w|
  {
    if w != "" {
      OtherStays(w[1..]);
    }
  }

  lemma {:induction false} ReadRest(name: string, k: nat)
    requires AllIdent(name) && 0 < k <= |name| && k <= 6
    requires forall j :: 0 <= j < k ==> UpChar(name[j]) == DECODE[j]
    ensures var r := Quiet(name[k..], Letters(k));
            r.Some? && !AtStart(r.value) && (r.value == Letters(6) ==> IsDecodeWord(name))
    decreases |name| - k
  {
    if k < |name| {
      assert name[k..][0] == name[k] && name[k..][1..] == name[k + 1..];
      if k < 6 && UpChar(name[k]) == DECODE[k] {
        ReadRest(name, k + 1);
      } else {
        OtherStays(name[k + 1..]);
      }
    }
  }

  /** Behind a name other than DECODE, a parenthesis starts nothing. */
  lemma ReadName(name: string, st: State)
    requires name != "" && AllIdent(name) && !IsDecodeWord(name) && AtStart(st)
    ensures Quiet(name + "(", st) == Some(Fresh)
  {
    if UpChar(name[0]) == 'D' {
      assert DECODE[0] == 'D';
      ReadRest(name, 1);
    } else {
      OtherStays(name[1..]);
    }
    QuietConcat(name, "(", st);
    QuietOne('(', Quiet(name, st).value);
  }

  lemma QuietOne(c: char, st: State)
    ensures Quiet([c], st) == Next(st, c)
  {
    assert [c][1..] == "";
  }

  /** A keyword between blanks is read like the start of a text. */
  lemma ReadKeyword(word: string, st: State)
    requires word != "" && AllIdent(word) && UpChar(word[0]) != 'D'
    ensures Quiet(" " + (word + " "), st) == Some(Fresh)
  {
    QuietConcat(" ", word + " ", st);
    QuietOne(' ', st);
    var start := Next(st, ' ').value;
    QuietConcat(word, " ", start);
    OtherStays(word[1..]);
    QuietOne(' ', Other);
  }

  lemma SeparatorIsQuiet(style: Style, last: bool, st: State)
    ensures Quiet(Separator(style, last), st) == Some(Fresh)
  {
    match style
    case Commas =>
      QuietConcat(",", " ", st);
      QuietOne(',', st);
      QuietOne(' ', Fresh);
      assert "," + " " == ", ";
    case Results =>
      ReadKeyword("ELSE", st);
      ReadKeyword("WHEN", st);
      assert " " + ("ELSE" + " ") == " ELSE " && " " + ("WHEN" + " ") == " WHEN ";
    case Searches =>
      ReadKeyword("THEN", st);
      assert " " + ("THEN" + " ") == " THEN ";
  }

  lemma CaseIsQuiet(st: State)
    requires AtStart(st)
    ensures Quiet("CASE ", st) == Some(Fresh)
  {
    assert "CASE " == "CASE" + " ";
    QuietConcat("CASE", " ", st);
    OtherStays("CASE"[1..]);
    QuietOne(' ', Other);
  }

  lemma {:induction false} PrintIsQuiet(e: Expr, st: State)
    requires WellFormed(e) && Decodes(e) == 0 && AtStart(st)
    ensures Quiet(Print(e), st).Some?
    decreases e, 0
  {
    match e
    case Atom(text) => TextIsQuiet(text, st);
    case Literal(body) => TextIsQuiet("'" + body + "'", st);
    case Infix(left, op, right) =>
      InfixIsQuiet(left, op, st);
      Associate(Print(left), op, Print(right));
      QuietConcat(Print(left) + op, Print(right), st);
      PrintIsQuiet(right, Quiet(Print(left) + op, st).value);
    case Call(name, args) =>
      ReadName(name, st);
      ArgsAreQuiet(args, Commas, Fresh);
      QuietOne(')', Quiet(PrintArgs(args, Commas), Fresh).value);
      Bracket(name, PrintArgs(args, Commas));
      QuietWithin(name + "(", PrintArgs(args, Commas), ")", st);
    case Case(args) =>
      CaseIsQuiet(st);
      ArgsAreQuiet(args, Results, Fresh);
      TextIsQuiet(" END", Quiet(PrintArgs(args, Results), Fresh).value);
      QuietWithin("CASE ", PrintArgs(args, Results), " END", st);
  }

  lemma QuietWithin(a: string, b: string, c: string, st: State)
    requires Quiet(a, st) == Some(Fresh) && Quiet(b, Fresh).Some? && Quiet(c, Quiet(b, Fresh).value).Some?
    ensures Quiet(a + (b + c), st).Some?
  {
    QuietConcat(a, b + c, st);
    QuietConcat(b, c, Fresh);
  }

  /** Behind the operator one reads as at the start. */
  lemma {:induction false} InfixIsQuiet(left: Expr, op: string, st: State)
    requires WellFormed(left) && Plain(op) && op != "" && !IsIdentChar(op[|op| - 1])
    requires Decodes(left) == 0 && AtStart(st)
    ensures var r := Quiet(Print(left) + op, st); r.Some? && AtStart(r.value)
    decreases left, 1
  {
    PrintIsQuiet(left, st);
    QuietConcat(Print(left), op, st);
    TextIsQuiet(op, Quiet(Print(left), st).value);
    QuietAtStart(op, Quiet(Print(left), st).value);
  }

  lemma {:induction false} HeadIsQuiet(args: Args, style: Style, st: State)
    requires WellFormedArgs(args) && args.More? && args.tail.More? && Decodes(args.head) == 0 && AtStart(st)
    ensures Quiet(Print(args.head) + Separator(style, args.tail.tail.Nil?), st) == Some(Fresh)
    decreases args, 0
  {
    PrintIsQuiet(args.head, st);
    QuietConcat(Print(args.head), Separator(style, args.tail.tail.Nil?), st);
    SeparatorIsQuiet(style, args.tail.tail.Nil?, Quiet(Print(args.head), st).value);
  }

  lemma {:induction false} ArgsAreQuiet(args: Args, style: Style, st: State)
    requires WellFormedArgs(args) && DecodesArgs(args) == 0 && AtStart(st)
    ensures Quiet(PrintArgs(args, style), st).Some?
    decreases args, 1
  {
    if args.More? {
      if args.tail.Nil? {
        PrintIsQuiet(args.head, st);
        assert Print(args.head) + "" == Print(args.head);
      } else {
        HeadIsQuiet(args, style, st);
        var rest := PrintArgs(args.tail, After(style));
        Associate(Print(args.head), Separator(style, args.tail.tail.Nil?), rest);
        QuietConcat(Print(args.head) + Separator(style, args.tail.tail.Nil?), rest, st);
        ArgsAreQuiet(args.tail, After(style), Fresh);
      }
    }
  }

  /** Nothing before the first site starts a call. */
  lemma {:induction false} SiteIsFirst(e: Expr, st: State)
    requires WellFormed(e) && Decodes(e) > 0 && AtStart(st)
    ensures var s, r := FirstSite(e).value, Quiet(FirstSite(e).value.pre, st);
            r.Some? && AtStart(r.value) && WellFormed(Decode(s.word, s.gap, s.args))
    decreases e
  {
    match e
    case Infix(left, op, right) =>
      if Decodes(left) > 0 {
        SiteIsFirst(left, st);
      } else {
        InfixIsQuiet(left, op, st);
        QuietConcat(Print(left) + op, FirstSite(right).value.pre, st);
        SiteIsFirst(right, Quiet(Print(left) + op, st).value);
      }
    case Call(name, args) =>
      ReadName(name, st);
      QuietConcat(name + "(", FirstSiteArgs(args, Commas).value.pre, st);
      SiteIsFirstArgs(args, Commas, Fresh);
    case Decode(_, _, _) =>
    case Case(args) =>
      CaseIsQuiet(st);
      QuietConcat("CASE ", FirstSiteArgs(args, Results).value.pre, st);
      SiteIsFirstArgs(args, Results, Fresh);
  }

  lemma {:induction false} SiteIsFirstArgs(args: Args, style: Style, st: State)
    requires WellFormedArgs(args) && DecodesArgs(args) > 0 && AtStart(st)
    ensures var s, r := FirstSiteArgs(args, style).value, Quiet(FirstSiteArgs(args, style).value.pre, st);
            r.Some? && AtStart(r.value) && WellFormed(Decode(s.word, s.gap, s.args))
    decreases args
  {
    if Decodes(args.head) > 0 {
      SiteIsFirst(args.head, st);
    } else {
      var sep := Separator(style, args.tail.tail.Nil?);
      HeadIsQuiet(args, style, st);
      QuietConcat(Print(args.head) + sep, FirstSiteArgs(args.tail, After(style)).value.pre, st);
      SiteIsFirstArgs(args.tail, After(style), Fresh);
    }
  }
}
