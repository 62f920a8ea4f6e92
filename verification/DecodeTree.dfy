/** Expressions with DECODE calls: how they are printed, and which call a step rewrites. */
module DecodeTree {
  import opened Collections
  import opened Naming
  import opened NamingLaws
  import opened DecodeText
  import opened DecodeScan

  /** A piece of text without parentheses, a literal, two expressions with text between them, a call of another
      function, a DECODE call as it is written, and a CASE expression. */
  datatype Expr =
    | Atom(text: string)
    | Literal(body: string)
    | Infix(left: Expr, op: string, right: Expr)
    | Call(name: string, args: Args)
    | Decode(word: string, gap: string, args: Args)
    | Case(args: Args)

  datatype Args = Nil | More(head: Expr, tail: Args)

  function Length(args: Args): nat { if args.Nil? then 0 else 1 + Length(args.tail) }

  // ---------- Printing

  /** What separates the arguments: commas, or the words of a CASE behind its selector and results and behind a
      search. */
  datatype Style = Commas | Results | Searches

  function After(style: Style): Style {
    match style
    case Commas => Commas
    case Results => Searches
    case Searches => Results
  }

  function Separator(style: Style, last: bool): string {
    match style
    case Commas => ", "
    case Results => if last then " ELSE " else " WHEN "
    case Searches => " THEN "
  }

  function Print(e: Expr): string
    decreases e, 0
  {
    match e
    case Atom(text) => text
    case Literal(body) => "'" + body + "'"
    case Infix(left, op, right) => Print(left) + (op + Print(right))
    case Call(name, args) => name + ("(" + PrintArgs(args, Commas) + ")")
    case Decode(word, gap, args) => word + (gap + ("(" + PrintArgs(args, Commas) + ")"))
    case Case(args) => "CASE " + (PrintArgs(args, Results) + " END")
  }

  function PrintArgs(args: Args, style: Style): string
    decreases args, 0
  {
    if args.Nil? then "" else Print(args.head) + PrintTail(args.tail, style)
  }

  function PrintTail(tail: Args, style: Style): string
    decreases tail, 1
  {
    if tail.Nil? then "" else Separator(style, tail.tail.Nil?) + PrintArgs(tail, After(style))
  }

  /** No white space at the ends. */
  predicate Trimmed(t: string) { t != "" && !IsSpace(t[0]) && !IsSpace(t[|t| - 1]) }

  predicate AllIdent(name: string) { forall k :: 0 <= k < |name| ==> IsIdentChar(name[k]) }

  predicate AllGap(gap: string) { forall k :: 0 <= k < |gap| ==> IsGap(gap[k]) }

  /** Atoms and operators have no quotes, parentheses or commas, and literals no parentheses; a name is a word and not
      DECODE; operators end behind a word; a CASE has at least a selector, a search and a result. */
  ghost predicate WellFormed(e: Expr) {
    match e
    case Atom(text) => Plain(text) && Trimmed(text)
    case Literal(body) => NoParens(body) && PairedQuotes(body)
    case Infix(left, op, right) =>
      && Plain(op) && op != "" && !IsIdentChar(op[|op| - 1])
      && WellFormed(left) && WellFormed(right)
    case Call(name, args) => name != "" && AllIdent(name) && !IsDecodeWord(name) && WellFormedArgs(args)
    case Decode(word, gap, args) => IsDecodeWord(word) && AllGap(gap) && WellFormedArgs(args)
    case Case(args) => Length(args) >= 3 && WellFormedArgs(args)
  }

  ghost predicate WellFormedArgs(args: Args) { args.More? ==> WellFormed(args.head) && WellFormedArgs(args.tail) }

  // ---------- Commas that stand in literals

  function Comma(): char -> bool { (c: char) => c == ',' }

  function CommaCount(s: string): nat { Count(s, Comma()) }

  /** The commas in literals that stand in no parentheses of the expression. */
  function TopCommas(e: Expr): nat {
    match e
    case Atom(_) => 0
    case Literal(body) => CommaCount(body)
    case Infix(left, _, right) => TopCommas(left) + TopCommas(right)
    case Call(_, _) => 0
    case Decode(_, _, _) => 0
    case Case(args) => TopCommasArgs(args)
  }

  function TopCommasArgs(args: Args): nat {
    if args.Nil? then 0 else TopCommas(args.head) + TopCommasArgs(args.tail)
  }

  /** The splitting of these arguments is right, or too short to be used. */
  predicate ClearArgs(args: Args) { TopCommasArgs(args) == 0 || Length(args) + TopCommasArgs(args) < 3 }

  // ---------- Rewriting the tree

  function Decodes(e: Expr): nat {
    match e
    case Atom(_) => 0
    case Literal(_) => 0
    case Infix(left, _, right) => Decodes(left) + Decodes(right)
    case Call(_, args) => DecodesArgs(args)
    case Decode(_, _, args) => 1 + DecodesArgs(args)
    case Case(args) => DecodesArgs(args)
  }

  function DecodesArgs(args: Args): nat { if args.Nil? then 0 else Decodes(args.head) + DecodesArgs(args.tail) }

  /** The first DECODE in the order of the text becomes a CASE if it has at least three arguments. */
  function Step(e: Expr): Expr {
    match e
    case Atom(_) => e
    case Literal(_) => e
    case Infix(left, op, right) =>
      if Decodes(left) > 0 then Infix(Step(left), op, right) else Infix(left, op, Step(right))
    case Call(name, args) => Call(name, StepArgs(args))
    case Decode(_, _, args) => if Length(args) >= 3 then Case(args) else e
    case Case(args) => Case(StepArgs(args))
  }

  function StepArgs(args: Args): (r: Args)
    ensures Length(r) == Length(args)
  {
    if args.Nil? then Nil
    else if Decodes(args.head) > 0 then More(Step(args.head), args.tail)
    else More(args.head, StepArgs(args.tail))
  }

  /** The first DECODE with the text before and behind it. */
  datatype Site = Site(pre: string, word: string, gap: string, args: Args, post: string)

  function FirstSite(e: Expr): (r: Option<Site>)
    ensures r.Some? <==> Decodes(e) > 0
  {
    match e
    case Atom(_) => None
    case Literal(_) => None
    case Infix(left, op, right) =>
      if Decodes(left) > 0 then Some(Behind(FirstSite(left).value, op + Print(right)))
      else if Decodes(right) > 0 then Some(Before(Print(left) + op, FirstSite(right).value))
      else None
    case Call(name, args) =>
      if DecodesArgs(args) > 0 then Some(Before(name + "(", Behind(FirstSiteArgs(args, Commas).value, ")"))) else None
    case Decode(word, gap, args) => Some(Site("", word, gap, args, ""))
    case Case(args) =>
      if DecodesArgs(args) > 0 then Some(Before("CASE ", Behind(FirstSiteArgs(args, Results).value, " END"))) else None
  }

  function FirstSiteArgs(args: Args, style: Style): (r: Option<Site>)
    ensures r.Some? <==> DecodesArgs(args) > 0
  {
    if args.Nil? then None
    else if Decodes(args.head) > 0 then Some(Behind(FirstSite(args.head).value, PrintTail(args.tail, style)))
    else if DecodesArgs(args.tail) > 0 then
      Some(Before(Print(args.head) + Separator(style, args.tail.tail.Nil?),
        FirstSiteArgs(args.tail, After(style)).value))
    else None
  }

  function Before(pre: string, s: Site): Site { s.(pre := pre + s.pre) }

  function Behind(s: Site, post: string): Site { s.(post := s.post + post) }

  /** The whole text around a site when this stands in its place. */
  function Around(s: Site, hole: string): string { s.pre + (hole + s.post) }

  lemma AroundBefore(pre: string, s: Site, hole: string)
    ensures Around(Before(pre, s), hole) == pre + Around(s, hole)
  {
  }

  lemma AroundBehind(s: Site, post: string, hole: string)
    ensures Around(Behind(s, post), hole) == Around(s, hole) + post
  {
  }

  /** What stands in the text at the site. */
  function SiteText(s: Site): string { Print(Decode(s.word, s.gap, s.args)) }

  /** What a step puts there. */
  function SiteStep(s: Site): string {
    Print(if Length(s.args) >= 3 then Case(s.args) else Decode(s.word, s.gap, s.args))
  }

  /** A step changes the text at the first site and nowhere else. */
  lemma {:induction false} SiteIs(e: Expr)
    requires Decodes(e) > 0
    ensures var s := FirstSite(e).value;
            Print(e) == Around(s, SiteText(s)) && Print(Step(e)) == Around(s, SiteStep(s))
    decreases e
  {
    var s := FirstSite(e).value;
    match e
    case Infix(left, op, right) =>
      if Decodes(left) > 0 {
        SiteIs(left);
        var inner := FirstSite(left).value;
        AroundBehind(inner, op + Print(right), SiteText(s));
        AroundBehind(inner, op + Print(right), SiteStep(s));
      } else {
        SiteIs(right);
        var inner := FirstSite(right).value;
        AroundBefore(Print(left) + op, inner, SiteText(s));
        AroundBefore(Print(left) + op, inner, SiteStep(s));
        Associate(Print(left), op, Print(right));
        Associate(Print(left), op, Print(Step(right)));
      }
    case Call(name, args) =>
      SiteIsArgs(args, Commas);
      Wrapped(name + "(", FirstSiteArgs(args, Commas).value, ")", SiteText(s));
      Wrapped(name + "(", FirstSiteArgs(args, Commas).value, ")", SiteStep(s));
      Bracket(name, PrintArgs(args, Commas));
      Bracket(name, PrintArgs(StepArgs(args), Commas));
    case Decode(_, _, _) =>
      Alone(SiteText(s));
      Alone(SiteStep(s));
    case Case(args) =>
      SiteIsArgs(args, Results);
      Wrapped("CASE ", FirstSiteArgs(args, Results).value, " END", SiteText(s));
      Wrapped("CASE ", FirstSiteArgs(args, Results).value, " END", SiteStep(s));
  }

  lemma Alone(x: string)
    ensures "" + (x + "") == x
  {
  }

  lemma Wrapped(pre: string, s: Site, post: string, hole: string)
    ensures Around(Before(pre, Behind(s, post)), hole) == pre + (Around(s, hole) + post)
  {
    AroundBehind(s, post, hole);
    AroundBefore(pre, Behind(s, post), hole);
  }

  lemma Bracket(name: string, x: string)
    ensures name + ("(" + x + ")") == (name + "(") + (x + ")")
  {
  }

  lemma {:induction false} SiteIsArgs(args: Args, style: Style)
    requires DecodesArgs(args) > 0
    ensures var s := FirstSiteArgs(args, style).value;
            && PrintArgs(args, style) == Around(s, SiteText(s))
            && PrintArgs(StepArgs(args), style) == Around(s, SiteStep(s))
    decreases args
  {
    var s := FirstSiteArgs(args, style).value;
    if Decodes(args.head) > 0 {
      SiteIs(args.head);
      var inner := FirstSite(args.head).value;
      AroundBehind(inner, PrintTail(args.tail, style), SiteText(s));
      AroundBehind(inner, PrintTail(args.tail, style), SiteStep(s));
    } else {
      SiteIsArgs(args.tail, After(style));
      var inner := FirstSiteArgs(args.tail, After(style)).value;
      var sep := Separator(style, args.tail.tail.Nil?);
      assert StepArgs(args.tail).tail.Nil? == args.tail.tail.Nil? by {
        assert Length(StepArgs(args.tail)) == Length(args.tail);
      }
      AroundBefore(Print(args.head) + sep, inner, SiteText(s));
      AroundBefore(Print(args.head) + sep, inner, SiteStep(s));
      Associate(Print(args.head), sep, PrintArgs(args.tail, After(style)));
      Associate(Print(args.head), sep, PrintArgs(StepArgs(args.tail), After(style)));
    }
  }
}
