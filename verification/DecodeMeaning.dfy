/** The value of an expression before and after the conversion. */
module DecodeMeaning {
  import opened DecodeText
  import opened DecodeTree
  import opened DecodeConversion

  datatype Value = Null | Val(n: int)

  /** What atoms, operators and functions stand for. */
  datatype Meaning = Meaning(atom: string -> Value, infix: (Value, string, Value) -> Value,
      call: (string, seq<Value>) -> Value)

  /** Equality as CASE has it, where NULL equals nothing, or as DECODE has it, where NULL equals NULL. */
  predicate Same(a: Value, b: Value, nulls: bool) { a == b && (a.Null? ==> nulls) }

  /** The result of the first search that equals the selector, or else the default. */
  function Pick(selector: Value, rest: seq<Value>, nulls: bool): Value {
    if rest == [] then Null
    else if |rest| == 1 then rest[0]
    else if Same(selector, rest[0], nulls) then rest[1]
    else Pick(selector, rest[2..], nulls)
  }

  function Chosen(values: seq<Value>, nulls: bool): Value {
    if values == [] then Null else Pick(values[0], values[1..], nulls)
  }

  function Eval(e: Expr, m: Meaning): Value {
    match e
    case Atom(text) => m.atom(text)
    case Literal(_) => m.atom(Print(e))
    case Infix(left, op, right) => m.infix(Eval(left, m), op, Eval(right, m))
    case Call(name, args) => m.call(name, EvalArgs(args, m))
    case Decode(_, _, args) => Chosen(EvalArgs(args, m), true)
    case Case(args) => Chosen(EvalArgs(args, m), false)
  }

  function EvalArgs(args: Args, m: Meaning): seq<Value> {
    if args.Nil? then [] else [Eval(args.head, m)] + EvalArgs(args.tail, m)
  }

  // ---------- One call

  predicate NullSearch(rest: seq<Value>) { |rest| >= 2 && (rest[0].Null? || NullSearch(rest[2..])) }

  function Default(rest: seq<Value>): Value {
    if rest == [] then Null else if |rest| == 1 then rest[0] else Default(rest[2..])
  }

  function NullResult(rest: seq<Value>): Value
    requires NullSearch(rest)
  {
    if rest[0].Null? then rest[1] else NullResult(rest[2..])
  }

  /** If the selector and some search are NULL, the first such search gives the default. */
  predicate Harmless(selector: Value, rest: seq<Value>) {
    selector.Null? && NullSearch(rest) ==> NullResult(rest) == Default(rest)
  }

  /** A DECODE and its CASE agree unless the selector and some search are NULL and what that search gives is not the
      default. */
  lemma {:induction false} PickExactly(selector: Value, rest: seq<Value>)
    ensures Pick(selector, rest, true) == Pick(selector, rest, false) <==> Harmless(selector, rest)
    ensures selector.Null? ==> Pick(selector, rest, false) == Default(rest)
    decreases |rest|
  {
    if |rest| >= 2 {
      PickExactly(selector, rest[2..]);
    }
  }

  // ---------- Whole expressions

  /** Each DECODE of the expression agrees with its CASE. */
  ghost predicate Agrees(e: Expr, m: Meaning) {
    match e
    case Atom(_) => true
    case Literal(_) => true
    case Infix(left, _, right) => Agrees(left, m) && Agrees(right, m)
    case Call(_, args) => AgreesArgs(args, m)
    case Decode(_, _, args) =>
      && AgreesArgs(args, m)
      && (args.More? ==> Harmless(Eval(args.head, m), EvalArgs(args.tail, m)))
    case Case(args) => AgreesArgs(args, m)
  }

  ghost predicate AgreesArgs(args: Args, m: Meaning) {
    args.More? ==> Agrees(args.head, m) && AgreesArgs(args.tail, m)
  }

  lemma {:induction false} StepKeepsMeaning(e: Expr, m: Meaning)
    requires Agrees(e, m)
    ensures Eval(Step(e), m) == Eval(e, m) && Agrees(Step(e), m)
    decreases e
  {
    match e
    case Atom(_) =>
    case Literal(_) =>
    case Infix(left, _, right) =>
      StepKeepsMeaning(left, m);
      StepKeepsMeaning(right, m);
    case Call(_, args) => StepKeepsArgs(args, m);
    case Decode(_, _, args) =>
      if args.More? {
        assert EvalArgs(args, m)[1..] == EvalArgs(args.tail, m);
        PickExactly(Eval(args.head, m), EvalArgs(args.tail, m));
      }
    case Case(args) => StepKeepsArgs(args, m);
  }

  lemma {:induction false} StepKeepsArgs(args: Args, m: Meaning)
    requires AgreesArgs(args, m)
    ensures EvalArgs(StepArgs(args), m) == EvalArgs(args, m) && AgreesArgs(StepArgs(args), m)
    decreases args
  {
    if args.More? {
      StepKeepsMeaning(args.head, m);
      StepKeepsArgs(args.tail, m);
    }
  }

  lemma {:induction false} StepsKeepMeaning(e: Expr, n: nat, m: Meaning)
    requires Agrees(e, m)
    ensures Eval(StepTimes(e, n), m) == Eval(e, m)
    decreases n
  {
    if n > 0 {
      StepKeepsMeaning(e, m);
      StepsKeepMeaning(Step(e), n - 1, m);
    }
  }

  /** The converted text is the print of an expression with the same value, whatever its atoms, operators and functions
      mean, as long as no DECODE compares NULL with NULL to another effect than its default. */
  lemma ConversionKeepsMeaning(e: Expr, m: Meaning)
    requires WellFormed(e) && ClearFor(e, 10) && Agrees(e, m)
    ensures var r := StepTimes(e, 10);
            WellFormed(r) && ConvertTimes(Print(e), 10) == Print(r) && Eval(r, m) == Eval(e, m)
  {
    ConversionIs(e, MAX_STEPS);
    StepsKeepMeaning(e, MAX_STEPS, m);
  }

  /** DECODE(a, a, b, c) is b when a is NULL, and its CASE is c. */
  lemma NullIsLost(b: int, c: int) returns (e: Expr, m: Meaning)
    requires b != c
    ensures WellFormed(e) && Decodes(e) == 1 && Eval(e, m) == Val(b) && Eval(Step(e), m) == Val(c)
  {
    var a := Atom("a");
    var rest := More(Atom("b"), More(Atom("c"), Nil));
    e := Decode("DECODE", "", More(a, More(a, rest)));
    m := Meaning(t => if t == "a" then Null else if t == "b" then Val(b) else Val(c), (x, op, y) => Null,
      (f, xs) => Null);
    var values := EvalArgs(More(a, More(a, rest)), m);
    assert EvalArgs(rest.tail, m) == [Val(c)] + EvalArgs(Nil, m) == [Val(c)];
    assert EvalArgs(rest, m) == [Val(b)] + [Val(c)] == [Val(b), Val(c)];
    assert EvalArgs(More(a, rest), m) == [Null] + [Val(b), Val(c)] == [Null, Val(b), Val(c)];
    assert values == [Null] + [Null, Val(b), Val(c)] == [Null, Null, Val(b), Val(c)];
    assert values[1..][2..] == [Val(c)];
    assert Length(rest) == 2;
  }
}
