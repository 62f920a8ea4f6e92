/** The bounds given to PostgreSQL for range partitions, and the boundaries that pruning compares: both are read from
    Oracle's HIGH_VALUE texts, by different functions. */
module PartitionBounds {
  import opened Collections
  import opened Schema
  import opened Pruning
  import Naming
  import DecodeText

  // ---------- Reading a HIGH_VALUE

  predicate DateAt(hv: string, i: nat) {
    i + 10 < |hv| && '1' <= hv[i] <= '2' && hv[i + 4] == '-' && hv[i + 7] == '-'
  }

  /** The first date that is not at the very end of the text. */
  function FindDate(hv: string, i: nat): (r: Option<nat>)
    ensures r.Some? ==> i <= r.value && DateAt(hv, r.value)
    decreases |hv| - i
  {
    if i + 10 >= |hv| then None else if DateAt(hv, i) then Some(i) else FindDate(hv, i + 1)
  }

  predicate IsQuote(c: char) { c == ' ' || c == '\'' || c == '"' }

  function TrimLeft(s: string): string { if s != "" && IsQuote(s[0]) then TrimLeft(s[1..]) else s }

  function TrimRight(s: string): string { if s != "" && IsQuote(s[|s| - 1]) then TrimRight(s[..|s| - 1]) else s }

  /** Without blanks and quotes around it. */
  function Unquoted(s: string): string { TrimRight(TrimLeft(s)) }

  /** For pruning: the empty text is an unbounded edge. */
  function ExtractValue(highValue: string): string {
    var hv := DecodeText.TrimSpace(highValue);
    if hv == "" || Naming.ToUpper(hv) == "MAXVALUE" then ""
    else
      var i := FindDate(hv, 0);
      if i.Some? then hv[i.value..i.value + 10] else Unquoted(hv)
  }

  /** For PostgreSQL. */
  function ParseHighValue(highValue: string): string {
    var hv := DecodeText.TrimSpace(highValue);
    if hv == "" || hv == "MAXVALUE" then "MAXVALUE"
    else
      var i := FindDate(hv, 0);
      if i.Some? then "'" + hv[i.value..i.value + 10] + "'" else hv
  }

  /** Ten characters and more from position i on, with a 1 or 2 and two hyphens where a date of this millennium or the
      last has them. */
  ghost predicate FitsDate(hv: string, i: nat) {
    i + 10 < |hv| && (hv[i] == '1' || hv[i] == '2') && hv[i + 4] == '-' && hv[i + 7] == '-'
  }

  ghost predicate FirstDate(hv: string, i: nat) { FitsDate(hv, i) && forall k: nat :: k < i ==> !FitsDate(hv, k) }

  lemma {:induction false} FindDateExactly(hv: string, i: nat)
    ensures var r := FindDate(hv, i);
            && (r.Some? ==> FitsDate(hv, r.value) && forall k: nat :: i <= k < r.value ==> !FitsDate(hv, k))
            && (r.None? ==> forall k: nat :: i <= k ==> !FitsDate(hv, k))
    decreases |hv| - i
  {
    if i + 10 < |hv| && !DateAt(hv, i) {
      FindDateExactly(hv, i + 1);
    }
  }

  /** Without the blanks and quotes at both ends, and nothing else. */
  ghost predicate IsUnquoted(s: string, r: string) {
    && (exists i: nat, j: nat :: i <= j <= |s| && r == s[i..j]
          && forall k :: 0 <= k < i || j <= k < |s| ==> s[k] in " '\"")
    && (r != "" ==> r[0] !in " '\"" && r[|r| - 1] !in " '\"")
  }

  lemma {:induction false} TrimLeftExactly(s: string) returns (i: nat)
    ensures i <= |s| && TrimLeft(s) == s[i..] && forall k :: 0 <= k < i ==> IsQuote(s[k])
    ensures TrimLeft(s) != "" ==> !IsQuote(TrimLeft(s)[0])
  {
    if s != "" && IsQuote(s[0]) {
      var n := TrimLeftExactly(s[1..]);
      i := n + 1;
      assert forall k :: 0 < k < i ==> s[k] == s[1..][k - 1];
    } else {
      i := 0;
    }
  }

  lemma {:induction false} TrimRightExactly(s: string) returns (j: nat)
    ensures j <= |s| && TrimRight(s) == s[..j] && forall k :: j <= k < |s| ==> IsQuote(s[k])
    ensures TrimRight(s) != "" ==> !IsQuote(TrimRight(s)[|TrimRight(s)| - 1])
  {
    if s != "" && IsQuote(s[|s| - 1]) {
      j := TrimRightExactly(s[..|s| - 1]);
      assert forall k :: j <= k < |s| - 1 ==> s[k] == s[..|s| - 1][k];
    } else {
      j := |s|;
    }
  }

  lemma UnquotedExactly(s: string)
    ensures IsUnquoted(s, Unquoted(s))
  {
    var i := TrimLeftExactly(s);
    var left := TrimLeft(s);
    var j := TrimRightExactly(left);
    assert forall k :: j <= k < |left| ==> left[k] == s[i + k];
    assert Unquoted(s) == s[i..i + j];
    forall k | 0 <= k < i || i + j <= k < |s| ensures s[k] in " '\"" {
      assert i + j <= k < |s| ==> left[k - i] == s[k];
      assert IsQuote(s[k]);
    }
  }

  method ScanDate(hv: string) returns (at: Option<nat>)
    ensures at == FindDate(hv, 0)
    ensures at.Some? ==> FirstDate(hv, at.value)
    ensures at.None? ==> forall i: nat :: !FitsDate(hv, i)
  {
    FindDateExactly(hv, 0);
    var i := 0;
    while i < |hv| - 10
      invariant 0 <= i && FindDate(hv, i) == FindDate(hv, 0)
    {
      if '1' <= hv[i] <= '2' && hv[i + 4] == '-' && hv[i + 7] == '-' {
        return Some(i);
      }
      i := i + 1;
    }
    return None;
  }

  method ReadExtractedValue(highValue: string) returns (value: string)
    ensures value == ExtractValue(highValue)
    ensures var hv := DecodeText.TrimSpace(highValue);
            && (hv == "" || Naming.ToUpper(hv) == "MAXVALUE" ==> value == "")
            && (forall i: nat :: Naming.ToUpper(hv) != "MAXVALUE" && FirstDate(hv, i) ==> value == hv[i..i + 10])
            && (Naming.ToUpper(hv) != "MAXVALUE" && (forall i: nat :: !FitsDate(hv, i)) ==> IsUnquoted(hv, value))
  {
    FindDateExactly(DecodeText.TrimSpace(highValue), 0);
    UnquotedExactly(DecodeText.TrimSpace(highValue));
    var hv := DecodeText.TrimSpace(highValue);
    if hv == "" || Naming.ToUpper(hv) == "MAXVALUE" {
      return "";
    }
    var i := ScanDate(hv);
    if i.Some? {
      return hv[i.value..i.value + 10];
    }
    return Unquoted(hv);
  }

  method ReadHighValue(highValue: string) returns (value: string)
    ensures value == ParseHighValue(highValue)
    ensures var hv := DecodeText.TrimSpace(highValue);
            && (hv == "" || hv == "MAXVALUE" ==> value == "MAXVALUE")
            && (forall i: nat :: hv != "MAXVALUE" && FirstDate(hv, i) ==> value == "'" + hv[i..i + 10] + "'")
            && (hv != "" && hv != "MAXVALUE" && (forall i: nat :: !FitsDate(hv, i)) ==> value == hv)
  {
    FindDateExactly(DecodeText.TrimSpace(highValue), 0);
    var hv := DecodeText.TrimSpace(highValue);
    if hv == "" || hv == "MAXVALUE" {
      return "MAXVALUE";
    }
    var i := ScanDate(hv);
    if i.Some? {
      return "'" + hv[i.value..i.value + 10] + "'";
    }
    return hv;
  }

  /** The boundary a bound stands for, in the form that pruning uses. */
  function Boundary(bound: string): string { if bound == "MAXVALUE" then "" else Unquoted(bound) }

  /** A date found in the text ends in a digit. */
  predicate ProperDate(highValue: string) {
    var hv := DecodeText.TrimSpace(highValue);
    var i := FindDate(hv, 0);
    i.Some? ==> '0' <= hv[i.value + 9] <= '9'
  }

  lemma UnquotedDate(d: string)
    requires |d| == 10 && !IsQuote(d[0]) && !IsQuote(d[9])
    ensures Unquoted("'" + d + "'") == d && d != "MAXVALUE"
  {
    assert ("'" + d + "'")[1..] == d + "'";
    assert (d + "'")[10] == '\'' && (d + "'")[..10] == d;
    assert TrimLeft("'" + d + "'") == TrimLeft(d + "'") == d + "'";
    assert TrimRight(d + "'") == TrimRight(d) == d;
  }

  /** PostgreSQL's bound and the boundary for pruning agree, unless MAXVALUE is not written in capitals. */
  lemma BoundaryAgreesExactly(highValue: string)
    requires ProperDate(highValue)
    ensures var hv := DecodeText.TrimSpace(highValue);
            Boundary(ParseHighValue(highValue)) == ExtractValue(highValue)
            <==> (Naming.ToUpper(hv) == "MAXVALUE" ==> hv == "MAXVALUE")
  {
    var hv := DecodeText.TrimSpace(highValue);
    var i := FindDate(hv, 0);
    if i.Some? {
      UnquotedDate(hv[i.value..i.value + 10]);
    }
    if hv == "MAXVALUE" {
      assert Naming.ToUpper(hv) == hv;
    } else if Naming.ToUpper(hv) == "MAXVALUE" {
      assert |hv| == 8 && forall k :: 0 <= k < 8 ==> Naming.UpChar(hv[k]) == "MAXVALUE"[k];
      assert !IsQuote(hv[0]) && !IsQuote(hv[7]);
    }
  }

  // ---------- The bounds of a table

  datatype Bound = Bound(lower: string, upper: string)

  method BuildPartitionBounds(highs: seq<string>) returns (bounds: seq<Bound>)
    ensures bounds == Bounds(highs)
  {
    bounds := [];
    for i := 0 to |highs|
      invariant bounds == Bounds(highs)[..i]
    {
      var lower := "MINVALUE";
      if i > 0 {
        lower := ReadHighValue(highs[i - 1]);
      }
      var upper := ReadHighValue(highs[i]);
      bounds := bounds + [Bound(lower, upper)];
    }
  }

  function Bounds(highs: seq<string>): seq<Bound> {
    seq(|highs|, i requires 0 <= i < |highs| =>
      Bound(if i == 0 then "MINVALUE" else ParseHighValue(highs[i - 1]), ParseHighValue(highs[i])))
  }

  /** A boundary with the number its text stands for, if it does. */
  function Key(text: string, number: string -> Option<real>): KeyText { KeyText(text, number(text)) }

  /** The partitions as pruning sees them. */
  function Parts(highs: seq<string>, number: string -> Option<real>): seq<Partition> {
    seq(|highs|, i requires 0 <= i < |highs| => Partition("", Key(ExtractValue(highs[i]), number), 0))
  }

  /** Pruning from the HIGH_VALUE texts. */
  method PruneByHighValues(highs: seq<string>, number: string -> Option<real>, from: KeyText, upTo: KeyText)
    returns (indices: seq<nat>)
    ensures indices == Selected(Parts(highs, number), from, upTo, |highs|)
  {
    var parts := [];
    for i := 0 to |highs|
      invariant parts == Parts(highs, number)[..i]
    {
      var high := ReadExtractedValue(highs[i]);
      parts := parts + [Partition("", Key(high, number), 0)];
    }
    assert Parts(highs, number)[..|highs|] == Parts(highs, number);
    indices := PrunePartitionsByRange(parts, from, upTo);
  }

  /** Does PostgreSQL put the key into the partition with this bound? */
  predicate Within(key: KeyText, b: Bound, number: string -> Option<real>) {
    && (b.lower == "MINVALUE" || !Before(key, Key(Boundary(b.lower), number)))
    && (Boundary(b.upper) == "" || Before(key, Key(Boundary(b.upper), number)))
  }

  /** The text has one meaning for both, and is not taken for the lower end of everything. */
  predicate ProperHigh(h: string) { Boundary(ParseHighValue(h)) == ExtractValue(h) && ParseHighValue(h) != "MINVALUE" }

  ghost predicate ProperHighs(highs: seq<string>) { forall i :: 0 <= i < |highs| ==> ProperHigh(highs[i]) }

  lemma BoundAt(highs: seq<string>, number: string -> Option<real>, i: nat)
    requires i < |highs|
    ensures Bounds(highs)[i].upper == ParseHighValue(highs[i])
    ensures Bounds(highs)[i].lower == if i == 0 then "MINVALUE" else ParseHighValue(highs[i - 1])
    ensures Parts(highs, number)[i].high == Key(ExtractValue(highs[i]), number)
    ensures i > 0 ==> Parts(highs, number)[i - 1].high == Key(ExtractValue(highs[i - 1]), number)
  {
    hide ParseHighValue, ExtractValue;
  }

  /** PostgreSQL routes every key to the same partition as Oracle. */
  lemma BoundsRoute(highs: seq<string>, number: string -> Option<real>, key: KeyText, i: nat)
    requires ProperHighs(highs) && i < |highs|
    ensures Within(key, Bounds(highs)[i], number) <==> Routes(Parts(highs, number), key, i)
  {
    hide Before, Boundary, ParseHighValue, ExtractValue, Within;
    BoundAt(highs, number, i);
    var high, low := highs[i], if i == 0 then "" else highs[i - 1];
    assert ProperHigh(high) && (i > 0 ==> ProperHigh(low));
    var b := Bounds(highs)[i];
    assert b == Bound(b.lower, b.upper);
    Edges(key, i == 0, ParseHighValue(low), ExtractValue(low), b.upper, ExtractValue(high), number);
  }

  lemma Edges(key: KeyText, first: bool, lower: string, low: string, upper: string, high: string,
      number: string -> Option<real>)
    requires !first ==> lower != "MINVALUE" && Boundary(lower) == low
    requires Boundary(upper) == high
    ensures Within(key, Bound(if first then "MINVALUE" else lower, upper), number)
            <==> (first || !Before(key, Key(low, number))) && (high == "" || Before(key, Key(high, number)))
  {
  }

  /** Some bound holds the key, and no later one does. */
  ghost predicate Routed(bounds: seq<Bound>, key: KeyText, number: string -> Option<real>) {
    exists i :: 0 <= i < |bounds| && Within(key, bounds[i], number)
  }

  /** The bounds tile the key space below the last high value: each key lies within exactly one of them. */
  lemma BoundsTile(highs: seq<string>, number: string -> Option<real>, numeric: bool, key: KeyText)
    requires ProperHighs(highs) && highs != [] && WellPartitioned(numeric, Parts(highs, number))
             && OneClass(numeric, key)
    ensures var last := Parts(highs, number)[|highs| - 1].high;
            Routed(Bounds(highs), key, number) <==> Unbounded(last) || Before(key, last)
  {
    var parts, bounds := Parts(highs, number), Bounds(highs);
    RoutedOnce(numeric, parts, key);
    if i :| 0 <= i < |parts| && Routes(parts, key, i) {
      BoundsRoute(highs, number, key, i);
      assert Within(key, bounds[i], number);
    }
    if i :| 0 <= i < |bounds| && Within(key, bounds[i], number) {
      BoundsRoute(highs, number, key, i);
      assert Routes(parts, key, i);
    }
  }

  lemma BoundsDisjoint(highs: seq<string>, number: string -> Option<real>, numeric: bool, key: KeyText, i: nat, j: nat)
    requires ProperHighs(highs) && WellPartitioned(numeric, Parts(highs, number)) && OneClass(numeric, key)
    requires i < |highs| && j < |highs|
    requires Within(key, Bounds(highs)[i], number) && Within(key, Bounds(highs)[j], number)
    ensures i == j
  {
    BoundsRoute(highs, number, key, i);
    BoundsRoute(highs, number, key, j);
    RoutedOnce(numeric, Parts(highs, number), key);
  }
}
