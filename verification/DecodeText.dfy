/** Rewriting the first DECODE call of a text into a CASE expression, by scanning characters. */
module DecodeText {
  import opened Collections
  import opened Naming

  /** White space as the pattern's \s and as TrimSpace understand it, for ASCII text. */
  predicate IsGap(c: char) { c == ' ' || c == '\t' || c == '\n' || c == '\r' || c == 12 as char }

  predicate IsSpace(c: char) { IsGap(c) || c == 11 as char }

  // ---------- Where a call starts

  const DECODE: string := "DECODE"

  predicate IsDecodeWord(w: string) { |w| == 6 && forall k :: 0 <= k < 6 ==> UpChar(w[k]) == DECODE[k] }

  predicate Boundary(s: string, i: nat) { i == 0 || (i <= |s| && !IsIdentChar(s[i - 1])) }

  /** The position behind the parenthesis that follows the white space at k. */
  function AfterGap(s: string, k: nat): (r: Option<nat>)
    ensures r.Some? ==> k < r.value <= |s| && s[r.value - 1] == '(' && forall j :: k <= j < r.value - 1 ==> IsGap(s[j])
    decreases |s| - k
  {
    if k >= |s| then None
    else if IsGap(s[k]) then AfterGap(s, k + 1)
    else if s[k] == '(' then Some(k + 1)
    else None
  }

  /** The position behind the parenthesis when \bDECODE\s*\( matches at i. */
  function MatchEnd(s: string, i: nat): (r: Option<nat>)
    ensures r.Some? ==> i + 6 < r.value <= |s|
  {
    if i + 6 <= |s| && Boundary(s, i) && IsDecodeWord(s[i..i + 6]) then AfterGap(s, i + 6) else None
  }

  datatype Hit = Hit(start: nat, inner: nat)

  /** The leftmost match from position i on. */
  function FindDecode(s: string, i: nat): (r: Option<Hit>)
    requires i <= |s|
    ensures r.Some? ==> i <= r.value.start < r.value.inner <= |s|
    decreases |s| - i
  {
    if MatchEnd(s, i).Some? then Some(Hit(i, MatchEnd(s, i).value))
    else if i < |s| then FindDecode(s, i + 1)
    else None
  }

  lemma {:induction false} GapsOnly(s: string, k: nat, e: nat)
    requires k < e <= |s| && s[e - 1] == '(' && forall j :: k <= j < e - 1 ==> IsGap(s[j])
    ensures AfterGap(s, k) == Some(e)
    decreases e - k
  {
    if k < e - 1 {
      GapsOnly(s, k + 1, e);
    }
  }

  /** The six letters in capitals or not, behind no letter, digit or underscore, then white space and a parenthesis. */
  ghost predicate CallStarts(s: string, i: nat, e: nat) {
    && i + 6 < e <= |s| && s[e - 1] == '('
    && (forall j :: i + 6 <= j < e - 1 ==> s[j] in " \t\n\r" || s[j] == 12 as char)
    && (forall k :: 0 <= k < 6 ==> s[i + k] == "DECODE"[k] || s[i + k] == "decode"[k])
    && (i > 0 ==>
          var c := s[i - 1];
          !('a' <= c <= 'z') && !('A' <= c <= 'Z') && !('0' <= c <= '9') && c != '_')
  }

  lemma MatchExactly(s: string, i: nat, e: nat)
    ensures MatchEnd(s, i) == Some(e) <==> CallStarts(s, i, e)
  {
    var w := if i + 6 <= |s| then s[i..i + 6] else "";
    if i + 6 <= |s| {
      assert forall k :: 0 <= k < 6 ==> w[k] == s[i + k];
      assert IsDecodeWord(w) <==> forall k :: 0 <= k < 6 ==> s[i + k] == "DECODE"[k] || s[i + k] == "decode"[k];
    }
    if CallStarts(s, i, e) {
      GapsOnly(s, i + 6, e);
    }
  }

  /** It is a match, and there is none before it; if nothing is found, there is none at all. */
  lemma {:induction false} FindIsLeftmost(s: string, i: nat)
    requires i <= |s|
    ensures var r := FindDecode(s, i);
            && (r.Some? ==> MatchEnd(s, r.value.start) == Some(r.value.inner))
            && forall k: nat :: i <= k && MatchEnd(s, k).Some? ==> r.Some? && r.value.start <= k
    decreases |s| - i
  {
    if MatchEnd(s, i).None? && i < |s| {
      FindIsLeftmost(s, i + 1);
    }
  }

  // ---------- Where it ends

  /** The position of the closing quote of a literal, seen from position j inside it. */
  function LiteralClose(s: string, j: nat): (r: Option<nat>)
    requires j <= |s|
    ensures r.Some? ==> j <= r.value < |s| && s[r.value] == '\''
    decreases |s| - j
  {
    if j == |s| then None
    else if s[j] != '\'' then LiteralClose(s, j + 1)
    else if j + 1 < |s| && s[j + 1] == '\'' then LiteralClose(s, j + 2)
    else Some(j)
  }

  /** The position behind the parenthesis that closes the last of so many open ones; literals are passed over. */
  function CloseAt(s: string, i: nat, depth: nat): (r: Option<nat>)
    requires i <= |s|
    ensures r.Some? ==> i <= r.value <= |s| && (depth > 0 ==> i < r.value && s[r.value - 1] == ')')
    decreases |s| - i
  {
    if depth == 0 then Some(i)
    else if i == |s| then None
    else match s[i]
      case '(' => CloseAt(s, i + 1, depth + 1)
      case ')' => CloseAt(s, i + 1, depth - 1)
      case '\'' =>
        var close := LiteralClose(s, i + 1);
        if close.Some? then CloseAt(s, close.value + 1, depth) else None
      case _ => CloseAt(s, i + 1, depth)
  }

  method SkipLiteral(s: string, i: nat) returns (j: nat)
    requires i < |s|
    ensures i < j <= |s| && LiteralClose(s, i + 1) == if j < |s| then Some(j) else None
  {
    j := i + 1;
    while j < |s|
      invariant i < j <= |s| && LiteralClose(s, i + 1) == LiteralClose(s, j)
    {
      if s[j] == '\'' {
        if j + 1 < |s| && s[j + 1] == '\'' {
          j := j + 2;
          continue;
        }
        break;
      }
      j := j + 1;
    }
  }

  /** Counts parentheses from behind the opening one. */
  method ScanClose(s: string, start: nat) returns (i: nat, depth: nat)
    requires start <= |s|
    ensures CloseAt(s, start, 1) == if depth == 0 then Some(i) else None
  {
    i, depth := start, 1;
    while i < |s| && depth > 0
      invariant start <= i <= |s| + 1 && (depth == 0 ==> i <= |s|)
      invariant CloseAt(s, start, 1) == if i <= |s| then CloseAt(s, i, depth) else None
      decreases |s| + 1 - i
    {
      match s[i] {
        case '(' => depth := depth + 1;
        case ')' => depth := depth - 1;
        case '\'' => i := SkipLiteral(s, i);
        case _ =>
      }
      i := i + 1;
    }
  }

  // ---------- The arguments

  /** The text from start on, cut at the separators that stand at depth 0, from position i on. */
  function SplitAt(s: string, sep: char, i: nat, start: nat, depth: int): (parts: seq<string>)
    requires start <= i <= |s|
    ensures |parts| > 0
    decreases |s| - i
  {
    if i == |s| then [s[start..]]
    else if s[i] == '(' then SplitAt(s, sep, i + 1, start, depth + 1)
    else if s[i] == ')' then SplitAt(s, sep, i + 1, start, depth - 1)
    else if s[i] == sep && depth == 0 then [s[start..i]] + SplitAt(s, sep, i + 1, i + 1, 0)
    else SplitAt(s, sep, i + 1, start, depth)
  }

  function Split(s: string, sep: char): seq<string> { SplitAt(s, sep, 0, 0, 0) }

  method SplitTopLevel(s: string, sep: char) returns (parts: seq<string>)
    ensures parts == Split(s, sep)
  {
    parts := [];
    var depth := 0;
    var start := 0;
    for i := 0 to |s|
      invariant start <= i && parts + SplitAt(s, sep, i, start, depth) == Split(s, sep)
    {
      match s[i] {
        case '(' => depth := depth + 1;
        case ')' => depth := depth - 1;
        case c =>
          if c == sep && depth == 0 {
            assert parts + ([s[start..i]] + SplitAt(s, sep, i + 1, i + 1, 0))
                   == (parts + [s[start..i]]) + SplitAt(s, sep, i + 1, i + 1, 0);
            parts := parts + [s[start..i]];
            start := i + 1;
          }
      }
    }
    parts := parts + [s[start..]];
  }

  function Joined(parts: seq<string>, sep: char): string
    requires parts != []
  {
    if |parts| == 1 then parts[0] else parts[0] + [sep] + Joined(parts[1..], sep)
  }

  /** Splitting loses nothing but the separators it cuts at. */
  lemma {:induction false} SplitJoins(s: string, sep: char, i: nat, start: nat, depth: int)
    requires start <= i <= |s|
    ensures Joined(SplitAt(s, sep, i, start, depth), sep) == s[start..]
    decreases |s| - i
  {
    if i < |s| {
      if s[i] == '(' {
        SplitJoins(s, sep, i + 1, start, depth + 1);
      } else if s[i] == ')' {
        SplitJoins(s, sep, i + 1, start, depth - 1);
      } else if s[i] == sep && depth == 0 {
        SplitJoins(s, sep, i + 1, i + 1, 0);
        var rest := SplitAt(s, sep, i + 1, i + 1, 0);
        assert ([s[start..i]] + rest)[1..] == rest;
        assert s[start..] == s[start..i] + [sep] + s[i + 1..];
      } else {
        SplitJoins(s, sep, i + 1, start, depth);
      }
    }
  }

  // ---------- The replacement

  function TrimLeft(s: string): string { if s != "" && IsSpace(s[0]) then TrimLeft(s[1..]) else s }

  function TrimRight(s: string): string {
    if s != "" && IsSpace(s[|s| - 1]) then TrimRight(s[..|s| - 1]) else s
  }

  function TrimSpace(s: string): string { TrimRight(TrimLeft(s)) }

  /** The branches from argument j on. */
  function Branches(args: seq<string>, j: nat): string
    decreases |args| - j
  {
    if j + 1 < |args| then " WHEN " + TrimSpace(args[j]) + " THEN " + TrimSpace(args[j + 1]) + Branches(args, j + 2)
    else if j < |args| then " ELSE " + TrimSpace(args[j])
    else ""
  }

  function CaseText(args: seq<string>): string
    requires args != []
  {
    "CASE " + TrimSpace(args[0]) + Branches(args, 1) + " END"
  }

  method BuildCase(args: seq<string>) returns (sb: string)
    requires args != []
    ensures sb == CaseText(args)
  {
    sb := "CASE " + TrimSpace(args[0]);
    ghost var front := sb;
    var j := 1;
    while j + 1 < |args|
      invariant 1 <= j <= |args|
      invariant sb + Branches(args, j) == front + Branches(args, 1)
    {
      var more := " WHEN " + TrimSpace(args[j]) + " THEN " + TrimSpace(args[j + 1]);
      Associate(sb, more, Branches(args, j + 2));
      sb := sb + more;
      j := j + 2;
    }
    if j < |args| {
      sb := sb + (" ELSE " + TrimSpace(args[j]));
    }
    sb := sb + " END";
  }

  /** The text with the part from lo to hi replaced by the CASE form of these arguments. */
  function Replaced(s: string, lo: nat, hi: nat, args: seq<string>): string
    requires lo <= hi <= |s|
  {
    if |args| < 3 then s else s[..lo] + CaseText(args) + s[hi..]
  }

  /** The call that starts at the hit, if it is closed and has at least three arguments, becomes a CASE. */
  function ConvertAt(s: string, hit: Hit): string
    requires hit.start <= hit.inner <= |s|
  {
    var end := CloseAt(s, hit.inner, 1);
    if end.None? then s else Replaced(s, hit.start, end.value, Split(s[hit.inner..end.value - 1], ','))
  }

  /** One step: the same for the first call of the text. */
  function ConvertOnce(s: string): string {
    var hit := FindDecode(s, 0);
    if hit.None? then s else ConvertAt(s, hit.value)
  }

  method RewriteCall(s: string, loc: Hit) returns (r: string)
    requires loc.start <= loc.inner <= |s|
    ensures r == ConvertAt(s, loc)
  {
    var i, depth := ScanClose(s, loc.inner);
    if depth != 0 {
      return s;
    }
    var closePos := i - 1;
    var args := SplitTopLevel(s[loc.inner..closePos], ',');
    if |args| < 3 {
      return s;
    }
    var text := BuildCase(args);
    r := s[..loc.start] + text + s[closePos + 1..];
  }

  method ConvertDecodeOnce(s: string) returns (r: string)
    ensures r == ConvertOnce(s)
  {
    var loc := FindDecode(s, 0);
    if loc.None? {
      return s;
    }
    r := RewriteCall(s, loc.value);
  }

  function ConvertTimes(s: string, n: nat): string
    decreases n
  {
    if n == 0 then s else ConvertTimes(ConvertOnce(s), n - 1)
  }

  lemma {:induction false} ConvertStops(s: string, n: nat)
    requires ConvertOnce(s) == s
    ensures ConvertTimes(s, n) == s
  {
    if n > 0 {
      ConvertStops(s, n - 1);
    }
  }

  /** At most so many steps, and none after one that changed nothing. */
  method ConvertUpTo(text: string, n: nat) returns (s: string)
    ensures s == ConvertTimes(text, n)
  {
    s := text;
    for i := 0 to n
      invariant ConvertTimes(s, n - i) == ConvertTimes(text, n)
    {
      var prev := s;
      s := ConvertDecodeOnce(s);
      if s == prev {
        ConvertStops(s, n - i);
        break;
      }
    }
  }

  const MAX_STEPS: nat := 10

  method ConvertDecode(text: string) returns (s: string)
    ensures s == ConvertTimes(text, 10)
  {
    s := ConvertUpTo(text, MAX_STEPS);
  }
}
