/** Changing the case of identifiers in a piece of SQL: literals, quoted names and comments stay. */
module Naming {
  import opened Collections


  datatype Convention = KeepOriginal | Lowercase | Uppercase | Unknown

  // ---------- Characters and case

  predicate IsIdentStart(c: char) { 'a' <= c <= 'z' || 'A' <= c <= 'Z' || c == '_' }

  predicate IsIdentChar(c: char) { IsIdentStart(c) || '0' <= c <= '9' }

  function UpChar(c: char): char { if 'a' <= c <= 'z' then (c as int - 32) as char else c }

  function LowChar(c: char): char { if 'A' <= c <= 'Z' then (c as int + 32) as char else c }

  function ToUpper(s: string): (r: string)
    ensures |r| == |s| && forall k :: 0 <= k < |s| ==> r[k] == UpChar(s[k])
  {
    seq(|s|, k requires 0 <= k < |s| => UpChar(s[k]))
  }

  function ToLower(s: string): (r: string)
    ensures |r| == |s| && forall k :: 0 <= k < |s| ==> r[k] == LowChar(s[k])
  {
    seq(|s|, k requires 0 <= k < |s| => LowChar(s[k]))
  }

  /** Equal but for the case of letters. */
  ghost predicate SameFolded(s: string, t: string) {
    |s| == |t| && forall k :: 0 <= k < |s| ==> UpChar(s[k]) == UpChar(t[k])
  }

  // ---------- Where the tokens end

  /** The end of a literal, seen from position j inside it; doubled quotes do not end it. */
  function LiteralEnd(s: string, j: nat): (e: nat)
    requires j <= |s|
    ensures j <= e <= |s|
    ensures e < |s| ==> j < e && s[e - 1] == '\'' && s[e] != '\''
    decreases |s| - j
  {
    if j == |s| then j
    else if s[j] != '\'' then LiteralEnd(s, j + 1)
    else if j + 1 < |s| && s[j + 1] == '\'' then LiteralEnd(s, j + 2)
    else j + 1
  }

  /** The position after the next double quote, or the end of the text. */
  function QuotedEnd(s: string, j: nat): (e: nat)
    requires j <= |s|
    ensures j <= e <= |s|
    ensures (e == |s| && '"' !in s[j..]) || (j < e && s[e - 1] == '"' && '"' !in s[j..e - 1])
    decreases |s| - j
  {
    if j == |s| then j
    else if s[j] == '"' then j + 1
    else
      assert s[j..] == [s[j]] + s[j + 1..];
      var e := QuotedEnd(s, j + 1);
      assert e - 1 >= j + 1 ==> s[j..e - 1] == [s[j]] + s[j + 1..e - 1];
      e
  }

  /** The next line break, or the end of the text. */
  function LineEnd(s: string, j: nat): (e: nat)
    requires j <= |s|
    ensures j <= e <= |s| && (e < |s| ==> s[e] == '\n') && forall k :: j <= k < e ==> s[k] != '\n'
    decreases |s| - j
  {
    if j == |s| || s[j] == '\n' then j else LineEnd(s, j + 1)
  }

  predicate ClosesAt(s: string, k: nat) { k + 1 < |s| && s[k] == '*' && s[k + 1] == '/' }

  /** Where the next end of a comment begins, or the position at which the search gives up. */
  function BlockClose(s: string, j: nat): (e: nat)
    requires j <= |s|
    ensures j <= e <= |s| && forall k: nat :: j <= k < e ==> !ClosesAt(s, k)
    ensures ClosesAt(s, e) || e == (if j + 1 < |s| then |s| - 1 else j)
    decreases |s| - j
  {
    if j + 1 >= |s| || ClosesAt(s, j) then j else BlockClose(s, j + 1)
  }

  function BlockEnd(s: string, j: nat): (e: nat)
    requires j <= |s|
    ensures j <= e <= |s|
  {
    var e := BlockClose(s, j);
    if e + 1 < |s| then e + 2 else e
  }

  function WordEnd(s: string, j: nat): (e: nat)
    requires j <= |s|
    ensures j <= e <= |s| && (e < |s| ==> !IsIdentChar(s[e])) && forall k :: j <= k < e ==> IsIdentChar(s[k])
    decreases |s| - j
  {
    if j == |s| || !IsIdentChar(s[j]) then j else WordEnd(s, j + 1)
  }

  predicate Pair(s: string, i: nat, a: char, b: char) { i + 1 < |s| && s[i] == a && s[i + 1] == b }

  /** The end of the token that starts at i. */
  function TokenEnd(s: string, i: nat): (e: nat)
    requires i < |s|
    ensures i < e <= |s|
  {
    if s[i] == '\'' then LiteralEnd(s, i + 1)
    else if s[i] == '"' then QuotedEnd(s, i + 1)
    else if Pair(s, i, '-', '-') then LineEnd(s, i + 2)
    else if Pair(s, i, '/', '*') then BlockEnd(s, i + 2)
    else if Pair(s, i, '$', '$') then i + 2
    else if IsIdentStart(s[i]) then WordEnd(s, i + 1)
    else i + 1
  }

  // ---------- The specification

  /** How a word is written: keywords in capitals, other words by the convention. */
  function Cased(word: string, naming: Convention, keywords: set<string>): (r: string)
    ensures |r| == |word|
  {
    if ToUpper(word) in keywords then ToUpper(word)
    else match naming
      case Lowercase => ToLower(word)
      case Uppercase => ToUpper(word)
      case _ => word
  }

  function Rendered(s: string, i: nat, naming: Convention, keywords: set<string>): (r: string)
    requires i < |s|
    ensures |r| == TokenEnd(s, i) - i
  {
    var token := s[i..TokenEnd(s, i)];
    if IsIdentStart(s[i]) then Cased(token, naming, keywords) else token
  }

  /** The tokens from position i on, each rendered. */
  function NamedFrom(s: string, i: nat, naming: Convention, keywords: set<string>): (r: string)
    requires i <= |s|
    ensures |r| == |s| - i
    decreases |s| - i
  {
    if i == |s| then "" else Rendered(s, i, naming, keywords) + NamedFrom(s, TokenEnd(s, i), naming, keywords)
  }

  function Named(s: string, naming: Convention, keywords: set<string>): (r: string)
    ensures |r| == |s|
  {
    if naming == KeepOriginal then s else NamedFrom(s, 0, naming, keywords)
  }

  // ---------- The method

  method ScanLiteral(s: string, i: nat) returns (j: nat)
    requires i < |s|
    ensures j == LiteralEnd(s, i + 1)
  {
    j := i + 1;
    while j < |s|
      invariant i < j <= |s| && LiteralEnd(s, j) == LiteralEnd(s, i + 1)
    {
      if s[j] == '\'' {
        if j + 1 < |s| && s[j + 1] == '\'' {
          j := j + 2;
          continue;
        }
        break;
      }
      j := j + 1;
    }
    if j < |s| {
      j := j + 1;
    }
  }

  method ScanQuoted(s: string, i: nat) returns (j: nat)
    requires i < |s|
    ensures j == QuotedEnd(s, i + 1)
  {
    j := i + 1;
    while j < |s| && s[j] != '"'
      invariant i < j <= |s| && QuotedEnd(s, j) == QuotedEnd(s, i + 1)
    {
      j := j + 1;
    }
    if j < |s| {
      j := j + 1;
    }
  }

  method ScanLine(s: string, i: nat) returns (j: nat)
    requires Pair(s, i, '-', '-')
    ensures j == LineEnd(s, i + 2)
  {
    j := i;
    while j < |s| && s[j] != '\n'
      invariant i <= j <= |s| && LineEnd(s, j) == LineEnd(s, i + 2)
    {
      j := j + 1;
    }
  }

  method ScanBlock(s: string, i: nat) returns (j: nat)
    requires Pair(s, i, '/', '*')
    ensures j == BlockEnd(s, i + 2)
  {
    j := i + 2;
    while j + 1 < |s| && !(s[j] == '*' && s[j + 1] == '/')
      invariant i + 2 <= j <= |s| && BlockClose(s, j) == BlockClose(s, i + 2)
    {
      j := j + 1;
    }
    if j + 1 < |s| {
      j := j + 2;
    }
  }

  method ScanWord(s: string, i: nat) returns (j: nat)
    requires i < |s|
    ensures j == WordEnd(s, i + 1)
  {
    j := i + 1;
    while j < |s| && IsIdentChar(s[j])
      invariant i < j <= |s| && WordEnd(s, j) == WordEnd(s, i + 1)
    {
      j := j + 1;
    }
  }

  /** The token at i and its rendering. */
  method NextToken(s: string, i: nat, naming: Convention, keywords: set<string>) returns (j: nat, text: string)
    requires i < |s|
    ensures j == TokenEnd(s, i) && text == Rendered(s, i, naming, keywords)
  {
    if s[i] == '\'' {
      j := ScanLiteral(s, i);
    } else if s[i] == '"' {
      j := ScanQuoted(s, i);
    } else if i + 1 < |s| && s[i] == '-' && s[i + 1] == '-' {
      j := ScanLine(s, i);
    } else if i + 1 < |s| && s[i] == '/' && s[i + 1] == '*' {
      j := ScanBlock(s, i);
    } else if s[i] == '$' && i + 1 < |s| && s[i + 1] == '$' {
      j := i + 2;
    } else if IsIdentStart(s[i]) {
      j := ScanWord(s, i);
      var word := s[i..j];
      var upper := ToUpper(word);
      if upper in keywords {
        return j, upper;
      }
      match naming {
        case Lowercase => return j, ToLower(word);
        case Uppercase => return j, ToUpper(word);
        case _ => return j, word;
      }
    } else {
      j := i + 1;
    }
    text := s[i..j];
  }

  method ApplyNaming(s: string, naming: Convention, keywords: set<string>) returns (result: string)
    ensures result == Named(s, naming, keywords)
  {
    if naming == KeepOriginal {
      return s;
    }
    result := "";
    var i := 0;
    while i < |s|
      invariant 0 <= i <= |s|
      invariant result + NamedFrom(s, i, naming, keywords) == NamedFrom(s, 0, naming, keywords)
    {
      var j, text := NextToken(s, i, naming, keywords);
      Associate(result, text, NamedFrom(s, j, naming, keywords));
      result := result + text;
      i := j;
    }
  }
}
