/** What changing the case of identifiers keeps, and what it leaves of an earlier change. */
module NamingLaws {
  import opened Collections
  import opened Naming

  // ---------- The text stays the same but for the case of letters

  lemma CasedFolds(word: string, naming: Convention, keywords: set<string>)
    ensures SameFolded(word, Cased(word, naming, keywords))
  {
  }

  lemma RenderedFolds(s: string, i: nat, naming: Convention, keywords: set<string>)
    requires i < |s|
    ensures SameFolded(s[i..TokenEnd(s, i)], Rendered(s, i, naming, keywords))
  {
    CasedFolds(s[i..TokenEnd(s, i)], naming, keywords);
  }

  lemma FoldedJoin(a: string, b: string, x: string, y: string)
    requires SameFolded(a, x) && SameFolded(b, y)
    ensures SameFolded(a + b, x + y)
  {
  }

  lemma {:induction false} NamedFromFolds(s: string, i: nat, naming: Convention, keywords: set<string>)
    requires i <= |s|
    ensures SameFolded(s[i..], NamedFrom(s, i, naming, keywords))
    decreases |s| - i
  {
    if i < |s| {
      var e := TokenEnd(s, i);
      RenderedFolds(s, i, naming, keywords);
      NamedFromFolds(s, e, naming, keywords);
      FoldedJoin(s[i..e], s[e..], Rendered(s, i, naming, keywords), NamedFrom(s, e, naming, keywords));
      assert s[i..] == s[i..e] + s[e..];
    }
  }

  /** The converted text has the same length and differs at most in the case of letters. */
  lemma NamedFolds(s: string, naming: Convention, keywords: set<string>)
    ensures SameFolded(s, Named(s, naming, keywords))
  {
    NamedFromFolds(s, 0, naming, keywords);
    assert s[0..] == s;
  }

  // ---------- Each token on its own

  /** The tokens of the text start where one of them ends. */
  ghost predicate StartsAt(s: string, from: nat, i: nat)
    requires from <= |s|
    decreases |s| - from
  {
    from == i || (from < |s| && StartsAt(s, TokenEnd(s, from), i))
  }

  /** The rendering of the tokens from one start to a later one. */
  ghost function NamedBetween(s: string, from: nat, i: nat, naming: Convention, keywords: set<string>): string
    requires from <= |s| && StartsAt(s, from, i)
    decreases |s| - from
  {
    if from == i then ""
    else Rendered(s, from, naming, keywords) + NamedBetween(s, TokenEnd(s, from), i, naming, keywords)
  }

  lemma {:induction false} NamedSplits(s: string, from: nat, i: nat, naming: Convention, keywords: set<string>)
    requires from <= |s| && StartsAt(s, from, i)
    ensures from <= i <= |s| && |NamedBetween(s, from, i, naming, keywords)| == i - from
    ensures NamedFrom(s, from, naming, keywords)
            == NamedBetween(s, from, i, naming, keywords) + NamedFrom(s, i, naming, keywords)
    decreases |s| - from
  {
    if from != i {
      var e := TokenEnd(s, from);
      NamedSplits(s, e, i, naming, keywords);
      Associate(Rendered(s, from, naming, keywords), NamedBetween(s, e, i, naming, keywords),
        NamedFrom(s, i, naming, keywords));
    }
  }

  lemma Behind(all: string, a: string, b: string, lo: nat)
    requires all == a + b && |a| == lo
    ensures all[lo..] == b
  {
  }

  lemma Middle(all: string, a: string, b: string, c: string, lo: nat, hi: nat)
    requires all == a + (b + c) && |a| == lo && |a| + |b| == hi
    ensures all[lo..hi] == b
  {
  }

  lemma NamedTail(s: string, i: nat, naming: Convention, keywords: set<string>)
    requires i <= |s| && StartsAt(s, 0, i) && naming != KeepOriginal
    ensures Named(s, naming, keywords)[i..] == NamedFrom(s, i, naming, keywords)
  {
    NamedSplits(s, 0, i, naming, keywords);
    Behind(Named(s, naming, keywords), NamedBetween(s, 0, i, naming, keywords), NamedFrom(s, i, naming, keywords), i);
  }

  /** Every character belongs to a token. */
  lemma {:induction false} TokenAround(s: string, from: nat, k: nat) returns (i: nat)
    requires from <= k < |s|
    ensures from <= i <= k < TokenEnd(s, i) && StartsAt(s, from, i)
    decreases |s| - from
  {
    if k < TokenEnd(s, from) {
      i := from;
    } else {
      i := TokenAround(s, TokenEnd(s, from), k);
    }
  }

  /** The character as a small letter, if it is a letter. */
  ghost predicate Small(c: char, d: char) { if 'A' <= c <= 'Z' then d as int == c as int + 32 else d == c }

  ghost predicate Capital(c: char, d: char) { if 'a' <= c <= 'z' then d as int == c as int - 32 else d == c }

  /** One of the keywords is the word in capitals. */
  ghost predicate IsKeyword(word: string, keywords: set<string>) {
    exists w :: w in keywords && |w| == |word| && forall k :: 0 <= k < |word| ==> Capital(word[k], w[k])
  }

  lemma KeywordExactly(word: string, keywords: set<string>)
    ensures ToUpper(word) in keywords <==> IsKeyword(word, keywords)
  {
    if w :| w in keywords && |w| == |word| && forall k :: 0 <= k < |word| ==> Capital(word[k], w[k]) {
      assert w == ToUpper(word);
    }
  }

  /** How the characters of a token are written: in a keyword they are capitals, in another word as the convention says,
      and in literals, quoted names, comments and everything else as they are. */
  ghost predicate WrittenAs(token: string, text: string, naming: Convention, keywords: set<string>) {
    && |text| == |token| > 0
    && forall k :: 0 <= k < |token| ==>
         if !IsIdentStart(token[0]) then text[k] == token[k]
         else if IsKeyword(token, keywords) then Capital(token[k], text[k])
         else if naming == Lowercase then Small(token[k], text[k])
         else if naming == Uppercase then Capital(token[k], text[k])
         else text[k] == token[k]
  }

  lemma RenderedIsWritten(s: string, i: nat, naming: Convention, keywords: set<string>)
    requires i < |s|
    ensures WrittenAs(s[i..TokenEnd(s, i)], Rendered(s, i, naming, keywords), naming, keywords)
  {
    KeywordExactly(s[i..TokenEnd(s, i)], keywords);
  }

  /** Each token is written as its kind and the convention say, in its own place. */
  lemma TokenIsRendered(s: string, i: nat, naming: Convention, keywords: set<string>)
    requires i < |s| && StartsAt(s, 0, i)
    ensures Named(s, KeepOriginal, keywords) == s
    ensures var e := TokenEnd(s, i);
            naming != KeepOriginal ==> WrittenAs(s[i..e], Named(s, naming, keywords)[i..e], naming, keywords)
  {
    if naming != KeepOriginal {
      RenderedInPlace(s, i, naming, keywords);
      RenderedIsWritten(s, i, naming, keywords);
    }
  }

  lemma RenderedInPlace(s: string, i: nat, naming: Convention, keywords: set<string>)
    requires i < |s| && StartsAt(s, 0, i) && naming != KeepOriginal
    ensures Named(s, naming, keywords)[i..TokenEnd(s, i)] == Rendered(s, i, naming, keywords)
  {
    NamedSplits(s, 0, i, naming, keywords);
    var e := TokenEnd(s, i);
    Middle(Named(s, naming, keywords), NamedBetween(s, 0, i, naming, keywords), Rendered(s, i, naming, keywords),
           NamedFrom(s, e, naming, keywords), i, e);
  }

  // ---------- The tokens do not depend on case

  lemma FoldedChars(s: string, t: string, k: nat)
    requires SameFolded(s, t) && k < |s|
    ensures IsIdentStart(s[k]) == IsIdentStart(t[k]) && IsIdentChar(s[k]) == IsIdentChar(t[k])
    ensures !IsIdentStart(s[k]) ==> s[k] == t[k]
    ensures !IsIdentStart(t[k]) ==> s[k] == t[k]
  {
    assert UpChar(s[k]) == UpChar(t[k]);
  }

  lemma {:induction false} LiteralEndFolds(s: string, t: string, j: nat)
    requires SameFolded(s, t) && j <= |s|
    ensures LiteralEnd(s, j) == LiteralEnd(t, j)
    decreases |s| - j
  {
    if j < |s| {
      FoldedChars(s, t, j);
      if s[j] != '\'' {
        LiteralEndFolds(s, t, j + 1);
      } else if j + 1 < |s| {
        FoldedChars(s, t, j + 1);
        LiteralEndFolds(s, t, j + 2);
      }
    }
  }

  lemma {:induction false} QuotedEndFolds(s: string, t: string, j: nat)
    requires SameFolded(s, t) && j <= |s|
    ensures QuotedEnd(s, j) == QuotedEnd(t, j)
    decreases |s| - j
  {
    if j < |s| {
      FoldedChars(s, t, j);
      QuotedEndFolds(s, t, j + 1);
    }
  }

  lemma {:induction false} LineEndFolds(s: string, t: string, j: nat)
    requires SameFolded(s, t) && j <= |s|
    ensures LineEnd(s, j) == LineEnd(t, j)
    decreases |s| - j
  {
    if j < |s| {
      FoldedChars(s, t, j);
      LineEndFolds(s, t, j + 1);
    }
  }

  lemma {:induction false} BlockCloseFolds(s: string, t: string, j: nat)
    requires SameFolded(s, t) && j <= |s|
    ensures BlockClose(s, j) == BlockClose(t, j)
    decreases |s| - j
  {
    if j + 1 < |s| {
      FoldedChars(s, t, j);
      FoldedChars(s, t, j + 1);
      BlockCloseFolds(s, t, j + 1);
    }
  }

  lemma {:induction false} WordEndFolds(s: string, t: string, j: nat)
    requires SameFolded(s, t) && j <= |s|
    ensures WordEnd(s, j) == WordEnd(t, j)
    decreases |s| - j
  {
    if j < |s| {
      FoldedChars(s, t, j);
      WordEndFolds(s, t, j + 1);
    }
  }

  lemma PairFolds(s: string, t: string, i: nat, a: char, b: char)
    requires SameFolded(s, t) && !IsIdentStart(a) && !IsIdentStart(b)
    ensures Pair(s, i, a, b) == Pair(t, i, a, b)
  {
    if i + 1 < |s| {
      FoldedChars(s, t, i);
      FoldedChars(s, t, i + 1);
    }
  }

  /** Lexing commutes with changing the case of letters. */
  lemma TokenEndFolds(s: string, t: string, i: nat)
    requires SameFolded(s, t) && i < |s|
    ensures TokenEnd(s, i) == TokenEnd(t, i)
  {
    FoldedChars(s, t, i);
    PairFolds(s, t, i, '-', '-');
    PairFolds(s, t, i, '/', '*');
    PairFolds(s, t, i, '$', '$');
    if s[i] == '\'' {
      LiteralEndFolds(s, t, i + 1);
    } else if s[i] == '"' {
      QuotedEndFolds(s, t, i + 1);
    } else if Pair(s, i, '-', '-') {
      LineEndFolds(s, t, i + 2);
    } else if Pair(s, i, '/', '*') {
      BlockCloseFolds(s, t, i + 2);
    } else if IsIdentStart(s[i]) {
      WordEndFolds(s, t, i + 1);
    }
  }

  // ---------- The last convention wins

  /** Outside of words the two texts are the same. */
  ghost predicate SameButWords(s: string, t: string, i: nat)
    requires |s| == |t| && i <= |s|
    decreases |s| - i
  {
    i < |s| ==>
      var e := TokenEnd(s, i);
      (IsIdentStart(s[i]) || s[i..e] == t[i..e]) && SameButWords(s, t, e)
  }

  lemma CasedAgain(v: string, w: string, naming: Convention, keywords: set<string>)
    requires SameFolded(v, w) && (naming == Lowercase || naming == Uppercase)
    ensures Cased(v, naming, keywords) == Cased(w, naming, keywords)
  {
    assert ToUpper(v) == ToUpper(w);
    forall k | 0 <= k < |v| ensures LowChar(v[k]) == LowChar(w[k]) {
      assert UpChar(v[k]) == UpChar(w[k]);
    }
    assert ToLower(v) == ToLower(w);
  }

  lemma RenderedAgain(s: string, t: string, i: nat, naming: Convention, keywords: set<string>)
    requires SameFolded(s, t) && i < |s| && (naming == Lowercase || naming == Uppercase)
    requires IsIdentStart(s[i]) || s[i..TokenEnd(s, i)] == t[i..TokenEnd(s, i)]
    ensures Rendered(s, i, naming, keywords) == Rendered(t, i, naming, keywords)
  {
    TokenEndFolds(s, t, i);
    FoldedChars(s, t, i);
    if IsIdentStart(s[i]) {
      CasedAgain(s[i..TokenEnd(s, i)], t[i..TokenEnd(s, i)], naming, keywords);
    }
  }

  /** Two texts that differ only in the case of words are converted to the same text. */
  lemma {:induction false} NamedAgain(s: string, t: string, i: nat, naming: Convention, keywords: set<string>)
    requires SameFolded(s, t) && i <= |s| && SameButWords(s, t, i) && (naming == Lowercase || naming == Uppercase)
    ensures NamedFrom(s, i, naming, keywords) == NamedFrom(t, i, naming, keywords)
    decreases |s| - i
  {
    if i < |s| {
      TokenEndFolds(s, t, i);
      RenderedAgain(s, t, i, naming, keywords);
      NamedAgain(s, t, TokenEnd(s, i), naming, keywords);
    }
  }

  lemma {:induction false} NamedButWords(s: string, t: string, i: nat, naming: Convention, keywords: set<string>)
    requires i <= |s| == |t| && t[i..] == NamedFrom(s, i, naming, keywords)
    ensures SameButWords(s, t, i)
    decreases |s| - i
  {
    if i < |s| {
      var e := TokenEnd(s, i);
      var token, rest := Rendered(s, i, naming, keywords), NamedFrom(s, e, naming, keywords);
      assert t[i..e] == t[i..][..e - i] == (token + rest)[..e - i] == token;
      assert t[e..] == t[i..][e - i..] == (token + rest)[e - i..] == rest;
      NamedButWords(s, t, e, naming, keywords);
    }
  }

  /** Whatever convention came first, a later conversion to lower or upper case gives the same text. */
  lemma LastConventionWins(s: string, first: Convention, last: Convention, keywords: set<string>)
    requires last == Lowercase || last == Uppercase
    ensures Named(Named(s, first, keywords), last, keywords) == Named(s, last, keywords)
  {
    if first != KeepOriginal {
      var t := Named(s, first, keywords);
      NamedFolds(s, first, keywords);
      assert t[0..] == t;
      NamedButWords(s, t, 0, first, keywords);
      NamedAgain(s, t, 0, last, keywords);
    }
  }

  // ---------- Literals and comments as they are meant

  /** No quotes but doubled ones. */
  ghost predicate PairedQuotes(s: string) {
    s == "" || (s[0] != '\'' && PairedQuotes(s[1..])) || (Pair(s, 0, '\'', '\'') && PairedQuotes(s[2..]))
  }

  /** The literal from j on ends at e. */
  ghost predicate LiteralShape(s: string, j: nat, e: nat)
    requires j <= e <= |s|
  {
    || (e == |s| && PairedQuotes(s[j..e]))
    || (j < e && s[e - 1] == '\'' && PairedQuotes(s[j..e - 1]) && (e == |s| || s[e] != '\''))
  }

  /** A literal runs to the first quote that is not doubled, or to the end of the text. */
  lemma {:induction false} LiteralIsPaired(s: string, j: nat)
    requires j <= |s|
    ensures LiteralShape(s, j, LiteralEnd(s, j))
    decreases |s| - j
  {
    if j < |s| {
      var e := LiteralEnd(s, j);
      if s[j] != '\'' {
        LiteralIsPaired(s, j + 1);
        ShapeFront(s, j, 1, e);
      } else if j + 1 < |s| && s[j + 1] == '\'' {
        LiteralIsPaired(s, j + 2);
        ShapeFront(s, j, 2, e);
      }
    }
  }

  lemma PairedFront(s: string, j: nat, n: nat, e: nat)
    requires j + n <= e <= |s| && ((n == 1 && s[j] != '\'') || (n == 2 && Pair(s, j, '\'', '\'')))
    requires PairedQuotes(s[j + n..e])
    ensures PairedQuotes(s[j..e])
  {
    assert s[j..e][n..] == s[j + n..e];
  }

  lemma ShapeFront(s: string, j: nat, n: nat, e: nat)
    requires j + n <= e <= |s| && ((n == 1 && s[j] != '\'') || (n == 2 && Pair(s, j, '\'', '\'')))
    requires LiteralShape(s, j + n, e)
    ensures LiteralShape(s, j, e)
  {
    if e == |s| && PairedQuotes(s[j + n..e]) {
      PairedFront(s, j, n, e);
    } else {
      PairedFront(s, j, n, e - 1);
    }
  }

  /** Where a token ends, by its first characters. */
  ghost predicate Delimited(s: string, i: nat, e: nat)
    requires i < e <= |s|
  {
    if s[i] == '\'' then LiteralShape(s, i + 1, e)
    else if s[i] == '"' then
      (e == |s| && '"' !in s[i + 1..]) || (i + 1 < e && s[e - 1] == '"' && '"' !in s[i + 1..e - 1])
    else if Pair(s, i, '-', '-') then (e == |s| || s[e] == '\n') && forall k :: i <= k < e ==> s[k] != '\n'
    else if Pair(s, i, '/', '*') then
      || (i + 4 <= e && ClosesAt(s, e - 2) && forall k: nat :: i + 2 <= k < e - 2 ==> !ClosesAt(s, k))
      || (e == (if i + 3 < |s| then |s| - 1 else i + 2) && forall k: nat :: i + 2 <= k ==> !ClosesAt(s, k))
    else if Pair(s, i, '$', '$') then e == i + 2
    else if IsIdentStart(s[i]) then (e == |s| || !IsIdentChar(s[e])) && forall k :: i <= k < e ==> IsIdentChar(s[k])
    else e == i + 1
  }

  /** Literals and quoted names end at their quotes, line comments at a line break, block comments at the first end of
      a comment, words before the first character that cannot be in one. */
  lemma TokenIsDelimited(s: string, i: nat)
    requires i < |s|
    ensures Delimited(s, i, TokenEnd(s, i))
  {
    if s[i] == '\'' {
      LiteralIsPaired(s, i + 1);
    }
  }

  /** The block comment at i is never closed. */
  predicate Unclosed(s: string, i: nat) { Pair(s, i, '/', '*') && i + 2 < |s| && !ClosesAt(s, BlockClose(s, i + 2)) }

  lemma UnclosedFrom(s: string, i: nat, naming: Convention, keywords: set<string>)
    requires Unclosed(s, i)
    ensures NamedFrom(s, i, naming, keywords) == s[i..|s| - 1] + Rendered(s, |s| - 1, naming, keywords)
  {
    var n := |s| - 1;
    assert TokenEnd(s, i) == BlockClose(s, i + 2) == n;
    assert TokenEnd(s, n) == |s| && NamedFrom(s, |s|, naming, keywords) == "";
    assert NamedFrom(s, n, naming, keywords) == Rendered(s, n, naming, keywords);
  }

  lemma UnclosedTail(s: string, i: nat, naming: Convention, keywords: set<string>)
    requires Unclosed(s, i) && StartsAt(s, 0, i) && naming != KeepOriginal
    ensures Named(s, naming, keywords)[i..] == s[i..|s| - 1] + Rendered(s, |s| - 1, naming, keywords)
  {
    NamedTail(s, i, naming, keywords);
    UnclosedFrom(s, i, naming, keywords);
  }

  lemma SameFront(v: string, a: string, x: string, w: string, n: nat)
    requires v == a + x && |a| == n <= |w| && a == w[..n]
    ensures v == w <==> x == w[n..]
  {
    assert w == a + w[n..];
    assert (a + x)[n..] == x;
  }

  /** A block comment that is never closed is copied up to its last character; that one is taken for a token of
      its own. So the comment stays as it is if and only if that character does. */
  lemma UnclosedCommentExactly(s: string, i: nat, naming: Convention, keywords: set<string>)
    requires Unclosed(s, i) && StartsAt(s, 0, i) && naming != KeepOriginal
    ensures Named(s, naming, keywords)[i..] == s[i..] <==> Rendered(s, |s| - 1, naming, keywords) == s[|s| - 1..]
  {
    UnclosedTail(s, i, naming, keywords);
    var n := |s| - 1;
    assert s[i..n] == s[i..][..n - i] && s[n..] == s[i..][n - i..];
    SameFront(Named(s, naming, keywords)[i..], s[i..n], Rendered(s, n, naming, keywords), s[i..], n - i);
  }
}
