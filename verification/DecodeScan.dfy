/** Balanced pieces of text: how the scanners pass over them. */
module DecodeScan {
  import opened Collections
  import opened Naming
  import opened NamingLaws
  import opened DecodeText

  // ---------- Balanced text

  predicate NoParens(t: string) { forall k :: 0 <= k < |t| ==> t[k] != '(' && t[k] != ')' }

  predicate Plain(t: string) { NoParens(t) && ',' !in t && '\'' !in t }

  /** A literal has no parentheses, and no comma where none is allowed. */
  predicate Passable(literal: string, depth: nat, commas: bool) {
    NoParens(literal) && (depth == 0 && !commas ==> ',' !in literal)
  }

  /** The depth behind the text when it starts at the given depth. There is none if the text closes a parenthesis that
      it did not open, has a comma at depth 0 though commas are not allowed there, does not close a literal, or has
      parentheses in one. */
  function Run(t: string, depth: nat, commas: bool): Option<nat>
    decreases |t|
  {
    if t == "" then Some(depth)
    else match t[0]
      case '(' => Run(t[1..], depth + 1, commas)
      case ')' => if depth == 0 then None else Run(t[1..], depth - 1, commas)
      case ',' => if depth == 0 && !commas then None else Run(t[1..], depth, commas)
      case '\'' =>
        var close := LiteralClose(t, 1);
        if close.Some? && Passable(t[..close.value + 1], depth, commas) then Run(t[close.value + 1..], depth, commas)
          else None
      case _ => Run(t[1..], depth, commas)
  }

  /** Balanced and without a comma outside of parentheses. */
  predicate Solid(t: string) { Run(t, 0, false) == Some(0) }

  /** Balanced, with commas anywhere. */
  predicate Balanced(t: string) { Run(t, 0, true) == Some(0) }

  /** No two quotes meet where the texts are joined. */
  predicate Joinable(a: string, b: string) { a == "" || b == "" || a[|a| - 1] != '\'' || b[0] != '\'' }

  /** The closing quote of a literal is the same in a longer text that does not double it. */
  lemma {:induction false} SameClose(s: string, i: nat, n: nat, j: nat)
    requires i + j <= n <= |s| && LiteralClose(s[i..n], j).Some?
    requires n < |s| && n > i ==> s[n] != '\'' || s[n - 1] != '\''
    ensures LiteralClose(s, i + j) == Some(i + LiteralClose(s[i..n], j).value)
    decreases n - i - j
  {
    var t := s[i..n];
    assert j < |t| && t[j] == s[i + j];
    if t[j] != '\'' {
      SameClose(s, i, n, j + 1);
    } else if j + 1 < |t| {
      assert t[j + 1] == s[i + j + 1];
      if t[j + 1] == '\'' {
        SameClose(s, i, n, j + 2);
      }
    }
  }

  lemma {:induction false} RunConcat(a: string, b: string, depth: nat, commas: bool)
    requires Run(a, depth, commas).Some? && Joinable(a, b)
    ensures Run(a + b, depth, commas) == Run(b, Run(a, depth, commas).value, commas)
    decreases |a|
  {
    if a == "" {
      assert a + b == b;
    } else if a[0] == '\'' {
      var n := LiteralClose(a, 1).value + 1;
      assert (a + b)[0..|a|] == a;
      SameClose(a + b, 0, |a|, 1);
      assert (a + b)[..n] == a[..n] && (a + b)[n..] == a[n..] + b;
      RunConcat(a[n..], b, depth, commas);
    } else {
      assert (a + b)[0] == a[0] && (a + b)[1..] == a[1..] + b;
      match a[0] {
        case '(' => RunConcat(a[1..], b, depth + 1, commas);
        case ')' => RunConcat(a[1..], b, depth - 1, commas);
        case _ => RunConcat(a[1..], b, depth, commas);
      }
    }
  }

  lemma {:induction false} RunShift(t: string, depth: nat, commas: bool, more: nat, inner: bool)
    requires Run(t, depth, commas).Some? && (commas ==> more > 0 || inner)
    ensures Run(t, depth + more, inner) == Some(Run(t, depth, commas).value + more)
    decreases |t|
  {
    if t != "" {
      match t[0] {
        case '(' => RunShift(t[1..], depth + 1, commas, more, inner);
        case ')' => RunShift(t[1..], depth - 1, commas, more, inner);
        case '\'' => RunShift(t[LiteralClose(t, 1).value + 1..], depth, commas, more, inner);
        case _ => RunShift(t[1..], depth, commas, more, inner);
      }
    }
  }

  lemma {:induction false} PlainIsSolid(t: string)
    requires Plain(t)
    ensures Solid(t)
  {
    if t != "" {
      assert t[0] in t && forall c :: c in t[1..] ==> c in t;
      assert NoParens(t[1..]);
      PlainIsSolid(t[1..]);
    }
  }

  /** A literal without parentheses is balanced, and solid if it has no comma either. */
  lemma LiteralRuns(body: string, commas: bool)
    requires NoParens(body) && PairedQuotes(body) && (commas || ',' !in body)
    ensures Run("'" + body + "'", 0, commas) == Some(0)
  {
    var t := "'" + body + "'";
    assert t[1..|t| - 1] == body;
    PairedCloses(t, 1);
    assert t[..|t|] == t && t[|t|..] == "";
    assert forall c :: c in t ==> c == '\'' || c in body;
  }

  lemma {:induction false} PairedCloses(t: string, j: nat)
    requires j < |t| && t[|t| - 1] == '\'' && PairedQuotes(t[j..|t| - 1])
    ensures LiteralClose(t, j) == Some(|t| - 1)
    decreases |t| - j
  {
    var body := t[j..|t| - 1];
    if body != "" {
      assert t[j] == body[0];
      if body[0] != '\'' {
        assert t[j + 1..|t| - 1] == body[1..];
        PairedCloses(t, j + 1);
      } else {
        assert t[j + 1] == body[1] && t[j + 2..|t| - 1] == body[2..];
        PairedCloses(t, j + 2);
      }
    }
  }

  lemma ParenIsSolid(x: string)
    requires Balanced(x)
    ensures Solid("(" + x + ")")
  {
    RunShift(x, 0, true, 1, false);
    RunConcat(x, ")", 1, false);
    assert ("(" + x + ")")[1..] == x + ")";
    assert ")"[1..] == "";
  }

  // ---------- The scanners on balanced text

  /** A literal leaves the depth as it is. */
  lemma PassLiteral(t: string, depth: nat, commas: bool) returns (next: nat)
    requires t != "" && t[0] == '\'' && Run(t, depth, commas).Some?
    ensures LiteralClose(t, 1).Some? && next == LiteralClose(t, 1).value + 1
    ensures Passable(t[..next], depth, commas) && Run(t[next..], depth, commas) == Run(t, depth, commas)
  {
    next := LiteralClose(t, 1).value + 1;
  }

  lemma CloseLiteral(s: string, i: nat, n: nat, depth: nat, next: nat)
    requires i < n <= |s| && s[i] == '\'' && (n < |s| ==> s[n] != '\'')
    requires LiteralClose(s[i..n], 1).Some? && next == LiteralClose(s[i..n], 1).value + 1
    ensures CloseAt(s, i, depth + 1) == CloseAt(s, i + next, depth + 1)
  {
    SameClose(s, i, n, 1);
  }

  /** One character, or one literal, is passed over. */
  lemma CloseStep(s: string, i: nat, n: nat, depth: nat) returns (m: nat, d: nat)
    requires i < n <= |s| && Run(s[i..n], depth, true).Some? && (n < |s| ==> s[n] != '\'')
    ensures i < m <= n && CloseAt(s, i, depth + 1) == CloseAt(s, m, d + 1)
    ensures Run(s[i..n], depth, true) == Run(s[m..n], d, true)
  {
    hide LiteralClose, Passable;
    var t := s[i..n];
    assert t[0] == s[i] && t[1..] == s[i + 1..n];
    m, d := i + 1, depth;
    match s[i] {
      case '(' => d := depth + 1;
      case ')' => d := depth - 1;
      case '\'' =>
        var next := PassLiteral(t, depth, true);
        CloseLiteral(s, i, n, depth, next);
        assert t[next..] == s[i + next..n];
        m := i + next;
      case _ =>
    }
  }

  /** Looking for the closing parenthesis passes over balanced text. */
  lemma {:induction false} CloseRun(s: string, i: nat, n: nat, depth: nat)
    requires i <= n <= |s| && Run(s[i..n], depth, true).Some? && (n < |s| ==> s[n] != '\'')
    ensures CloseAt(s, i, depth + 1) == CloseAt(s, n, Run(s[i..n], depth, true).value + 1)
    decreases n - i
  {
    if i < n {
      hide CloseAt, Run;
      var m, d := CloseStep(s, i, n, depth);
      CloseRun(s, m, n, d);
    }
  }

  /** Splitting passes over text without parentheses and, at depth 0, without commas. */
  lemma {:induction false} SplitPasses(s: string, i: nat, n: nat, start: nat, depth: nat)
    requires start <= i <= n <= |s| && Passable(s[i..n], depth, false)
    ensures SplitAt(s, ',', i, start, depth) == SplitAt(s, ',', n, start, depth)
    decreases n - i
  {
    if i < n {
      assert s[i..n][0] == s[i] && s[i..n][1..] == s[i + 1..n];
      assert s[i] in s[i..n] && forall c :: c in s[i + 1..n] ==> c in s[i..n];
      SplitPasses(s, i + 1, n, start, depth);
    }
  }

  lemma SplitStep(s: string, i: nat, n: nat, start: nat, depth: nat) returns (m: nat, d: nat)
    requires start <= i < n <= |s| && Run(s[i..n], depth, false).Some?
    ensures i < m <= n && Run(s[m..n], d, false) == Run(s[i..n], depth, false)
    ensures SplitAt(s, ',', i, start, depth) == SplitAt(s, ',', m, start, d)
  {
    var t := s[i..n];
    assert t[0] == s[i] && t[1..] == s[i + 1..n];
    m, d := i + 1, depth;
    match s[i] {
      case '(' => d := depth + 1;
      case ')' => d := depth - 1;
      case '\'' =>
        var next := PassLiteral(t, depth, false);
        assert t[..next] == s[i..i + next] && t[next..] == s[i + next..n];
        SplitPasses(s, i, i + next, start, depth);
        m := i + next;
      case _ =>
    }
  }

  /** Splitting does not cut inside a solid piece. */
  lemma {:induction false} SplitRun(s: string, i: nat, n: nat, start: nat, depth: nat)
    requires start <= i <= n <= |s| && Run(s[i..n], depth, false).Some?
    ensures SplitAt(s, ',', i, start, depth) == SplitAt(s, ',', n, start, Run(s[i..n], depth, false).value)
    decreases n - i
  {
    if i < n {
      hide SplitAt, Run;
      var m, d := SplitStep(s, i, n, start, depth);
      SplitRun(s, m, n, start, d);
    } else {
      assert s[i..n] == "";
    }
  }

  // ---------- Reading for the start of a call

  /** What has been read: nothing of a word, the first letters of DECODE, all of it and white space, or another word. */
  datatype State = Fresh | Letters(n: nat) | Gap | Other

  predicate AtStart(st: State) { st.Fresh? || st.Gap? }

  /** Reading one more character; there is no next state when that completes the start of a call. */
  function Next(st: State, c: char): Option<State> {
    if IsIdentChar(c) then
      if AtStart(st) then Some(if UpChar(c) == 'D' then Letters(1) else Other)
      else if st.Letters? && 0 < st.n < 6 && UpChar(c) == DECODE[st.n] then Some(Letters(st.n + 1))
      else Some(Other)
    else if IsGap(c) then Some(if st == Letters(6) || st.Gap? then Gap else Fresh)
    else if c == '(' && (st == Letters(6) || st.Gap?) then None
    else Some(Fresh)
  }

  function Quiet(t: string, st: State): Option<State>
    decreases |t|
  {
    if t == "" then Some(st)
    else
      var next := Next(st, t[0]);
      if next.Some? then Quiet(t[1..], next.value) else None
  }

  lemma {:induction false} QuietConcat(a: string, b: string, st: State)
    ensures var r := Quiet(a, st); Quiet(a + b, st) == if r.Some? then Quiet(b, r.value) else None
    decreases |a|
  {
    if a == "" {
      assert a + b == b;
    } else {
      assert (a + b)[0] == a[0] && (a + b)[1..] == a[1..] + b;
      if Next(st, a[0]).Some? {
        QuietConcat(a[1..], b, Next(st, a[0]).value);
      }
    }
  }

  /** Behind a word character a word is being read, behind any other none is. */
  lemma {:induction false} QuietAtStart(t: string, st: State)
    requires Quiet(t, st).Some? && t != ""
    ensures AtStart(Quiet(t, st).value) <==> !IsIdentChar(t[|t| - 1])
    decreases |t|
  {
    if |t| == 1 {
      assert t[1..] == "";
    } else {
      QuietAtStart(t[1..], Next(st, t[0]).value);
    }
  }

  lemma {:induction false} ReadLetters(w: string, k: nat)
    requires IsDecodeWord(w) && 0 < k <= 6
    ensures Quiet(w[k..], Letters(k)) == Some(Letters(6))
    decreases 6 - k
  {
    if k < 6 {
      assert w[k..][0] == w[k] && w[k..][1..] == w[k + 1..];
      assert IsIdentChar(w[k]) by {
        assert UpChar(w[k]) == DECODE[k];
      }
      ReadLetters(w, k + 1);
    }
  }

  lemma ReadDecode(w: string, st: State)
    requires IsDecodeWord(w) && AtStart(st)
    ensures Quiet(w, st) == Some(Letters(6))
  {
    assert UpChar(w[0]) == DECODE[0] == 'D';
    ReadLetters(w, 1);
  }

  lemma {:induction false} ReadGap(g: string, st: State)
    requires (forall k :: 0 <= k < |g| ==> IsGap(g[k])) && (st == Letters(6) || st.Gap?)
    ensures Quiet(g, st).Some? && var r := Quiet(g, st).value; r == Letters(6) || r.Gap?
    decreases |g|
  {
    if g != "" {
      ReadGap(g[1..], Gap);
    }
  }

  /** Text through which one can read quietly holds no complete start of a call. */
  lemma QuietMeansNone(s: string, n: nat, i: nat)
    requires n <= |s| && Quiet(s[..n], Fresh).Some?
    ensures MatchEnd(s, i).Some? ==> MatchEnd(s, i).value > n
  {
    if MatchEnd(s, i).Some? && MatchEnd(s, i).value <= n {
      var k := MatchEnd(s, i).value;
      var before, word, gap, after := s[..i], s[i..i + 6], s[i + 6..k - 1], s[k - 1..n];
      assert s[..n] == before + (word + (gap + after));
      QuietConcat(before, word + (gap + after), Fresh);
      var st := Quiet(before, Fresh).value;
      if i > 0 {
        QuietAtStart(before, Fresh);
      }
      QuietConcat(word, gap + after, st);
      ReadDecode(word, st);
      QuietConcat(gap, after, Letters(6));
      ReadGap(gap, Letters(6));
      assert false;
    }
  }

  lemma NothingFound(s: string)
    requires Quiet(s, Fresh).Some?
    ensures FindDecode(s, 0).None?
  {
    assert s[..|s|] == s;
    FindIsLeftmost(s, 0);
    if FindDecode(s, 0).Some? {
      QuietMeansNone(s, |s|, FindDecode(s, 0).value.start);
    }
  }

  /** The text is the given prefix, the word, white space, a parenthesis and the rest. */
  ghost predicate CallAt(s: string, pre: string, word: string, gap: string, rest: string) {
    && s == pre + (word + (gap + ("(" + rest)))
    && Quiet(pre, Fresh).Some? && AtStart(Quiet(pre, Fresh).value)
    && IsDecodeWord(word) && forall k :: 0 <= k < |gap| ==> IsGap(gap[k])
  }

  lemma CallMatches(s: string, pre: string, word: string, gap: string, rest: string)
    requires CallAt(s, pre, word, gap, rest)
    ensures Boundary(s, |pre|) && s[|pre|..|pre| + 6] == word && s[|pre| + 6 + |gap|] == '('
    ensures MatchEnd(s, |pre|) == Some(|pre| + 6 + |gap| + 1) && IsDecodeWord(word)
  {
    var start, open := |pre|, |pre| + 6 + |gap|;
    if pre != "" {
      QuietAtStart(pre, Fresh);
      assert s[start - 1] == pre[|pre| - 1];
    }
    assert s[start..start + 6] == word;
    assert forall j :: start + 6 <= j < open ==> s[j] == gap[j - start - 6];
    GapEnds(s, start + 6, open);
  }

  lemma QuietBefore(s: string, pre: string, word: string, gap: string, rest: string)
    requires CallAt(s, pre, word, gap, rest)
    ensures Quiet(s[..|pre| + 6 + |gap|], Fresh).Some?
  {
    assert s[..|pre| + 6 + |gap|] == pre + (word + gap);
    QuietConcat(pre, word + gap, Fresh);
    QuietConcat(word, gap, Quiet(pre, Fresh).value);
    ReadDecode(word, Quiet(pre, Fresh).value);
    ReadGap(gap, Letters(6));
  }

  /** The first call of a text is found. */
  lemma CallFound(s: string, pre: string, word: string, gap: string, rest: string)
    requires CallAt(s, pre, word, gap, rest)
    ensures FindDecode(s, 0) == Some(Hit(|pre|, |pre| + 6 + |gap| + 1))
  {
    hide CallAt, MatchEnd, FindDecode, Quiet, IsDecodeWord, Boundary;
    CallMatches(s, pre, word, gap, rest);
    QuietBefore(s, pre, word, gap, rest);
    FindIsLeftmost(s, 0);
    var hit := FindDecode(s, 0);
    if hit.Some? && hit.value.start < |pre| {
      QuietMeansNone(s, |pre| + 6 + |gap|, hit.value.start);
      NoOverlap(s, |pre|, |pre| + 6 + |gap|, hit.value.start);
    }
  }

  lemma {:induction false} GapEnds(s: string, k: nat, open: nat)
    requires k <= open < |s| && s[open] == '(' && forall j :: k <= j < open ==> IsGap(s[j])
    ensures AfterGap(s, k) == Some(open + 1)
    decreases open - k
  {
    if k < open {
      GapEnds(s, k + 1, open);
    }
  }

  lemma WordChars(s: string, i: nat)
    requires i + 6 <= |s| && IsDecodeWord(s[i..i + 6])
    ensures forall k :: i <= k < i + 6 ==> IsIdentChar(s[k])
  {
    var word := s[i..i + 6];
    forall k | i <= k < i + 6 ensures IsIdentChar(s[k]) {
      assert s[k] == word[k - i] && UpChar(word[k - i]) == DECODE[k - i];
    }
  }

  /** An earlier match cannot reach the parenthesis of a later one. */
  lemma NoOverlap(s: string, start: nat, open: nat, i: nat)
    requires start + 6 <= open < |s| && s[open] == '(' && Boundary(s, start) && IsDecodeWord(s[start..start + 6])
    requires i < start && MatchEnd(s, i).Some?
    ensures MatchEnd(s, i).value <= open
  {
    if MatchEnd(s, i).value > open {
      var k := MatchEnd(s, i).value;
      assert UpChar(s[start..start + 6][0]) == 'D';
      assert s[start] == s[start..start + 6][0];
      if i + 6 <= start {
        assert false;
      } else {
        WordChars(s, i);
        assert false;
      }
    }
  }
}
