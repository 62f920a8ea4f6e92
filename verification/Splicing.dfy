/** Replacing placeholders in a list, one after the other from the back, and what that amounts to. */
module Splicing {
  import opened Collections

  /** Positions idx .. idx + cnt are to become repl. */
  datatype Edit<T> = Edit(idx: nat, cnt: nat, repl: seq<T>)

  /** The edits are in order, do not overlap, and lie between from and n. */
  predicate Fit<T>(n: nat, from: nat, edits: seq<Edit<T>>)
    decreases |edits|
  {
    if edits == [] then from <= n
    else from <= edits[0].idx && Fit(n, edits[0].idx + edits[0].cnt, edits[1..])
  }

  function Splice<T>(s: seq<T>, e: Edit<T>): seq<T>
    requires e.idx + e.cnt <= |s|
  {
    s[..e.idx] + e.repl + s[e.idx + e.cnt..]
  }

  /** All edits at once: the part of s from the given position, with each range replaced. */
  function Substitute<T>(s: seq<T>, edits: seq<Edit<T>>, from: nat): seq<T>
    requires Fit(|s|, from, edits)
    decreases |edits|
  {
    if edits == [] then s[from..]
    else
      FitFrom(|s|, from, edits);
      s[from..edits[0].idx] + edits[0].repl + Substitute(s, edits[1..], edits[0].idx + edits[0].cnt)
  }

  lemma {:induction false} FitFrom<T>(n: nat, from: nat, edits: seq<Edit<T>>)
    requires Fit(n, from, edits)
    ensures from <= n && (edits != [] ==> edits[0].idx + edits[0].cnt <= n)
    decreases |edits|
  {
    if edits != [] {
      FitFrom(n, edits[0].idx + edits[0].cnt, edits[1..]);
    }
  }

  lemma Regroup<T>(a: seq<T>, b: seq<T>, c: seq<T>, d: seq<T>)
    ensures a + b + c + d == a + (b + c + d)
  {}

  lemma SliceSplit<T>(s: seq<T>, i: nat, j: nat, k: nat)
    requires i <= j <= k <= |s|
    ensures s[i..k] == s[i..j] + s[j..k]
  {}

  lemma SubstituteFirst<T>(s: seq<T>, edits: seq<Edit<T>>, from: nat)
    requires edits != [] && Fit(|s|, from, edits)
    ensures from <= edits[0].idx <= edits[0].idx + edits[0].cnt <= |s|
            && Fit(|s|, edits[0].idx + edits[0].cnt, edits[1..])
    ensures Substitute(s, edits, from)
            == s[from..edits[0].idx] + edits[0].repl + Substitute(s, edits[1..], edits[0].idx + edits[0].cnt)
  {
    FitFrom(|s|, from, edits);
  }

  lemma Join<T>(head: seq<T>, mid: seq<T>, repl: seq<T>, tail: seq<T>, whole: seq<T>, rest: seq<T>, first: seq<T>)
    requires whole == first + repl + tail && first == head + mid && rest == mid + repl + tail
    ensures whole == head + rest
  {}

  /** Up to the first edit nothing changes. */
  lemma SubstituteFrom<T>(s: seq<T>, edits: seq<Edit<T>>, from: nat, m: nat)
    requires Fit(|s|, m, edits) && from <= m
    ensures Fit(|s|, from, edits)
    ensures m <= |s| && Substitute(s, edits, from) == s[from..m] + Substitute(s, edits, m)
  {
    FitFrom(|s|, m, edits);
    if edits == [] {
      assert s[from..] == s[from..m] + s[m..];
    } else {
      var e := edits[0];
      SubstituteFirst(s, edits, from);
      SubstituteFirst(s, edits, m);
      SliceSplit(s, from, m, e.idx);
      Join(s[from..m], s[m..e.idx], e.repl, Substitute(s, edits[1..], e.idx + e.cnt),
           Substitute(s, edits, from), Substitute(s, edits, m), s[from..e.idx]);
    }
  }

  /** Splicing in the edit before the ones already done. */
  lemma SpliceBefore<T>(s: seq<T>, edits: seq<Edit<T>>)
    requires edits != [] && Fit(|s|, 0, edits)
    ensures Fit(|s|, 0, edits[1..])
    ensures edits[0].idx + edits[0].cnt <= |Substitute(s, edits[1..], 0)|
    ensures Splice(Substitute(s, edits[1..], 0), edits[0]) == Substitute(s, edits, 0)
  {
    var e, rest := edits[0], edits[1..];
    SubstituteFrom(s, rest, 0, e.idx + e.cnt);
    var tail := Substitute(s, rest, e.idx + e.cnt);
    var done := s[0..e.idx + e.cnt] + tail;
    assert done[..e.idx] == s[0..e.idx];
    assert done[e.idx + e.cnt..] == tail;
  }

  lemma {:induction false} FitSuffix<T>(n: nat, edits: seq<Edit<T>>, i: nat)
    requires Fit(n, 0, edits) && i <= |edits|
    ensures Fit(n, 0, edits[i..])
    decreases i
  {
    if i > 0 {
      FitFrom(n, 0, edits);
      FitLower(n, 0, edits[0].idx + edits[0].cnt, edits[1..]);
      FitSuffix(n, edits[1..], i - 1);
      assert edits[1..][i - 1..] == edits[i..];
    } else {
      assert edits[0..] == edits;
    }
  }

  lemma FitLower<T>(n: nat, from: nat, m: nat, edits: seq<Edit<T>>)
    requires Fit(n, m, edits) && from <= m
    ensures Fit(n, from, edits)
  {}

  /** One step of working backwards: the i-th edit, after all later ones. */
  lemma BackStep<T>(s: seq<T>, edits: seq<Edit<T>>, i: nat)
    requires Fit(|s|, 0, edits) && i < |edits|
    ensures Fit(|s|, 0, edits[i..]) && Fit(|s|, 0, edits[i + 1..])
    ensures edits[i].idx + edits[i].cnt <= |Substitute(s, edits[i + 1..], 0)|
    ensures Splice(Substitute(s, edits[i + 1..], 0), edits[i]) == Substitute(s, edits[i..], 0)
  {
    FitSuffix(|s|, edits, i);
    assert edits[i..][1..] == edits[i + 1..];
    SpliceBefore(s, edits[i..]);
  }

  /** Working backwards through the edits, one splice each, gives the simultaneous substitution: each
      range is replaced by its own expansion and everything else keeps its place in the order. */
  method SpliceBackwards<T>(s: seq<T>, edits: seq<Edit<T>>) returns (r: seq<T>)
    requires Fit(|s|, 0, edits)
    ensures r == Substitute(s, edits, 0)
  {
    r := s;
    assert edits[|edits|..] == [];
    for i := |edits| downto 0
      invariant Fit(|s|, 0, edits[i..]) && r == Substitute(s, edits[i..], 0)
    {
      BackStep(s, edits, i);
      r := Splice(r, edits[i]);
    }
    assert edits[0..] == edits;
  }

  lemma JoinLast<T>(first: seq<T>, rest: seq<T>, repl: seq<T>, tail: seq<T>, whole: seq<T>, sub: seq<T>)
    requires whole == first + sub && sub == rest + repl + tail
    ensures whole == (first + rest) + repl + tail
  {}

  /** What the last edit leaves at the end. */
  lemma {:induction false} SubstituteLast<T>(s: seq<T>, edits: seq<Edit<T>>, from: nat) returns (front: seq<T>)
    requires edits != [] && Fit(|s|, from, edits)
    ensures var e := edits[|edits| - 1];
            e.idx + e.cnt <= |s| && Substitute(s, edits, from) == front + e.repl + s[e.idx + e.cnt..]
    decreases |edits|
  {
    SubstituteFirst(s, edits, from);
    var first := s[from..edits[0].idx];
    if |edits| == 1 {
      front := first;
    } else {
      var rest := SubstituteLast(s, edits[1..], edits[0].idx + edits[0].cnt);
      var e := edits[|edits| - 1];
      assert edits[1..][|edits| - 2] == e;
      front := first + edits[0].repl + rest;
      JoinLast(first + edits[0].repl, rest, e.repl, s[e.idx + e.cnt..], Substitute(s, edits, from),
               Substitute(s, edits[1..], edits[0].idx + edits[0].cnt));
    }
  }

  lemma {:induction false} SubstituteExtend<T>(s: seq<T>, t: seq<T>, edits: seq<Edit<T>>, from: nat)
    requires Fit(|s|, from, edits)
    ensures Fit(|s + t|, from, edits) && Substitute(s + t, edits, from) == Substitute(s, edits, from) + t
    decreases |edits|
  {
    FitFrom(|s|, from, edits);
    if edits == [] {
      assert (s + t)[from..] == s[from..] + t;
    } else {
      var e := edits[0];
      SubstituteExtend(s, t, edits[1..], e.idx + e.cnt);
      SubstituteFirst(s, edits, from);
      SubstituteFirst(s + t, edits, from);
      assert (s + t)[from..e.idx] == s[from..e.idx];
      var head, tail := s[from..e.idx] + e.repl, Substitute(s, edits[1..], e.idx + e.cnt);
      assert head + (tail + t) == (head + tail) + t;
    }
  }

  /** One more edit, of everything that was appended. */
  lemma {:induction false} FitAppend<T>(s: seq<T>, t: seq<T>, edits: seq<Edit<T>>, repl: seq<T>, from: nat)
    requires Fit(|s|, from, edits)
    ensures Fit(|s + t|, from, edits + [Edit(|s|, |t|, repl)])
    decreases |edits|
  {
    var last := Edit(|s|, |t|, repl);
    FitFrom(|s|, from, edits);
    if edits == [] {
      assert [last][1..] == [] && edits + [last] == [last];
    } else {
      assert (edits + [last])[1..] == edits[1..] + [last];
      FitAppend(s, t, edits[1..], repl, edits[0].idx + edits[0].cnt);
    }
  }

  lemma {:induction false} SubstituteAppend<T>(s: seq<T>, t: seq<T>, edits: seq<Edit<T>>, repl: seq<T>, from: nat)
    requires Fit(|s|, from, edits)
    ensures var e := Edit(|s|, |t|, repl);
            Fit(|s + t|, from, edits + [e]) && Substitute(s + t, edits + [e], from) == Substitute(s, edits, from) + repl
    decreases |edits|
  {
    FitAppend(s, t, edits, repl, from);
    FitFrom(|s|, from, edits);
    var last := Edit(|s|, |t|, repl);
    if edits == [] {
      assert [last][1..] == [] && edits + [last] == [last];
      assert Fit(|s + t|, |s| + |t|, [last][1..]);
      SubstituteFirst(s + t, [last], from);
      assert (s + t)[from..|s|] == s[from..];
      assert Substitute(s + t, [last][1..], |s| + |t|) == [];
    } else {
      var e := edits[0];
      SubstituteFirst(s, edits, from);
      SubstituteFirst(s + t, edits + [last], from);
      hide Substitute, Fit;
      SubstituteAppend(s, t, edits[1..], repl, e.idx + e.cnt);
      assert (edits + [last])[1..] == edits[1..] + [last] && (edits + [last])[0] == e;
      assert (s + t)[from..e.idx] == s[from..e.idx];
      Associate(s[from..e.idx] + e.repl, Substitute(s, edits[1..], e.idx + e.cnt), repl);
    }
  }
}
