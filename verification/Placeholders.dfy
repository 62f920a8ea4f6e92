/** Resolving the placeholders of a plan in two phases, where the second phase uses positions that
    were recorded before the first. */
module Placeholders {
  import opened Collections
  import opened Splicing

  /** The tasks planned for one table, and what the first and the second phase put in their place. */
  datatype Segment<T> = Segment(tasks: seq<T>, first: Option<seq<T>>, second: Option<seq<T>>)

  /** The first phase never shrinks a segment; the second replaces a single placeholder; no segment
      takes part in both. */
  predicate Proper<T>(g: Segment<T>) {
    && (g.first.Some? ==> |g.first.value| >= |g.tasks| && g.second.None?)
    && (g.second.Some? ==> |g.tasks| == 1)
  }

  ghost predicate AllProper<T>(segs: seq<Segment<T>>) { forall g :: g in segs ==> Proper(g) }

  function Grown<T>(g: Segment<T>): seq<T> { if g.first.Some? then g.first.value else g.tasks }

  function Final<T>(g: Segment<T>): seq<T> { if g.second.Some? then g.second.value else Grown(g) }

  function Tasks<T>(segs: seq<Segment<T>>): seq<T> {
    if segs == [] then [] else Tasks(segs[..|segs| - 1]) + segs[|segs| - 1].tasks
  }

  function AfterFirst<T>(segs: seq<Segment<T>>): seq<T> {
    if segs == [] then [] else AfterFirst(segs[..|segs| - 1]) + Grown(segs[|segs| - 1])
  }

  /** What is intended: each segment replaced by its own expansion. */
  function Ideal<T>(segs: seq<Segment<T>>): seq<T> {
    if segs == [] then [] else Ideal(segs[..|segs| - 1]) + Final(segs[|segs| - 1])
  }

  function FirstEdits<T>(segs: seq<Segment<T>>): seq<Edit<T>> {
    if segs == [] then []
    else
      var before, g := segs[..|segs| - 1], segs[|segs| - 1];
      FirstEdits(before) + (if g.first.Some? then [Edit(|Tasks(before)|, |g.tasks|, g.first.value)] else [])
  }

  /** The positions are those in the list before the first phase. */
  function SecondEdits<T>(segs: seq<Segment<T>>): seq<Edit<T>> {
    if segs == [] then []
    else
      var before, g := segs[..|segs| - 1], segs[|segs| - 1];
      SecondEdits(before) + (if g.second.Some? then [Edit(|Tasks(before)|, |g.tasks|, g.second.value)] else [])
  }

  lemma {:induction false} FirstPhase<T>(segs: seq<Segment<T>>)
    ensures Fit(|Tasks(segs)|, 0, FirstEdits(segs))
    ensures Substitute(Tasks(segs), FirstEdits(segs), 0) == AfterFirst(segs)
  {
    if segs != [] {
      var before, g := segs[..|segs| - 1], segs[|segs| - 1];
      FirstPhase(before);
      if g.first.Some? {
        SubstituteAppend(Tasks(before), g.tasks, FirstEdits(before), g.first.value, 0);
      } else {
        SubstituteExtend(Tasks(before), g.tasks, FirstEdits(before), 0);
        assert FirstEdits(segs) == FirstEdits(before);
      }
    }
  }

  lemma {:induction false} FirstGrows<T>(segs: seq<Segment<T>>)
    requires AllProper(segs)
    ensures |Tasks(segs)| <= |AfterFirst(segs)|
    ensures |Tasks(segs)| == |AfterFirst(segs)| <==> forall i :: 0 <= i < |segs| ==> !Grows(segs[i])
  {
    if segs != [] {
      var before, g := segs[..|segs| - 1], segs[|segs| - 1];
      assert AllProper(before) by {
        assert forall x :: x in before ==> x in segs;
      }
      assert g in segs && Proper(g);
      FirstGrows(before);
      assert forall i :: 0 <= i < |before| ==> before[i] == segs[i];
    }
  }

  predicate Grows<T>(g: Segment<T>) { g.first.Some? && |g.first.value| > |g.tasks| }

  lemma {:induction false} SecondFits<T>(segs: seq<Segment<T>>)
    requires AllProper(segs)
    ensures Fit(|Tasks(segs)|, 0, SecondEdits(segs)) && Fit(|AfterFirst(segs)|, 0, SecondEdits(segs))
  {
    FirstGrows(segs);
    SecondFitsTasks(segs);
    FitMore(|Tasks(segs)|, |AfterFirst(segs)|, 0, SecondEdits(segs));
  }

  lemma {:induction false} SecondFitsTasks<T>(segs: seq<Segment<T>>)
    ensures Fit(|Tasks(segs)|, 0, SecondEdits(segs))
  {
    if segs != [] {
      var before, g := segs[..|segs| - 1], segs[|segs| - 1];
      SecondFitsTasks(before);
      if g.second.Some? {
        SubstituteAppend(Tasks(before), g.tasks, SecondEdits(before), g.second.value, 0);
      } else {
        FitMore(|Tasks(before)|, |Tasks(segs)|, 0, SecondEdits(before));
        assert SecondEdits(segs) == SecondEdits(before);
      }
    }
  }

  lemma {:induction false} FitMore<T>(n: nat, m: nat, from: nat, edits: seq<Edit<T>>)
    requires Fit(n, from, edits) && n <= m
    ensures Fit(m, from, edits)
    decreases |edits|
  {
    if edits != [] {
      FitMore(n, m, edits[0].idx + edits[0].cnt, edits[1..]);
    }
  }

  /** What the two phases leave behind. */
  function Outcome<T>(segs: seq<Segment<T>>): seq<T>
    requires Fit(|AfterFirst(segs)|, 0, SecondEdits(segs))
  {
    Substitute(AfterFirst(segs), SecondEdits(segs), 0)
  }

  /** No segment that grows in the first phase comes before one of the second phase. */
  ghost predicate InStep<T>(segs: seq<Segment<T>>) {
    forall i, j :: 0 <= i < j < |segs| && Grows(segs[i]) ==> segs[j].second.None?
  }

  lemma {:induction false} NoGrowthBefore<T>(segs: seq<Segment<T>>)
    requires segs != [] && AllProper(segs) && InStep(segs) && segs[|segs| - 1].second.Some?
    ensures |Tasks(segs[..|segs| - 1])| == |AfterFirst(segs[..|segs| - 1])|
  {
    var before := segs[..|segs| - 1];
    assert forall x :: x in before ==> x in segs;
    forall i | 0 <= i < |before| ensures !Grows(before[i]) {
      assert before[i] == segs[i];
    }
    FirstGrows(before);
  }

  /** In step, the stale positions are still right, and every segment gets its own expansion. */
  lemma {:induction false} InStepIsIdeal<T>(segs: seq<Segment<T>>)
    requires AllProper(segs) && InStep(segs)
    ensures Fit(|AfterFirst(segs)|, 0, SecondEdits(segs)) && Outcome(segs) == Ideal(segs)
  {
    SecondFits(segs);
    if segs != [] {
      var before, g := segs[..|segs| - 1], segs[|segs| - 1];
      assert forall x :: x in before ==> x in segs;
      assert g in segs && Proper(g);
      InStepIsIdeal(before);
      if g.second.Some? {
        NoGrowthBefore(segs);
        SubstituteAppend(AfterFirst(before), g.tasks, SecondEdits(before), g.second.value, 0);
      } else {
        SubstituteExtend(AfterFirst(before), Grown(g), SecondEdits(before), 0);
        assert SecondEdits(segs) == SecondEdits(before);
      }
    }
  }

  /** Out of step, some placeholder survives beside its own expansion. */
  lemma {:induction false} OutOfStepDoubles<T>(segs: seq<Segment<T>>) returns (j: nat)
    requires AllProper(segs) && !InStep(segs)
    ensures Fit(|AfterFirst(segs)|, 0, SecondEdits(segs))
    ensures j < |segs| && segs[j].second.Some?
    ensures forall p: T -> bool :: Count(Outcome(segs), p) >= Count(segs[j].tasks, p) + Count(segs[j].second.value, p)
  {
    hide AfterFirst, SecondEdits, Tasks, Outcome;
    SecondFits(segs);
    var i0, j0 :| 0 <= i0 < j0 < |segs| && Grows(segs[i0]) && segs[j0].second.Some?;
    var before, g := segs[..|segs| - 1], segs[|segs| - 1];
    assert forall x :: x in before ==> x in segs;
    assert g in segs && Proper(g);
    if g.second.Some? {
      j := |segs| - 1;
      FirstGrows(before);
      assert before[i0] == segs[i0];
      LastDoubles(before, g, segs);
    } else {
      assert before[i0] == segs[i0] && before[j0] == segs[j0];
      j := OutOfStepDoubles(before);
      LastAppends(before, g, segs);
      assert before[j] == segs[j];
      forall p: T -> bool ensures Count(Outcome(segs), p) >= Count(segs[j].tasks, p) + Count(segs[j].second.value, p) {
        CountConcat(Outcome(before), Grown(g), p);
      }
    }
  }

  lemma LastAppends<T>(before: seq<Segment<T>>, g: Segment<T>, segs: seq<Segment<T>>)
    requires segs != [] && before == segs[..|segs| - 1] && g == segs[|segs| - 1] && g.second.None?
    requires Fit(|AfterFirst(before)|, 0, SecondEdits(before)) && Fit(|AfterFirst(segs)|, 0, SecondEdits(segs))
    ensures Outcome(segs) == Outcome(before) + Grown(g)
  {
    SubstituteExtend(AfterFirst(before), Grown(g), SecondEdits(before), 0);
    assert SecondEdits(segs) == SecondEdits(before);
  }

  lemma LastDoubles<T>(before: seq<Segment<T>>, g: Segment<T>, segs: seq<Segment<T>>)
    requires segs == before + [g] && g.second.Some? && |g.tasks| == 1 && g.first.None?
    requires |Tasks(before)| < |AfterFirst(before)| && Fit(|AfterFirst(segs)|, 0, SecondEdits(segs))
    ensures forall p: T -> bool :: Count(Outcome(segs), p) >= Count(g.tasks, p) + Count(g.second.value, p)
  {
    assert segs[..|segs| - 1] == before;
    var list, edits := AfterFirst(segs), SecondEdits(segs);
    var e := Edit(|Tasks(before)|, 1, g.second.value);
    assert edits == SecondEdits(before) + [e] && edits[|edits| - 1] == e;
    var front := SubstituteLast(list, edits, 0);
    var rest := AfterFirst(before)[e.idx + 1..];
    assert list[e.idx + e.cnt..] == rest + g.tasks;
    forall p: T -> bool ensures Count(Outcome(segs), p) >= Count(g.tasks, p) + Count(g.second.value, p) {
      CountConcat(front + e.repl, rest + g.tasks, p);
      CountConcat(front, e.repl, p);
      CountConcat(rest, g.tasks, p);
    }
  }
}
