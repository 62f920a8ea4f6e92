/** A run of CopyData, seen from the protocol: it commits a part of the task's rows batch by batch, and ends with all of
    them or breaks. */
module CopySteps {
  import opened Protocol
  import opened ResumeLimits
  import D = CopyPipeline

  /** A relation with rows added, if there are any. */
  function Added(target: Target, r: Relation, rows: multiset<Row>): Target {
    if rows == multiset{} then target else Insert(target, r, rows)
  }

  /** A worker has begun to copy job j, and nothing is committed yet. */
  ghost predicate Begun(plan: seq<CopyTask>, w: World, j: nat) {
    Working(w, j, Copying) && j < |plan| == |w.proc.written| && w.proc.written[j] == multiset{}
  }

  /** Since then these rows have been committed, and nothing else has happened. */
  function Committed(plan: seq<CopyTask>, w: World, j: nat, rows: multiset<Row>): World
    requires Begun(plan, w, j)
  {
    w.(target := Added(w.target, Rel(plan[j]), rows), proc := w.proc.(written := w.proc.written[j := rows]))
  }

  lemma NothingCommitted(plan: seq<CopyTask>, w: World, j: nat)
    requires Begun(plan, w, j)
    ensures Committed(plan, w, j, multiset{}) == w
  {
  }

  lemma AddTwice(target: Target, r: Relation, a: multiset<Row>, b: multiset<Row>)
    requires b != multiset{}
    ensures Insert(Added(target, r, a), r, b) == Added(target, r, a + b)
  {
    assert a + b != multiset{} by {
      var x :| x in b;
      assert x in a + b;
    }
    assert At(target, r) + (a + b) == (At(target, r) + a) + b;
    assert multiset{} + b == b;
  }

  lemma CommitMore(plan: seq<CopyTask>, w: World, j: nat, rows: multiset<Row>, batch: multiset<Row>)
    requires Begun(plan, w, j) && rows + batch <= plan[j].rows && batch != multiset{}
    ensures Enabled(plan, Committed(plan, w, j, rows), Commit(j, batch))
    ensures Apply(plan, Committed(plan, w, j, rows), Commit(j, batch)) == Committed(plan, w, j, rows + batch)
  {
    AddTwice(w.target, Rel(plan[j]), rows, batch);
    assert w.proc.written[j := rows][j := rows + batch] == w.proc.written[j := rows + batch];
  }

  /** What the row channel delivers are the rows of the task, in this order, unless it fails on the way. */
  ghost predicate Delivers(src: D.Source, ids: seq<Row>) { |src.rows| <= |ids| && (!src.fails ==> |src.rows| == |ids|) }

  function Ids(ids: seq<Row>, s: D.State): multiset<Row>
    requires |s.committed| <= |ids|
  {
    multiset(ids[..|s.committed|])
  }

  lemma CommittedIsShort(c: D.Config, src: D.Source, s: D.State)
    requires D.Inv(c, src, s)
    ensures |s.committed| <= |src.rows|
  {
  }

  lemma MorePart(ids: seq<Row>, m: nat, n: nat)
    requires m <= n <= |ids|
    ensures multiset(ids[..n]) == multiset(ids[..m]) + multiset(ids[m..n]) && multiset(ids[..n]) <= multiset(ids)
    ensures m < n ==> multiset(ids[m..n]) != multiset{}
  {
    assert ids[..n] == ids[..m] + ids[m..n] && ids == ids[..n] + ids[n..];
    assert |multiset(ids[m..n])| == n - m;
  }

  lemma NothingIsLost(c: D.Config, src: D.Source, s: D.State, a: D.Action)
    requires D.Enabled(c, src, s, a)
    ensures |s.committed| <= |D.Apply(c, src, s, a).committed|
  {
    hide D.TransformRow;
  }

  /** A step of the pipeline is the commit of a batch, or no step of the protocol. */
  lemma StepRefines(c: D.Config, src: D.Source, s: D.State, a: D.Action, ids: seq<Row>, plan: seq<CopyTask>, w: World,
      j: nat)
    returns (steps: seq<Action>)
    requires D.Inv(c, src, s) && D.Enabled(c, src, s, a) && Delivers(src, ids)
    requires Begun(plan, w, j) && multiset(ids) == plan[j].rows && |s.committed| <= |ids|
    ensures D.Inv(c, src, D.Apply(c, src, s, a)) && |D.Apply(c, src, s, a).committed| <= |ids|
    ensures Leads(plan, Committed(plan, w, j, Ids(ids, s)), steps,
            Committed(plan, w, j, Ids(ids, D.Apply(c, src, s, a))))
  {
    hide D.Inv, D.Apply, D.Enabled, Leads;
    var s' := D.Apply(c, src, s, a);
    D.StepKeeps(c, src, s, a);
    CommittedIsShort(c, src, s');
    NothingIsLost(c, src, s, a);
    var m, n := |s.committed|, |s'.committed|;
    MorePart(ids, m, n);
    if m == n {
      steps := [];
      Stay(plan, Committed(plan, w, j, Ids(ids, s)));
    } else {
      var batch := multiset(ids[m..n]);
      CommitMore(plan, w, j, Ids(ids, s), batch);
      Step(plan, Committed(plan, w, j, Ids(ids, s)), Commit(j, batch));
      steps := [Commit(j, batch)];
    }
  }

  /** A run of the pipeline is a run of commits. */
  lemma {:induction false} RunRefines(c: D.Config, src: D.Source, s: D.State, run: seq<D.Action>, ids: seq<Row>,
                                      plan: seq<CopyTask>, w: World, j: nat) returns (steps: seq<Action>)
    requires D.Inv(c, src, s) && D.Valid(c, src, s, run) && Delivers(src, ids)
    requires Begun(plan, w, j) && multiset(ids) == plan[j].rows && |s.committed| <= |ids|
    ensures D.Inv(c, src, D.Exec(c, src, s, run)) && |D.Exec(c, src, s, run).committed| <= |ids|
    ensures Leads(plan, Committed(plan, w, j, Ids(ids, s)), steps,
            Committed(plan, w, j, Ids(ids, D.Exec(c, src, s, run))))
    decreases |run|
  {
    if run == [] {
      steps := [];
      Stay(plan, Committed(plan, w, j, Ids(ids, s)));
    } else {
      var s' := D.Apply(c, src, s, run[0]);
      var first := StepRefines(c, src, s, run[0], ids, plan, w, j);
      var rest := RunRefines(c, src, s', run[1..], ids, plan, w, j);
      Then(plan, Committed(plan, w, j, Ids(ids, s)), first, Committed(plan, w, j, Ids(ids, s')), rest,
           Committed(plan, w, j, Ids(ids, D.Exec(c, src, s, run))));
      steps := first + rest;
    }
  }

  /** Every run of CopyData is one of the protocol: batches are committed, and when CopyData has returned, the task is
      finished if there was no error, and otherwise broken off. */
  lemma CopyRefines(c: D.Config, src: D.Source, run: seq<D.Action>, ids: seq<Row>, plan: seq<CopyTask>, w: World,
      j: nat)
    returns (steps: seq<Action>)
    requires D.Valid(c, src, D.INIT, run) && Delivers(src, ids) && Begun(plan, w, j) && multiset(ids) == plan[j].rows
    ensures var s := D.Exec(c, src, D.INIT, run);
            && |s.committed| <= |ids| && Leads(plan, w, steps, Committed(plan, w, j, Ids(ids, s)))
            && (s.reader.Returned? ==>
                  Enabled(plan, Committed(plan, w, j, Ids(ids, s)),
                    if s.reader.outcome.Copied? then Finish(j) else Break(j)))
  {
    D.InitInv(c, src);
    NothingCommitted(plan, w, j);
    steps := RunRefines(c, src, D.INIT, run, ids, plan, w, j);
    var s := D.Exec(c, src, D.INIT, run);
    if s.reader.Returned? && s.reader.outcome.Copied? {
      assert D.Justified(src, s, s.reader.outcome);
      assert ids[..|s.committed|] == ids;
    }
  }
}
