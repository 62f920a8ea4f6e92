/** Where a resume falls short: for each gap, the exact condition under which it does no harm. */
module ResumeLimits {
  import opened Collections
  import opened JobStore
  import opened Protocol
  import opened RunInvariant
  import Keys

  // ---------- Building runs

  lemma {:induction false} ExecConcat(plan: seq<CopyTask>, w: World, a: seq<Action>, b: seq<Action>)
    requires Valid(plan, w, a) && Valid(plan, Exec(plan, w, a), b)
    ensures Valid(plan, w, a + b) && Exec(plan, w, a + b) == Exec(plan, Exec(plan, w, a), b)
    decreases |a|
  {
    if a == [] {
      assert a + b == b;
    } else {
      assert (a + b)[1..] == a[1..] + b;
      ExecConcat(plan, Apply(plan, w, a[0]), a[1..], b);
    }
  }

  /** The run leads from the one state to the other. */
  ghost predicate Leads(plan: seq<CopyTask>, w: World, run: seq<Action>, w': World) {
    Valid(plan, w, run) && Exec(plan, w, run) == w'
  }

  lemma Stay(plan: seq<CopyTask>, w: World)
    ensures Leads(plan, w, [], w)
  {}

  lemma Step(plan: seq<CopyTask>, w: World, a: Action)
    requires Enabled(plan, w, a)
    ensures Leads(plan, w, [a], Apply(plan, w, a))
  {
    var w' := Apply(plan, w, a);
    assert [a][1..] == [];
    assert Valid(plan, w', []) && Exec(plan, w', []) == w';
  }

  lemma Then(plan: seq<CopyTask>, w: World, a: seq<Action>, mid: World, b: seq<Action>, w': World)
    requires Leads(plan, w, a, mid) && Leads(plan, mid, b, w')
    ensures Leads(plan, w, a + b, w')
  {
    ExecConcat(plan, w, a, b);
  }

  lemma ThenStep(plan: seq<CopyTask>, w: World, run: seq<Action>, mid: World, a: Action)
    requires Leads(plan, w, run, mid) && Enabled(plan, mid, a)
    ensures Leads(plan, w, run + [a], Apply(plan, mid, a))
  {
    Step(plan, mid, a);
    Then(plan, w, run, mid, [a], Apply(plan, mid, a));
  }

  function NewJobs(plan: seq<CopyTask>, n: nat): seq<Job>
    requires n <= |plan|
  {
    seq(n, i requires 0 <= i < n => NewJob(plan[i].id.table, Keys.JobPartitionKey(plan[i].id)))
  }

  lemma NewJobsStored(plan: seq<CopyTask>, n: nat)
    requires n <= |plan|
    ensures Stored(plan, NewJobs(plan, n))
  {
    forall i | 0 <= i < n ensures StoredJob(plan, NewJobs(plan, n), i) {}
  }

  /** initJobs, up to the n-th job. */
  lemma {:induction false} CreateJobs(plan: seq<CopyTask>, before: Target, n: nat) returns (run: seq<Action>)
    requires n <= |plan|
    ensures Leads(plan, Init(plan, before), run, Init(plan, before).(jobs := NewJobs(plan, n)))
  {
    if n == 0 {
      run := [];
    } else {
      run := CreateJobs(plan, before, n - 1);
      var mid := Init(plan, before).(jobs := NewJobs(plan, n - 1));
      ThenStep(plan, Init(plan, before), run, mid, CreateJob);
      assert NewJobs(plan, n) == Apply(plan, mid, CreateJob).jobs;
      run := run + [CreateJob];
    }
  }

  /** The DDL phase, for the tables still to do. */
  lemma {:induction false} RunDdl(plan: seq<CopyTask>, w: World, todo: set<string>)
      returns (run: seq<Action>, w': World)
    requires w.proc.Ddl? && todo <= w.ddl.Keys
    requires forall t :: t in w.ddl ==> w.ddl[t] == if t in todo then Pending else Completed
    ensures Leads(plan, w, run, w')
    ensures w'.proc.Ddl? && w'.jobs == w.jobs && w'.ddl == (map t | t in w.ddl :: Completed)
    ensures forall r :: r in w'.target ==> r in w.target && r.table !in todo
    decreases |todo|
  {
    if todo == {} {
      run, w' := [], w;
    } else {
      var t :| t in todo;
      var w1 := Apply(plan, w, DdlStart(t));
      var w2 := Apply(plan, w1, DdlEmpty(t));
      var w3 := Apply(plan, w2, DdlDone(t));
      Step(plan, w, DdlStart(t));
      ThenStep(plan, w, [DdlStart(t)], w1, DdlEmpty(t));
      ThenStep(plan, w, [DdlStart(t)] + [DdlEmpty(t)], w2, DdlDone(t));
      var rest;
      rest, w' := RunDdl(plan, w3, todo - {t});
      Then(plan, w, [DdlStart(t)] + [DdlEmpty(t)] + [DdlDone(t)], w3, rest, w');
      run := [DdlStart(t)] + [DdlEmpty(t)] + [DdlDone(t)] + rest;
    }
  }

  /** Job j can be copied without any cleanup coming first. */
  ghost predicate Fresh(plan: seq<CopyTask>, w: World, j: nat) {
    && w.proc.Data? && j < |w.jobs| <= |plan| == |w.proc.written|
    && j in w.proc.pending && (w.proc.pending[j] ==> plan[j].id.chunk.Some?)
    && w.proc.written[j] == multiset{}
  }

  /** A worker takes job j and commits one batch. */
  lemma CopyBatch(plan: seq<CopyTask>, w: World, j: nat, b: multiset<Row>) returns (run: seq<Action>, w': World)
    requires Fresh(plan, w, j) && w.proc.active == map[] && b <= plan[j].rows
    ensures Leads(plan, w, run, w')
    ensures w' == World(w.ddl, w.jobs[j := Started(w.jobs[j])], Insert(w.target, Rel(plan[j]), b),
                        Data(w.proc.pending - {j}, map[j := Activity(Copying, 0, w.proc.pending[j])],
                          w.proc.written[j := b]))
  {
    hide Leads, Valid, Exec;
    var w1 := Apply(plan, w, Start(j));
    var w2 := Apply(plan, w1, Clean(j));
    Step(plan, w, Start(j));
    ThenStep(plan, w, [Start(j)], w1, Clean(j));
    assert w2.target == w.target;
    assert w2.proc.written[j] + b == b;
    ThenStep(plan, w, [Start(j)] + [Clean(j)], w2, Commit(j, b));
    w' := Apply(plan, w2, Commit(j, b));
    run := [Start(j)] + [Clean(j)] + [Commit(j, b)];
    assert w'.proc.active == map[j := Activity(Copying, 0, w.proc.pending[j])];
    assert w'.proc.written == w.proc.written[j := b];
  }

  /** A worker copies job j in one batch and records it as completed. */
  lemma CopyOne(plan: seq<CopyTask>, w: World, j: nat) returns (run: seq<Action>, w': World)
    requires Fresh(plan, w, j) && w.proc.active == map[]
    ensures Leads(plan, w, run, w')
    ensures w' == World(w.ddl, w.jobs[j := Done(Started(w.jobs[j]), |plan[j].rows|)],
                        Insert(w.target, Rel(plan[j]), plan[j].rows),
                        Data(w.proc.pending - {j}, map[], w.proc.written[j := plan[j].rows]))
  {
    var copy, w1 := CopyBatch(plan, w, j, plan[j].rows);
    var w2 := Apply(plan, w1, Finish(j));
    ThenStep(plan, w, copy, w1, Finish(j));
    ThenStep(plan, w, copy + [Finish(j)], w2, RecordCompleted(j));
    w' := Apply(plan, w2, RecordCompleted(j));
    assert w'.jobs == w.jobs[j := Done(Started(w.jobs[j]), |plan[j].rows|)];
    assert w'.proc.active == map[];
    run := copy + [Finish(j)] + [RecordCompleted(j)];
  }

  lemma InsertAt(target: Target, r: Relation, rows: multiset<Row>, r': Relation)
    ensures At(Insert(target, r, rows), r') == At(target, r') + (if r' == r then rows else multiset{})
  {}

  /** The first n jobs are copied, the others still fresh. */
  ghost predicate CopiedTo(plan: seq<CopyTask>, w: World, w': World, n: nat)
    requires n <= |w.jobs| <= |plan|
  {
    && w'.proc.Data? && w'.proc.active == map[] && |w'.jobs| == |w.jobs| && w'.ddl == w.ddl
    && |w'.proc.written| == |plan|
    && (forall j :: 0 <= j < n ==> w'.jobs[j].state == Completed)
    && (forall j :: n <= j < |w.jobs| ==> Fresh(plan, w', j))
    && forall r :: AddedAt(plan, w, w', r, n)
  }

  ghost predicate AddedAt(plan: seq<CopyTask>, w: World, w': World, r: Relation, n: nat)
    requires n <= |plan|
  {
    At(w'.target, r) == At(w.target, r) + Total(plan, Selected(plan), r, n)
  }

  lemma CopyNext(plan: seq<CopyTask>, w: World, mid: World, n: nat) returns (run: seq<Action>, w': World)
    requires n < |w.jobs| <= |plan| && CopiedTo(plan, w, mid, n)
    ensures Leads(plan, mid, run, w') && CopiedTo(plan, w, w', n + 1)
  {
    assert Fresh(plan, mid, n);
    run, w' := CopyOne(plan, mid, n);
    forall j | n + 1 <= j < |w.jobs| ensures Fresh(plan, w', j) {
      assert Fresh(plan, mid, j);
    }
    var next := n + 1;
    forall r ensures AddedAt(plan, w, w', r, next) {
      assert AddedAt(plan, w, mid, r, n);
      InsertAt(mid.target, Rel(plan[n]), plan[n].rows, r);
    }
  }

  /** The first n jobs, copied one after the other, add exactly the rows of their tasks. */
  lemma {:induction false} CopyFirst(plan: seq<CopyTask>, w: World, n: nat) returns (run: seq<Action>, w': World)
    requires w.proc.Data? && w.proc.active == map[] && n <= |w.jobs| <= |plan| == |w.proc.written|
    requires forall j :: 0 <= j < |w.jobs| ==> Fresh(plan, w, j)
    ensures Leads(plan, w, run, w') && CopiedTo(plan, w, w', n)
  {
    if n == 0 {
      run, w' := [], w;
    } else {
      var first, mid := CopyFirst(plan, w, n - 1);
      var last;
      last, w' := CopyNext(plan, w, mid, n - 1);
      Then(plan, w, first, mid, last, w');
      run := first + last;
    }
  }

  /** From a stopped process: resume, find nothing to reset, and copy every stored job. */
  lemma ResumeAndCopy(plan: seq<CopyTask>, w: World) returns (run: seq<Action>, w': World)
    requires w.proc.Down? && Stored(plan, w.jobs)
    requires forall i :: 0 <= i < |w.jobs| ==>
               w.jobs[i].state == Pending
               || (w.jobs[i].state == Running && plan[i].id.chunk.Some? && !Keys.IsResettable(w.jobs[i].partition))
    ensures Leads(plan, w, run, w')
    ensures |w'.jobs| == |w.jobs|
    ensures forall t :: t in w.ddl && w.ddl[t] == Completed ==> t in w'.ddl && w'.ddl[t] == Completed
    ensures forall j :: 0 <= j < |w'.jobs| ==> w'.jobs[j].state == Completed
    ensures forall r :: At(w'.target, r) == At(w.target, r) + Total(plan, Selected(plan), r, |w.jobs|)
  {
    var w1 := Apply(plan, w, Resume);
    var w2 := Apply(plan, w1, ListChunks);
    assert forall i :: 0 <= i < |w1.jobs| && w1.jobs[i].state == Retrying ==> !Keys.IsResettable(w1.jobs[i].partition);
    assert TablesToReset(w1.jobs) == {};
    var w3 := Apply(plan, w2, BeginData);
    Step(plan, w, Resume);
    ThenStep(plan, w, [Resume], w1, ListChunks);
    ThenStep(plan, w, [Resume] + [ListChunks], w2, BeginData);
    forall j | 0 <= j < |w3.jobs| ensures Fresh(plan, w3, j) {
      assert Awaiting(w3.jobs[j]);
    }
    var copy;
    copy, w' := CopyFirst(plan, w3, |w3.jobs|);
    Then(plan, w, [Resume] + [ListChunks] + [BeginData], w3, copy, w');
    run := [Resume] + [ListChunks] + [BeginData] + copy;
    forall r ensures At(w'.target, r) == At(w.target, r) + Total(plan, Selected(plan), r, |w.jobs|) {
      assert AddedAt(plan, w3, w', r, |w.jobs|);
    }
  }

  // ---------- Sub-chunks of partitions

  /** The promise of the resume protocol for a relation: in every run, once its table went through the
      DDL phase and its jobs are all completed, it holds exactly what was wanted. */
  ghost predicate AlwaysExactAt(plan: seq<CopyTask>, r: Relation) {
    forall before: Target, run: seq<Action> ::
      Valid(plan, Init(plan, before), run) ==> ExactAt(plan, Exec(plan, Init(plan, before), run), r)
  }

  ghost predicate ExactAt(plan: seq<CopyTask>, w: World, r: Relation) {
    r.table in w.ddl && w.ddl[r.table] == Completed && AllCompleted(plan, w, r) ==> At(w.target, r) == Wanted(plan, r)
  }

  /** A first run that gets through the DDL phase. */
  lemma ReachData(plan: seq<CopyTask>, before: Target) returns (run: seq<Action>, w: World)
    ensures Leads(plan, Init(plan, before), run, w)
    ensures w.proc.Data? && w.proc.active == map[] && w.jobs == NewJobs(plan, |plan|) && |w.proc.written| == |plan|
    ensures w.ddl == (map t | t in Tables(plan) :: Completed)
    ensures forall j :: 0 <= j < |plan| ==> Fresh(plan, w, j) && !w.proc.pending[j]
  {
    var w0 := Init(plan, before);
    run := CreateJobs(plan, before, |plan|);
    var w1 := w0.(jobs := NewJobs(plan, |plan|));
    ThenStep(plan, w0, run, w1, BeginDdl);
    var w2 := Apply(plan, w1, BeginDdl);
    var ddl, w3 := RunDdl(plan, w2, Tables(plan));
    Then(plan, w0, run + [BeginDdl], w2, ddl, w3);
    ThenStep(plan, w0, run + [BeginDdl] + ddl, w3, BeginData);
    w := Apply(plan, w3, BeginData);
    run := run + [BeginDdl] + ddl + [BeginData];
    forall j | 0 <= j < |plan| ensures Fresh(plan, w, j) && !w.proc.pending[j] {
      assert Awaiting(w.jobs[j]);
    }
  }

  /** The process stops after a sub-chunk has committed a batch. */
  lemma InterruptSubChunk(plan: seq<CopyTask>, before: Target, k: nat, x: Row) returns (run: seq<Action>, w: World)
    requires PlanShape(plan) && k < |plan| && IsSubChunk(plan[k]) && x in plan[k].rows
    ensures Leads(plan, Init(plan, before), run, w)
    ensures w.proc.Down? && w.ddl == (map t | t in Tables(plan) :: Completed)
    ensures Stored(plan, w.jobs) && |w.jobs| == |plan|
    ensures forall i :: 0 <= i < |plan| ==>
              w.jobs[i].state == Pending
              || (w.jobs[i].state == Running && plan[i].id.chunk.Some? && !Keys.IsResettable(w.jobs[i].partition))
    ensures At(w.target, Rel(plan[k]))[x] > 0
  {
    hide Leads, Valid, Exec, Total;
    var w0 := Init(plan, before);
    var start, w1 := ReachData(plan, before);
    var batch, w2 := CopyBatch(plan, w1, k, multiset{x});
    Then(plan, w0, start, w1, batch, w2);
    ThenStep(plan, w0, start + batch, w2, Crash);
    w := Apply(plan, w2, Crash);
    run := start + batch + [Crash];
    NewJobsStored(plan, |plan|);
    StoredUpdate(plan, w1.jobs, w.jobs);
    Keys.ResettableExactly(plan[k].id);
    assert StoredJob(plan, w.jobs, k);
    InsertAt(w1.target, Rel(plan[k]), multiset{x}, Rel(plan[k]));
  }

  /** A sub-chunk that selects a row can be interrupted after one committed batch; the retry then
      adds all its rows again, and the extra row stays. */
  lemma SubChunkRun(plan: seq<CopyTask>, before: Target, k: nat) returns (run: seq<Action>, w: World)
    requires PlanShape(plan) && k < |plan| && IsSubChunk(plan[k]) && plan[k].rows != multiset{}
    ensures Leads(plan, Init(plan, before), run, w) && !ExactAt(plan, w, Rel(plan[k]))
  {
    var x :| x in plan[k].rows;
    var first, w1 := InterruptSubChunk(plan, before, k, x);
    var again;
    again, w := ResumeAndCopy(plan, w1);
    Then(plan, Init(plan, before), first, w1, again, w);
    run := first + again;
    assert plan[k].id.table in Tables(plan);
    assert At(w.target, Rel(plan[k]))[x] > Wanted(plan, Rel(plan[k]))[x];
  }

  /** Resuming is exact for a relation in every run if and only if no sub-chunk of it selects a row. */
  lemma ExactUnlessSubChunks(plan: seq<CopyTask>, r: Relation)
    requires PlanShape(plan)
    ensures AlwaysExactAt(plan, r) <==> SafeAt(plan, r)
  {
    if SafeAt(plan, r) {
      forall before: Target, run: seq<Action> | Valid(plan, Init(plan, before), run)
        ensures ExactAt(plan, Exec(plan, Init(plan, before), run), r)
      {
        var w := Exec(plan, Init(plan, before), run);
        if r.table in w.ddl && w.ddl[r.table] == Completed && AllCompleted(plan, w, r) {
          ExactlyOnce(plan, before, run, r);
        }
      }
    } else {
      var k :| 0 <= k < |plan| && Rel(plan[k]) == r && IsSubChunk(plan[k]) && plan[k].rows != multiset{};
      var run, w := SubChunkRun(plan, map[], k);
      assert Valid(plan, Init(plan, map[]), run);
    }
  }

  // ---------- A resume does not redo the DDL phase

  ghost predicate ExactWithoutDdl(plan: seq<CopyTask>, before: Target, r: Relation) {
    forall run: seq<Action> :: Valid(plan, Init(plan, before), run) ==>
      var w := Exec(plan, Init(plan, before), run);
      AllCompleted(plan, w, r) ==> At(w.target, r) == Wanted(plan, r)
  }

  /** Run stops inside or right after initJobs, and a resume copies every stored job onto what was
      there before. */
  lemma NoDdlRun(plan: seq<CopyTask>, before: Target, n: nat) returns (run: seq<Action>, w: World)
    requires n <= |plan|
    ensures Leads(plan, Init(plan, before), run, w)
    ensures |w.jobs| == n && forall i :: 0 <= i < n ==> w.jobs[i].state == Completed
    ensures forall r :: At(w.target, r) == At(before, r) + Total(plan, Selected(plan), r, n)
  {
    var w0 := Init(plan, before);
    var create := CreateJobs(plan, before, n);
    var w1 := w0.(jobs := NewJobs(plan, n));
    ThenStep(plan, w0, create, w1, Crash);
    var w2 := Apply(plan, w1, Crash);
    NewJobsStored(plan, n);
    var again;
    again, w := ResumeAndCopy(plan, w2);
    Then(plan, w0, create + [Crash], w2, again, w);
    run := create + [Crash] + again;
  }

  /** Completed data jobs alone, without a completed DDL job, prove a relation exact if and only if the
      relation was empty before the run and no sub-chunk of it selects a row. */
  lemma ExactWithoutDdlExactly(plan: seq<CopyTask>, before: Target, r: Relation)
    requires PlanShape(plan)
    ensures ExactWithoutDdl(plan, before, r) <==> At(before, r) == multiset{} && SafeAt(plan, r)
  {
    if At(before, r) != multiset{} {
      var run, w := NoDdlRun(plan, before, |plan|);
      assert Valid(plan, Init(plan, before), run) && AllCompleted(plan, w, r);
      var x :| x in At(before, r);
      assert (At(before, r) + Wanted(plan, r))[x] > Wanted(plan, r)[x];
    } else if !SafeAt(plan, r) {
      var k :| 0 <= k < |plan| && Rel(plan[k]) == r && IsSubChunk(plan[k]) && plan[k].rows != multiset{};
      var run, w := SubChunkRun(plan, before, k);
      assert Valid(plan, Init(plan, before), run);
    } else {
      forall run: seq<Action> | Valid(plan, Init(plan, before), run)
        ensures var w := Exec(plan, Init(plan, before), run);
                AllCompleted(plan, w, r) ==> At(w.target, r) == Wanted(plan, r)
      {
        if AllCompleted(plan, Exec(plan, Init(plan, before), run), r) {
          ExactlyOnce(plan, before, run, r);
        }
      }
    }
  }

  /** A resume never notices that jobs are missing: if Run stops before the job of a task with rows
      is created, a later resume completes every stored job and leaves these rows out. */
  lemma MissingJobsRun(plan: seq<CopyTask>, i: nat) returns (run: seq<Action>, w: World)
    requires i < |plan| && plan[i].rows != multiset{}
    ensures Leads(plan, Init(plan, map[]), run, w)
    ensures forall k :: 0 <= k < |w.jobs| ==> w.jobs[k].state == Completed
    ensures At(w.target, Rel(plan[i])) != Wanted(plan, Rel(plan[i]))
  {
    run, w := NoDdlRun(plan, map[], i);
    TotalIsWhole(plan, Rel(plan[i]), i, |plan|);
  }
}
