/** What a worker does for one data job: it marks the job, clears what an earlier attempt has left, copies the task's
    rows with retries, and records the result. The ghost results show that each of its writes is a step of the
    protocol. */
module DataWorker {
  import opened JobStore
  import opened Protocol
  import opened RunInvariant
  import opened ResumeLimits
  import opened CopySteps
  import opened Resume
  import D = CopyPipeline

  /** How one attempt goes: what the source delivers, whether there is a connection, and whether the program is found
      cancelled when the attempt has failed. */
  datatype Attempt = Attempt(src: D.Source, acquired: nat -> bool, stopped: nat -> bool, configured: bool,
      cancelled: bool)

  method Cleanup(db: Database, task: CopyTask)
    modifies db
    ensures db.relations == Cleaned(task, old(db.relations))
  {
    if task.id.chunk.Some? {
      return;
    }
    if task.id.part.Some? {
      db.TruncateRelation(Rel(task));
    } else {
      db.TruncateTable(task.id.table);
    }
  }

  /** The machine has followed the worker from w to here. */
  ghost predicate Followed(plan: seq<CopyTask>, w: World, run: seq<Action>, w': World, jobs: seq<Job>, target: Target) {
    Leads(plan, w, run, w') && w'.jobs == jobs && w'.target == target
  }

  /** The worker is in this stage with job j, and all the other jobs are as they were. */
  ghost predicate Busy(plan: seq<CopyTask>, w: World, w': World, j: nat, stage: Stage, tries: nat) {
    && w.proc.Data? && j < |w.jobs| && j < |plan| && j in w.proc.pending
    && w'.ddl == w.ddl && w'.jobs == w.jobs[j := Started(w.jobs[j])]
    && w'.proc.Data? && |w'.proc.written| == |plan|
    && w'.proc.active == w.proc.active[j := Activity(stage, tries, w.proc.pending[j])]
    && w'.proc.pending == w.proc.pending - {j}
  }

  /** The start of a job, and the cleanup if it is a retry. */
  method Begin(store: Store, db: Database, task: CopyTask, j: nat, retry: bool, ghost plan: seq<CopyTask>,
      ghost w: World)
    returns (ghost run: seq<Action>, ghost w': World)
    requires w.jobs == store.jobs && w.target == db.relations && Enabled(plan, w, Start(j))
    requires w.proc.pending[j] == retry && j < |plan| == |w.proc.written| && plan[j] == task
    requires w.proc.written[j] == multiset{}
    modifies store, db
    ensures Followed(plan, w, run, w', store.jobs, db.relations) && Busy(plan, w, w', j, Copying, 0)
            && Begun(plan, w', j)
  {
    ghost var mid := Apply(plan, w, Start(j));
    Step(plan, w, Start(j));
    store.SetRunning(j);
    if retry {
      Cleanup(db, task);
    }
    ThenStep(plan, w, [Start(j)], mid, Clean(j));
    run, w' := [Start(j)] + [Clean(j)], Apply(plan, mid, Clean(j));
  }

  /** One attempt at the copy. */
  method Copy(db: Database, task: CopyTask, ids: seq<Row>, j: nat, c: D.Config, attempt: Attempt, tries: nat,
              ghost plan: seq<CopyTask>, ghost w: World, ghost run: seq<Action>, ghost mid: World)
    returns (outcome: D.Outcome, ghost run': seq<Action>, ghost w': World)
    requires Followed(plan, w, run, mid, mid.jobs, db.relations)
    requires Busy(plan, w, mid, j, Copying, tries) && Begun(plan, mid, j)
    requires j < |plan| && plan[j] == task && multiset(ids) == task.rows && Delivers(attempt.src, ids)
    modifies db
    ensures Followed(plan, w, run', w', mid.jobs, db.relations) && Explains(attempt, c, outcome)
    ensures Busy(plan, w, w', j, if outcome.Copied? then Copied else Broken, tries)
    ensures outcome.Copied? ==> w'.proc.written[j] == task.rows && outcome.rows == |task.rows|
  {
    hide Leads, D.Inv, D.Exec, D.Valid, D.Arrived, D.Failures, D.Connects;
    var s;
    ghost var copying;
    outcome, s, copying := D.CopyData(c, attempt.src, attempt.acquired, attempt.stopped, attempt.configured);
    ghost var steps := CopyRefines(c, attempt.src, copying, ids, plan, mid, j);
    ghost var done := Committed(plan, mid, j, Ids(ids, s));
    if |s.committed| > 0 {
      db.Insert(Rel(task), multiset(ids[..|s.committed|]));
    }
    MorePart(ids, 0, |s.committed|);
    assert ids[..0] == [] && ids[0..|s.committed|] == ids[..|s.committed|];
    Then(plan, w, run, mid, steps, done);
    ghost var last := if outcome.Copied? then Finish(j) else Break(j);
    ThenStep(plan, w, run + steps, done, last);
    run', w' := run + steps + [last], Apply(plan, done, last);
  }

  /** Clears the task's relation for the next attempt. */
  method Again(db: Database, task: CopyTask, j: nat, tries: nat,
               ghost plan: seq<CopyTask>, ghost w: World, ghost run: seq<Action>, ghost mid: World)
    returns (ghost run': seq<Action>, ghost w': World)
    requires Followed(plan, w, run, mid, mid.jobs, db.relations) && Busy(plan, w, mid, j, Broken, tries)
    requires j < |plan| && plan[j] == task && task.id.chunk.None? && tries < MAX_PIPELINE_RETRIES
    modifies db
    ensures Followed(plan, w, run', w', mid.jobs, db.relations)
    ensures Busy(plan, w, w', j, Copying, tries + 1) && Begun(plan, w', j)
  {
    ThenStep(plan, w, run, mid, Retry(j));
    Cleanup(db, task);
    run', w' := run + [Retry(j)], Apply(plan, mid, Retry(j));
  }

  /** Records the result, unless the write is lost because the program has been cancelled. */
  method Record(store: Store, db: Database, task: CopyTask, j: nat, outcome: D.Outcome, lost: bool, ghost tries: nat,
                ghost plan: seq<CopyTask>, ghost w: World, ghost run: seq<Action>, ghost mid: World)
    returns (ghost run': seq<Action>, ghost w': World)
    requires Followed(plan, w, run, mid, store.jobs, db.relations)
    requires Busy(plan, w, mid, j, if outcome.Copied? then Copied else Broken, tries) && j < |plan|
    requires plan[j] == task && j !in w.proc.active && (outcome.Copied? ==> outcome.rows == |task.rows|)
    modifies store
    ensures Followed(plan, w, run', w', store.jobs, db.relations)
    ensures w'.proc.Data? && w'.proc.pending == w.proc.pending - {j} && w'.proc.active == w.proc.active
    ensures w'.proc.written == mid.proc.written && RowIs(w.jobs, store.jobs, task, j, outcome.Copied?, lost)
  {
    if lost {
      ThenStep(plan, w, run, mid, Abandon(j));
      run', w' := run + [Abandon(j)], Apply(plan, mid, Abandon(j));
    } else if outcome.Copied? {
      ThenStep(plan, w, run, mid, RecordCompleted(j));
      store.SetCompleted(j, outcome.rows);
      run', w' := run + [RecordCompleted(j)], Apply(plan, mid, RecordCompleted(j));
    } else {
      ThenStep(plan, w, run, mid, RecordFailed(j));
      store.SetFailed(j);
      run', w' := run + [RecordFailed(j)], Apply(plan, mid, RecordFailed(j));
    }
  }

  /** What becomes of the job's row: it counts one more attempt and tells how the job ended, with the number of rows,
      or is left as running if the last write is lost. Nothing happens to other rows. */
  ghost predicate RowIs(was: seq<Job>, jobs: seq<Job>, task: CopyTask, j: nat, ok: bool, lost: bool) {
    && j < |was| == |jobs|
    && (forall i :: 0 <= i < |was| && i != j ==> jobs[i] == was[i])
    && jobs[j].table == was[j].table && jobs[j].partition == was[j].partition
    && jobs[j].attempt == was[j].attempt + 1
    && (lost ==> jobs[j].state == JobState.Running && jobs[j].rowsCopied == was[j].rowsCopied)
    && (!lost && ok ==> jobs[j].state == Completed && jobs[j].rowsCopied == |task.rows|)
    && (!lost && !ok ==> jobs[j].state == JobState.Failed && jobs[j].rowsCopied == was[j].rowsCopied)
  }

  /** The outcome of an attempt is due to the attempt itself. */
  ghost predicate Explains(attempt: Attempt, c: D.Config, outcome: D.Outcome) {
    && (outcome.NotConnected? <==> !D.Connects(c, attempt.acquired, attempt.stopped, attempt.configured))
    && (outcome.Copied? ==> !attempt.src.fails && outcome.rows == |attempt.src.rows|)
    && (outcome == D.Error(D.SourceFailed) ==> attempt.src.fails)
  }

  /** How many attempts a task gets at most. */
  function Allowed(task: CopyTask): nat { if task.id.chunk.Some? then 1 else 4 }

  /** Attempts are made until one succeeds, the program is found cancelled, or all that are allowed have failed. */
  ghost predicate Tried(task: CopyTask, c: D.Config, attempts: nat -> Attempt, outcomes: seq<D.Outcome>) {
    && 0 < |outcomes| <= Allowed(task)
    && (forall k :: 0 <= k < |outcomes| ==> Explains(attempts(k), c, outcomes[k]))
    && (forall k :: 0 <= k < |outcomes| - 1 ==> !outcomes[k].Copied? && !attempts(k).cancelled)
    && (outcomes[|outcomes| - 1].Copied? || attempts(|outcomes| - 1).cancelled || |outcomes| == Allowed(task))
  }

  lemma Untouched(plan: seq<CopyTask>, before: Target, w: World, j: nat)
    requires Inv(plan, before, w) && Enabled(plan, w, Start(j))
    ensures j < |plan| == |w.proc.written| && w.proc.written[j] == multiset{} && j !in w.proc.active
  {
    assert JobOk(plan, w, j);
  }

  /** Up to four attempts, or one for a chunk; none after the program has been cancelled. */
  method CopyWithRetries(db: Database, task: CopyTask, ids: seq<Row>, j: nat, c: D.Config, attempts: nat -> Attempt,
                         ghost plan: seq<CopyTask>, ghost w: World, ghost run: seq<Action>, ghost mid: World)
    returns (outcomes: seq<D.Outcome>, ghost run': seq<Action>, ghost w': World)
    requires Followed(plan, w, run, mid, mid.jobs, db.relations)
    requires Busy(plan, w, mid, j, Copying, 0) && Begun(plan, mid, j)
    requires j < |plan| && plan[j] == task && multiset(ids) == task.rows
    requires forall k: nat :: Delivers(attempts(k).src, ids)
    modifies db
    ensures Followed(plan, w, run', w', mid.jobs, db.relations)
    ensures Tried(task, c, attempts, outcomes)
    ensures var last := outcomes[|outcomes| - 1];
            && Busy(plan, w, w', j, if last.Copied? then Copied else Broken, |outcomes| - 1)
            && (last.Copied? ==> w'.proc.written[j] == task.rows && last.rows == |task.rows|)
  {
    hide Followed, Begun, Delivers, Explains;
    var maxRetries := if task.id.chunk.Some? then 0 else MAX_PIPELINE_RETRIES;
    var tries := 0;
    var outcome;
    outcome, run', w' := Copy(db, task, ids, j, c, attempts(0), 0, plan, w, run, mid);
    SameJobs(plan, w, run', w', mid.jobs, db.relations);
    outcomes := [outcome];
    while !outcome.Copied? && tries < maxRetries && !attempts(tries).cancelled
      invariant tries <= maxRetries && w'.jobs == mid.jobs
      invariant |outcomes| == tries + 1 && outcomes[tries] == outcome
      invariant forall k :: 0 <= k <= tries ==> Explains(attempts(k), c, outcomes[k])
      invariant forall k :: 0 <= k < tries ==> !outcomes[k].Copied? && !attempts(k).cancelled
      invariant Followed(plan, w, run', w', mid.jobs, db.relations)
      invariant Busy(plan, w, w', j, if outcome.Copied? then Copied else Broken, tries)
      invariant outcome.Copied? ==> w'.proc.written[j] == task.rows && outcome.rows == |task.rows|
      decreases maxRetries - tries
    {
      run', w' := Again(db, task, j, tries, plan, w, run', w');
      SameJobs(plan, w, run', w', mid.jobs, db.relations);
      tries := tries + 1;
      outcome, run', w' := Copy(db, task, ids, j, c, attempts(tries), tries, plan, w, run', w');
      SameJobs(plan, w, run', w', mid.jobs, db.relations);
      outcomes := outcomes + [outcome];
    }
  }

  lemma SameJobs(plan: seq<CopyTask>, w: World, run: seq<Action>, w': World, jobs: seq<Job>, target: Target)
    requires Followed(plan, w, run, w', jobs, target)
    ensures w'.jobs == jobs
  {
  }

  /** The whole of a worker's part in a job. Its writes are steps of the protocol, so that the invariant over all runs
      holds wherever it stops. The job succeeds if and only if the last of its attempts does; then all rows of the task
      are committed, and the job's row says so. */
  method RunTask(store: Store, db: Database, task: CopyTask, ids: seq<Row>, j: nat, retry: bool, c: D.Config,
                 attempts: nat -> Attempt, lost: bool,
                 ghost plan: seq<CopyTask>, ghost before: Target, ghost w: World)
    returns (ok: bool, outcomes: seq<D.Outcome>, ghost run: seq<Action>, ghost w': World)
    requires PlanShape(plan) && Inv(plan, before, w) && w.jobs == store.jobs && w.target == db.relations
    requires Enabled(plan, w, Start(j)) && w.proc.pending[j] == retry && j < |plan| && plan[j] == task
    requires multiset(ids) == task.rows && forall k: nat :: Delivers(attempts(k).src, ids)
    modifies store, db
    ensures Leads(plan, w, run, w') && w'.jobs == store.jobs && w'.target == db.relations && Inv(plan, before, w')
    ensures w'.proc.Data? && w'.proc.pending == w.proc.pending - {j} && w'.proc.active == w.proc.active
    ensures Tried(task, c, attempts, outcomes) && (ok <==> outcomes[|outcomes| - 1].Copied?)
    ensures RowIs(old(store.jobs), store.jobs, task, j, ok, lost)
    ensures ok ==> j < |w'.proc.written| && w'.proc.written[j] == task.rows
  {
    hide Inv, Leads, Begun, PlanShape, Delivers, Explains;
    Untouched(plan, before, w, j);
    run, w' := Begin(store, db, task, j, retry, plan, w);
    outcomes, run, w' := CopyWithRetries(db, task, ids, j, c, attempts, plan, w, run, w');
    var last := outcomes[|outcomes| - 1];
    ok := last.Copied?;
    run, w' := Record(store, db, task, j, last, lost, |outcomes| - 1, plan, w, run, w');
    Kept(plan, before, w, run, w');
  }

  lemma Kept(plan: seq<CopyTask>, before: Target, w: World, run: seq<Action>, w': World)
    requires PlanShape(plan) && Inv(plan, before, w) && Leads(plan, w, run, w')
    ensures Inv(plan, before, w')
  {
    RunKeeps(plan, before, w, run);
  }
}
