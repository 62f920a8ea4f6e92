/** The invariant of a migration run, and what it promises about the target. */
module RunInvariant {
  import opened Collections
  import opened JobStore
  import opened Protocol
  import Keys

  // ---------- Totals

  lemma {:induction false} TotalAgree(plan: seq<CopyTask>, a: seq<multiset<Row>>, b: seq<multiset<Row>>, r: Relation,
      n: nat)
    requires n <= |plan| == |a| == |b|
    requires forall i :: 0 <= i < n && Rel(plan[i]) == r ==> a[i] == b[i]
    ensures Total(plan, a, r, n) == Total(plan, b, r, n)
  {
    if n > 0 {
      TotalAgree(plan, a, b, r, n - 1);
    }
  }

  lemma {:induction false} TotalEmpty(plan: seq<CopyTask>, a: seq<multiset<Row>>, r: Relation, n: nat)
    requires n <= |plan| == |a|
    requires forall i :: 0 <= i < n && Rel(plan[i]) == r ==> a[i] == multiset{}
    ensures Total(plan, a, r, n) == multiset{}
  {
    if n > 0 {
      TotalEmpty(plan, a, r, n - 1);
    }
  }

  lemma {:induction false} TotalUpdate(plan: seq<CopyTask>, a: seq<multiset<Row>>, j: nat, b: multiset<Row>,
      r: Relation, n: nat)
    requires j < |plan| == |a| && n <= |plan|
    ensures Total(plan, a[j := a[j] + b], r, n)
         == Total(plan, a, r, n) + (if j < n && Rel(plan[j]) == r then b else multiset{})
  {
    if n > 0 {
      TotalUpdate(plan, a, j, b, r, n - 1);
    }
  }

  // ---------- The invariant

  /** No sub-chunk of the relation selects a row: it is not a partition that is cut into chunks. */
  ghost predicate SafeAt(plan: seq<CopyTask>, r: Relation) {
    forall i :: 0 <= i < |plan| && Rel(plan[i]) == r && IsSubChunk(plan[i]) ==> plan[i].rows == multiset{}
  }

  /** Each stored job is the job of the task at its position. */
  ghost predicate Stored(plan: seq<CopyTask>, jobs: seq<Job>) {
    |jobs| <= |plan| && forall i :: 0 <= i < |jobs| ==> StoredJob(plan, jobs, i)
  }

  ghost predicate StoredJob(plan: seq<CopyTask>, jobs: seq<Job>, i: nat)
    requires i < |jobs| <= |plan|
  {
    && jobs[i].table == plan[i].id.table
    && jobs[i].partition == Keys.JobPartitionKey(plan[i].id)
    && (jobs[i].state == Completed ==> jobs[i].rowsCopied == |plan[i].rows|)
    && jobs[i].state != Skipped
  }

  /** Changing a job's state to anything but SKIPPED or COMPLETED keeps the store in step. */
  lemma StoredUpdate(plan: seq<CopyTask>, jobs: seq<Job>, jobs': seq<Job>)
    requires Stored(plan, jobs) && |jobs'| == |jobs|
    requires forall i :: 0 <= i < |jobs| ==>
               jobs'[i] == jobs[i] || (jobs'[i] == jobs[i].(state := jobs'[i].state, attempt := jobs'[i].attempt)
                                       && jobs'[i].state != Skipped && jobs'[i].state != Completed)
    ensures Stored(plan, jobs')
  {
    forall i | 0 <= i < |jobs| ensures StoredJob(plan, jobs', i) {
      assert StoredJob(plan, jobs, i);
    }
  }

  predicate Hot(j: Job) { j.state == Running || j.state == Failed || j.state == Retrying }

  /** Some job of the relation may have left rows behind, and a resume will clear them. */
  ghost predicate Dirty(plan: seq<CopyTask>, jobs: seq<Job>, r: Relation)
    requires |jobs| <= |plan|
  {
    exists i :: 0 <= i < |jobs| && Rel(plan[i]) == r && Hot(jobs[i]) && !IsSubChunk(plan[i])
  }

  /** The relation holds the rows of its completed jobs and nothing else. */
  ghost predicate Settled(plan: seq<CopyTask>, w: World, r: Relation) {
    At(w.target, r) == Total(plan, Shares(plan, w.jobs), r, |plan|)
  }

  /** The run may be held to account for the relation: its table's DDL job is completed, or there
      was nothing in it to begin with. */
  ghost predicate Grounded(before: Target, w: World, r: Relation) {
    (r.table in w.ddl && w.ddl[r.table] == Completed) || At(before, r) == multiset{}
  }

  /** A job without chunks whose old rows the data phase has yet to clear. */
  ghost predicate Stale(plan: seq<CopyTask>, w: World, r: Relation)
    requires w.proc.Data?
  {
    exists i :: 0 <= i < |plan| && Rel(plan[i]) == r && plan[i].id.chunk.None? && AwaitsCleanup(w, i)
  }

  ghost predicate AwaitsCleanup(w: World, i: nat)
    requires w.proc.Data?
  {
    || (i in w.proc.pending && w.proc.pending[i])
    || (i in w.proc.active && w.proc.active[i].stage == Cleaning && w.proc.active[i].retry)
  }

  ghost predicate HasTableChunk(plan: seq<CopyTask>, r: Relation) {
    exists i :: 0 <= i < |plan| && Rel(plan[i]) == r && IsTableChunk(plan[i])
  }

  ghost predicate RelOk(plan: seq<CopyTask>, w: World, r: Relation)
    requires |w.jobs| <= |plan|
  {
    match w.proc
    case Data(_, _, written) => |written| == |plan|
        && (Stale(plan, w, r) || At(w.target, r) == Total(plan, written, r, |plan|))
    case Resetting(tables, _, _) =>
      && (Dirty(plan, w.jobs, r) || Settled(plan, w, r))
      && (HasTableChunk(plan, r) && r.table !in tables ==> Settled(plan, w, r))
    case _ => Dirty(plan, w.jobs, r) || Settled(plan, w, r)
  }

  /** How a job's state, its place in the data phase and the rows it has written go together. */
  ghost predicate JobOk(plan: seq<CopyTask>, w: World, i: nat)
    requires w.proc.Data? && |w.proc.written| == |plan| && i < |w.jobs| <= |plan|
  {
    var Data(pending, active, written) := w.proc;
    var state := w.jobs[i].state;
    && written[i] <= plan[i].rows
    && (i in pending ==>
          && i !in active && written[i] == multiset{}
          && ((state == Retrying && pending[i]) || (state == Pending && !pending[i])))
    && (i in active ==>
          && state == Running
          && (active[i].stage == Cleaning ==> written[i] == multiset{})
          && (active[i].stage == Copied ==> written[i] == plan[i].rows))
    && (i !in pending && i !in active ==> state == Running || state == Failed || state == Completed)
    && (state == Completed ==> written[i] == plan[i].rows)
  }

  ghost predicate NoneHalted(jobs: seq<Job>) {
    forall i :: 0 <= i < |jobs| ==> jobs[i].state != Running && jobs[i].state != Failed
  }

  ghost predicate ChunkIsRetrying(jobs: seq<Job>, table: string) {
    exists i: nat :: ChunkOf(jobs, i, table) && jobs[i].state == Retrying
  }

  ghost predicate Emptied(target: Target, table: string) {
    forall r: Relation :: r.table == table ==> At(target, r) == multiset{}
  }

  ghost predicate ProcOk(plan: seq<CopyTask>, before: Target, w: World)
    requires |w.jobs| <= |plan|
  {
    match w.proc
    case Down => true
    case Creating =>
      && w.target == before
      && (forall i :: 0 <= i < |w.jobs| ==> w.jobs[i].state == Pending)
      && (forall t :: t in w.ddl ==> w.ddl[t] == Pending)
    case Ddl(emptied) =>
      && |w.jobs| == |plan|
      && (forall i :: 0 <= i < |w.jobs| ==> w.jobs[i].state == Pending)
      && (forall t :: t in emptied ==> Emptied(w.target, t))
      && (forall t :: t in w.ddl && w.ddl[t] == Completed ==> t in emptied)
    case Marked => NoneHalted(w.jobs)
    case Resetting(tables, current, cursor) =>
      && NoneHalted(w.jobs)
      && (forall t :: t in tables ==> ChunkIsRetrying(w.jobs, t))
      && (current.Some? ==>
            && current.value in tables && cursor <= |w.jobs| && Emptied(w.target, current.value)
            && forall i :: 0 <= i < cursor && ChunkOf(w.jobs, i, current.value) ==> w.jobs[i].state == Retrying)
    case Data(pending, active, written) =>
      && |written| == |plan|
      && (forall i :: 0 <= i < |w.jobs| ==> JobOk(plan, w, i))
      && (forall i :: i in pending || i in active ==> i < |w.jobs|)
      && (forall i :: |w.jobs| <= i < |plan| ==> written[i] == multiset{})
  }

  ghost predicate Inv(plan: seq<CopyTask>, before: Target, w: World) {
    && Stored(plan, w.jobs)
    && w.ddl.Keys == Tables(plan)
    && (|w.jobs| < |plan| ==> forall t :: t in w.ddl ==> w.ddl[t] != Completed)
    && ProcOk(plan, before, w)
    && forall r :: Grounded(before, w, r) && SafeAt(plan, r) ==> RelOk(plan, w, r)
  }

  // ---------- Each step keeps the invariant

  lemma SharesAgree(plan: seq<CopyTask>, a: seq<Job>, b: seq<Job>, r: Relation)
    requires forall i :: 0 <= i < |plan| && Rel(plan[i]) == r ==>
               (i < |a| && a[i].state == Completed <==> i < |b| && b[i].state == Completed)
    ensures Total(plan, Shares(plan, a), r, |plan|) == Total(plan, Shares(plan, b), r, |plan|)
  {
    TotalAgree(plan, Shares(plan, a), Shares(plan, b), r, |plan|);
  }

  lemma InitInv(plan: seq<CopyTask>, before: Target)
    ensures Inv(plan, before, Init(plan, before))
  {
    var w := Init(plan, before);
    forall r | Grounded(before, w, r) && SafeAt(plan, r) ensures RelOk(plan, w, r) {
      TotalEmpty(plan, Shares(plan, w.jobs), r, |plan|);
    }
  }

  lemma CrashKeeps(plan: seq<CopyTask>, before: Target, w: World)
    requires PlanShape(plan) && Inv(plan, before, w)
    ensures Inv(plan, before, Apply(plan, w, Crash))
  {
    var w' := Apply(plan, w, Crash);
    forall r | Grounded(before, w', r) && SafeAt(plan, r) ensures RelOk(plan, w', r) {
      assert Grounded(before, w, r) && RelOk(plan, w, r);
      if w.proc.Data? && !Dirty(plan, w.jobs, r) {
        forall i | 0 <= i < |plan| && Rel(plan[i]) == r ensures w.proc.written[i] == Shares(plan, w.jobs)[i] {
          if i < |w.jobs| {
            assert JobOk(plan, w, i);
          }
        }
        TotalAgree(plan, w.proc.written, Shares(plan, w.jobs), r, |plan|);
        forall i | 0 <= i < |plan| && Rel(plan[i]) == r && plan[i].id.chunk.None? ensures !AwaitsCleanup(w, i) {
          if i < |w.jobs| {
            assert JobOk(plan, w, i);
          }
        }
      }
    }
  }

  lemma CreateKeeps(plan: seq<CopyTask>, before: Target, w: World, a: Action)
    requires Inv(plan, before, w) && a in {CreateJob, BeginDdl} && Enabled(plan, w, a)
    ensures Inv(plan, before, Apply(plan, w, a))
  {
    var w' := Apply(plan, w, a);
    forall i | 0 <= i < |w'.jobs| ensures StoredJob(plan, w'.jobs, i) {
      assert i < |w.jobs| ==> StoredJob(plan, w.jobs, i);
    }
    forall r | Grounded(before, w', r) && SafeAt(plan, r) ensures RelOk(plan, w', r) {
      assert Grounded(before, w, r) && RelOk(plan, w, r);
      SharesAgree(plan, w.jobs, w'.jobs, r);
    }
  }

  lemma DdlKeeps(plan: seq<CopyTask>, before: Target, w: World, a: Action)
    requires Inv(plan, before, w) && Enabled(plan, w, a)
    requires a.DdlStart? || a.DdlEmpty? || a.DdlDone?
    ensures Inv(plan, before, Apply(plan, w, a))
  {
    var w' := Apply(plan, w, a);
    if a.DdlEmpty? {
      assert Emptied(w'.target, a.table);
      forall t | t in w.proc.emptied ensures Emptied(w'.target, t) {
        assert Emptied(w.target, t);
      }
    }
    forall r | Grounded(before, w', r) && SafeAt(plan, r) ensures RelOk(plan, w', r) {
      TotalEmpty(plan, Shares(plan, w.jobs), r, |plan|);
      if Grounded(before, w, r) {
        assert RelOk(plan, w, r);
      } else {
        assert a == DdlDone(r.table) && Emptied(w.target, r.table);
      }
    }
  }

  lemma ResumeKeeps(plan: seq<CopyTask>, before: Target, w: World)
    requires Inv(plan, before, w) && w.proc.Down?
    ensures Inv(plan, before, Apply(plan, w, Resume))
  {
    var w' := Apply(plan, w, Resume);
    StoredUpdate(plan, w.jobs, w'.jobs);
    forall r | Grounded(before, w', r) && SafeAt(plan, r) ensures RelOk(plan, w', r) {
      assert Grounded(before, w, r) && RelOk(plan, w, r);
      SharesAgree(plan, w.jobs, w'.jobs, r);
      if i :| 0 <= i < |w.jobs| && Rel(plan[i]) == r && Hot(w.jobs[i]) && !IsSubChunk(plan[i]) {
        assert Hot(w'.jobs[i]);
      }
    }
  }

  /** The reset sees exactly the chunks of unpartitioned tables. */
  lemma ChunkOfIsTableChunk(plan: seq<CopyTask>, jobs: seq<Job>, i: nat, table: string)
    requires PlanShape(plan) && Stored(plan, jobs) && i < |jobs|
    ensures ChunkOf(jobs, i, table) <==> IsTableChunk(plan[i]) && Rel(plan[i]) == Relation(table, None)
  {
    assert StoredJob(plan, jobs, i);
    Keys.ResettableExactly(plan[i].id);
  }

  lemma ListKeeps(plan: seq<CopyTask>, before: Target, w: World)
    requires PlanShape(plan) && Inv(plan, before, w) && w.proc.Marked?
    ensures Inv(plan, before, Apply(plan, w, ListChunks))
  {
    var w' := Apply(plan, w, ListChunks);
    forall t | t in w'.proc.tables ensures ChunkIsRetrying(w'.jobs, t) {
      var i :| 0 <= i < |w.jobs| && Keys.IsResettable(w.jobs[i].partition) && w.jobs[i].state == Retrying
        && w.jobs[i].table == t;
      assert ChunkOf(w'.jobs, i, t);
    }
    forall r | Grounded(before, w', r) && SafeAt(plan, r) ensures RelOk(plan, w', r) {
      assert Grounded(before, w, r) && RelOk(plan, w, r);
      if HasTableChunk(plan, r) && Dirty(plan, w.jobs, r) {
        var i :| 0 <= i < |w.jobs| && Rel(plan[i]) == r && Hot(w.jobs[i]) && !IsSubChunk(plan[i]);
        var k :| 0 <= k < |plan| && Rel(plan[k]) == r && IsTableChunk(plan[k]);
        assert IsTableChunk(plan[i]);
        ChunkOfIsTableChunk(plan, w.jobs, i, r.table);
        assert r.table in w'.proc.tables;
      }
    }
  }

  /** In a table that is being reset every task is a chunk of that table. */
  lemma OnlyChunks(plan: seq<CopyTask>, i: nat, k: nat)
    requires PlanShape(plan) && i < |plan| && k < |plan|
    requires IsTableChunk(plan[i]) && plan[k].id.table == plan[i].id.table
    ensures IsTableChunk(plan[k])
  {
    if i < k {
      assert plan[i].id.part.None? <==> plan[k].id.part.None?;
    } else if k < i {
      assert plan[k].id.part.None? <==> plan[i].id.part.None?;
    }
  }

  lemma ResetTruncateKeeps(plan: seq<CopyTask>, before: Target, w: World, table: string)
    requires PlanShape(plan) && Inv(plan, before, w) && Enabled(plan, w, ResetTruncate(table))
    ensures Inv(plan, before, Apply(plan, w, ResetTruncate(table)))
  {
    var w' := Apply(plan, w, ResetTruncate(table));
    var i: nat :| ChunkOf(w.jobs, i, table) && w.jobs[i].state == Retrying;
    ChunkOfIsTableChunk(plan, w.jobs, i, table);
    assert Emptied(w'.target, table);
    forall t | t in w'.proc.tables ensures ChunkIsRetrying(w'.jobs, t) {
      var k: nat :| ChunkOf(w.jobs, k, t) && w.jobs[k].state == Retrying;
      assert ChunkOf(w'.jobs, k, t);
    }
    forall r | Grounded(before, w', r) && SafeAt(plan, r) ensures RelOk(plan, w', r) {
      assert Grounded(before, w, r) && RelOk(plan, w, r);
      if r.table == table {
        if r.part.None? {
          assert Hot(w'.jobs[i]);
        } else {
          forall k | 0 <= k < |plan| ensures Rel(plan[k]) != r {
            if plan[k].id.table == table {
              OnlyChunks(plan, i, k);
            }
          }
          TotalEmpty(plan, Shares(plan, w'.jobs), r, |plan|);
        }
      }
    }
  }

  lemma ResetJobProc(plan: seq<CopyTask>, before: Target, w: World)
    requires PlanShape(plan) && Inv(plan, before, w) && Enabled(plan, w, ResetJob)
    ensures var w' := Apply(plan, w, ResetJob); Stored(plan, w'.jobs) && ProcOk(plan, before, w')
  {
    var w' := Apply(plan, w, ResetJob);
    var Resetting(tables, current, cursor) := w.proc;
    StoredUpdate(plan, w.jobs, w'.jobs);
    forall t | t in w'.proc.tables ensures ChunkIsRetrying(w'.jobs, t) {
      assert ChunkIsRetrying(w.jobs, t);
      var k: nat :| ChunkOf(w.jobs, k, t) && w.jobs[k].state == Retrying;
      assert ChunkOf(w'.jobs, k, t) && w'.jobs[k].state == Retrying;
    }
    if cursor < |w.jobs| {
      forall i | 0 <= i < cursor + 1 && ChunkOf(w'.jobs, i, current.value) ensures w'.jobs[i].state == Retrying {
        assert ChunkOf(w.jobs, i, current.value);
      }
    }
  }

  /** The table under reset: it stays dirty until its last chunk is set, and is settled then. */
  lemma ResetJobSame(plan: seq<CopyTask>, before: Target, w: World)
    requires PlanShape(plan) && Inv(plan, before, w) && Enabled(plan, w, ResetJob)
    ensures var w' := Apply(plan, w, ResetJob);
            Stored(plan, w'.jobs) && RelOk(plan, w', Relation(w.proc.current.value, None))
  {
    ResetJobProc(plan, before, w);
    var w' := Apply(plan, w, ResetJob);
    var table := w.proc.current.value;
    var r := Relation(table, None);
    var h: nat :| ChunkOf(w.jobs, h, table) && w.jobs[h].state == Retrying;
    ChunkOfIsTableChunk(plan, w.jobs, h, table);
    assert Hot(w'.jobs[h]);
    if w.proc.cursor == |w.jobs| {
      forall i | 0 <= i < |plan| && Rel(plan[i]) == r ensures Shares(plan, w'.jobs)[i] == multiset{} {
        if i < |w.jobs| {
          OnlyChunks(plan, h, i);
          ChunkOfIsTableChunk(plan, w.jobs, i, table);
        }
      }
      TotalEmpty(plan, Shares(plan, w'.jobs), r, |plan|);
      assert At(w.target, r) == multiset{};
    }
  }

  /** Setting one chunk of another relation leaves the relation as dirty and as settled as it was. */
  lemma ResetJobApart(plan: seq<CopyTask>, before: Target, w: World, r: Relation)
    requires PlanShape(plan) && Inv(plan, before, w) && Enabled(plan, w, ResetJob)
             && r != Relation(w.proc.current.value, None)
    ensures var w' := Apply(plan, w, ResetJob);
            && |w'.jobs| == |w.jobs|
            && (Dirty(plan, w.jobs, r) ==> Dirty(plan, w'.jobs, r))
            && (Settled(plan, w, r) ==> Settled(plan, w', r))
  {
    hide Total;
    var w' := Apply(plan, w, ResetJob);
    if w.proc.cursor < |w.jobs| {
      ChunkOfIsTableChunk(plan, w.jobs, w.proc.cursor, w.proc.current.value);
    }
    SharesAgree(plan, w.jobs, w'.jobs, r);
    if i :| 0 <= i < |w.jobs| && Rel(plan[i]) == r && Hot(w.jobs[i]) && !IsSubChunk(plan[i]) {
      assert Hot(w'.jobs[i]);
    }
  }

  lemma ResetJobOther(plan: seq<CopyTask>, before: Target, w: World, r: Relation)
    requires PlanShape(plan) && Inv(plan, before, w) && Enabled(plan, w, ResetJob)
    requires RelOk(plan, w, r) && r != Relation(w.proc.current.value, None)
    ensures var w' := Apply(plan, w, ResetJob); Stored(plan, w'.jobs) && RelOk(plan, w', r)
  {
    ResetJobProc(plan, before, w);
    ResetJobApart(plan, before, w, r);
    assert HasTableChunk(plan, r) ==> r.part.None?;
    hide Dirty, Settled, HasTableChunk, PlanShape;
  }

  lemma ResetJobKeeps(plan: seq<CopyTask>, before: Target, w: World)
    requires PlanShape(plan) && Inv(plan, before, w) && Enabled(plan, w, ResetJob)
    ensures Inv(plan, before, Apply(plan, w, ResetJob))
  {
    var w' := Apply(plan, w, ResetJob);
    ResetJobProc(plan, before, w);
    forall r | Grounded(before, w', r) && SafeAt(plan, r) ensures RelOk(plan, w', r) {
      assert Grounded(before, w, r);
      if r == Relation(w.proc.current.value, None) {
        ResetJobSame(plan, before, w);
      } else {
        ResetJobOther(plan, before, w, r);
      }
    }
  }

  lemma BeginDataProc(plan: seq<CopyTask>, before: Target, w: World)
    requires Inv(plan, before, w) && Enabled(plan, w, BeginData)
    ensures ProcOk(plan, before, Apply(plan, w, BeginData))
  {
    var w' := Apply(plan, w, BeginData);
    forall i | 0 <= i < |w.jobs| ensures JobOk(plan, w', i) {
      assert StoredJob(plan, w.jobs, i);
      assert w.jobs[i].state != Running && w.jobs[i].state != Failed && w.jobs[i].state != Skipped;
    }
  }

  lemma BeginDataRel(plan: seq<CopyTask>, before: Target, w: World, r: Relation)
    requires Inv(plan, before, w) && Enabled(plan, w, BeginData) && RelOk(plan, w, r)
    ensures RelOk(plan, Apply(plan, w, BeginData), r)
  {
    var w' := Apply(plan, w, BeginData);
    if !Settled(plan, w, r) {
      var i :| 0 <= i < |w.jobs| && Rel(plan[i]) == r && Hot(w.jobs[i]) && !IsSubChunk(plan[i]);
      assert w.jobs[i].state == Retrying;
      assert !IsTableChunk(plan[i]);
      assert i in w'.proc.pending && AwaitsCleanup(w', i);
    }
  }

  lemma BeginDataKeeps(plan: seq<CopyTask>, before: Target, w: World)
    requires Inv(plan, before, w) && Enabled(plan, w, BeginData)
    ensures Inv(plan, before, Apply(plan, w, BeginData))
  {
    var w' := Apply(plan, w, BeginData);
    BeginDataProc(plan, before, w);
    forall r | Grounded(before, w', r) && SafeAt(plan, r) ensures RelOk(plan, w', r) {
      assert Grounded(before, w, r);
      BeginDataRel(plan, before, w, r);
    }
  }

  // ---------- Steps of the data phase

  ghost predicate InData(plan: seq<CopyTask>, before: Target, w: World, a: Action) {
    PlanShape(plan) && Inv(plan, before, w) && w.proc.Data? && Enabled(plan, w, a)
  }

  /** The steps that move a job on without touching the target or the rows it has written. */
  predicate IsBookkeeping(a: Action) {
    a.Start? || a.Finish? || a.Break? || a.RecordCompleted? || a.RecordFailed? || a.Abandon?
  }

  lemma BookkeepingStored(plan: seq<CopyTask>, before: Target, w: World, a: Action)
    requires InData(plan, before, w, a) && IsBookkeeping(a)
    ensures Stored(plan, Apply(plan, w, a).jobs)
  {
    var w' := Apply(plan, w, a);
    forall i | 0 <= i < |w.jobs| ensures StoredJob(plan, w'.jobs, i) {
      assert StoredJob(plan, w.jobs, i);
    }
  }

  lemma BookkeepingJob(plan: seq<CopyTask>, before: Target, w: World, a: Action, i: nat)
    requires InData(plan, before, w, a) && IsBookkeeping(a) && i < |w.jobs|
    ensures JobOk(plan, Apply(plan, w, a), i)
  {
    assert JobOk(plan, w, i);
    assert StoredJob(plan, w.jobs, i);
  }

  lemma BookkeepingCleanup(plan: seq<CopyTask>, before: Target, w: World, a: Action, i: nat)
    requires InData(plan, before, w, a) && IsBookkeeping(a)
    ensures AwaitsCleanup(Apply(plan, w, a), i) <==> AwaitsCleanup(w, i)
  {
    if i < |w.jobs| {
      assert JobOk(plan, w, i);
    }
  }

  lemma BookkeepingKeeps(plan: seq<CopyTask>, before: Target, w: World, a: Action)
    requires InData(plan, before, w, a) && IsBookkeeping(a)
    ensures Inv(plan, before, Apply(plan, w, a))
  {
    var w' := Apply(plan, w, a);
    BookkeepingStored(plan, before, w, a);
    forall i | 0 <= i < |w.jobs| ensures JobOk(plan, w', i) {
      BookkeepingJob(plan, before, w, a, i);
    }
    forall r | Grounded(before, w', r) && SafeAt(plan, r) ensures RelOk(plan, w', r) {
      assert Grounded(before, w, r) && RelOk(plan, w, r);
      if i :| 0 <= i < |plan| && Rel(plan[i]) == r && plan[i].id.chunk.None? && AwaitsCleanup(w, i) {
        BookkeepingCleanup(plan, before, w, a, i);
      }
    }
  }

  lemma CommitJob(plan: seq<CopyTask>, before: Target, w: World, j: nat, b: multiset<Row>, i: nat)
    requires InData(plan, before, w, Commit(j, b)) && i < |w.jobs|
    ensures JobOk(plan, Apply(plan, w, Commit(j, b)), i)
  {
    assert JobOk(plan, w, i);
    assert JobOk(plan, w, j);
  }

  lemma CommitRelation(plan: seq<CopyTask>, before: Target, w: World, j: nat, b: multiset<Row>, r: Relation)
    requires InData(plan, before, w, Commit(j, b)) && RelOk(plan, w, r)
    ensures RelOk(plan, Apply(plan, w, Commit(j, b)), r)
  {
    var w' := Apply(plan, w, Commit(j, b));
    if i :| 0 <= i < |plan| && Rel(plan[i]) == r && plan[i].id.chunk.None? && AwaitsCleanup(w, i) {
      assert AwaitsCleanup(w', i);
    } else {
      TotalUpdate(plan, w.proc.written, j, b, r, |plan|);
    }
  }

  lemma CommitKeeps(plan: seq<CopyTask>, before: Target, w: World, j: nat, b: multiset<Row>)
    requires InData(plan, before, w, Commit(j, b))
    ensures Inv(plan, before, Apply(plan, w, Commit(j, b)))
  {
    var w' := Apply(plan, w, Commit(j, b));
    forall i | 0 <= i < |w.jobs| ensures JobOk(plan, w', i) {
      CommitJob(plan, before, w, j, b, i);
    }
    forall r | Grounded(before, w', r) && SafeAt(plan, r) ensures RelOk(plan, w', r) {
      assert Grounded(before, w, r);
      CommitRelation(plan, before, w, j, b, r);
    }
  }

  /** Truncation for an unchunked task empties its relation, and no other relation that has tasks. */
  lemma CleanedRelation(plan: seq<CopyTask>, written: seq<multiset<Row>>, target: Target, j: nat, r: Relation)
    requires PlanShape(plan) && j < |plan| == |written| && plan[j].id.chunk.None? && written[j] == multiset{}
    ensures At(Cleaned(plan[j], target), r) == At(target, r)
         || At(Cleaned(plan[j], target), r) == multiset{} == Total(plan, written, r, |plan|)
    ensures r == Rel(plan[j]) ==> At(Cleaned(plan[j], target), r) == multiset{} == Total(plan, written, r, |plan|)
  {
    if r == Rel(plan[j]) || (plan[j].id.part.None? && r.table == plan[j].id.table) {
      assert forall i :: 0 <= i < |plan| && Rel(plan[i]) == r ==> i == j;
      TotalEmpty(plan, written, r, |plan|);
    }
  }

  lemma RetryKeeps(plan: seq<CopyTask>, before: Target, w: World, j: nat)
    requires InData(plan, before, w, Retry(j))
    ensures Inv(plan, before, Apply(plan, w, Retry(j)))
  {
    hide Total;
    var w' := Apply(plan, w, Retry(j));
    forall i | 0 <= i < |w.jobs| ensures JobOk(plan, w', i) {
      assert JobOk(plan, w, i);
    }
    forall r | Grounded(before, w', r) && SafeAt(plan, r) ensures RelOk(plan, w', r) {
      assert Grounded(before, w, r) && RelOk(plan, w, r);
      CleanedRelation(plan, w'.proc.written, w.target, j, r);
      if r != Rel(plan[j]) {
        TotalAgree(plan, w.proc.written, w'.proc.written, r, |plan|);
        if i :| 0 <= i < |plan| && Rel(plan[i]) == r && plan[i].id.chunk.None? && AwaitsCleanup(w, i) {
          assert AwaitsCleanup(w', i);
        }
      }
    }
  }

  lemma CleanKeeps(plan: seq<CopyTask>, before: Target, w: World, j: nat)
    requires InData(plan, before, w, Clean(j))
    ensures Inv(plan, before, Apply(plan, w, Clean(j)))
  {
    var w' := Apply(plan, w, Clean(j));
    assert JobOk(plan, w, j);
    forall i | 0 <= i < |w.jobs| ensures JobOk(plan, w', i) {
      assert JobOk(plan, w, i);
    }
    forall r | Grounded(before, w', r) && SafeAt(plan, r) ensures RelOk(plan, w', r) {
      assert Grounded(before, w, r) && RelOk(plan, w, r);
      if plan[j].id.chunk.None? {
        CleanedRelation(plan, w.proc.written, w.target, j, r);
      }
      if i :| 0 <= i < |plan| && Rel(plan[i]) == r && plan[i].id.chunk.None? && AwaitsCleanup(w, i) {
        if i != j {
          assert AwaitsCleanup(w', i);
        }
      }
    }
  }

  // ---------- The theorem over all runs

  lemma StepKeeps(plan: seq<CopyTask>, before: Target, w: World, a: Action)
    requires PlanShape(plan) && Inv(plan, before, w) && Enabled(plan, w, a)
    ensures Inv(plan, before, Apply(plan, w, a))
  {
    match a
    case Crash => CrashKeeps(plan, before, w);
    case CreateJob => CreateKeeps(plan, before, w, a);
    case BeginDdl => CreateKeeps(plan, before, w, a);
    case DdlStart(_) => DdlKeeps(plan, before, w, a);
    case DdlEmpty(_) => DdlKeeps(plan, before, w, a);
    case DdlDone(_) => DdlKeeps(plan, before, w, a);
    case BeginData => BeginDataKeeps(plan, before, w);
    case Resume => ResumeKeeps(plan, before, w);
    case ListChunks => ListKeeps(plan, before, w);
    case ResetTruncate(t) => ResetTruncateKeeps(plan, before, w, t);
    case ResetJob => ResetJobKeeps(plan, before, w);
    case Clean(j) => CleanKeeps(plan, before, w, j);
    case Commit(j, b) => CommitKeeps(plan, before, w, j, b);
    case Retry(j) => RetryKeeps(plan, before, w, j);
    case _ => BookkeepingKeeps(plan, before, w, a);
  }

  lemma {:induction false} RunKeeps(plan: seq<CopyTask>, before: Target, w: World, run: seq<Action>)
    requires PlanShape(plan) && Inv(plan, before, w) && Valid(plan, w, run)
    ensures Inv(plan, before, Exec(plan, w, run))
    decreases |run|
  {
    if run != [] {
      StepKeeps(plan, before, w, run[0]);
      RunKeeps(plan, before, Apply(plan, w, run[0]), run[1..]);
    }
  }

  lemma {:induction false} TotalPrefix(plan: seq<CopyTask>, a: seq<multiset<Row>>, r: Relation, m: nat, n: nat)
    requires m <= n <= |plan| == |a|
    requires forall i :: m <= i < n && Rel(plan[i]) == r ==> a[i] == multiset{}
    ensures Total(plan, a, r, n) == Total(plan, a, r, m)
  {
    if m < n {
      TotalPrefix(plan, a, r, m, n - 1);
    }
  }

  lemma CompletedInData(plan: seq<CopyTask>, before: Target, w: World, r: Relation)
    requires Inv(plan, before, w) && w.proc.Data? && StoredCompleted(plan, w, r)
    ensures !Stale(plan, w, r)
    ensures Total(plan, w.proc.written, r, |plan|) == Total(plan, Shares(plan, w.jobs), r, |plan|)
  {
    forall i | 0 <= i < |plan| && Rel(plan[i]) == r
      ensures w.proc.written[i] == Shares(plan, w.jobs)[i] && !AwaitsCleanup(w, i)
    {
      if i < |w.jobs| {
        assert JobOk(plan, w, i);
      }
    }
    TotalAgree(plan, w.proc.written, Shares(plan, w.jobs), r, |plan|);
  }

  lemma CompletedIsSettled(plan: seq<CopyTask>, before: Target, w: World, r: Relation)
    requires Inv(plan, before, w) && Grounded(before, w, r) && SafeAt(plan, r) && StoredCompleted(plan, w, r)
    ensures Settled(plan, w, r)
  {
    assert RelOk(plan, w, r);
    if w.proc.Data? {
      CompletedInData(plan, before, w, r);
    }
  }

  /** A settled relation whose stored jobs are completed holds what their tasks selected. */
  lemma SettledMeansCopied(plan: seq<CopyTask>, w: World, r: Relation)
    requires |w.jobs| <= |plan| && Settled(plan, w, r) && StoredCompleted(plan, w, r)
    ensures At(w.target, r) == Total(plan, Selected(plan), r, |w.jobs|)
  {
    TotalPrefix(plan, Shares(plan, w.jobs), r, |w.jobs|, |plan|);
    TotalAgree(plan, Shares(plan, w.jobs), Selected(plan), r, |w.jobs|);
  }

  /** Over every run, however often it crashes and is resumed: once the stored jobs of a relation
      are completed, it holds exactly the rows that their tasks select, each the right number of
      times; so it holds exactly what was wanted if and only if no task lacks a job and has rows. */
  lemma ExactlyOnce(plan: seq<CopyTask>, before: Target, run: seq<Action>, r: Relation)
    requires PlanShape(plan) && Valid(plan, Init(plan, before), run)
    requires var w := Exec(plan, Init(plan, before), run);
             Grounded(before, w, r) && SafeAt(plan, r) && StoredCompleted(plan, w, r)
    ensures var w := Exec(plan, Init(plan, before), run);
            && |w.jobs| <= |plan|
            && At(w.target, r) == Total(plan, Selected(plan), r, |w.jobs|)
            && (At(w.target, r) == Wanted(plan, r) <==>
                  forall i :: |w.jobs| <= i < |plan| && Rel(plan[i]) == r ==> plan[i].rows == multiset{})
  {
    InitInv(plan, before);
    RunKeeps(plan, before, Init(plan, before), run);
    var w := Exec(plan, Init(plan, before), run);
    CompletedIsSettled(plan, before, w, r);
    SettledMeansCopied(plan, w, r);
    TotalIsWhole(plan, r, |w.jobs|, |plan|);
  }

  lemma {:induction false} TotalGrows(plan: seq<CopyTask>, r: Relation, m: nat, n: nat)
    requires m <= n <= |plan|
    ensures |Total(plan, Selected(plan), r, m)| <= |Total(plan, Selected(plan), r, n)|
  {
    if m < n {
      TotalGrows(plan, r, m, n - 1);
    }
  }

  lemma TotalIsWhole(plan: seq<CopyTask>, r: Relation, m: nat, n: nat)
    requires m <= n <= |plan|
    ensures Total(plan, Selected(plan), r, m) == Total(plan, Selected(plan), r, n) <==>
              forall i :: m <= i < n && Rel(plan[i]) == r ==> plan[i].rows == multiset{}
  {
    if i :| m <= i < n && Rel(plan[i]) == r && plan[i].rows != multiset{} {
      TotalGrows(plan, r, m, i);
      TotalGrows(plan, r, i + 1, n);
      assert |plan[i].rows| > 0;
    } else {
      TotalPrefix(plan, Selected(plan), r, m, n);
    }
  }

  /** Every job that a run has completed reports the number of rows its task selects. */
  lemma RowCounts(plan: seq<CopyTask>, before: Target, run: seq<Action>, i: nat)
    requires PlanShape(plan) && Valid(plan, Init(plan, before), run)
    requires var w := Exec(plan, Init(plan, before), run); i < |w.jobs| && w.jobs[i].state == Completed
    ensures i < |plan| && Exec(plan, Init(plan, before), run).jobs[i].rowsCopied == |plan[i].rows|
  {
    InitInv(plan, before);
    RunKeeps(plan, before, Init(plan, before), run);
    assert StoredJob(plan, Exec(plan, Init(plan, before), run).jobs, i);
  }
}
