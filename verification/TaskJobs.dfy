/** Job rows for the tasks of the plan, and the way back from a job row to its task. */
module TaskJobs {
  import opened Collections
  import opened JobStore
  import opened Keys

  predicate SameRow(a: TaskId, b: TaskId) { a.table == b.table && JobPartitionKey(a) == JobPartitionKey(b) }

  /** Row i was created for task i. */
  ghost predicate RowsAreFor(jobs: seq<Job>, ids: seq<TaskId>) {
    |jobs| <= |ids| && forall i :: 0 <= i < |jobs|
                         ==> jobs[i].table == ids[i].table && jobs[i].partition == JobPartitionKey(ids[i])
  }

  ghost predicate DistinctTasks(ids: seq<TaskId>) { forall i, j :: 0 <= i < j < |ids| ==> ids[i] != ids[j] }

  ghost predicate ProperTasks(ids: seq<TaskId>) { forall i :: 0 <= i < |ids| ==> Proper(ids[i]) }

  /** Different tasks never compete for a job row. */
  lemma RowTellsTask(a: TaskId, b: TaskId)
    requires Proper(a) && Proper(b)
    ensures SameRow(a, b) <==> a == b
  {
    KeysMeet(a);
    KeysMeet(b);
    TaskKeyInjective(a, b);
  }

  /** The data part of initJobs: it stops at the first row that the unique index refuses. */
  method InitJobs(store: Store, ids: seq<TaskId>) returns (ok: bool)
    requires store.jobs == []
    modifies store
    ensures RowsAreFor(store.jobs, ids) && forall i :: 0 <= i < |store.jobs| ==> store.jobs[i].state == Pending
    ensures ok <==> forall i, j :: 0 <= i < j < |ids| ==> !SameRow(ids[i], ids[j])
    ensures ok <==> |store.jobs| == |ids|
  {
    for i := 0 to |ids|
      invariant RowsAreFor(store.jobs, ids) && |store.jobs| == i
      invariant forall k :: 0 <= k < i ==> store.jobs[k].state == Pending
      invariant forall j, k :: 0 <= j < k < i ==> !SameRow(ids[j], ids[k])
    {
      var id := store.CreateJob(ids[i].table, JobPartitionKey(ids[i]));
      if id.None? {
        return false;
      }
    }
    return true;
  }

  /** A plan of different tasks with colon-free names gets all its rows. */
  lemma RowsForAll(ids: seq<TaskId>)
    requires ProperTasks(ids) && DistinctTasks(ids)
    ensures forall i, j :: 0 <= i < j < |ids| ==> !SameRow(ids[i], ids[j])
  {
    forall i, j | 0 <= i < j < |ids| ensures !SameRow(ids[i], ids[j]) {
      RowTellsTask(ids[i], ids[j]);
    }
  }

  /** Files every task under its key; a later task with the same key would replace an earlier one. */
  method FileTasks(ids: seq<TaskId>) returns (tasks: map<string, TaskId>)
    requires ProperTasks(ids)
    ensures forall i :: 0 <= i < |ids| ==> TaskKey(ids[i]) in tasks && tasks[TaskKey(ids[i])] == ids[i]
  {
    tasks := map[];
    for i := 0 to |ids|
      invariant forall k :: 0 <= k < i ==> TaskKey(ids[k]) in tasks && tasks[TaskKey(ids[k])] == ids[k]
    {
      forall k | 0 <= k < i ensures TaskKey(ids[k]) == TaskKey(ids[i]) ==> ids[k] == ids[i] {
        TaskKeyInjective(ids[k], ids[i]);
      }
      tasks := tasks[TaskKey(ids[i]) := ids[i]];
    }
  }

  /** Sends each pending job to the task it was created for, and each such task back to its job. */
  method JoinJobs(store: Store, ids: seq<TaskId>)
      returns (pending: seq<nat>, tasks: seq<TaskId>, jobOf: map<string, nat>)
    requires ProperTasks(ids) && DistinctTasks(ids) && RowsAreFor(store.jobs, ids)
    ensures forall i: nat :: i in pending <==> i < |store.jobs| && Awaiting(store.jobs[i])
    ensures forall a, b :: 0 <= a < b < |pending| ==> pending[a] < pending[b]
    ensures |tasks| == |pending|
            && forall k :: 0 <= k < |tasks| ==> pending[k] in pending && tasks[k] == ids[pending[k]]
    ensures forall k :: 0 <= k < |tasks| ==> TaskKey(tasks[k]) in jobOf && jobOf[TaskKey(tasks[k])] == pending[k]
  {
    pending := store.GetPendingJobs();
    var filed := FileTasks(ids);
    tasks, jobOf := [], map[];
    for n := 0 to |pending|
      invariant |tasks| == n && forall k :: 0 <= k < n ==> pending[k] in pending && tasks[k] == ids[pending[k]]
      invariant forall k :: 0 <= k < n ==> TaskKey(tasks[k]) in jobOf && jobOf[TaskKey(tasks[k])] == pending[k]
    {
      var id := pending[n];
      assert id in pending;
      var job := store.jobs[id];
      var key := JobKey(job.table, job.partition);
      KeysMeet(ids[id]);
      if key in filed {
        forall k | 0 <= k < n ensures TaskKey(tasks[k]) != key {
          assert pending[k] < pending[n];
          TaskKeyInjective(ids[pending[k]], ids[id]);
        }
        tasks := tasks + [filed[key]];
        jobOf := jobOf[key := id];
      }
    }
  }
}
