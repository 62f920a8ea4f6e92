/** The data jobs of one run, as the SQLite store keeps them. A job's id is its position. */
module JobStore {
  import opened Collections

  datatype JobState = Pending | Running | Failed | Completed | Retrying | Skipped

  datatype Job = Job(table: string, partition: string, state: JobState, attempt: nat, rowsCopied: nat)

  function NewJob(table: string, partition: string): Job { Job(table, partition, Pending, 0, 0) }

  function Started(j: Job): Job { j.(state := Running, attempt := j.attempt + 1) }

  function Done(j: Job, rows: nat): Job { j.(state := Completed, rowsCopied := rows) }

  /** What a resume makes of a job: failed and interrupted ones are to be tried again. */
  function Revived(j: Job): Job {
    if j.state == Failed || j.state == Running then j.(state := Retrying) else j
  }

  function RevivedAll(jobs: seq<Job>): (r: seq<Job>)
    ensures |r| == |jobs| && forall i :: 0 <= i < |jobs| ==> r[i] == Revived(jobs[i])
  {
    seq(|jobs|, i requires 0 <= i < |jobs| => Revived(jobs[i]))
  }

  predicate Awaiting(j: Job) { j.state == Pending || j.state == Retrying }

  class Store {
    var jobs: seq<Job>

    constructor ()
      ensures jobs == []
    {
      jobs := [];
    }

    /** Inserts a pending job; the unique index on table and partition makes a second one fail. */
    method CreateJob(table: string, partition: string) returns (id: Option<nat>)
      modifies this
      ensures id.None? <==> exists i :: 0 <= i < |old(jobs)| && old(jobs)[i].table == table
                              && old(jobs)[i].partition == partition
      ensures id.None? ==> jobs == old(jobs)
      ensures id.Some? ==> id.value == |old(jobs)| && jobs == old(jobs) + [Job(table, partition, Pending, 0, 0)]
    {
      for i := 0 to |jobs|
        invariant jobs == old(jobs)
        invariant forall k :: 0 <= k < i ==> !(jobs[k].table == table && jobs[k].partition == partition)
      {
        if jobs[i].table == table && jobs[i].partition == partition {
          return None;
        }
      }
      id := Some(|jobs|);
      jobs := jobs + [NewJob(table, partition)];
    }

    method UpdateState(id: nat, state: JobState)
      modifies this
      ensures jobs == if id < |old(jobs)| then old(jobs)[id := old(jobs)[id].(state := state)] else old(jobs)
    {
      if id < |jobs| {
        jobs := jobs[id := jobs[id].(state := state)];
      }
    }

    method SetRunning(id: nat)
      modifies this
      ensures jobs == if id < |old(jobs)| then old(jobs)[id := Started(old(jobs)[id])] else old(jobs)
    {
      if id < |jobs| {
        jobs := jobs[id := Started(jobs[id])];
      }
    }

    method SetCompleted(id: nat, rows: nat)
      modifies this
      ensures jobs == if id < |old(jobs)| then old(jobs)[id := Done(old(jobs)[id], rows)] else old(jobs)
    {
      if id < |jobs| {
        jobs := jobs[id := Done(jobs[id], rows)];
      }
    }

    method SetFailed(id: nat)
      modifies this
      ensures jobs == if id < |old(jobs)| then old(jobs)[id := old(jobs)[id].(state := Failed)] else old(jobs)
    {
      UpdateState(id, Failed);
    }

    /** The jobs a data phase will work on, in id order. */
    method GetPendingJobs() returns (ids: seq<nat>)
      ensures forall i: nat :: i in ids <==> i < |jobs| && (jobs[i].state == Pending || jobs[i].state == Retrying)
      ensures forall a, b :: 0 <= a < b < |ids| ==> ids[a] < ids[b]
    {
      ids := [];
      for i := 0 to |jobs|
        invariant forall k: nat :: k in ids <==> k < i && Awaiting(jobs[k])
        invariant forall a :: 0 <= a < |ids| ==> ids[a] < i
        invariant forall a, b :: 0 <= a < b < |ids| ==> ids[a] < ids[b]
      {
        if Awaiting(jobs[i]) {
          ids := ids + [i];
        }
      }
    }

    /** One UPDATE statement: the whole change happens at once. */
    method MarkFailedAsRetrying() returns (count: nat)
      modifies this
      ensures jobs == RevivedAll(old(jobs))
      ensures forall i :: 0 <= i < |jobs| ==>
                jobs[i] == if old(jobs)[i].state == Failed || old(jobs)[i].state == Running
                           then old(jobs)[i].(state := Retrying) else old(jobs)[i]
      ensures count == Count(old(jobs), (j: Job) => j.state == Failed || j.state == Running)
    {
      var hit := (j: Job) => j.state == Failed || j.state == Running;
      var next: seq<Job> := [];
      count := 0;
      for i := 0 to |jobs|
        invariant |next| == i
        invariant forall k :: 0 <= k < i ==> next[k] == Revived(jobs[k])
        invariant count + Count(jobs[i..], hit) == Count(jobs, hit)
      {
        assert jobs[i..][0] == jobs[i] && jobs[i..][1..] == jobs[i + 1..];
        if hit(jobs[i]) {
          count := count + 1;
        }
        next := next + [Revived(jobs[i])];
      }
      jobs := next;
    }
  }
}
