/** The worker pool of the data phase together with the per-table semaphores: any number of workers
    take tasks from one closed channel, and a failed task does not stop the others. */
module WorkerPool {
  import opened Collections

  /** The tables of the tasks, in queue order, and the parallelism limits (absent: unlimited). */
  datatype Setup = Setup(workers: int, tasks: seq<string>, limits: map<string, nat>) {
    function Workers(): (n: nat)
      ensures n > 0
    {
      if workers < 1 then 1 else workers
    }
    /** A semaphore exists only for a positive limit. */
    predicate Limited(task: nat) { task < |tasks| && tasks[task] in limits && limits[tasks[task]] > 0 }
  }

  const MAX_CONSECUTIVE_FAILS := 5

  datatype Worker =
    | Idle
    | Taken(task: nat)              // received from the channel
    | Cooling(task: nat)            // circuit breaker
    | Waiting(task: nat)            // at the table's semaphore
    | Busy(task: nat)               // inside the pipeline, holding a token of a limited table
    | Back(task: nat, failed: bool) // the task function has returned
    | Exited

  datatype State = State(
    next: nat,                      // tasks before this one have left the channel
    workers: seq<Worker>,
    tokens: map<string, nat>,       // tokens taken from each semaphore
    fails: nat,                     // consecutive failures
    firstErr: Option<nat>,          // the task whose error Run returns
    cancelled: bool,
    calls: seq<nat>,                // how often the task function was called for each task
    failed: set<nat>)               // tasks whose call returned an error

  function Init(p: Setup): State {
    State(0, seq(p.Workers(), _ => Idle), map t | t in p.limits :: 0, 0, None, false, seq(|p.tasks|, _ => 0), {})
  }

  datatype Action =
    | Cancel
    | Take(w: nat)
    | Check(w: nat)
    | CoolDown(w: nat)
    | StopCooling(w: nat)
    | Acquire(w: nat)
    | StopWaiting(w: nat)
    | Return(w: nat, failed: bool)
    | Settle(w: nat)

  predicate Enabled(p: Setup, s: State, a: Action) {
    match a
    case Cancel => !s.cancelled
    case Take(w) => w < |s.workers| && s.workers[w].Idle?
    case Check(w) => w < |s.workers| && s.workers[w].Taken?
    case CoolDown(w) => w < |s.workers| && s.workers[w].Cooling?
    case StopCooling(w) => w < |s.workers| && s.workers[w].Cooling? && s.cancelled
    case Acquire(w) =>
      && w < |s.workers| && s.workers[w].Waiting? && s.workers[w].task < |p.tasks|
      && var t := p.tasks[s.workers[w].task]; t in s.tokens && t in p.limits && s.tokens[t] < p.limits[t]
    case StopWaiting(w) => w < |s.workers| && s.workers[w].Waiting? && s.cancelled
    case Return(w, _) => w < |s.workers| && s.workers[w].Busy?
    case Settle(w) => w < |s.workers| && s.workers[w].Back?
  }

  function Put(s: State, w: nat, worker: Worker): State
    requires w < |s.workers|
  {
    s.(workers := s.workers[w := worker])
  }

  /** The call of the task function: a limited table sends it to the semaphore first. */
  function Call(p: Setup, s: State, w: nat, task: nat): State
    requires w < |s.workers|
  {
    Put(s, w, if p.Limited(task) then Waiting(task) else Busy(task))
    .(calls := if task < |s.calls| then s.calls[task := s.calls[task] + 1] else s.calls)
  }

  function Release(p: Setup, s: State, task: nat): map<string, nat> {
    if p.Limited(task) && p.tasks[task] in s.tokens && s.tokens[p.tasks[task]] > 0
    then s.tokens[p.tasks[task] := s.tokens[p.tasks[task]] - 1] else s.tokens
  }

  function Apply(p: Setup, s: State, a: Action): State
    requires Enabled(p, s, a)
  {
    match a
    case Cancel => s.(cancelled := true)
    case Take(w) =>
      if s.next < |p.tasks| then Put(s, w, Taken(s.next)).(next := s.next + 1) else Put(s, w, Exited)
    case Check(w) =>
      var task := s.workers[w].task;
      if s.cancelled then Put(s, w, Exited)
      else if s.fails >= MAX_CONSECUTIVE_FAILS then Put(s, w, Cooling(task))
      else Call(p, s, w, task)
    case CoolDown(w) => Call(p, s, w, s.workers[w].task)
    case StopCooling(w) => Put(s, w, Exited)
    case Acquire(w) =>
      var task := s.workers[w].task;
      Put(s, w, Busy(task)).(tokens := s.tokens[p.tasks[task] := s.tokens[p.tasks[task]] + 1])
    case StopWaiting(w) =>
      var task := s.workers[w].task;
      Put(s, w, Back(task, true)).(failed := s.failed + {task})
    case Return(w, failed) =>
      var task := s.workers[w].task;
      Put(s, w, Back(task, failed)).(tokens := Release(p, s, task),
        failed := if failed then s.failed + {task} else s.failed)
    case Settle(w) =>
      var Back(task, failed) := s.workers[w];
      if !failed then Put(s, w, Idle).(fails := 0)
      else if s.cancelled then Put(s, w, Exited).(fails := s.fails + 1)
      else Put(s, w, Idle).(fails := s.fails + 1, firstErr := if s.firstErr.None? then Some(task) else s.firstErr)
  }

  /** Run has returned: all workers are gone. */
  predicate Final(s: State) { forall w :: 0 <= w < |s.workers| ==> s.workers[w].Exited? }

  // ---------- The invariant

  predicate Active(worker: Worker) { !worker.Idle? && !worker.Exited? }

  predicate Holds(worker: Worker, task: nat) { Active(worker) && worker.task == task }

  /** Is the worker inside the task function of a task of this table, past the semaphore? */
  predicate Inside(p: Setup, worker: Worker, table: string) {
    worker.Busy? && worker.task < |p.tasks| && p.tasks[worker.task] == table
  }

  function InsideCount(p: Setup, workers: seq<Worker>, table: string): nat {
    Count(workers, (k: Worker) => Inside(p, k, table))
  }

  ghost predicate WorkerOk(p: Setup, s: State, worker: Worker)
    requires |s.calls| == |p.tasks|
  {
    && (Active(worker) ==> worker.task < s.next <= |p.tasks|)
    && (worker.Taken? || worker.Cooling? ==> s.calls[worker.task] == 0 && worker.task !in s.failed)
    && (worker.Waiting? || worker.Busy? || worker.Back? ==> s.calls[worker.task] == 1)
    && (worker.Waiting? ==> p.Limited(worker.task) && worker.task !in s.failed)
    && (worker.Busy? ==> worker.task !in s.failed)
    && (worker.Back? ==> (worker.failed <==> worker.task in s.failed))
    && (worker.Exited? ==> s.cancelled || s.next == |p.tasks|)
  }

  ghost predicate TaskOk(p: Setup, s: State, task: nat)
    requires task < |s.calls|
  {
    && s.calls[task] <= 1
    && (s.next <= task ==> s.calls[task] == 0)
    && (task in s.failed ==> s.calls[task] == 1)
    && (!s.cancelled && task < s.next && s.calls[task] == 0 ==> HeldBySome(s, task))
    && (!s.cancelled && task in s.failed && s.firstErr.None? ==> HeldBySome(s, task))
  }

  ghost predicate HeldBySome(s: State, task: nat) {
    exists w :: 0 <= w < |s.workers| && Holds(s.workers[w], task)
  }

  ghost predicate TokensOk(p: Setup, s: State, table: string)
    requires table in s.tokens && table in p.limits
  {
    p.limits[table] > 0 ==> s.tokens[table] == InsideCount(p, s.workers, table) <= p.limits[table]
  }

  ghost predicate Inv(p: Setup, s: State) {
    && s.next <= |p.tasks| == |s.calls| && |s.workers| == p.Workers()
    && s.tokens.Keys == p.limits.Keys
    && (forall w :: 0 <= w < |s.workers| ==> WorkerOk(p, s, s.workers[w]))
    && (forall v, w :: 0 <= v < w < |s.workers| && Active(s.workers[v]) && Active(s.workers[w]) ==>
          s.workers[v].task != s.workers[w].task)
    && (forall t: nat :: t < |p.tasks| ==> TaskOk(p, s, t))
    && (forall t :: t in p.limits ==> TokensOk(p, s, t))
    && (forall t :: t in s.failed ==> t < |p.tasks|)
    && (s.firstErr.Some? ==> s.firstErr.value in s.failed)
  }

  lemma {:induction false} NoneInside(p: Setup, workers: seq<Worker>, table: string)
    requires forall w :: 0 <= w < |workers| ==> workers[w].Idle? || workers[w].Exited?
    ensures InsideCount(p, workers, table) == 0
  {
    CountPositive(workers, (k: Worker) => Inside(p, k, table));
  }

  lemma InitInv(p: Setup)
    ensures Inv(p, Init(p))
  {
    var s := Init(p);
    forall t | t in p.limits ensures TokensOk(p, s, t) {
      NoneInside(p, s.workers, t);
    }
  }

  /** Replacing one worker moves the count of a table by what that worker contributes. */
  lemma InsideUpdate(p: Setup, workers: seq<Worker>, w: nat, worker: Worker, table: string)
    requires w < |workers|
    ensures InsideCount(p, workers[w := worker], table) + (if Inside(p, workers[w], table) then 1 else 0)
         == InsideCount(p, workers, table) + (if Inside(p, worker, table) then 1 else 0)
  {
    CountUpdate(workers, w, worker, (k: Worker) => Inside(p, k, table));
  }

  /** The worker that takes the step. */
  function Actor(a: Action): nat
    requires !a.Cancel?
  {
    match a
    case Take(w) => w
    case Check(w) => w
    case CoolDown(w) => w
    case StopCooling(w) => w
    case Acquire(w) => w
    case StopWaiting(w) => w
    case Return(w, _) => w
    case Settle(w) => w
  }

  predicate StepOf(a: Action, w: nat) { !a.Cancel? && Actor(a) == w }

  lemma StepWorker(p: Setup, s: State, a: Action, w: nat)
    requires Inv(p, s) && Enabled(p, s, a) && StepOf(a, w) && w < |s.workers|
    ensures var s' := Apply(p, s, a);
            |s'.workers| == |s.workers| && |s'.calls| == |s.calls| && WorkerOk(p, s', s'.workers[w])
  {
    hide TokensOk, InsideCount, HeldBySome;
    assert WorkerOk(p, s, s.workers[w]);
    if s.next < |p.tasks| {
      assert TaskOk(p, s, s.next);
    }
  }

  lemma StepWorkers(p: Setup, s: State, a: Action, w: nat, v: nat)
    requires Inv(p, s) && Enabled(p, s, a) && StepOf(a, w) && v < |s.workers|
    ensures var s' := Apply(p, s, a);
            |s'.workers| == |s.workers| && |s'.calls| == |s.calls| && WorkerOk(p, s', s'.workers[v])
  {
    hide TokensOk, InsideCount, HeldBySome, TaskOk;
    if v == w {
      StepWorker(p, s, a, w);
    } else {
      assert WorkerOk(p, s, s.workers[v]);
      assert WorkerOk(p, s, s.workers[w]);
    }
  }

  /** After a step worker w has the task it had, or a fresh one, or none. */
  lemma StepOthers(p: Setup, s: State, a: Action, w: nat)
    requires Inv(p, s) && Enabled(p, s, a) && StepOf(a, w)
    ensures var s' := Apply(p, s, a);
            && w < |s.workers| == |s'.workers|
            && (forall v :: 0 <= v < |s.workers| && v != w ==> s'.workers[v] == s.workers[v])
            && (Active(s'.workers[w]) && Active(s.workers[w]) ==> s'.workers[w].task == s.workers[w].task)
            && (Active(s'.workers[w]) && !Active(s.workers[w]) ==> s'.workers[w].task == s.next)
  {}

  lemma StepDistinct(p: Setup, s: State, a: Action, w: nat)
    requires Inv(p, s) && Enabled(p, s, a) && StepOf(a, w)
    ensures var s' := Apply(p, s, a);
            forall u, v :: 0 <= u < v < |s'.workers| && Active(s'.workers[u]) && Active(s'.workers[v]) ==>
              s'.workers[u].task != s'.workers[v].task
  {
    StepOthers(p, s, a, w);
    assert forall v :: 0 <= v < |s.workers| ==> WorkerOk(p, s, s.workers[v]);
  }

  lemma StepTasks(p: Setup, s: State, a: Action, w: nat, t: nat)
    requires Inv(p, s) && Enabled(p, s, a) && StepOf(a, w) && t < |p.tasks|
    ensures |Apply(p, s, a).calls| == |p.tasks| && TaskOk(p, Apply(p, s, a), t)
  {
    var s' := Apply(p, s, a);
    assert TaskOk(p, s, t);
    StepOthers(p, s, a, w);
    assert WorkerOk(p, s, s.workers[w]);
    if HeldBySome(s, t) {
      var v :| 0 <= v < |s.workers| && Holds(s.workers[v], t);
      if v != w {
        assert Holds(s'.workers[v], t);
      }
    }
    if Active(s'.workers[w]) {
      assert Holds(s'.workers[w], s'.workers[w].task);
    }
  }

  lemma StepTokens(p: Setup, s: State, a: Action, w: nat, table: string)
    requires Inv(p, s) && Enabled(p, s, a) && StepOf(a, w) && table in p.limits
    ensures var s' := Apply(p, s, a); s'.tokens.Keys == p.limits.Keys && TokensOk(p, s', table)
  {
    var s' := Apply(p, s, a);
    assert TokensOk(p, s, table);
    assert WorkerOk(p, s, s.workers[w]);
    InsideUpdate(p, s.workers, w, s'.workers[w], table);
    if s.workers[w].Busy? && p.Limited(s.workers[w].task) {
      var mine := p.tasks[s.workers[w].task];
      assert TokensOk(p, s, mine);
      CountPositive(s.workers, (k: Worker) => Inside(p, k, mine));
      assert Inside(p, s.workers[w], mine);
    }
  }

  lemma StepKeeps(p: Setup, s: State, a: Action)
    requires Inv(p, s) && Enabled(p, s, a)
    ensures Inv(p, Apply(p, s, a))
  {
    var s' := Apply(p, s, a);
    if a.Cancel? {
      forall w | 0 <= w < |s'.workers| ensures WorkerOk(p, s', s'.workers[w]) {
        assert WorkerOk(p, s, s.workers[w]);
      }
      forall t: nat | t < |p.tasks| ensures TaskOk(p, s', t) {
        assert TaskOk(p, s, t);
      }
      forall t | t in p.limits ensures TokensOk(p, s', t) {
        assert TokensOk(p, s, t);
      }
    } else {
      var w := Actor(a);
      assert WorkerOk(p, s, s.workers[w]);
      forall v | 0 <= v < |s'.workers| ensures WorkerOk(p, s', s'.workers[v]) {
        StepWorkers(p, s, a, w, v);
      }
      StepDistinct(p, s, a, w);
      forall t: nat | t < |p.tasks| ensures TaskOk(p, s', t) {
        StepTasks(p, s, a, w, t);
      }
      forall t | t in p.limits ensures TokensOk(p, s', t) {
        StepTokens(p, s, a, w, t);
      }
    }
  }

  // ---------- Progress

  function Rank(k: Worker): nat {
    match k
    case Taken(_) => 6
    case Cooling(_) => 5
    case Waiting(_) => 4
    case Busy(_) => 3
    case Back(_, _) => 2
    case Idle => 1
    case Exited => 0
  }

  function TotalRank(workers: seq<Worker>): nat {
    if workers == [] then 0 else Rank(workers[0]) + TotalRank(workers[1..])
  }

  lemma {:induction false} RankUpdate(workers: seq<Worker>, w: nat, k: Worker)
    requires w < |workers|
    ensures TotalRank(workers[w := k]) + Rank(workers[w]) == TotalRank(workers) + Rank(k)
  {
    if w == 0 {
      assert workers[0 := k][1..] == workers[1..];
    } else {
      assert workers[w := k][1..] == workers[1..][w - 1 := k];
      RankUpdate(workers[1..], w - 1, k);
    }
  }

  /** What is left to do. */
  function Measure(p: Setup, s: State): nat
    requires s.next <= |p.tasks|
  {
    6 * (|p.tasks| - s.next) + TotalRank(s.workers) + (if s.cancelled then 0 else 1)
  }

  lemma StepRank(p: Setup, s: State, a: Action, w: nat)
    requires Inv(p, s) && Enabled(p, s, a) && StepOf(a, w)
    ensures var s' := Apply(p, s, a);
            && w < |s.workers| && s'.next <= |p.tasks| && s'.cancelled == s.cancelled
            && s'.workers == s.workers[w := s'.workers[w]]
            && Rank(s'.workers[w]) < Rank(s.workers[w]) + 6 * (s'.next - s.next)
  {}

  lemma StepProgresses(p: Setup, s: State, a: Action)
    requires Inv(p, s) && Enabled(p, s, a)
    ensures Apply(p, s, a).next <= |p.tasks| && Measure(p, Apply(p, s, a)) < Measure(p, s)
  {
    if !a.Cancel? {
      var w := Actor(a);
      StepRank(p, s, a, w);
      RankUpdate(s.workers, w, Apply(p, s, a).workers[w]);
    }
  }

  /** A worker at a semaphore waits only while all its tokens are with workers inside the table. */
  lemma SemaphoreFreesUp(p: Setup, s: State, w: nat) returns (v: nat)
    requires Inv(p, s) && w < |s.workers| && s.workers[w].Waiting? && !Enabled(p, s, Acquire(w))
    ensures v < |s.workers| && s.workers[v].Busy? && Enabled(p, s, Return(v, false))
  {
    assert WorkerOk(p, s, s.workers[w]);
    var table := p.tasks[s.workers[w].task];
    assert TokensOk(p, s, table);
    CountPositive(s.workers, (k: Worker) => Inside(p, k, table));
    v :| 0 <= v < |s.workers| && Inside(p, s.workers[v], table);
  }

  /** No state is stuck: until Run has returned some worker can go on, without any cancellation. */
  lemma NoDeadlock(p: Setup, s: State) returns (a: Action)
    requires Inv(p, s) && !Final(s)
    ensures Enabled(p, s, a) && !a.Cancel? && !a.StopCooling? && !a.StopWaiting?
  {
    var w :| 0 <= w < |s.workers| && !s.workers[w].Exited?;
    match s.workers[w]
    case Idle => a := Take(w);
    case Taken(_) => a := Check(w);
    case Cooling(_) => a := CoolDown(w);
    case Waiting(_) =>
      if Enabled(p, s, Acquire(w)) {
        a := Acquire(w);
      } else {
        var v := SemaphoreFreesUp(p, s, w);
        a := Return(v, false);
      }
    case Busy(_) => a := Return(w, false);
    case Back(_, _) => a := Settle(w);
  }

  // ---------- Runs

  predicate Valid(p: Setup, s: State, run: seq<Action>)
    decreases |run|
  {
    run == [] || (Enabled(p, s, run[0]) && Valid(p, Apply(p, s, run[0]), run[1..]))
  }

  function Exec(p: Setup, s: State, run: seq<Action>): State
    requires Valid(p, s, run)
    decreases |run|
  {
    if run == [] then s else Exec(p, Apply(p, s, run[0]), run[1..])
  }

  lemma {:induction false} RunKeeps(p: Setup, s: State, run: seq<Action>)
    requires Inv(p, s) && Valid(p, s, run)
    ensures Inv(p, Exec(p, s, run)) && |run| + Measure(p, Exec(p, s, run)) <= Measure(p, s)
    decreases |run|
  {
    if run != [] {
      StepKeeps(p, s, run[0]);
      StepProgresses(p, s, run[0]);
      RunKeeps(p, Apply(p, s, run[0]), run[1..]);
    }
  }

  /** In every interleaving no task is called twice, and inside a limited table there are never more
      workers than its limit; the tokens taken are exactly these workers. */
  lemma PoolIsSafe(p: Setup, run: seq<Action>, table: string)
    requires Valid(p, Init(p), run)
    ensures var s := Exec(p, Init(p), run);
            && |s.workers| == (if p.workers < 1 then 1 else p.workers) && |s.calls| == |p.tasks|
            && (forall t :: 0 <= t < |p.tasks| ==> s.calls[t] <= 1)
            && (table in p.limits && p.limits[table] > 0 ==>
                  table in s.tokens && s.tokens[table] == InsideCount(p, s.workers, table) <= p.limits[table])
  {
    InitInv(p);
    RunKeeps(p, Init(p), run);
    var s := Exec(p, Init(p), run);
    forall t: nat | t < |p.tasks| ensures s.calls[t] <= 1 {
      assert TaskOk(p, s, t);
    }
    if table in p.limits {
      assert TokensOk(p, s, table);
    }
  }

  lemma {:induction false} IdleRank(workers: seq<Worker>)
    requires forall w :: 0 <= w < |workers| ==> workers[w].Idle?
    ensures TotalRank(workers) == |workers|
  {
    if workers != [] {
      IdleRank(workers[1..]);
    }
  }

  /** Every run is finite, and one that cannot go on has ended. */
  lemma PoolTerminates(p: Setup, run: seq<Action>)
    requires Valid(p, Init(p), run)
    ensures |run| <= 6 * |p.tasks| + p.Workers() + 1
    ensures (forall a :: !Enabled(p, Exec(p, Init(p), run), a)) ==> Final(Exec(p, Init(p), run))
  {
    InitInv(p);
    RunKeeps(p, Init(p), run);
    IdleRank(Init(p).workers);
    if !Final(Exec(p, Init(p), run)) {
      var a := NoDeadlock(p, Exec(p, Init(p), run));
    }
  }

  // ---------- Which error is returned, and when workers cool down

  /** The step settles a failed task before any cancellation. */
  predicate Reports(s: State, a: Action) {
    a.Settle? && a.w < |s.workers| && s.workers[a.w].Back? && s.workers[a.w].failed && !s.cancelled
  }

  /** The task of the first such step of a run. */
  function FirstReport(p: Setup, s: State, run: seq<Action>): Option<nat>
    requires Valid(p, s, run)
    decreases |run|
  {
    if run == [] then None
    else if Reports(s, run[0]) then Some(s.workers[run[0].w].task)
    else FirstReport(p, Apply(p, s, run[0]), run[1..])
  }

  /** Once there is an error, it stays; otherwise the first failure that is settled without a cancellation gives it. */
  lemma {:induction false} FirstErrorIs(p: Setup, s: State, run: seq<Action>)
    requires Valid(p, s, run)
    ensures Exec(p, s, run).firstErr == if s.firstErr.Some? then s.firstErr else FirstReport(p, s, run)
    decreases |run|
  {
    if run != [] {
      FirstErrorIs(p, Apply(p, s, run[0]), run[1..]);
    }
  }

  /** How many tasks in a row were settled as failed at the end of a run, if n were before it. */
  function Streak(p: Setup, s: State, run: seq<Action>, n: nat): nat
    requires Valid(p, s, run)
    decreases |run|
  {
    if run == [] then n
    else
      var a := run[0];
      Streak(p, Apply(p, s, a), run[1..], if !a.Settle? then n else if s.workers[a.w].failed then n + 1 else 0)
  }

  lemma {:induction false} FailsAre(p: Setup, s: State, run: seq<Action>)
    requires Valid(p, s, run)
    ensures Exec(p, s, run).fails == Streak(p, s, run, s.fails)
    decreases |run|
  {
    if run != [] {
      FailsAre(p, Apply(p, s, run[0]), run[1..]);
    }
  }

  /** After five or more failures in a row a worker cools down before it calls the task function, and otherwise it does
      not; after a cancellation it does neither. */
  lemma BreaksCircuit(p: Setup, run: seq<Action>, w: nat)
    requires Valid(p, Init(p), run) && Enabled(p, Exec(p, Init(p), run), Check(w))
    ensures var s := Exec(p, Init(p), run);
            var s', task := Apply(p, s, Check(w)), s.workers[w].task;
            if s.cancelled then s'.workers[w].Exited? && s'.calls == s.calls
            else if Streak(p, Init(p), run, 0) >= 5 then s'.workers[w] == Cooling(task) && s'.calls == s.calls
            else task < |s.calls| && s'.calls[task] == s.calls[task] + 1
  {
    FailsAre(p, Init(p), run);
    InitInv(p);
    RunKeeps(p, Init(p), run);
    var s := Exec(p, Init(p), run);
    assert WorkerOk(p, s, s.workers[w]);
  }

  /** When Run returns without having been cancelled, every task has been called exactly once, despite
      any failures, and the returned error is nil if and only if no task failed. */
  lemma PoolIsComplete(p: Setup, run: seq<Action>)
    requires Valid(p, Init(p), run)
    requires var s := Exec(p, Init(p), run); Final(s) && !s.cancelled
    ensures var s := Exec(p, Init(p), run);
            && |s.calls| == |p.tasks|
            && (forall t :: 0 <= t < |p.tasks| ==> s.calls[t] == 1)
            && (s.firstErr.None? <==> s.failed == {}) && s.firstErr == FirstReport(p, Init(p), run)
            && (forall table :: table in p.limits && p.limits[table] > 0 ==> table in s.tokens && s.tokens[table] == 0)
  {
    InitInv(p);
    RunKeeps(p, Init(p), run);
    FirstErrorIs(p, Init(p), run);
    var s := Exec(p, Init(p), run);
    assert WorkerOk(p, s, s.workers[0]);
    forall t: nat | t < |p.tasks| ensures s.calls[t] == 1 && (t in s.failed ==> s.firstErr.Some?) {
      assert TaskOk(p, s, t);
      assert !HeldBySome(s, t);
    }
    forall table | table in p.limits && p.limits[table] > 0 ensures table in s.tokens && s.tokens[table] == 0 {
      assert TokensOk(p, s, table);
      NoneInside(p, s.workers, table);
    }
  }

  /** A cancelled pool can return no error although it has called nothing, for any tasks at all. */
  lemma CancelledPoolReportsNothing(p: Setup) returns (run: seq<Action>)
    ensures Valid(p, Init(p), run)
    ensures var s := Exec(p, Init(p), run);
            Final(s) && s.firstErr.None? && forall t :: 0 <= t < |s.calls| ==> s.calls[t] == 0
  {
    InitInv(p);
    var s := Apply(p, Init(p), Cancel);
    StepKeeps(p, Init(p), Cancel);
    var rest := DrainCancelled(p, s, 0);
    run := [Cancel] + rest;
  }

  lemma {:induction false} DrainCancelled(p: Setup, s: State, w: nat) returns (run: seq<Action>)
    requires Inv(p, s) && s.cancelled && s.firstErr.None? && w <= |s.workers|
    requires forall v :: 0 <= v < |s.workers| ==> if v < w then s.workers[v].Exited? else s.workers[v].Idle?
    requires forall t :: 0 <= t < |s.calls| ==> s.calls[t] == 0
    ensures Valid(p, s, run)
    ensures var s' := Exec(p, s, run);
            Final(s') && s'.firstErr.None? && forall t :: 0 <= t < |s'.calls| ==> s'.calls[t] == 0
    decreases |s.workers| - w
  {
    if w == |s.workers| {
      run := [];
    } else {
      var s1 := Apply(p, s, Take(w));
      StepKeeps(p, s, Take(w));
      if s1.workers[w].Exited? {
        var rest := DrainCancelled(p, s1, w + 1);
        run := [Take(w)] + rest;
      } else {
        var s2 := Apply(p, s1, Check(w));
        StepKeeps(p, s1, Check(w));
        var rest := DrainCancelled(p, s2, w + 1);
        run := [Take(w), Check(w)] + rest;
        assert run[1..] == [Check(w)] + rest;
        assert run[1..][1..] == rest;
      }
    }
  }
}
