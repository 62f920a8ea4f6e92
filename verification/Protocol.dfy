/** A migration run as a state machine: initJobs, the DDL phase, the data phase and any number of
    crashes and resumes. Every write to the job store or to the target is one step, and the process
    may stop between any two of them. */
module Protocol {
  import opened Collections
  import opened JobStore
  import Keys

  /** A row of the target, standing for the source row it was made from. */
  type Row = nat

  /** A physical relation of the target: a table, or one partition of it. */
  datatype Relation = Relation(table: string, part: Option<string>)

  type Target = map<Relation, multiset<Row>>

  function At(target: Target, r: Relation): multiset<Row> {
    if r in target then target[r] else multiset{}
  }

  function TruncateTable(target: Target, table: string): Target {
    map r | r in target && r.table != table :: target[r]
  }

  function TruncateRelation(target: Target, r: Relation): Target { target - {r} }

  function Insert(target: Target, r: Relation, rows: multiset<Row>): Target {
    target[r := At(target, r) + rows]
  }

  /** A task of the plan and the source rows it selects. */
  datatype CopyTask = CopyTask(id: Keys.TaskId, rows: multiset<Row>)

  function Rel(t: CopyTask): Relation { Relation(t.id.table, t.id.part) }

  predicate IsSubChunk(t: CopyTask) { t.id.part.Some? && t.id.chunk.Some? }

  predicate IsTableChunk(t: CopyTask) { t.id.part.None? && t.id.chunk.Some? }

  /** What the planner guarantees: a table is copied either whole, or in partitions, or in chunks,
      and only chunks share a relation. Partition names are proper and none is called "chunk". */
  ghost predicate PlanShape(plan: seq<CopyTask>) {
    && (forall i :: 0 <= i < |plan| ==> Keys.ProperName(plan[i].id.part) && plan[i].id.part != Some("chunk"))
    && (forall i, j :: 0 <= i < j < |plan| && plan[i].id.table == plan[j].id.table ==>
          && (plan[i].id.part.None? <==> plan[j].id.part.None?)
          && (Rel(plan[i]) == Rel(plan[j]) ==> plan[i].id.chunk.Some? && plan[j].id.chunk.Some?))
  }

  /** What a worker is doing for a job. */
  datatype Stage = Cleaning | Copying | Broken | Copied
  datatype Activity = Activity(stage: Stage, tries: nat, retry: bool)

  const MAX_PIPELINE_RETRIES := 3

  datatype Process =
    | Down
    | Creating
    | Ddl(emptied: set<string>)
    | Marked
    | Resetting(tables: set<string>, current: Option<string>, cursor: nat)
    | Data(pending: map<nat, bool>, active: map<nat, Activity>, written: seq<multiset<Row>>)

  datatype World = World(ddl: map<string, JobState>, jobs: seq<Job>, target: Target, proc: Process)

  datatype Action =
    | Crash
    | CreateJob
    | BeginDdl
    | DdlStart(table: string)
    | DdlEmpty(table: string)
    | DdlDone(table: string)
    | BeginData
    | Resume
    | ListChunks
    | ResetTruncate(table: string)
    | ResetJob
    | Start(j: nat)
    | Clean(j: nat)
    | Commit(j: nat, batch: multiset<Row>)
    | Finish(j: nat)
    | Break(j: nat)
    | Retry(j: nat)
    | RecordCompleted(j: nat)
    | RecordFailed(j: nat)
    | Abandon(j: nat)

  function Tables(plan: seq<CopyTask>): set<string> {
    set i | 0 <= i < |plan| :: plan[i].id.table
  }

  /** The state in which Run enters initJobs: the target still holds whatever was there before. */
  function Init(plan: seq<CopyTask>, before: Target): World {
    World(map t | t in Tables(plan) :: Pending, [], before, Creating)
  }

  /** Does the reset treat job i as a chunk of the table? */
  predicate ChunkOf(jobs: seq<Job>, i: nat, table: string) {
    i < |jobs| && Keys.IsResettable(jobs[i].partition) && jobs[i].table == table
  }

  /** The tables of which some chunk is marked for a retry. */
  function TablesToReset(jobs: seq<Job>): set<string> {
    set i | 0 <= i < |jobs| && Keys.IsResettable(jobs[i].partition) && jobs[i].state == Retrying :: jobs[i].table
  }

  /** The jobs the data phase lists, with the flag that sends a worker through the retry cleanup. */
  function Listed(jobs: seq<Job>): map<nat, bool> {
    map i: nat | i < |jobs| && Awaiting(jobs[i]) :: jobs[i].state == Retrying
  }

  /** The rows the completed jobs account for. */
  function Shares(plan: seq<CopyTask>, jobs: seq<Job>): seq<multiset<Row>> {
    seq(|plan|, i requires 0 <= i < |plan| =>
      if i < |jobs| && jobs[i].state == Completed then plan[i].rows else multiset{})
  }

  predicate Working(w: World, j: nat, stage: Stage) {
    w.proc.Data? && j in w.proc.active && w.proc.active[j].stage == stage
  }

  /** Which steps can happen. */
  predicate Enabled(plan: seq<CopyTask>, w: World, a: Action) {
    match a
    case Crash => true
    case CreateJob => w.proc.Creating? && |w.jobs| < |plan|
    case BeginDdl => w.proc.Creating? && |w.jobs| == |plan|
    case DdlStart(t) => w.proc.Ddl? && t in w.ddl && w.ddl[t] == Pending
    case DdlEmpty(t) => w.proc.Ddl? && t in w.ddl && w.ddl[t] == Running
    case DdlDone(t) => w.proc.Ddl? && t in w.ddl && w.ddl[t] == Running && t in w.proc.emptied
    case BeginData =>
      || (w.proc.Ddl? && forall t :: t in w.ddl ==> w.ddl[t] == Completed)
      || (w.proc.Resetting? && w.proc.tables == {})
    case Resume => w.proc.Down?
    case ListChunks => w.proc.Marked?
    case ResetTruncate(t) => w.proc.Resetting? && w.proc.current.None? && t in w.proc.tables
    case ResetJob => w.proc.Resetting? && w.proc.current.Some?
    case Start(j) => w.proc.Data? && j in w.proc.pending && j < |w.jobs|
    case Clean(j) => Working(w, j, Cleaning) && j < |plan|
    case Commit(j, b) => Working(w, j, Copying) && j < |plan| && |w.proc.written| == |plan|
        && w.proc.written[j] + b <= plan[j].rows
    case Finish(j) => Working(w, j, Copying) && j < |plan| && |w.proc.written| == |plan|
        && w.proc.written[j] == plan[j].rows
    case Break(j) => Working(w, j, Copying)
    case Retry(j) =>
      && Working(w, j, Broken) && j < |plan| && |w.proc.written| == |plan|
      && plan[j].id.chunk.None? && w.proc.active[j].tries < MAX_PIPELINE_RETRIES
    case RecordCompleted(j) => Working(w, j, Copied) && j < |w.jobs| && j < |plan|
    case RecordFailed(j) => Working(w, j, Broken) && j < |w.jobs|
    case Abandon(j) => Working(w, j, Broken) || Working(w, j, Copied)
  }

  /** The cleanup before a task is copied again. */
  function Cleaned(t: CopyTask, target: Target): Target {
    if t.id.chunk.Some? then target
    else if t.id.part.Some? then TruncateRelation(target, Rel(t))
    else TruncateTable(target, t.id.table)
  }

  function SetStage(p: Process, j: nat, stage: Stage): Process
    requires p.Data? && j in p.active
  {
    p.(active := p.active[j := p.active[j].(stage := stage)])
  }

  /** What a step does. */
  function Apply(plan: seq<CopyTask>, w: World, a: Action): World
    requires Enabled(plan, w, a)
  {
    match a
    case Crash => w.(proc := Down)
    case CreateJob =>
      var id := plan[|w.jobs|].id;
      w.(jobs := w.jobs + [NewJob(id.table, Keys.JobPartitionKey(id))])
    case BeginDdl => w.(proc := Ddl({}))
    case DdlStart(t) => w.(ddl := w.ddl[t := Running])
    case DdlEmpty(t) => w.(target := TruncateTable(w.target, t), proc := Ddl(w.proc.emptied + {t}))
    case DdlDone(t) => w.(ddl := w.ddl[t := Completed])
    case BeginData => w.(proc := Data(Listed(w.jobs), map[], Shares(plan, w.jobs)))
    case Resume =>
      w.(jobs := RevivedAll(w.jobs),
         ddl := (map t | t in w.ddl :: if w.ddl[t] == Running then Retrying else w.ddl[t]),
         proc := Marked)
    case ListChunks => w.(proc := Resetting(TablesToReset(w.jobs), None, 0))
    case ResetTruncate(t) =>
      w.(target := TruncateTable(w.target, t), proc := w.proc.(current := Some(t), cursor := 0))
    case ResetJob =>
      var Resetting(tables, current, i) := w.proc;
      if i < |w.jobs| then
        w.(jobs := if ChunkOf(w.jobs, i, current.value) then w.jobs[i := w.jobs[i].(state := Retrying)] else w.jobs,
           proc := Resetting(tables, current, i + 1))
      else
        w.(proc := Resetting(tables - {current.value}, None, 0))
    case Start(j) =>
      w.(jobs := w.jobs[j := Started(w.jobs[j])],
         proc := w.proc.(pending := w.proc.pending - {j},
                         active := w.proc.active[j := Activity(Cleaning, 0, w.proc.pending[j])]))
    case Clean(j) =>
      w.(target := if w.proc.active[j].retry then Cleaned(plan[j], w.target) else w.target,
         proc := SetStage(w.proc, j, Copying))
    case Commit(j, b) =>
      w.(target := Insert(w.target, Rel(plan[j]), b),
         proc := w.proc.(written := w.proc.written[j := w.proc.written[j] + b]))
    case Finish(j) => w.(proc := SetStage(w.proc, j, Copied))
    case Break(j) => w.(proc := SetStage(w.proc, j, Broken))
    case Retry(j) =>
      w.(target := Cleaned(plan[j], w.target),
         proc := w.proc.(written := w.proc.written[j := multiset{}],
                         active := w.proc.active[j := Activity(Copying, w.proc.active[j].tries + 1,
                           w.proc.active[j].retry)]))
    case RecordCompleted(j) =>
      w.(jobs := w.jobs[j := Done(w.jobs[j], |plan[j].rows|)],
         proc := w.proc.(active := w.proc.active - {j}))
    case RecordFailed(j) =>
      w.(jobs := w.jobs[j := w.jobs[j].(state := Failed)],
         proc := w.proc.(active := w.proc.active - {j}))
    case Abandon(j) => w.(proc := w.proc.(active := w.proc.active - {j}))
  }

  /** A run is a list of steps, each enabled when it is taken. */
  predicate Valid(plan: seq<CopyTask>, w: World, run: seq<Action>)
    decreases |run|
  {
    run == [] || (Enabled(plan, w, run[0]) && Valid(plan, Apply(plan, w, run[0]), run[1..]))
  }

  function Exec(plan: seq<CopyTask>, w: World, run: seq<Action>): World
    requires Valid(plan, w, run)
    decreases |run|
  {
    if run == [] then w else Exec(plan, Apply(plan, w, run[0]), run[1..])
  }

  /** Everything that the first n tasks hold in a relation. */
  function Total(plan: seq<CopyTask>, share: seq<multiset<Row>>, r: Relation, n: nat): multiset<Row>
    requires n <= |plan| == |share|
  {
    if n == 0 then multiset{}
    else Total(plan, share, r, n - 1) + (if Rel(plan[n - 1]) == r then share[n - 1] else multiset{})
  }

  function Selected(plan: seq<CopyTask>): seq<multiset<Row>> {
    seq(|plan|, i requires 0 <= i < |plan| => plan[i].rows)
  }

  /** The rows the plan selects for a relation, each as often as there are tasks selecting it. */
  function Wanted(plan: seq<CopyTask>, r: Relation): multiset<Row> {
    Total(plan, Selected(plan), r, |plan|)
  }

  /** The jobs that were created for a relation are all completed. */
  ghost predicate StoredCompleted(plan: seq<CopyTask>, w: World, r: Relation) {
    forall i :: 0 <= i < |plan| && i < |w.jobs| && Rel(plan[i]) == r ==> w.jobs[i].state == Completed
  }

  /** Each task of a relation has a job, and these jobs are all completed. */
  ghost predicate AllCompleted(plan: seq<CopyTask>, w: World, r: Relation) {
    StoredCompleted(plan, w, r) && forall i :: 0 <= i < |plan| && Rel(plan[i]) == r ==> i < |w.jobs|
  }
}
