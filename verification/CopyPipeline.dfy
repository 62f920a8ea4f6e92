/** CopyData: a reader that batches the rows coming from Oracle and a writer that commits the batches
    to PostgreSQL, joined by a bounded channel, a one-slot error channel and a one-slot result
    channel. The two run as interleaved steps; whoever is ready may go next. */
module CopyPipeline {
  import opened Collections

  // ---------- Rows

  datatype Value = Null | Text(s: string) | Bytes(b: seq<int>) | Other(n: int)

  type Row = seq<Value>

  /** Oracle treats an empty string or raw value as NULL. */
  function TransformValue(v: Value): Value {
    match v
    case Text(s) => if s == "" then Null else v
    case Bytes(b) => if b == [] then Null else v
    case _ => v
  }

  function TransformRow(row: Row): Row {
    seq(|row|, i requires 0 <= i < |row| => TransformValue(row[i]))
  }

  function TransformRows(rows: seq<Row>): seq<Row> {
    seq(|rows|, i requires 0 <= i < |rows| => TransformRow(rows[i]))
  }

  /** What a cell of the source is in the target: empty texts and raw values are NULL, and all else stays. */
  ghost predicate CellArrives(v: Value, w: Value) {
    if v == Null || v == Text("") || v == Bytes([]) then w == Null else w == v
  }

  /** The target rows are the first of the source rows, in their order, cell by cell. */
  ghost predicate Arrived(rows: seq<Row>, target: seq<Row>) {
    && |target| <= |rows|
    && forall i :: 0 <= i < |target| ==>
         |target[i]| == |rows[i]| && forall k :: 0 <= k < |rows[i]| ==> CellArrives(rows[i][k], target[i][k])
  }

  lemma PrefixArrives(rows: seq<Row>, target: seq<Row>)
    requires target <= TransformRows(rows)
    ensures Arrived(rows, target)
  {
    forall i | 0 <= i < |target|
      ensures |target[i]| == |rows[i]| && forall k :: 0 <= k < |rows[i]| ==> CellArrives(rows[i][k], target[i][k])
    {
      assert target[i] == TransformRow(rows[i]);
    }
  }

  function ValueBytes(v: Value): nat {
    match v
    case Null => 4
    case Text(s) => |s|
    case Bytes(b) => |b|
    case Other(_) => 16
  }

  function RowBytes(row: Row): nat {
    if row == [] then 0 else ValueBytes(row[0]) + RowBytes(row[1..])
  }

  // ---------- The two goroutines

  const MAX_RETRIES := 3

  datatype Fault = Cancelled | SourceFailed | WriterGaveUp

  /** What the row channel delivers: the rows, and then an error or the end. */
  datatype Source = Source(rows: seq<Row>, fails: bool)

  datatype Config = Config(batchSize: int, maxBatchBytes: int, unlogged: bool) {
    function Limit(): (n: nat)
      ensures n > 0
    {
      if batchSize <= 0 then 50000 else batchSize
    }
    function Capacity(): (n: nat)
      ensures n > 0
    {
      if unlogged then 4 else 2
    }
    predicate Full(rows: nat, bytes: nat) {
      rows >= Limit() || (maxBatchBytes > 0 && bytes >= maxBatchBytes)
    }
  }

  datatype Outcome = Copied(rows: nat) | Error(fault: Fault) | NotConnected

  datatype Reader = Reading | Sending | SendingLast | Closing | Waiting | Returned(outcome: Outcome)

  datatype Operation = Pause | Acquire | Configure | Begin | Copy | Commit

  datatype Writer =
    | Receiving
    | Attempting(rows: seq<Row>, attempt: nat, op: Operation)
    | Failing
    | Draining
    | Finishing
    | Exited

  datatype WriteResult = WriteResult(totalRows: nat, err: Option<Fault>)

  datatype State = State(
    pos: nat,                       // rows taken from the source
    batch: seq<Row>,                // the reader's batch
    batchBytes: nat,
    readErr: Option<Fault>,
    reader: Reader,
    batchCh: seq<seq<Row>>,
    closes: nat,                    // how often batchCh was closed
    errCh: Option<Fault>,
    errSends: nat,
    doneCh: Option<WriteResult>,
    doneSends: nat,
    writer: Writer,
    wr: WriteResult,
    committed: seq<Row>,            // what the target has gained
    cancelled: bool,
    panicked: bool)                 // a send on or a close of a closed channel

  const INIT := State(0, [], 0, None, Reading, [], 0, None, 0, None, 0, Receiving, WriteResult(0, None), [], false,
    false)

  /** The cases a step can choose from: the operation goes ahead, it fails, the cancellation is
      noticed, the writer's error is noticed. */
  datatype Choice = Go | Fail | SeeCancel | SeeError

  datatype Action = Cancel | Read(choice: Choice) | Write(choice: Choice)

  predicate ReaderReady(c: Config, src: Source, s: State, choice: Choice) {
    match s.reader
    case Reading => choice == Go || (choice == SeeCancel && s.cancelled) || (choice == SeeError && s.errCh.Some?)
    case Sending => (choice == Go && |s.batchCh| < c.Capacity()) || (choice == SeeCancel && s.cancelled)
        || (choice == SeeError && s.errCh.Some?)
    case SendingLast => (choice == Go && |s.batchCh| < c.Capacity()) || (choice == SeeCancel && s.cancelled)
        || (choice == SeeError && s.errCh.Some?)
    case Closing => choice == Go
    case Waiting => choice == Go && s.doneCh.Some?
    case Returned(_) => false
  }

  /** Leaves the read loop. */
  function Stop(s: State, fault: Fault): State { s.(readErr := Some(fault), reader := Closing) }

  function Send(s: State, next: Reader): State {
    if s.closes > 0 then s.(panicked := true)
    else s.(batchCh := s.batchCh + [s.batch], batch := [], batchBytes := 0, reader := next)
  }

  function TakeRow(c: Config, src: Source, s: State): State
    requires s.pos < |src.rows|
  {
    var row := TransformRow(src.rows[s.pos]);
    var bytes := if c.maxBatchBytes > 0 then s.batchBytes + RowBytes(row) else s.batchBytes;
    s.(pos := s.pos + 1, batch := s.batch + [row], batchBytes := bytes,
       reader := if c.Full(|s.batch| + 1, bytes) then Sending else Reading)
  }

  function ReaderStep(c: Config, src: Source, s: State, choice: Choice): State
    requires ReaderReady(c, src, s, choice)
  {
    if choice == SeeCancel then Stop(s, Cancelled)
    else if choice == SeeError then Stop(s, s.errCh.value).(errCh := None)
    else
      match s.reader
      case Reading =>
        if s.pos < |src.rows| then TakeRow(c, src, s)
        else if src.fails then Stop(s, SourceFailed)
        else s.(reader := if |s.batch| > 0 then SendingLast else Closing)
      case Sending => Send(s, Reading)
      case SendingLast => Send(s, Closing)
      case Closing => if s.closes > 0 then s.(panicked := true) else s.(closes := s.closes + 1, reader := Waiting)
      case Waiting =>
        var wr := s.doneCh.value;
        s.(doneCh := None,
           reader := Returned(if s.readErr.Some? then Error(s.readErr.value)
                              else if wr.err.Some? then Error(wr.err.value)
                              else Copied(wr.totalRows)))
  }

  predicate WriterReady(s: State, choice: Choice) {
    match s.writer
    case Receiving => choice == Go && (s.batchCh != [] || s.closes > 0)
    case Attempting(_, _, op) => choice == Go
        || (if op.Pause? then choice == SeeCancel && s.cancelled else choice == Fail)
    case Failing => choice == Go && s.errCh.None?
    case Draining => choice == Go && (s.batchCh != [] || s.closes > 0)
    case Finishing => choice == Go && s.doneCh.None?
    case Exited => false
  }

  function GiveUp(s: State, fault: Fault): State { s.(wr := s.wr.(err := Some(fault)), writer := Failing) }

  /** The next attempt at the same batch, if there is one left. */
  function NextAttempt(s: State): State
    requires s.writer.Attempting?
  {
    if s.writer.attempt >= MAX_RETRIES then GiveUp(s, WriterGaveUp)
    else s.(writer := Attempting(s.writer.rows, s.writer.attempt + 1, Pause))
  }

  function WriterStep(c: Config, s: State, choice: Choice): State
    requires WriterReady(s, choice)
  {
    match s.writer
    case Receiving =>
      if s.batchCh != [] then s.(writer := Attempting(s.batchCh[0], 0, Begin), batchCh := s.batchCh[1..])
      else s.(writer := Finishing)
    case Attempting(rows, attempt, op) =>
      if choice == SeeCancel then GiveUp(s, Cancelled)
      else if choice == Fail then NextAttempt(s)
      else (
        match op
        case Pause => s.(writer := Attempting(rows, attempt, Acquire))
        case Acquire => s.(writer := Attempting(rows, attempt, if c.unlogged then Begin else Configure))
        case Configure => s.(writer := Attempting(rows, attempt, Begin))
        case Begin => s.(writer := Attempting(rows, attempt, Copy))
        case Copy => s.(writer := Attempting(rows, attempt, Commit))
        case Commit =>
          s.(committed := s.committed + rows, wr := s.wr.(totalRows := s.wr.totalRows + |rows|), writer := Receiving))
    case Failing => s.(errCh := s.wr.err, errSends := s.errSends + 1, writer := Draining)
    case Draining =>
      if s.batchCh != [] then s.(batchCh := s.batchCh[1..]) else s.(writer := Finishing)
    case Finishing => s.(doneCh := Some(s.wr), doneSends := s.doneSends + 1, writer := Exited)
  }

  predicate Enabled(c: Config, src: Source, s: State, a: Action) {
    match a
    case Cancel => !s.cancelled && !Final(s)
    case Read(choice) => ReaderReady(c, src, s, choice)
    case Write(choice) => WriterReady(s, choice)
  }

  function Apply(c: Config, src: Source, s: State, a: Action): State
    requires Enabled(c, src, s, a)
  {
    match a
    case Cancel => s.(cancelled := true)
    case Read(choice) => ReaderStep(c, src, s, choice)
    case Write(choice) => WriterStep(c, s, choice)
  }

  /** CopyData has returned and its goroutine is gone. */
  predicate Final(s: State) { s.reader.Returned? && s.writer.Exited? }

  // ---------- The invariant

  function InHand(w: Writer): seq<Row> { if w.Attempting? then w.rows else [] }

  ghost predicate GoodBatch(c: Config, b: seq<Row>) { 0 < |b| <= c.Limit() }

  ghost predicate Batches(c: Config, src: Source, s: State) {
    && s.pos <= |src.rows| && |s.batchCh| <= c.Capacity() && |s.batch| <= c.Limit()
    && (forall i :: 0 <= i < |s.batchCh| ==> GoodBatch(c, s.batchCh[i]))
    && (s.writer.Attempting? ==> GoodBatch(c, s.writer.rows) && s.writer.attempt <= MAX_RETRIES)
    && (s.reader.Reading? ==> |s.batch| < c.Limit())
    && (s.reader.Sending? || s.reader.SendingLast? ==> |s.batch| > 0)
  }

  ghost predicate Channels(s: State) {
    && !s.panicked
    && s.closes == (if s.reader.Waiting? || s.reader.Returned? then 1 else 0)
    && s.errSends <= 1 && s.doneSends == (if s.writer.Exited? then 1 else 0)
    && (s.errCh.Some? ==> s.errSends == 1)
    && (s.errSends == 1 ==> s.wr.err.Some? && !s.writer.Failing?)
    && (s.writer.Receiving? || s.writer.Attempting? ==> s.wr.err.None?)
    && (s.writer.Failing? ==> s.wr.err.Some?)
    && (s.writer.Draining? ==> s.errSends == 1)
    && (s.writer.Finishing? || s.writer.Exited? ==> s.closes == 1 && s.batchCh == [])
    && (s.doneCh.Some? ==> s.writer.Exited? && s.doneCh.value == s.wr)
    && (s.writer.Exited? && !s.reader.Returned? ==> s.doneCh.Some?)
    && (s.reader.Returned? ==> s.writer.Exited? && s.doneCh.None?)
  }

  ghost predicate Contents(src: Source, s: State)
    requires s.pos <= |src.rows|
  {
    && s.wr.totalRows == |s.committed|
    && s.committed <= TransformRows(src.rows[..s.pos])
    && (s.wr.err.None? ==>
          s.committed + InHand(s.writer) + Flatten(s.batchCh) + s.batch == TransformRows(src.rows[..s.pos]))
  }

  ghost predicate Verdicts(src: Source, s: State) {
    && (s.reader.Reading? || s.reader.Sending? || s.reader.SendingLast? ==> s.readErr.None?)
    && (s.readErr.None? && !s.reader.Reading? && !s.reader.Sending? ==> s.pos == |src.rows| && !src.fails)
    && (s.readErr.None? && (s.reader.Closing? || s.reader.Waiting?) ==> s.batch == [])
    && (s.readErr == Some(Cancelled) || s.wr.err == Some(Cancelled) || s.errCh == Some(Cancelled) ==> s.cancelled)
    && (s.readErr == Some(SourceFailed) ==> src.fails)
    && (s.readErr == Some(WriterGaveUp) || s.errCh == Some(WriterGaveUp) ==> s.wr.err == Some(WriterGaveUp))
    && s.wr.err != Some(SourceFailed) && s.errCh != Some(SourceFailed)
    && (s.reader.Returned? ==> Justified(src, s, s.reader.outcome))
  }

  /** What CopyData's result means. */
  ghost predicate Justified(src: Source, s: State, outcome: Outcome) {
    match outcome
    case Copied(n) => s.committed == TransformRows(src.rows) && n == |src.rows| && !src.fails
    case Error(Cancelled) => s.cancelled
    case Error(SourceFailed) => src.fails
    case Error(WriterGaveUp) => s.wr.err == Some(WriterGaveUp)
    case NotConnected => false
  }

  ghost predicate Inv(c: Config, src: Source, s: State) {
    Batches(c, src, s) && Channels(s) && Contents(src, s) && Verdicts(src, s)
  }

  lemma InitInv(c: Config, src: Source)
    ensures Inv(c, src, INIT)
  {}

  lemma TakeRowContents(src: Source, s: State, batch: seq<Row>)
    requires s.pos < |src.rows| && Contents(src, s)
    requires batch == s.batch + [TransformRow(src.rows[s.pos])]
    ensures s.committed <= TransformRows(src.rows[..s.pos + 1])
    ensures s.wr.err.None?
            ==> s.committed + InHand(s.writer) + Flatten(s.batchCh) + batch == TransformRows(src.rows[..s.pos + 1])
  {
    var more := TransformRows(src.rows[..s.pos + 1]);
    assert more == TransformRows(src.rows[..s.pos]) + [TransformRow(src.rows[s.pos])];
    if s.wr.err.None? {
      var head := s.committed + InHand(s.writer) + Flatten(s.batchCh);
      assert head + batch == (head + s.batch) + [TransformRow(src.rows[s.pos])];
    }
  }

  lemma ReaderStops(c: Config, src: Source, s: State, choice: Choice)
    requires Inv(c, src, s) && ReaderReady(c, src, s, choice) && choice != Go
    ensures Inv(c, src, ReaderStep(c, src, s, choice))
  {}

  lemma ReaderReads(c: Config, src: Source, s: State)
    requires Inv(c, src, s) && s.reader.Reading?
    ensures Inv(c, src, ReaderStep(c, src, s, Go))
  {
    if s.pos < |src.rows| {
      TakeRowContents(src, s, ReaderStep(c, src, s, Go).batch);
    }
  }

  lemma ReaderSends(c: Config, src: Source, s: State)
    requires Inv(c, src, s) && (s.reader.Sending? || s.reader.SendingLast?) && |s.batchCh| < c.Capacity()
    ensures Inv(c, src, ReaderStep(c, src, s, Go))
  {
    SendContents(src, s);
  }

  lemma ReaderReturns(c: Config, src: Source, s: State)
    requires Inv(c, src, s) && s.reader.Waiting? && s.doneCh.Some?
    ensures Inv(c, src, ReaderStep(c, src, s, Go))
  {
    if s.readErr.None? && s.wr.err.None? {
      assert src.rows[..s.pos] == src.rows;
      assert s.committed + [] + [] + [] == s.committed;
      assert Flatten<Row>([]) == [];
    }
  }

  lemma ReaderKeeps(c: Config, src: Source, s: State, choice: Choice)
    requires Inv(c, src, s) && ReaderReady(c, src, s, choice)
    ensures Inv(c, src, ReaderStep(c, src, s, choice))
  {
    if choice == Go {
      match s.reader
      case Reading => ReaderReads(c, src, s);
      case Sending => ReaderSends(c, src, s);
      case SendingLast => ReaderSends(c, src, s);
      case Closing =>
      case Waiting => ReaderReturns(c, src, s);
    } else {
      ReaderStops(c, src, s, choice);
    }
  }

  lemma SendContents(src: Source, s: State)
    requires s.pos <= |src.rows| && Contents(src, s)
    ensures s.wr.err.None? ==>
              s.committed + InHand(s.writer) + Flatten(s.batchCh + [s.batch]) + [] == TransformRows(src.rows[..s.pos])
  {
    FlattenSingle(s.batchCh, s.batch);
    var head := s.committed + InHand(s.writer);
    assert head + (Flatten(s.batchCh) + s.batch) == head + Flatten(s.batchCh) + s.batch;
  }

  lemma WriterBatches(c: Config, src: Source, s: State, choice: Choice)
    requires Batches(c, src, s) && Channels(s) && WriterReady(s, choice)
    ensures Batches(c, src, WriterStep(c, s, choice)) && Channels(WriterStep(c, s, choice))
  {}

  lemma ReceiveContents(src: Source, s: State)
    requires s.pos <= |src.rows| && Contents(src, s) && s.writer.Receiving? && s.batchCh != []
    ensures s.wr.err.None? ==>
              s.committed + s.batchCh[0] + Flatten(s.batchCh[1..]) + s.batch == TransformRows(src.rows[..s.pos])
  {
    assert s.committed + [] + (s.batchCh[0] + Flatten(s.batchCh[1..])) + s.batch
        == s.committed + s.batchCh[0] + Flatten(s.batchCh[1..]) + s.batch;
  }

  lemma CommitContents(src: Source, s: State)
    requires s.pos <= |src.rows| && Contents(src, s) && s.writer.Attempting? && s.wr.err.None?
    ensures s.committed + s.writer.rows + [] + Flatten(s.batchCh) + s.batch == TransformRows(src.rows[..s.pos])
    ensures s.committed + s.writer.rows <= TransformRows(src.rows[..s.pos])
  {
    var done := s.committed + s.writer.rows;
    assert done + [] == done;
    assert done + Flatten(s.batchCh) + s.batch == done + (Flatten(s.batchCh) + s.batch);
  }

  /** Nothing about the rows has changed, or the writer has given up. */
  lemma SameContents(src: Source, s: State, s': State)
    requires s.pos <= |src.rows| && Contents(src, s)
    requires s'.pos == s.pos && s'.committed == s.committed && s'.wr.totalRows == s.wr.totalRows
    requires s'.wr.err.None? ==>
               s.wr.err.None? && InHand(s'.writer) == InHand(s.writer) && s'.batchCh == s.batchCh && s'.batch == s.batch
    ensures Contents(src, s')
  {}

  lemma WriterContents(c: Config, src: Source, s: State, choice: Choice)
    requires Batches(c, src, s) && Channels(s) && Contents(src, s) && WriterReady(s, choice)
    ensures Contents(src, WriterStep(c, s, choice))
  {
    hide TransformRows, Flatten;
    var s' := WriterStep(c, s, choice);
    if s.writer.Receiving? && s.batchCh != [] {
      ReceiveContents(src, s);
    } else if s.writer.Attempting? && choice == Go && s.writer.op.Commit? {
      CommitContents(src, s);
    } else {
      hide Contents;
      SameContents(src, s, s');
    }
  }

  lemma WriterVerdicts(c: Config, src: Source, s: State, choice: Choice)
    requires Channels(s) && Verdicts(src, s) && WriterReady(s, choice)
    ensures Verdicts(src, WriterStep(c, s, choice))
  {
    if s.writer.Attempting? {
      AttemptVerdicts(c, src, s, choice);
    }
  }

  lemma AttemptVerdicts(c: Config, src: Source, s: State, choice: Choice)
    requires Channels(s) && Verdicts(src, s) && WriterReady(s, choice) && s.writer.Attempting?
    ensures Verdicts(src, WriterStep(c, s, choice))
  {
    hide TransformRows;
  }

  lemma WriterKeeps(c: Config, src: Source, s: State, choice: Choice)
    requires Inv(c, src, s) && WriterReady(s, choice)
    ensures Inv(c, src, WriterStep(c, s, choice))
  {
    WriterBatches(c, src, s, choice);
    WriterContents(c, src, s, choice);
    WriterVerdicts(c, src, s, choice);
  }

  /** In every state that can be reached nothing has been lost, doubled or reordered. */
  lemma StepKeeps(c: Config, src: Source, s: State, a: Action)
    requires Inv(c, src, s) && Enabled(c, src, s, a)
    ensures Inv(c, src, Apply(c, src, s, a))
  {
    match a
    case Cancel =>
    case Read(choice) => ReaderKeeps(c, src, s, choice);
    case Write(choice) => WriterKeeps(c, src, s, choice);
  }

  // ---------- Progress

  const QUEUED := 40

  function ReaderRank(r: Reader): nat {
    match r
    case Sending => 86
    case Reading => 45
    case SendingLast => 43
    case Closing => 2
    case Waiting => 1
    case Returned(_) => 0
  }

  function OperationRank(op: Operation): nat {
    match op
    case Pause => 6
    case Acquire => 5
    case Configure => 4
    case Begin => 3
    case Copy => 2
    case Commit => 1
  }

  function WriterRank(w: Writer): nat {
    match w
    case Attempting(_, attempt, op) =>
      10 + (if attempt <= MAX_RETRIES then (MAX_RETRIES - attempt) * 7 else 0) + OperationRank(op)
    case Receiving => 4
    case Failing => 3
    case Draining => 2
    case Finishing => 1
    case Exited => 0
  }

  /** What is left to do, whoever goes next. */
  function Measure(src: Source, s: State): nat
    requires s.pos <= |src.rows|
  {
    50 * (|src.rows| - s.pos) + ReaderRank(s.reader) + QUEUED * |s.batchCh| + WriterRank(s.writer)
    + (if s.cancelled then 0 else 1)
  }

  lemma ReaderProgresses(c: Config, src: Source, s: State, choice: Choice)
    requires Batches(c, src, s) && Channels(s) && ReaderReady(c, src, s, choice)
    ensures var s' := ReaderStep(c, src, s, choice); s'.pos <= |src.rows| && Measure(src, s') < Measure(src, s)
  {}

  lemma WriterProgresses(c: Config, src: Source, s: State, choice: Choice)
    requires Batches(c, src, s) && Channels(s) && WriterReady(s, choice)
    ensures var s' := WriterStep(c, s, choice); s'.pos == s.pos && Measure(src, s') < Measure(src, s)
  {}

  /** Every step of either goroutine brings the end nearer. */
  lemma StepProgresses(c: Config, src: Source, s: State, a: Action)
    requires Inv(c, src, s) && Enabled(c, src, s, a)
    ensures var s' := Apply(c, src, s, a); s'.pos <= |src.rows| && Measure(src, s') < Measure(src, s)
  {
    match a
    case Cancel =>
    case Read(choice) => ReaderProgresses(c, src, s, choice);
    case Write(choice) => WriterProgresses(c, src, s, choice);
  }

  /** No state is stuck: until both have finished, the reader or the writer can take a step that is
      neither a failure nor a cancellation. The writer waits only for an open, empty channel, and
      the reader only for a full channel or for the writer's result. */
  lemma NoDeadlock(c: Config, src: Source, s: State)
    requires Inv(c, src, s) && !Final(s)
    ensures Enabled(c, src, s, Read(Go)) || Enabled(c, src, s, Write(Go))
    ensures !s.writer.Exited? && !Enabled(c, src, s, Write(Go)) ==> s.batchCh == [] && s.closes == 0
    ensures !s.reader.Returned? && !Enabled(c, src, s, Read(Go)) ==>
              (s.reader.Waiting? && !s.writer.Exited?) || |s.batchCh| == c.Capacity()
  {}

  // ---------- Runs

  predicate Valid(c: Config, src: Source, s: State, run: seq<Action>)
    decreases |run|
  {
    run == [] || (Enabled(c, src, s, run[0]) && Valid(c, src, Apply(c, src, s, run[0]), run[1..]))
  }

  function Exec(c: Config, src: Source, s: State, run: seq<Action>): State
    requires Valid(c, src, s, run)
    decreases |run|
  {
    if run == [] then s else Exec(c, src, Apply(c, src, s, run[0]), run[1..])
  }

  lemma {:induction false} RunKeeps(c: Config, src: Source, s: State, run: seq<Action>)
    requires Inv(c, src, s) && Valid(c, src, s, run)
    ensures Inv(c, src, Exec(c, src, s, run))
    ensures |run| + Measure(src, Exec(c, src, s, run)) <= Measure(src, s)
    decreases |run|
  {
    if run != [] {
      StepKeeps(c, src, s, run[0]);
      StepProgresses(c, src, s, run[0]);
      RunKeeps(c, src, Apply(c, src, s, run[0]), run[1..]);
    }
  }

  /** In every interleaving: no channel is misused, never too much is queued, the committed rows are the first rows of
      the input, cell by cell, and a result without an error means that the target gained the whole input, in order and
      once. */
  lemma CopyDataIsExact(c: Config, src: Source, run: seq<Action>)
    requires Valid(c, src, INIT, run)
    ensures var s := Exec(c, src, INIT, run);
            && !s.panicked && s.closes <= 1 && s.errSends <= 1 && s.doneSends <= 1
            && Arrived(src.rows, s.committed) && |s.batchCh| <= (if c.unlogged then 4 else 2)
            && (s.reader.Returned? ==>
                  (s.reader.outcome.Copied? ==> |s.committed| == s.reader.outcome.rows == |src.rows|)
                  && Justified(src, s, s.reader.outcome))
  {
    InitInv(c, src);
    RunKeeps(c, src, INIT, run);
    var s := Exec(c, src, INIT, run);
    assert TransformRows(src.rows[..s.pos]) == TransformRows(src.rows)[..s.pos];
    PrefixArrives(src.rows, s.committed);
  }

  // ---------- Giving up

  /** How many attempts at the writer's latest batch have failed, in a run that starts when n have. */
  function Failures(c: Config, src: Source, s: State, run: seq<Action>, n: nat): nat
    requires Valid(c, src, s, run)
    decreases |run|
  {
    if run == [] then n
    else
      var next := if run[0].Write? && s.writer.Receiving? then 0
                  else if run[0] == Write(Fail) && s.writer.Attempting? then n + 1
                  else n;
      Failures(c, src, Apply(c, src, s, run[0]), run[1..], next)
  }

  lemma {:induction false} FailuresAre(c: Config, src: Source, s: State, run: seq<Action>, n: nat)
    requires Inv(c, src, s) && Valid(c, src, s, run)
    requires (s.writer.Attempting? ==> s.writer.attempt == n) && (s.wr.err == Some(WriterGaveUp) ==> n == 4)
    ensures var s', n' := Exec(c, src, s, run), Failures(c, src, s, run, n);
            (s'.writer.Attempting? ==> s'.writer.attempt == n' <= 3) && (s'.wr.err == Some(WriterGaveUp) ==> n' == 4)
    decreases |run|
  {
    if run != [] {
      var a := run[0];
      StepKeeps(c, src, s, a);
      var next := if a.Write? && s.writer.Receiving? then 0
                  else if a == Write(Fail) && s.writer.Attempting? then n + 1
                  else n;
      OneFailure(c, src, s, a, n, next);
      FailuresAre(c, src, Apply(c, src, s, a), run[1..], next);
    }
  }

  lemma OneFailure(c: Config, src: Source, s: State, a: Action, n: nat, next: nat)
    requires Inv(c, src, s) && Enabled(c, src, s, a)
    requires (s.writer.Attempting? ==> s.writer.attempt == n) && (s.wr.err == Some(WriterGaveUp) ==> n == 4)
    requires next == if a.Write? && s.writer.Receiving? then 0
                     else if a == Write(Fail) && s.writer.Attempting? then n + 1
                     else n
    ensures var s' := Apply(c, src, s, a);
            (s'.writer.Attempting? ==> s'.writer.attempt == next) && (s'.wr.err == Some(WriterGaveUp) ==> next == 4)
  {
    hide Contents, Verdicts;
  }

  /** The writer gives up exactly when four attempts at one batch have failed, and otherwise tries again. */
  lemma GivesUpAfterFour(c: Config, src: Source, run: seq<Action>)
    requires Valid(c, src, INIT, run)
    ensures var s := Exec(c, src, INIT, run);
            && (s.writer.Attempting? ==> Failures(c, src, INIT, run, 0) <= 3)
            && (s.wr.err == Some(WriterGaveUp) ==> Failures(c, src, INIT, run, 0) == 4)
            && (s.reader.Returned? && s.reader.outcome == Error(WriterGaveUp) ==> Failures(c, src, INIT, run, 0) == 4)
  {
    InitInv(c, src);
    RunKeeps(c, src, INIT, run);
    FailuresAre(c, src, INIT, run, 0);
  }

  // ---------- Where batches are cut

  function BatchSize(rows: seq<Row>): nat {
    if rows == [] then 0 else BatchSize(rows[..|rows| - 1]) + RowBytes(rows[|rows| - 1])
  }

  /** As many rows or bytes as the configuration allows in a batch. */
  ghost predicate Reached(c: Config, rows: seq<Row>) {
    || |rows| >= (if c.batchSize <= 0 then 50000 else c.batchSize)
    || (c.maxBatchBytes > 0 && BatchSize(rows) >= c.maxBatchBytes)
  }

  /** Without its last row the batch has not reached a limit. */
  ghost predicate Cut(c: Config, rows: seq<Row>) { rows != [] && !Reached(c, rows[..|rows| - 1]) }

  predicate StillReads(r: Reader) { r.Reading? || r.Sending? || r.SendingLast? }

  ghost predicate Sized(c: Config, s: State) {
    && s.batchBytes == (if c.maxBatchBytes > 0 then BatchSize(s.batch) else 0)
    && (s.reader.Reading? || s.reader.SendingLast? ==> !Reached(c, s.batch))
    && (s.reader.Sending? ==> Cut(c, s.batch) && Reached(c, s.batch))
    && (forall i :: 0 <= i < |s.batchCh| ==> Cut(c, s.batchCh[i]))
    && (forall i :: 0 <= i < |s.batchCh| && (i < |s.batchCh| - 1 || StillReads(s.reader)) ==> Reached(c, s.batchCh[i]))
    && (s.writer.Attempting? ==>
          Cut(c, s.writer.rows) && (s.batchCh != [] || StillReads(s.reader) ==> Reached(c, s.writer.rows)))
  }

  lemma TakeRowSized(c: Config, src: Source, s: State)
    requires Sized(c, s) && s.reader.Reading? && s.pos < |src.rows|
    ensures Sized(c, TakeRow(c, src, s))
  {
    var s' := TakeRow(c, src, s);
    assert s'.batch[..|s'.batch| - 1] == s.batch;
  }

  lemma SendSized(c: Config, s: State, next: Reader)
    requires Sized(c, s) && Channels(s) && s.batch != []
    requires (s.reader.Sending? && next.Reading?) || (s.reader.SendingLast? && next.Closing?)
    ensures Sized(c, Send(s, next))
  {
    assert BatchSize([]) == 0;
    if s.reader.SendingLast? {
      assert BatchSize(s.batch) >= BatchSize(s.batch[..|s.batch| - 1]);
    }
  }

  lemma ReaderSized(c: Config, src: Source, s: State, choice: Choice)
    requires Batches(c, src, s) && Channels(s) && Sized(c, s) && ReaderReady(c, src, s, choice)
    ensures Sized(c, ReaderStep(c, src, s, choice))
  {
    if choice == Go && s.reader.Reading? && s.pos < |src.rows| {
      TakeRowSized(c, src, s);
    } else if choice == Go && s.reader.Sending? {
      SendSized(c, s, Reading);
    } else if choice == Go && s.reader.SendingLast? {
      SendSized(c, s, Closing);
    } else {
      hide Cut, Reached, BatchSize;
    }
  }

  lemma WriterSized(c: Config, s: State, choice: Choice)
    requires Sized(c, s) && WriterReady(s, choice)
    ensures Sized(c, WriterStep(c, s, choice))
  {
    hide Cut, Reached, BatchSize;
    if s.batchCh != [] && (s.writer.Receiving? || s.writer.Draining?) {
      FirstLeaves(c, s, WriterStep(c, s, choice));
    } else {
      assert WriterStep(c, s, choice).batchCh == s.batchCh;
    }
  }

  lemma FirstLeaves(c: Config, s: State, s': State)
    requires Sized(c, s) && s.batchCh != []
    requires s'.batch == s.batch && s'.batchBytes == s.batchBytes && s'.reader == s.reader
    requires s'.batchCh == s.batchCh[1..] && (s'.writer.Attempting? ==> s'.writer.rows == s.batchCh[0])
    ensures Sized(c, s')
  {
    hide Cut, Reached, BatchSize;
    assert forall i :: 0 <= i < |s'.batchCh| ==> s'.batchCh[i] == s.batchCh[i + 1];
  }

  lemma StepSized(c: Config, src: Source, s: State, a: Action)
    requires Inv(c, src, s) && Sized(c, s) && Enabled(c, src, s, a)
    ensures Sized(c, Apply(c, src, s, a))
  {
    hide Contents, Verdicts;
    match a
    case Cancel =>
    case Read(choice) => ReaderSized(c, src, s, choice);
    case Write(choice) => WriterSized(c, s, choice);
  }

  lemma {:induction false} RunSized(c: Config, src: Source, s: State, run: seq<Action>)
    requires Inv(c, src, s) && Sized(c, s) && Valid(c, src, s, run)
    ensures Sized(c, Exec(c, src, s, run))
    decreases |run|
  {
    if run != [] {
      StepKeeps(c, src, s, run[0]);
      StepSized(c, src, s, run[0]);
      RunSized(c, src, Apply(c, src, s, run[0]), run[1..]);
    }
  }

  /** A batch is sent as soon as it reaches a limit of rows or bytes, and not before unless it is the last one. */
  lemma BatchesAreCut(c: Config, src: Source, run: seq<Action>)
    requires Valid(c, src, INIT, run)
    ensures var s := Exec(c, src, INIT, run);
            && (forall i :: 0 <= i < |s.batchCh| ==> Cut(c, s.batchCh[i]))
            && (forall i :: 0 <= i < |s.batchCh| - 1 ==> Reached(c, s.batchCh[i]))
            && (s.writer.Attempting? ==> Cut(c, s.writer.rows) && (s.batchCh != [] ==> Reached(c, s.writer.rows)))
  {
    InitInv(c, src);
    RunSized(c, src, INIT, run);
  }

  /** No interleaving is longer than 50 steps a row and a constant; a run that cannot go on has
      returned a result. */
  lemma CopyDataTerminates(c: Config, src: Source, run: seq<Action>)
    requires Valid(c, src, INIT, run)
    ensures |run| <= 50 * |src.rows| + 50
    ensures (forall a :: !Enabled(c, src, Exec(c, src, INIT, run), a)) ==> Final(Exec(c, src, INIT, run))
  {
    InitInv(c, src);
    RunKeeps(c, src, INIT, run);
    var s := Exec(c, src, INIT, run);
    if !Final(s) {
      NoDeadlock(c, src, s);
    }
  }

  lemma {:induction false} OneMore(c: Config, src: Source, s: State, run: seq<Action>, a: Action)
    requires Valid(c, src, s, run) && Enabled(c, src, Exec(c, src, s, run), a)
    ensures Valid(c, src, s, run + [a])
    ensures Exec(c, src, s, run + [a]) == Apply(c, src, Exec(c, src, s, run), a)
    decreases |run|
  {
    if run == [] {
      assert [a][1..] == [] && [] + [a] == [a];
    } else {
      assert (run + [a])[0] == run[0] && (run + [a])[1..] == run[1..] + [a];
      OneMore(c, src, Apply(c, src, s, run[0]), run[1..], a);
    }
  }

  /** A connection is had at one of the attempts before the program is stopped, and can be set up. */
  ghost predicate Connects(c: Config, acquired: nat -> bool, stopped: nat -> bool, configured: bool) {
    && (c.unlogged || configured)
    && exists k: nat :: k <= 3 && acquired(k) && forall i: nat :: i < k ==> !acquired(i) && !stopped(i)
  }

  /** Tries to get a connection, and sets it up. */
  method Connect(c: Config, acquired: nat -> bool, stopped: nat -> bool, configured: bool) returns (ok: bool)
    ensures ok <==> Connects(c, acquired, stopped, configured)
  {
    var attempt: nat := 0;
    while !acquired(attempt)
      invariant attempt <= MAX_RETRIES && forall i: nat :: i < attempt ==> !acquired(i) && !stopped(i)
      decreases MAX_RETRIES - attempt
    {
      if attempt == MAX_RETRIES || stopped(attempt) {
        return false;
      }
      attempt := attempt + 1;
    }
    ok := c.unlogged || configured;
  }

  /** CopyData under an arbitrary schedule. */
  method CopyData(c: Config, src: Source, acquired: nat -> bool, stopped: nat -> bool, configured: bool)
    returns (outcome: Outcome, s: State, ghost run: seq<Action>)
    ensures Valid(c, src, INIT, run) && Exec(c, src, INIT, run) == s && Inv(c, src, s)
    ensures outcome.NotConnected? <==> !Connects(c, acquired, stopped, configured)
    ensures if outcome.NotConnected? then s == INIT else Final(s) && outcome == s.reader.outcome
    ensures Arrived(src.rows, s.committed)
    ensures outcome.Copied? ==> |s.committed| == outcome.rows == |src.rows| && !src.fails
    ensures outcome == Error(Cancelled) ==> s.cancelled
    ensures outcome == Error(SourceFailed) ==> src.fails
    ensures outcome == Error(WriterGaveUp) ==> Failures(c, src, INIT, run, 0) == 4
  {
    InitInv(c, src);
    run, s := [], INIT;
    var connected := Connect(c, acquired, stopped, configured);
    if !connected {
      return NotConnected, s, run;
    }
    while !Final(s)
      invariant Valid(c, src, INIT, run) && Exec(c, src, INIT, run) == s && Inv(c, src, s)
      decreases Measure(src, s)
    {
      NoDeadlock(c, src, s);
      var a: Action :| Enabled(c, src, s, a);
      StepKeeps(c, src, s, a);
      StepProgresses(c, src, s, a);
      OneMore(c, src, INIT, run, a);
      run, s := run + [a], Apply(c, src, s, a);
    }
    outcome := s.reader.outcome;
    CopyDataIsExact(c, src, run);
    GivesUpAfterFour(c, src, run);
  }
}
