/** The strings that tie a task of the plan to its row in the job store. */
module Keys {
  import opened Collections

  /** What the keys are made from: the table, the partition and the chunk number of a task. */
  datatype TaskId = TaskId(table: string, part: Option<string>, chunk: Option<nat>)

  const CHUNK: string := "chunk:"

  /** Go's %d for a non-negative number. */
  function Decimal(n: nat): (s: string)
    ensures s != [] && forall i :: 0 <= i < |s| ==> '0' <= s[i] <= '9'
  {
    var digit := [(n % 10) as char + '0'];
    if n < 10 then digit else Decimal(n / 10) + digit
  }

  /** The partition column of the task's job row. */
  function JobPartitionKey(id: TaskId): string {
    var partition := if id.part.Some? then id.part.value else "";
    if id.chunk.None? then partition
    else if partition != "" then partition + ":chunk:" + Decimal(id.chunk.value)
    else CHUNK + Decimal(id.chunk.value)
  }

  /** The key under which executeDataMigration files the task. */
  function TaskKey(id: TaskId): string {
    id.table + PartSuffix(id.part) + ChunkSuffix(id.chunk)
  }

  function PartSuffix(part: Option<string>): string { if part.Some? then ":" + part.value else "" }

  function ChunkSuffix(chunk: Option<nat>): string { if chunk.Some? then ":" + CHUNK + Decimal(chunk.value) else "" }

  /** The test by which a resume recognises the chunk jobs it has to reset. */
  predicate IsResettable(partition: string) { CHUNK <= partition }

  predicate ColonFree(s: string) { ':' !in s }

  /** Oracle partition names as the catalogue stores them: not empty and without a colon. */
  predicate ProperName(part: Option<string>) {
    part.Some? ==> part.value != "" && ColonFree(part.value)
  }

  /** How executeDataMigration spells the key of a job row. */
  function JobKey(table: string, partition: string): string {
    table + (if partition != "" then ":" + partition else "")
  }

  /** A task finds its job row by its key unless its partition has an empty name. */
  lemma KeysMeet(id: TaskId)
    ensures TaskKey(id) == JobKey(id.table, JobPartitionKey(id)) <==> id.part != Some("")
  {
    if id.chunk.Some? {
      var number := Decimal(id.chunk.value);
      assert |":" + CHUNK + number| == 7 + |number|;
      if id.part.Some? && id.part.value != "" {
        assert (id.table + (":" + id.part.value)) + (":" + CHUNK + number)
               == id.table + (":" + (id.part.value + ":chunk:" + number));
      }
    }
  }

  // ---------- Different tasks have different keys

  function Parse(s: string): int {
    if s == "" then 0 else Parse(s[..|s| - 1]) * 10 + (s[|s| - 1] as int - '0' as int)
  }

  lemma {:induction false} DecimalRoundTrip(n: nat)
    ensures Parse(Decimal(n)) == n
  {
    var digit := [(n % 10) as char + '0'];
    assert Parse(digit[..0]) == 0;
    if n >= 10 {
      DecimalRoundTrip(n / 10);
      assert (Decimal(n / 10) + digit)[..|Decimal(n / 10)|] == Decimal(n / 10);
    }
  }

  /** The parts that the key joins with colons. */
  function Segments(id: TaskId): seq<string> {
    [id.table] + PartSegments(id.part) + ChunkSegments(id.chunk)
  }

  function PartSegments(part: Option<string>): seq<string> { if part.Some? then [part.value] else [] }

  function ChunkSegments(chunk: Option<nat>): seq<string> {
    if chunk.Some? then ["chunk", Decimal(chunk.value)] else []
  }

  function Join(segments: seq<string>): string {
    if segments == [] then "" else ":" + segments[0] + Join(segments[1..])
  }

  lemma {:induction false} JoinConcat(a: seq<string>, b: seq<string>)
    ensures Join(a + b) == Join(a) + Join(b)
  {
    if a == [] {
      assert a + b == b;
    } else {
      assert (a + b)[1..] == a[1..] + b;
      JoinConcat(a[1..], b);
    }
  }

  lemma JoinSingle(x: string)
    ensures Join([x]) == ":" + x
  {
    assert [x][1..] == [];
  }

  lemma PartJoins(part: Option<string>)
    ensures Join(PartSegments(part)) == PartSuffix(part)
  {
    if part.Some? {
      JoinSingle(part.value);
    }
  }

  lemma ChunkJoins(chunk: Option<nat>)
    ensures Join(ChunkSegments(chunk)) == ChunkSuffix(chunk)
  {
    if chunk.Some? {
      var number := Decimal(chunk.value);
      assert ["chunk", number] == ["chunk"] + [number];
      JoinConcat(["chunk"], [number]);
      JoinSingle("chunk");
      JoinSingle(number);
      assert (":" + "chunk") + (":" + number) == ":" + CHUNK + number;
    }
  }

  lemma TaskKeyJoins(id: TaskId)
    ensures ":" + TaskKey(id) == Join(Segments(id))
  {
    JoinConcat([id.table] + PartSegments(id.part), ChunkSegments(id.chunk));
    JoinConcat([id.table], PartSegments(id.part));
    JoinSingle(id.table);
    PartJoins(id.part);
    ChunkJoins(id.chunk);
    var p, c := PartSuffix(id.part), ChunkSuffix(id.chunk);
    Regroup(":", id.table, p, c);
  }

  lemma Regroup(a: string, b: string, c: string, d: string)
    ensures a + (b + c + d) == (a + b) + c + d
  {
  }

  lemma Colons(x: string, u: string)
    requires ColonFree(x) && (u == "" || u[0] == ':')
    ensures forall i :: 0 <= i < |x| ==> (x + u)[i] != ':'
    ensures u != "" ==> (x + u)[|x|] == ':'
  {
    assert forall i :: 0 <= i < |x| ==> (x + u)[i] == x[i] && x[i] in x;
  }

  /** Where the first colon is, the first segment ends. */
  lemma FirstColon(x: string, u: string, y: string, v: string)
    requires ColonFree(x) && ColonFree(y) && x + u == y + v
    requires (u == "" || u[0] == ':') && (v == "" || v[0] == ':')
    ensures x == y && u == v
  {
    Colons(x, u);
    Colons(y, v);
    assert |x + u| == |y + v|;
    assert |x| == |y|;
    assert x == (x + u)[..|x|] == (y + v)[..|y|] == y;
    assert u == (x + u)[|x|..] == (y + v)[|y|..] == v;
  }

  lemma {:induction false} JoinInjective(a: seq<string>, b: seq<string>)
    requires (forall s :: s in a ==> ColonFree(s)) && (forall s :: s in b ==> ColonFree(s))
    requires Join(a) == Join(b)
    ensures a == b
  {
    if a != [] && b != [] {
      assert a[0] in a && b[0] in b;
      assert a[0] + Join(a[1..]) == Join(a)[1..] == Join(b)[1..] == b[0] + Join(b[1..]);
      FirstColon(a[0], Join(a[1..]), b[0], Join(b[1..]));
      JoinInjective(a[1..], b[1..]);
    }
  }

  predicate Proper(id: TaskId) { ColonFree(id.table) && ProperName(id.part) }

  /** With colon-free names, the key tells the task. */
  lemma TaskKeyInjective(a: TaskId, b: TaskId)
    requires Proper(a) && Proper(b)
    ensures TaskKey(a) == TaskKey(b) <==> a == b
  {
    if TaskKey(a) == TaskKey(b) {
      TaskKeyJoins(a);
      TaskKeyJoins(b);
      JoinInjective(Segments(a), Segments(b));
      var x, y := Segments(a), Segments(b);
      assert |x| == 1 + (if a.part.Some? then 1 else 0) + (if a.chunk.Some? then 2 else 0);
      assert |y| == 1 + (if b.part.Some? then 1 else 0) + (if b.chunk.Some? then 2 else 0);
      assert a.table == x[0] == y[0] == b.table;
      assert a.part.Some? ==> a.part.value == x[1] == y[1] == b.part.value;
      if a.chunk.Some? {
        assert Decimal(a.chunk.value) == x[|x| - 1] == y[|y| - 1] == Decimal(b.chunk.value);
        DecimalRoundTrip(a.chunk.value);
        DecimalRoundTrip(b.chunk.value);
      }
    }
  }

  // ---------- What a resume recognises

  /** A resume resets the chunks of an unpartitioned table, and the sub-chunks of a partition only
      if that partition is called "chunk". */
  lemma ResettableExactly(id: TaskId)
    requires ProperName(id.part)
    ensures IsResettable(JobPartitionKey(id)) <==> id.chunk.Some? && (id.part.None? || id.part.value == "chunk")
  {
    var key := JobPartitionKey(id);
    if id.part.Some? {
      var p := id.part.value;
      assert key[..|p|] == p;
      if IsResettable(key) {
        assert key[5] == ':';
        assert forall i :: 0 <= i < |p| ==> key[i] == p[i] && p[i] in p;
        if id.chunk.Some? {
          assert key[|p|] == ':';
          assert forall i :: 0 <= i < 5 ==> key[i] == CHUNK[i] && CHUNK[i] != ':';
          assert |p| == 5;
          assert p == "chunk";
        }
      }
      if id.chunk.Some? && p == "chunk" {
        assert key == CHUNK + ("chunk:" + Decimal(id.chunk.value));
      }
    }
  }

  // ---------- What the progress events make of a key

  predicate OccursAt(s: string, sub: string, k: nat) { k + |sub| <= |s| && s[k..k + |sub|] == sub }

  /** The first occurrence from position i on. */
  function IndexOf(s: string, sub: string, i: nat): (r: Option<nat>)
    requires i <= |s|
    ensures r.Some? ==> i <= r.value && OccursAt(s, sub, r.value)
    ensures r.Some? ==> forall k: nat :: i <= k < r.value ==> !OccursAt(s, sub, k)
    ensures r.None? ==> forall k: nat :: i <= k ==> !OccursAt(s, sub, k)
    decreases |s| - i
  {
    if OccursAt(s, sub, i) then Some(i) else if i < |s| then IndexOf(s, sub, i + 1) else None
  }

  predicate IsChunkPartition(partition: string) { IndexOf(partition, CHUNK, 0).Some? }

  function TrimColon(s: string): string { if s != "" && s[|s| - 1] == ':' then s[..|s| - 1] else s }

  function StripChunkSuffix(partition: string): string {
    var i := IndexOf(partition, CHUNK, 0);
    if i.Some? && i.value > 0 then TrimColon(partition[..i.value])
    else if CHUNK <= partition then ""
    else partition
  }

  predicate EndsInChunk(p: string) { |p| >= 5 && p[|p| - 5..] == "chunk" }

  /** An occurrence of "chunk:" ends at a colon and has none before. */
  lemma ChunkColon(s: string, k: nat)
    requires OccursAt(s, CHUNK, k)
    ensures s[k + 5] == ':' && forall i :: k <= i < k + 5 ==> s[i] != ':'
  {
    var piece := s[k..k + 6];
    assert s[k + 5] == piece[5];
    assert forall i :: k <= i < k + 5 ==> s[i] == piece[i - k] == CHUNK[i - k];
  }

  lemma NoChunk(s: string, k: nat)
    requires ColonFree(s)
    ensures !OccursAt(s, CHUNK, k)
  {
    if OccursAt(s, CHUNK, k) {
      ChunkColon(s, k);
      assert false;
    }
  }

  /** Where "chunk:" can occur in the key of a sub-chunk: after the name, or across its end. */
  lemma ChunkOccurs(p: string, n: nat, k: nat)
    requires ColonFree(p) && OccursAt(p + ":chunk:" + Decimal(n), CHUNK, k) && k <= |p|
    ensures k + 5 == |p| && p[k..] == "chunk"
  {
    var key := p + ":chunk:" + Decimal(n);
    ChunkColon(key, k);
    assert key[|p|] == ':';
    assert forall i :: 0 <= i < |p| ==> key[i] == p[i] && p[i] in p;
    assert k + 5 == |p|;
    assert p[k..] == key[k..k + 6][..5] == CHUNK[..5];
  }

  /** The name of a partition is recovered from each of its keys, unless the task is a sub-chunk and the
      name ends in "chunk". */
  lemma StripExactly(id: TaskId)
    requires ProperName(id.part)
    ensures var name := if id.part.Some? then id.part.value else "";
            StripChunkSuffix(JobPartitionKey(id)) == name <==> !(id.part.Some? && id.chunk.Some? && EndsInChunk(name))
  {
    var key := JobPartitionKey(id);
    if id.part.Some? {
      StripPartition(id.part.value, id.chunk);
    } else if id.chunk.Some? {
      assert OccursAt(key, CHUNK, 0);
    } else {
      assert forall k: nat :: !OccursAt(key, CHUNK, k);
    }
  }

  lemma StripPartition(p: string, chunk: Option<nat>)
    requires ProperName(Some(p))
    ensures StripChunkSuffix(JobPartitionKey(TaskId("", Some(p), chunk))) == p <==> !(chunk.Some? && EndsInChunk(p))
  {
    var key := JobPartitionKey(TaskId("", Some(p), chunk));
    if chunk.None? {
      forall k: nat ensures !OccursAt(p, CHUNK, k) {
        NoChunk(p, k);
      }
    } else {
      var n := chunk.value;
      assert key == p + ":chunk:" + Decimal(n);
      assert key[|p| + 1..|p| + 7] == CHUNK && OccursAt(key, CHUNK, |p| + 1);
      var i := IndexOf(key, CHUNK, 0).value;
      if EndsInChunk(p) {
        assert key[|p| - 5..|p| + 1] == p[|p| - 5..] + ":" == CHUNK;
        assert OccursAt(key, CHUNK, |p| - 5);
        ChunkOccurs(p, n, i);
      } else if i <= |p| {
        ChunkOccurs(p, n, i);
        assert false;
      } else {
        assert i == |p| + 1 && key[..i] == p + ":";
      }
    }
  }

  /** The keys that hold "chunk:" are those of chunks. */
  lemma ChunkPartitionExactly(id: TaskId)
    requires ProperName(id.part)
    ensures IsChunkPartition(JobPartitionKey(id)) <==> id.chunk.Some?
  {
    var key := JobPartitionKey(id);
    if id.chunk.Some? {
      var name := if id.part.Some? then id.part.value + ":" else "";
      assert key == name + (CHUNK + Decimal(id.chunk.value));
      assert key[|name|..|name| + 6] == CHUNK;
      assert OccursAt(key, CHUNK, |name|);
    } else if IsChunkPartition(key) {
      NoChunk(key, IndexOf(key, CHUNK, 0).value);
    }
  }
}
