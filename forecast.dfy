/**
 * The material-need forecast of an assembly job: for every
 * material-requiring operation seen in the remaining sequences, its earliest
 * and latest position, the operations before it there, and the expected time
 * until it takes place (`calculateOperationPositions`,
 * `calculateTimeToOperation`).
 */
module Forecast {
  import opened Wrappers
  import opened Products
  import opened Shopfloor
  import Statistics

  // ---------------------------------------------------------------------
  // calculateTimeToOperation
  // ---------------------------------------------------------------------

  /**
   * What `calculateTimeToOperation` reads besides the preceding operations:
   * the simulation time, the operation being planned now, the job's
   * `PredictiveList` flag, its planned operation, the planned warehouse (if
   * any), the job's id and transport time, the target station, and the
   * first warehouse's material load time.
   */
  datatype ForecastContext = ForecastContext(
    now: real,
    plannedOp: Operation,
    predictiveList: bool,
    planned: Option<Operation>,
    warehouse: Option<Warehouse>,
    jobId: string,
    transportTime: real,
    station: Station,
    loadDelay: real)

  /** The source dereferences the planned operation whenever `PredictiveList` is false. */
  predicate ContextOk(ctx: ForecastContext) {
    ctx.predictiveList || ctx.planned.Some?
  }

  /** The AGV processing delay of the warehouse, charged only before the list exists and when the planned operation needs material. */
  function UnloadDelay(ctx: ForecastContext): real
    requires ContextOk(ctx)
  {
    if !ctx.predictiveList && ctx.planned.value.materialRequired && ctx.warehouse.Some?
    then ctx.warehouse.value.timeToProcessAGV else 0.0
  }

  /** Processing time of other jobs' operations moving to the station with exactly this job's transport time. */
  function MovingContention(jobId: string, transportTime: real, moving: seq<StationJobOperation>): real {
    if moving == [] then 0.0
    else
      var q := moving[|moving| - 1];
      MovingContention(jobId, transportTime, moving[..|moving| - 1]) +
        (if q.jobId != jobId && transportTime == q.jobTransportTime then q.operation.processingTime else 0.0)
  }

  /** The station's queued work, counted only while it has an active operation. */
  function ActiveQueueWork(station: Station): real {
    if station.hasActiveJobOperation then QueuedDuration(station.queuedJobOperations) else 0.0
  }

  /** One time unit of transport plus processing per preceding operation, plus the load delay for those needing material. */
  function PrecedingWork(preceding: seq<Operation>, loadDelay: real): real {
    if preceding == [] then 0.0
    else
      var op := preceding[|preceding| - 1];
      PrecedingWork(preceding[..|preceding| - 1], loadDelay) +
        (op.processingTime + 1.0 + (if op.materialRequired then loadDelay else 0.0))
  }

  /** The time until the operation takes place: the sum of the five contributions. */
  function TimeToOperation(ctx: ForecastContext, preceding: Option<seq<Operation>>): real
    requires ContextOk(ctx)
  {
    ctx.now + ctx.plannedOp.processingTime
    + UnloadDelay(ctx)
    + MovingContention(ctx.jobId, ctx.transportTime, ctx.station.movingJobOperations)
    + ActiveQueueWork(ctx.station)
    + (match preceding case Some(ops) => PrecedingWork(ops, ctx.loadDelay) case None => 0.0)
  }

  /** `calculateTimeToOperation`; an undefined list of preceding operations is `None`. */
  method CalculateTimeToOperation(ctx: ForecastContext, precedingOperations: Option<seq<Operation>>)
    returns (timeToOperation: real)
    requires ContextOk(ctx)
    ensures timeToOperation == TimeToOperation(ctx, precedingOperations)
  {
    timeToOperation := ctx.now + ctx.plannedOp.processingTime;
    if !ctx.predictiveList && ctx.planned.value.materialRequired && ctx.warehouse.Some? {
      timeToOperation := timeToOperation + ctx.warehouse.value.timeToProcessAGV;
    }
    ghost var afterUnload := timeToOperation;
    var moving := ctx.station.movingJobOperations;
    for k := 0 to |moving|
      invariant timeToOperation == afterUnload + MovingContention(ctx.jobId, ctx.transportTime, moving[..k])
    {
      var queuedOperation := moving[k];
      if queuedOperation.jobId != ctx.jobId {
        if ctx.transportTime > queuedOperation.jobTransportTime {
        } else if ctx.transportTime == queuedOperation.jobTransportTime {
          timeToOperation := timeToOperation + queuedOperation.operation.processingTime;
        }
      }
      assert moving[..k + 1][..k] == moving[..k];
    }
    assert moving[..|moving|] == moving;
    if ctx.station.hasActiveJobOperation {
      var queued := SumQueuedDuration(ctx.station.queuedJobOperations);
      timeToOperation := timeToOperation + queued;
    }
    if precedingOperations.Some? {
      var ops := precedingOperations.value;
      ghost var beforePreceding := timeToOperation;
      for k := 0 to |ops|
        invariant timeToOperation == beforePreceding + PrecedingWork(ops[..k], ctx.loadDelay)
      {
        var operation := ops[k];
        if operation.materialRequired != true {
          timeToOperation := timeToOperation + (operation.processingTime + 1.0);
        } else {
          timeToOperation := timeToOperation + (operation.processingTime + 1.0 + ctx.loadDelay);
        }
        assert ops[..k + 1][..k] == ops[..k];
      }
      assert ops[..|ops|] == ops;
    }
  }

  /** Preceding work is additive over concatenation. */
  lemma {:induction false} PrecedingWorkAppend(a: seq<Operation>, b: seq<Operation>, loadDelay: real)
    ensures PrecedingWork(a + b, loadDelay) == PrecedingWork(a, loadDelay) + PrecedingWork(b, loadDelay)
    decreases |b|
  {
    if b != [] {
      var init := b[..|b| - 1];
      assert a + b != [];
      assert (a + b)[..|a + b| - 1] == a + init;
      assert (a + b)[|a + b| - 1] == b[|b| - 1];
      assert PrecedingWork(b, loadDelay) == PrecedingWork(init, loadDelay) + (b[|b| - 1].processingTime + 1.0 + (if b[|b| - 1].materialRequired then loadDelay else 0.0));
      PrecedingWorkAppend(a, init, loadDelay);
    } else {
      assert a + b == a;
    }
  }

  /** With non-negative times every preceding operation adds at least one time unit. */
  lemma {:induction false} PrecedingWorkAtLeastCount(preceding: seq<Operation>, loadDelay: real)
    requires loadDelay >= 0.0 && forall op <- preceding :: op.processingTime >= 0.0
    ensures PrecedingWork(preceding, loadDelay) >= |preceding| as real
  {
    if preceding != [] {
      PrecedingWorkAtLeastCount(preceding[..|preceding| - 1], loadDelay);
    }
  }

  /** Operations of this very job, and ones with a different transport time, never add contention. */
  lemma {:induction false} ContentionCountsOnlyOtherJobsWithEqualTransport(jobId: string, transportTime: real, moving: seq<StationJobOperation>)
    requires forall q <- moving :: q.jobId == jobId || q.jobTransportTime != transportTime
    ensures MovingContention(jobId, transportTime, moving) == 0.0
  {
    if moving != [] {
      ContentionCountsOnlyOtherJobsWithEqualTransport(jobId, transportTime, moving[..|moving| - 1]);
    }
  }

  lemma {:induction false} ContentionNonNegative(jobId: string, transportTime: real, moving: seq<StationJobOperation>)
    requires forall q <- moving :: q.operation.processingTime >= 0.0
    ensures MovingContention(jobId, transportTime, moving) >= 0.0
  {
    if moving != [] {
      ContentionNonNegative(jobId, transportTime, moving[..|moving| - 1]);
    }
  }

  /** Readings with no negative durations. */
  predicate NonNegativeReadings(ctx: ForecastContext) {
    && ctx.plannedOp.processingTime >= 0.0
    && ctx.loadDelay >= 0.0
    && (ctx.warehouse.Some? ==> ctx.warehouse.value.timeToProcessAGV >= 0.0)
    && (forall q <- ctx.station.movingJobOperations :: q.operation.processingTime >= 0.0)
    && (forall q <- ctx.station.queuedJobOperations :: NonNegativeTimes(q.operation))
  }

  /** The forecast time is never before now, and each preceding operation delays it by at least one unit. */
  lemma TimeToOperationLowerBound(ctx: ForecastContext, preceding: Option<seq<Operation>>)
    requires ContextOk(ctx) && NonNegativeReadings(ctx)
    requires preceding.Some? ==> forall op <- preceding.value :: op.processingTime >= 0.0
    ensures TimeToOperation(ctx, preceding) >= ctx.now + (if preceding.Some? then |preceding.value| as real else 0.0)
  {
    ContentionNonNegative(ctx.jobId, ctx.transportTime, ctx.station.movingJobOperations);
    QueuedDurationNonNegative(ctx.station.queuedJobOperations);
    if preceding.Some? {
      PrecedingWorkAtLeastCount(preceding.value, ctx.loadDelay);
    }
  }

  // ---------------------------------------------------------------------
  // calculateOperationPositions: scanning the sequences
  // ---------------------------------------------------------------------

  /** A material-requiring operation `name` seen at `index` of a sequence, with the operations before it there. */
  datatype Sighting = Sighting(name: string, index: nat, before: seq<Operation>)

  /** The sightings in `s[..n]`, in index order. */
  function SightingsIn(s: seq<Operation>, n: nat): seq<Sighting>
    requires n <= |s|
  {
    if n == 0 then []
    else SightingsIn(s, n - 1) + (if s[n - 1].materialRequired then [Sighting(s[n - 1].name, n - 1, s[..n - 1])] else [])
  }

  /** All sightings, in the order the nested `forEach` visits them. */
  function Sightings(seqs: seq<seq<Operation>>): seq<Sighting> {
    if seqs == [] then [] else Sightings(seqs[..|seqs| - 1]) + SightingsIn(seqs[|seqs| - 1], |seqs[|seqs| - 1]|)
  }

  /** An index together with the operations before it in that sequence. */
  datatype Mark = Mark(index: nat, before: seq<Operation>)

  /**
   * The dictionaries of the scan.  `earliest` pairs `earliestPosition` with
   * `operationsBeforeEarliest` and `latest` pairs `latestPosition` with
   * `operationsBeforeLatest` (the source always writes each pair together);
   * `keys` is the insertion order of `operationsBeforeEarliest`, which the
   * record loop follows.
   */
  datatype PositionScan = PositionScan(keys: seq<string>, earliest: map<string, Mark>, latest: map<string, Mark>)

  const EmptyScan := PositionScan([], map[], map[])

  /** One visit: a strictly smaller index becomes the earliest, a strictly larger one than `latest || 0` the latest. */
  function Note(st: PositionScan, x: Sighting): PositionScan {
    var isEarliest := x.name !in st.earliest || x.index < st.earliest[x.name].index;
    var isLatest := x.index > (if x.name in st.latest then st.latest[x.name].index else 0);
    var st1 :=
      if isEarliest then
        st.(keys := if x.name in st.earliest then st.keys else st.keys + [x.name],
            earliest := st.earliest[x.name := Mark(x.index, x.before)])
      else st;
    if isLatest then st1.(latest := st1.latest[x.name := Mark(x.index, x.before)]) else st1
  }

  /** The scan state after visiting `xs` in order. */
  function Record(xs: seq<Sighting>): PositionScan {
    if xs == [] then EmptyScan else Note(Record(xs[..|xs| - 1]), xs[|xs| - 1])
  }

  /** The key order lists each earliest key exactly once. */
  lemma {:induction false} RecordKeys(xs: seq<Sighting>)
    ensures Distinct(Record(xs).keys)
    ensures forall n :: n in Record(xs).keys <==> n in Record(xs).earliest
  {
    if xs != [] {
      RecordKeys(xs[..|xs| - 1]);
    }
  }

  /** Something with `name` occurs among `xs`. */
  ghost predicate Seen(xs: seq<Sighting>, name: string) {
    exists k | 0 <= k < |xs| :: xs[k].name == name
  }

  /** Something with `name` occurs among `xs` at an index above 0. */
  ghost predicate SeenAfterStart(xs: seq<Sighting>, name: string) {
    exists k | 0 <= k < |xs| :: xs[k].name == name && xs[k].index > 0
  }

  /** `e` is at most every index `name` is seen at. */
  ghost predicate Below(xs: seq<Sighting>, name: string, e: nat) {
    forall k | 0 <= k < |xs| && xs[k].name == name :: e <= xs[k].index
  }

  /** `l` is at least every index `name` is seen at. */
  ghost predicate Above(xs: seq<Sighting>, name: string, l: nat) {
    forall k | 0 <= k < |xs| && xs[k].name == name :: xs[k].index <= l
  }

  /** Sighting `k` is `name` at index `e` with operations `before`, and every earlier sighting of `name` is at a larger index. */
  ghost predicate FirstAtMin(xs: seq<Sighting>, name: string, e: nat, before: seq<Operation>, k: int) {
    && 0 <= k < |xs| && xs[k].name == name && xs[k].index == e && xs[k].before == before
    && forall m | 0 <= m < k && xs[m].name == name :: e < xs[m].index
  }

  /** Sighting `k` is `name` at index `l` with operations `before`, and every earlier sighting of `name` is at a smaller index. */
  ghost predicate FirstAtMax(xs: seq<Sighting>, name: string, l: nat, before: seq<Operation>, k: int) {
    && 0 <= k < |xs| && xs[k].name == name && xs[k].index == l && xs[k].before == before
    && forall m | 0 <= m < k && xs[m].name == name :: xs[m].index < l
  }

  /** What one visit does to the earliest entry of `name`. */
  lemma NoteEarliest(st: PositionScan, x: Sighting, name: string)
    ensures name in Note(st, x).earliest <==> name in st.earliest || x.name == name
    ensures name in Note(st, x).earliest ==>
      Note(st, x).earliest[name]
        == if x.name == name && (name !in st.earliest || x.index < st.earliest[name].index)
           then Mark(x.index, x.before) else st.earliest[name]
  {
  }

  /** What one visit does to the latest entry of `name`. */
  lemma NoteLatest(st: PositionScan, x: Sighting, name: string)
    ensures name in Note(st, x).latest <==> name in st.latest || (x.name == name && x.index > 0)
    ensures name in Note(st, x).latest ==>
      Note(st, x).latest[name]
        == if x.name == name && x.index > (if name in st.latest then st.latest[name].index else 0)
           then Mark(x.index, x.before) else st.latest[name]
  {
  }

  lemma RecordEarliestDomain(xs: seq<Sighting>, name: string)
    ensures name in Record(xs).earliest <==> Seen(xs, name)
  {
    if xs != [] {
      var init := xs[..|xs| - 1];
      RecordEarliestDomain(init, name);
      if Seen(init, name) {
        var k :| 0 <= k < |init| && init[k].name == name;
        assert xs[k] == init[k];
      }
      if Seen(xs, name) && xs[|xs| - 1].name != name {
        var k :| 0 <= k < |xs| && xs[k].name == name;
        assert init[k] == xs[k];
      }
    }
  }

  /**
   * The earliest position of `name` is the minimum index it is seen at, and
   * the operations before it are those of the first sighting at that index.
   */
  lemma {:induction false} RecordEarliest(xs: seq<Sighting>, name: string)
    requires name in Record(xs).earliest
    ensures Below(xs, name, Record(xs).earliest[name].index)
    ensures exists k :: FirstAtMin(xs, name, Record(xs).earliest[name].index, Record(xs).earliest[name].before, k)
  {
    var init, x := xs[..|xs| - 1], xs[|xs| - 1];
    var st := Record(init);
    var last := |xs| - 1;
    assert Record(xs) == Note(st, x);
    NoteEarliest(st, x, name);
    if x.name == name && (name !in st.earliest || x.index < st.earliest[name].index) {
      if name in st.earliest {
        RecordEarliest(init, name);
        assert forall k | 0 <= k < |init| :: init[k] == xs[k];
      } else {
        RecordEarliestDomain(init, name);
        assert forall k | 0 <= k < |init| :: init[k] == xs[k] && init[k].name != name;
      }
      assert FirstAtMin(xs, name, x.index, x.before, last);
    } else {
      RecordEarliest(init, name);
      var e := st.earliest[name];
      var k :| FirstAtMin(init, name, e.index, e.before, k);
      assert forall m | 0 <= m < |init| :: init[m] == xs[m];
      assert FirstAtMin(xs, name, e.index, e.before, k);
    }
  }

  lemma RecordLatestDomain(xs: seq<Sighting>, name: string)
    ensures name in Record(xs).latest <==> SeenAfterStart(xs, name)
  {
    if xs != [] {
      var init := xs[..|xs| - 1];
      RecordLatestDomain(init, name);
      if SeenAfterStart(init, name) {
        var k :| 0 <= k < |init| && init[k].name == name && init[k].index > 0;
        assert xs[k] == init[k];
      }
      if SeenAfterStart(xs, name) && !(xs[|xs| - 1].name == name && xs[|xs| - 1].index > 0) {
        var k :| 0 <= k < |xs| && xs[k].name == name && xs[k].index > 0;
        assert init[k] == xs[k];
      }
    }
  }

  /**
   * The latest position of `name` exists exactly when it is seen at an index
   * above 0 (`RecordLatestDomain`); it is then the maximum index, with the
   * operations of the first sighting at that index.
   */
  lemma {:induction false} RecordLatest(xs: seq<Sighting>, name: string)
    requires name in Record(xs).latest
    ensures Record(xs).latest[name].index > 0
    ensures Above(xs, name, Record(xs).latest[name].index)
    ensures exists k :: FirstAtMax(xs, name, Record(xs).latest[name].index, Record(xs).latest[name].before, k)
  {
    var init, x := xs[..|xs| - 1], xs[|xs| - 1];
    var st := Record(init);
    var last := |xs| - 1;
    assert Record(xs) == Note(st, x);
    NoteLatest(st, x, name);
    if x.name == name && x.index > (if name in st.latest then st.latest[name].index else 0) {
      if name in st.latest {
        RecordLatest(init, name);
        assert forall k | 0 <= k < |init| :: init[k] == xs[k];
      } else {
        RecordLatestDomain(init, name);
        assert forall k | 0 <= k < |init| :: init[k] == xs[k] && (init[k].name == name ==> init[k].index == 0);
      }
      assert FirstAtMax(xs, name, x.index, x.before, last);
    } else {
      RecordLatest(init, name);
      var l := st.latest[name];
      var k :| FirstAtMax(init, name, l.index, l.before, k);
      assert forall m | 0 <= m < |init| :: init[m] == xs[m];
      assert FirstAtMax(xs, name, l.index, l.before, k);
    }
  }

  /** A sighting is exactly a material-requiring operation of some sequence, with its index and the prefix before it. */
  lemma {:induction false} SightingsInIff(s: seq<Operation>, n: nat, x: Sighting)
    requires n <= |s|
    ensures x in SightingsIn(s, n) <==>
      exists i | 0 <= i < n :: s[i].materialRequired && x == Sighting(s[i].name, i, s[..i])
  {
    if n > 0 {
      SightingsInIff(s, n - 1, x);
    }
  }

  /** `x` is a material-requiring operation of some sequence, with its index and the prefix before it. */
  ghost predicate SeenIn(seqs: seq<seq<Operation>>, x: Sighting) {
    exists j, i | 0 <= j < |seqs| && 0 <= i < |seqs[j]| ::
      seqs[j][i].materialRequired && x == Sighting(seqs[j][i].name, i, seqs[j][..i])
  }

  lemma SightingsIff(seqs: seq<seq<Operation>>, x: Sighting)
    ensures x in Sightings(seqs) <==>
      exists j, i | 0 <= j < |seqs| && 0 <= i < |seqs[j]| ::
        seqs[j][i].materialRequired && x == Sighting(seqs[j][i].name, i, seqs[j][..i])
  {
    if x in Sightings(seqs) {
      SightingsSound(seqs, x);
    }
    if SeenIn(seqs, x) {
      SightingsComplete(seqs, x);
    }
  }

  lemma {:induction false} SightingsSound(seqs: seq<seq<Operation>>, x: Sighting)
    requires x in Sightings(seqs)
    ensures SeenIn(seqs, x)
  {
    var n := |seqs| - 1;
    var init, last := seqs[..n], seqs[n];
    if x in Sightings(init) {
      SightingsSound(init, x);
      var j, i :| 0 <= j < |init| && 0 <= i < |init[j]| &&
        init[j][i].materialRequired && x == Sighting(init[j][i].name, i, init[j][..i]);
      assert init[j] == seqs[j];
    } else {
      SightingsInIff(last, |last|, x);
      var i :| 0 <= i < |last| && last[i].materialRequired && x == Sighting(last[i].name, i, last[..i]);
      assert seqs[n] == last;
    }
  }

  lemma {:induction false} SightingsComplete(seqs: seq<seq<Operation>>, x: Sighting)
    requires SeenIn(seqs, x)
    ensures x in Sightings(seqs)
  {
    var n := |seqs| - 1;
    var init, last := seqs[..n], seqs[n];
    var j, i :| 0 <= j < |seqs| && 0 <= i < |seqs[j]| &&
      seqs[j][i].materialRequired && x == Sighting(seqs[j][i].name, i, seqs[j][..i]);
    if j < n {
      assert init[j] == seqs[j];
      SightingsComplete(init, x);
    } else {
      SightingsInIff(last, |last|, x);
    }
  }

  /** The scan loops of `calculateOperationPositions`. */
  method ScanPositions(nextSequences: seq<seq<Operation>>) returns (st: PositionScan)
    ensures st == Record(Sightings(nextSequences))
  {
    st := EmptyScan;
    for j := 0 to |nextSequences|
      invariant st == Record(Sightings(nextSequences[..j]))
    {
      assert nextSequences[..j + 1][..j] == nextSequences[..j];
      st := ScanSequence(st, nextSequences[j], Sightings(nextSequences[..j]));
    }
    assert nextSequences[..|nextSequences|] == nextSequences;
  }

  /** The inner loop over one sequence: every material-requiring operation is noted with its index. */
  method ScanSequence(st0: PositionScan, sequence: seq<Operation>, ghost seen: seq<Sighting>) returns (st: PositionScan)
    requires st0 == Record(seen)
    ensures st == Record(seen + SightingsIn(sequence, |sequence|))
  {
    st := st0;
    assert seen + SightingsIn(sequence, 0) == seen;
    for index := 0 to |sequence|
      invariant st == Record(seen + SightingsIn(sequence, index))
    {
      st := ScanOperation(st, sequence, index, seen);
    }
  }

  /** One visit of the outer loop: a material-requiring operation is noted at its index. */
  method ScanOperation(st0: PositionScan, sequence: seq<Operation>, index: nat, ghost seen: seq<Sighting>)
    returns (st: PositionScan)
    requires index < |sequence| && st0 == Record(seen + SightingsIn(sequence, index))
    ensures st == Record(seen + SightingsIn(sequence, index + 1))
  {
    var operation := sequence[index];
    ScanStep(seen, sequence, index);
    st := st0;
    if operation.materialRequired {
      st := NoteSighting(st, operation.name, index, sequence[..index]);
    }
  }

  lemma ScanStep(seen: seq<Sighting>, s: seq<Operation>, index: nat)
    requires index < |s|
    ensures Record(seen + SightingsIn(s, index + 1)) ==
      if s[index].materialRequired then Note(Record(seen + SightingsIn(s, index)), Sighting(s[index].name, index, s[..index]))
      else Record(seen + SightingsIn(s, index))
  {
    if s[index].materialRequired {
      SightingsInSnoc(seen, s, index);
      RecordSnoc(seen + SightingsIn(s, index), Sighting(s[index].name, index, s[..index]));
    } else {
      assert SightingsIn(s, index + 1) == SightingsIn(s, index);
    }
  }

  /** One visit of the inner loop, updating both pairs of dictionaries. */
  method NoteSighting(st0: PositionScan, name: string, index: nat, before: seq<Operation>) returns (st: PositionScan)
    ensures st == Note(st0, Sighting(name, index, before))
  {
    st := st0;
    var isEarliest := name !in st.earliest || index < st.earliest[name].index;
    var isLatest := index > (if name in st.latest then st.latest[name].index else 0);
    if isEarliest {
      var keys := if name in st.earliest then st.keys else st.keys + [name];
      st := st.(keys := keys, earliest := st.earliest[name := Mark(index, before)]);
    }
    if isLatest {
      st := st.(latest := st.latest[name := Mark(index, before)]);
    }
  }

  lemma SightingsInSnoc(seen: seq<Sighting>, s: seq<Operation>, index: nat)
    requires index < |s| && s[index].materialRequired
    ensures seen + SightingsIn(s, index + 1) == seen + SightingsIn(s, index) + [Sighting(s[index].name, index, s[..index])]
  {
  }

  lemma RecordSnoc(xs: seq<Sighting>, x: Sighting)
    ensures Record(xs + [x]) == Note(Record(xs), x)
  {
    assert (xs + [x])[..|xs|] == xs;
  }

  // ---------------------------------------------------------------------
  // calculateOperationPositions: the records
  // ---------------------------------------------------------------------

  /** One entry of `materialNeededOperationsList`. */
  datatype MaterialNeed = MaterialNeed(
    name: string,
    earliestTime: real,
    earliestPercentage: real,
    latestTime: Option<real>,
    latestPercentage: Option<real>,
    id: string)

  /** `product.operations.find(op => op.name === name)`. */
  function FindByName(operations: seq<Operation>, name: string): (r: Option<Operation>)
    ensures r.Some? <==> exists op <- operations :: op.name == name
    ensures r.Some? ==> r.value in operations && r.value.name == name
  {
    if operations == [] then None
    else if operations[0].name == name then Some(operations[0])
    else FindByName(operations[1..], name)
  }

  /** `operationCounts[position][name]?.percentage || 0`, for a position that exists. */
  function PercentageAt(operationCounts: map<nat, Statistics.Table>, position: nat, name: string): real
    requires position in operationCounts
  {
    if name in operationCounts[position] then operationCounts[position][name].percentage else 0.0
  }

  /** What the record loop needs of every sighting: its position has a table and its name an operation. */
  ghost predicate RecordsDefined(nextSequences: seq<seq<Operation>>, operationCounts: map<nat, Statistics.Table>, product: Product) {
    forall x <- Sightings(nextSequences) ::
      x.index in operationCounts && FindByName(product.operations, x.name).Some?
  }

  /** The record for one key of the scan. */
  function NeedFor(st: PositionScan, name: string, operationCounts: map<nat, Statistics.Table>,
                   product: Product, ctx: ForecastContext): MaterialNeed
    requires ContextOk(ctx)
    requires name in st.earliest
    requires st.earliest[name].index in operationCounts && FindByName(product.operations, name).Some?
  {
    var earliestTime := TimeToOperation(ctx, Some(st.earliest[name].before));
    var latestPreceding := if name in st.latest then Some(st.latest[name].before) else None;
    var latestTime := TimeToOperation(ctx, latestPreceding);
    MaterialNeed(name, earliestTime, PercentageAt(operationCounts, st.earliest[name].index, name),
                 Some(latestTime), Some(100.0), FindByName(product.operations, name).value.id)
  }

  /** The keys whose record can be built. */
  ghost predicate KeysDefined(st: PositionScan, keys: seq<string>, operationCounts: map<nat, Statistics.Table>, product: Product) {
    forall name <- keys ::
      name in st.earliest
      && st.earliest[name].index in operationCounts && FindByName(product.operations, name).Some?
  }

  /** The records for `keys`, in order. */
  function NeedsFor(st: PositionScan, keys: seq<string>, operationCounts: map<nat, Statistics.Table>,
                    product: Product, ctx: ForecastContext): (r: seq<MaterialNeed>)
    requires ContextOk(ctx) && KeysDefined(st, keys, operationCounts, product)
    ensures |r| == |keys| && forall k | 0 <= k < |keys| :: r[k].name == keys[k]
  {
    if keys == [] then []
    else
      var n := |keys| - 1;
      KeysDefinedInit(st, keys, operationCounts, product);
      var init := NeedsFor(st, keys[..n], operationCounts, product, ctx);
      var last := NeedFor(st, keys[n], operationCounts, product, ctx);
      NamesSnoc(init, last, keys);
      init + [last]
  }

  /** Appending the record of the last key keeps records and keys aligned by name. */
  lemma NamesSnoc(init: seq<MaterialNeed>, last: MaterialNeed, keys: seq<string>)
    requires |init| + 1 == |keys| && forall k | 0 <= k < |init| :: init[k].name == keys[k]
    requires last.name == keys[|keys| - 1]
    ensures forall k | 0 <= k < |keys| :: (init + [last])[k].name == keys[k]
  {
  }

  lemma KeysDefinedInit(st: PositionScan, keys: seq<string>, operationCounts: map<nat, Statistics.Table>, product: Product)
    requires KeysDefined(st, keys, operationCounts, product) && keys != []
    ensures KeysDefined(st, keys[..|keys| - 1], operationCounts, product)
    ensures var name := keys[|keys| - 1];
            name in st.earliest && st.earliest[name].index in operationCounts && FindByName(product.operations, name).Some?
  {
    assert keys[|keys| - 1] in keys;
    assert forall name <- keys[..|keys| - 1] :: name in keys;
  }

  lemma ScanKeysDefined(nextSequences: seq<seq<Operation>>, operationCounts: map<nat, Statistics.Table>, product: Product)
    requires RecordsDefined(nextSequences, operationCounts, product)
    ensures KeysDefined(Record(Sightings(nextSequences)), Record(Sightings(nextSequences)).keys, operationCounts, product)
  {
    var xs := Sightings(nextSequences);
    var st := Record(xs);
    RecordKeys(xs);
    forall name <- st.keys
      ensures name in st.earliest && st.earliest[name].index in operationCounts && FindByName(product.operations, name).Some?
    {
      RecordEarliest(xs, name);
      var k :| FirstAtMin(xs, name, st.earliest[name].index, st.earliest[name].before, k);
      assert xs[k] in xs;
    }
  }

  /** The list `calculateOperationPositions` appends: one record per key, in key order. */
  function MaterialNeeds(nextSequences: seq<seq<Operation>>, operationCounts: map<nat, Statistics.Table>,
                         product: Product, ctx: ForecastContext): seq<MaterialNeed>
    requires ContextOk(ctx) && RecordsDefined(nextSequences, operationCounts, product)
  {
    var st := Record(Sightings(nextSequences));
    ScanKeysDefined(nextSequences, operationCounts, product);
    NeedsFor(st, st.keys, operationCounts, product, ctx)
  }

  /** `calculateOperationPositions`: the records it appends to `materialNeededOperationsList`. */
  method CalculateOperationPositions(nextSequences: seq<seq<Operation>>, operationCounts: map<nat, Statistics.Table>,
                                     product: Product, ctx: ForecastContext)
    returns (records: seq<MaterialNeed>)
    requires ContextOk(ctx) && RecordsDefined(nextSequences, operationCounts, product)
    ensures records == MaterialNeeds(nextSequences, operationCounts, product, ctx)
  {
    var st := ScanPositions(nextSequences);
    ScanKeysDefined(nextSequences, operationCounts, product);
    records := RecordsFor(st, operationCounts, product, ctx);
  }

  /** The record loop over the keys of a finished scan. */
  method RecordsFor(st: PositionScan, operationCounts: map<nat, Statistics.Table>, product: Product,
                    ctx: ForecastContext) returns (records: seq<MaterialNeed>)
    requires ContextOk(ctx) && KeysDefined(st, st.keys, operationCounts, product)
    ensures records == NeedsFor(st, st.keys, operationCounts, product, ctx)
  {
    records := [];
    for k := 0 to |st.keys|
      invariant KeysDefined(st, st.keys[..k], operationCounts, product)
      invariant records == NeedsFor(st, st.keys[..k], operationCounts, product, ctx)
    {
      NeedsForSnoc(st, st.keys, k, operationCounts, product, ctx);
      var need := RecordFor(st, st.keys[k], operationCounts, product, ctx);
      records := records + [need];
    }
    assert st.keys[..|st.keys|] == st.keys;
  }

  /** One more key adds its record at the back. */
  lemma {:induction false} NeedsForSnoc(st: PositionScan, keys: seq<string>, k: nat,
                                        operationCounts: map<nat, Statistics.Table>, product: Product,
                                        ctx: ForecastContext)
    requires ContextOk(ctx) && KeysDefined(st, keys, operationCounts, product) && k < |keys|
    ensures KeysDefined(st, keys[..k + 1], operationCounts, product)
    ensures keys[k] in st.earliest && st.earliest[keys[k]].index in operationCounts
    ensures FindByName(product.operations, keys[k]).Some?
    ensures NeedsFor(st, keys[..k + 1], operationCounts, product, ctx)
            == NeedsFor(st, keys[..k], operationCounts, product, ctx) + [NeedFor(st, keys[k], operationCounts, product, ctx)]
  {
    KeysDefinedPrefix(st, keys, k + 1, operationCounts, product);
    KeysDefinedPrefix(st, keys, k, operationCounts, product);
    assert keys[k] in keys;
    assert keys[..k + 1][..k] == keys[..k];
  }

  /** The body of the record loop: the times to the earliest and latest positions and the earliest percentage. */
  method RecordFor(st: PositionScan, operationName: string, operationCounts: map<nat, Statistics.Table>,
                   product: Product, ctx: ForecastContext) returns (need: MaterialNeed)
    requires ContextOk(ctx) && operationName in st.earliest
    requires st.earliest[operationName].index in operationCounts && FindByName(product.operations, operationName).Some?
    ensures need == NeedFor(st, operationName, operationCounts, product, ctx)
  {
    var timeToEarliestOperation := CalculateTimeToOperation(ctx, Some(st.earliest[operationName].before));
    var latestPreceding := if operationName in st.latest then Some(st.latest[operationName].before) else None;
    var timeToLatestOperation := CalculateTimeToOperation(ctx, latestPreceding);
    var earliestPercentage := PercentageAt(operationCounts, st.earliest[operationName].index, operationName);
    var operation := FindByName(product.operations, operationName);
    need := MaterialNeed(operationName, timeToEarliestOperation, earliestPercentage,
                         Some(timeToLatestOperation), Some(100.0), operation.value.id);
  }

  lemma KeysDefinedPrefix(st: PositionScan, keys: seq<string>, k: nat, operationCounts: map<nat, Statistics.Table>,
                          product: Product)
    requires KeysDefined(st, keys, operationCounts, product) && k <= |keys|
    ensures KeysDefined(st, keys[..k], operationCounts, product)
  {
    forall name <- keys[..k] ensures name in keys {
      var i :| 0 <= i < k && keys[..k][i] == name;
      assert keys[i] == name;
    }
  }

  /**
   * The records name each material-requiring operation seen exactly once;
   * each carries its earliest-position percentage, and its latest percentage
   * is 100 exactly when its latest time is defined (which it always is).
   */
  lemma MaterialNeedsShape(nextSequences: seq<seq<Operation>>, operationCounts: map<nat, Statistics.Table>,
                           product: Product, ctx: ForecastContext, k: nat)
    requires ContextOk(ctx) && RecordsDefined(nextSequences, operationCounts, product)
    requires k < |MaterialNeeds(nextSequences, operationCounts, product, ctx)|
    ensures var r := MaterialNeeds(nextSequences, operationCounts, product, ctx)[k];
      && Seen(Sightings(nextSequences), r.name)
      && (forall m | 0 <= m < k :: MaterialNeeds(nextSequences, operationCounts, product, ctx)[m].name != r.name)
      && r.latestTime.Some? && (r.latestPercentage == Some(100.0) <==> r.latestTime.Some?)
  {
    var xs := Sightings(nextSequences);
    var st := Record(xs);
    ScanKeysDefined(nextSequences, operationCounts, product);
    RecordKeys(xs);
    RecordEarliestDomain(xs, st.keys[k]);
    NeedsForAt(st, st.keys, operationCounts, product, ctx, k);
    forall m | 0 <= m < k ensures MaterialNeeds(nextSequences, operationCounts, product, ctx)[m].name != st.keys[k] {
      assert st.keys[m] != st.keys[k];
    }
  }

  lemma {:induction false} NeedsForAt(st: PositionScan, keys: seq<string>, operationCounts: map<nat, Statistics.Table>,
                                      product: Product, ctx: ForecastContext, k: nat)
    requires ContextOk(ctx) && KeysDefined(st, keys, operationCounts, product) && k < |keys|
    ensures NeedsFor(st, keys, operationCounts, product, ctx)[k] == NeedFor(st, keys[k], operationCounts, product, ctx)
    decreases |keys|
  {
    if k < |keys| - 1 {
      var init := keys[..|keys| - 1];
      assert KeysDefined(st, init, operationCounts, product) by {
        forall name <- init ensures name in keys {
          var i :| 0 <= i < |init| && init[i] == name;
          assert keys[i] == name;
        }
      }
      NeedsForAt(st, init, operationCounts, product, ctx, k);
    }
  }

  /** Every material-requiring operation seen gets a record. */
  lemma MaterialNeedsComplete(nextSequences: seq<seq<Operation>>, operationCounts: map<nat, Statistics.Table>,
                              product: Product, ctx: ForecastContext, name: string)
    requires ContextOk(ctx) && RecordsDefined(nextSequences, operationCounts, product)
    requires Seen(Sightings(nextSequences), name)
    ensures exists r <- MaterialNeeds(nextSequences, operationCounts, product, ctx) :: r.name == name
  {
    var xs := Sightings(nextSequences);
    var st := Record(xs);
    RecordEarliestDomain(xs, name);
    RecordKeys(xs);
    ScanKeysDefined(nextSequences, operationCounts, product);
    var i :| 0 <= i < |st.keys| && st.keys[i] == name;
    var rs := MaterialNeeds(nextSequences, operationCounts, product, ctx);
    assert rs[i].name == name && rs[i] in rs;
  }

  /**
   * The earliest record of `name`: its time uses the operations before the
   * first sighting at the minimum index, and its percentage is that
   * position's share of `name`.
   */
  lemma MaterialNeedEarliest(nextSequences: seq<seq<Operation>>, operationCounts: map<nat, Statistics.Table>,
                             product: Product, ctx: ForecastContext, k: nat)
    requires ContextOk(ctx) && RecordsDefined(nextSequences, operationCounts, product)
    requires k < |MaterialNeeds(nextSequences, operationCounts, product, ctx)|
    ensures EarliestFits(Sightings(nextSequences), MaterialNeeds(nextSequences, operationCounts, product, ctx)[k], operationCounts, ctx)
  {
    var xs := Sightings(nextSequences);
    var st := Record(xs);
    ScanKeysDefined(nextSequences, operationCounts, product);
    var name := st.keys[k];
    NeedsForAt(st, st.keys, operationCounts, product, ctx, k);
    var r := MaterialNeeds(nextSequences, operationCounts, product, ctx)[k];
    assert r == NeedFor(st, name, operationCounts, product, ctx);
    NeedForEarliest(xs, name, operationCounts, product, ctx);
  }

  /** The earliest fields of one key's record, in terms of the sightings. */
  lemma NeedForEarliest(xs: seq<Sighting>, name: string, operationCounts: map<nat, Statistics.Table>,
                        product: Product, ctx: ForecastContext)
    requires ContextOk(ctx) && name in Record(xs).earliest
    requires Record(xs).earliest[name].index in operationCounts && FindByName(product.operations, name).Some?
    ensures EarliestFits(xs, NeedFor(Record(xs), name, operationCounts, product, ctx), operationCounts, ctx)
  {
    var st := Record(xs);
    RecordEarliest(xs, name);
    var e, before := st.earliest[name].index, st.earliest[name].before;
    var i :| FirstAtMin(xs, name, e, before, i);
    var r := NeedFor(st, name, operationCounts, product, ctx);
    assert r.name == name && r.earliestTime == TimeToOperation(ctx, Some(before));
    assert FirstAtMin(xs, r.name, e, before, i) && Below(xs, r.name, e);
  }

  /**
   * Record `r`'s earliest fields fit the sightings: its time uses the
   * operations before the first sighting at the minimum index, and its
   * percentage is that position's share of its name.
   */
  ghost predicate EarliestFits(xs: seq<Sighting>, r: MaterialNeed, operationCounts: map<nat, Statistics.Table>,
                               ctx: ForecastContext)
    requires ContextOk(ctx)
  {
    exists i, e: nat, before ::
      && FirstAtMin(xs, r.name, e, before, i) && Below(xs, r.name, e)
      && e in operationCounts
      && r.earliestTime == TimeToOperation(ctx, Some(before))
      && r.earliestPercentage == PercentageAt(operationCounts, e, r.name)
  }

  /** The latest record of `name`: its time uses the operations before the first sighting at the maximum index, or none. */
  lemma MaterialNeedLatest(nextSequences: seq<seq<Operation>>, operationCounts: map<nat, Statistics.Table>,
                           product: Product, ctx: ForecastContext, k: nat)
    requires ContextOk(ctx) && RecordsDefined(nextSequences, operationCounts, product)
    requires k < |MaterialNeeds(nextSequences, operationCounts, product, ctx)|
    ensures var xs := Sightings(nextSequences);
      var r := MaterialNeeds(nextSequences, operationCounts, product, ctx)[k];
      && (!SeenAfterStart(xs, r.name) ==> r.latestTime == Some(TimeToOperation(ctx, None)))
      && (SeenAfterStart(xs, r.name) ==>
            exists i, l: nat, before ::
              && FirstAtMax(xs, r.name, l, before, i) && Above(xs, r.name, l) && l > 0
              && r.latestTime == Some(TimeToOperation(ctx, Some(before))))
  {
    var xs := Sightings(nextSequences);
    var st := Record(xs);
    ScanKeysDefined(nextSequences, operationCounts, product);
    var name := st.keys[k];
    RecordLatestDomain(xs, name);
    NeedsForAt(st, st.keys, operationCounts, product, ctx, k);
    var r := MaterialNeeds(nextSequences, operationCounts, product, ctx)[k];
    assert r == NeedFor(st, name, operationCounts, product, ctx);
    if name in st.latest {
      RecordLatest(xs, name);
      var i :| FirstAtMax(xs, name, st.latest[name].index, st.latest[name].before, i);
    }
  }
}
