/**
 * Readings of the shop floor that the job's planning logic consumes:
 * snapshots of assembly stations, the operations queued at or travelling to
 * them, and warehouses.  The simulator's live objects are not modelled; a
 * value of these types is what the job reads at the moment it plans.
 */
module Shopfloor {
  import opened Products

  /** An operation of some job, queued at or moving to a station, with that job's id and transport time. */
  datatype StationJobOperation = StationJobOperation(jobId: string, jobTransportTime: real, operation: Operation)

  /** An assembly station as the job sees it. */
  datatype Station = Station(
    id: string,
    disabled: bool,
    expectedFinishTime: real,
    queuedJobOperations: seq<StationJobOperation>,
    movingJobOperations: seq<StationJobOperation>,
    hasActiveJobOperation: bool)

  /** A warehouse: the time an AGV needs there, and the time to load material. */
  datatype Warehouse = Warehouse(id: string, timeToProcessAGV: real, timeToLoadMaterial: real)

  /** Set-up plus processing plus follow-up time of one operation. */
  function WorkContent(op: Operation): real {
    op.setUpTime + op.processingTime + op.followUpTime
  }

  /** The `reduce` over a station's queue: the summed work content of the queued operations. */
  function QueuedDuration(queue: seq<StationJobOperation>): real {
    if queue == [] then 0.0 else QueuedDuration(queue[..|queue| - 1]) + WorkContent(queue[|queue| - 1].operation)
  }

  /** All times of an operation are non-negative. */
  predicate NonNegativeTimes(op: Operation) {
    op.setUpTime >= 0.0 && op.processingTime >= 0.0 && op.followUpTime >= 0.0
  }

  lemma {:induction false} QueuedDurationNonNegative(queue: seq<StationJobOperation>)
    requires forall q <- queue :: NonNegativeTimes(q.operation)
    ensures QueuedDuration(queue) >= 0.0
  {
    if queue != [] {
      QueuedDurationNonNegative(queue[..|queue| - 1]);
    }
  }

  /** The loop form of the queue `reduce`. */
  method SumQueuedDuration(queue: seq<StationJobOperation>) returns (sum: real)
    ensures sum == QueuedDuration(queue)
  {
    sum := 0.0;
    for k := 0 to |queue|
      invariant sum == QueuedDuration(queue[..k])
    {
      var operation := queue[k].operation;
      sum := sum + operation.setUpTime + operation.processingTime + operation.followUpTime;
      assert queue[..k + 1][..k] == queue[..k];
    }
    assert queue[..|queue|] == queue;
  }
}
