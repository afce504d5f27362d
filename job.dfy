/**
 * The assembly job: an object whose planning methods update its own fields.
 * Its methods run the precedence filter, the sequence enumeration, the
 * frequency analysis, the material-need forecast and the station selection
 * of the other modules and store their results, as the job's methods do.
 */
module Job {
  import opened Wrappers
  import opened Products
  import opened Precedence
  import opened Enumeration
  import opened Statistics
  import opened Shopfloor
  import opened Forecast
  import opened Selection

  /** `plannedAGVStationWarehouse`: the AGV reserved for the planned station, with its warehouse. */
  datatype Reservation = Reservation(offer: SupplyOffer, station: Station)

  /**
   * The reservation after a supply action: set for a reserved AGV, cleared
   * while the job waits for one, otherwise kept.
   */
  function ReservationAfter(supply: SupplyAction, planned: Option<Candidate>, prev: Option<Reservation>): Option<Reservation>
    requires supply.Reserve? ==> planned.Some?
  {
    match supply
    case Reserve(offer) => Some(Reservation(offer, planned.value.station))
    case AwaitAgv => None
    case _ => prev
  }

  /** How a planning round ends: move to the planned station, infeasible, or completed. */
  datatype Outcome = Move | Infeasible | Completed

  /** The outcome rule of `prepareNextOperation`: a plan moves the job; otherwise remaining work makes it infeasible. */
  function OutcomeOf(planned: Option<Candidate>, uncompleted: seq<Operation>): Outcome {
    if planned.Some? then Move else if |uncompleted| > 0 then Infeasible else Completed
  }

  /**
   * A job is declared infeasible exactly when work remains but no next
   * operation has an enabled capable station.
   */
  lemma InfeasibleIffNoStation(p: Product, completed: seq<Operation>, capable: Operation -> seq<Station>, r: Readings)
    ensures var plan := PlanFor(NextOps(p, completed), capable, r);
      OutcomeOf(plan.planned, UncompletedOperations(p.operations, completed)) == Infeasible <==>
        && UncompletedOperations(p.operations, completed) != []
        && forall o, s | o in NextOps(p, completed) && s in capable(o) :: s.disabled
  {
    var next := NextOps(p, completed);
    var cs := Candidates(next, capable);
    PlanIsFirstBest(next, capable, r);
    if cs != [] {
      var c := cs[0];
      assert c in cs;
      CandidatesIff(next, capable, c);
    } else {
      forall o, s | o in next && s in capable(o) ensures s.disabled {
        CandidatesIff(next, capable, Candidate(s, o));
      }
    }
  }

  /**
   * After `getSequences2` and `analyzeSequences2`, every sighting of a
   * material-requiring operation has a frequency table at its position and
   * names an operation of the product, so the record loop is defined.
   */
  lemma AnalysisCoversSightings(p: Product, past: seq<Operation>, tiempo: real, before: map<nat, Table>)
    requires WellFormed(p)
    ensures var ns := NextSequences(p, past);
      |ns| > 0 && RecordsDefined(ns, AnalyzedCounts(ns, tiempo, before), p)
  {
    var ns := NextSequences(p, past);
    NextSequencesShape(p, past);
    var counts := AnalyzedCounts(ns, tiempo, before);
    forall x <- Sightings(ns) ensures x.index in counts && FindByName(p.operations, x.name).Some? {
      SightingsIff(ns, x);
      var j, i :| 0 <= j < |ns| && 0 <= i < |ns[j]| && ns[j][i].materialRequired && x == Sighting(ns[j][i].name, i, ns[j][..i]);
      assert ns[j] in ns && ns[0] in ns;
      NextSequencesSameLength(p, past, ns[j], ns[0]);
      AnalyzedFresh(ns, tiempo, before, i);
      NextSequencesUseProductOperations(p, past, ns[j]);
      assert ns[j][i] in ns[j];
    }
  }

  /** The remaining sequences all share the first one's length. */
  lemma RemainingSequencesAligned(p: Product, past: seq<Operation>)
    requires WellFormed(p)
    ensures var ns := NextSequences(p, past);
      |ns| > 0 && AllLonger(ns, |ns[0]|)
  {
    var ns := NextSequences(p, past);
    NextSequencesShape(p, past);
    forall s <- ns ensures |ns[0]| <= |s| {
      assert ns[0] in ns;
      NextSequencesSameLength(p, past, s, ns[0]);
    }
  }

  class AssemblyJob {
    const id: string
    const product: Product

    var completedOperations: seq<Operation>
    var plannedJobOperation: Option<Candidate>
    var plannedAGVStationWarehouse: Option<Reservation>
    var materialArrived: bool
    var infeasible: bool

    var nextSequences: seq<seq<Operation>>
    var operationCounts: map<nat, Table>
    var materialNeededOperationsList: seq<MaterialNeed>
    var createlist: bool
    var predictiveList: bool

    var lastTime: real
    var workingTime: real
    var waitingTime: real
    var transportTime: real
    var transportTest: real
    var workTime2: real
    var workTime3: real
    var usedStations: seq<string>
    var sequencesArray: seq<string>
    var sequencesString: string

    var dispatchedAt: Option<real>
    var jobStartTime: real
    var completedAt: Option<real>
    var jobEndTime: real
    var jobTotalTime: real
    var jobElseTime: real

    /** The product's operations are distinct and its matrix has at most one row per operation plus the sink. */
    predicate Valid() {
      WellFormed(product)
    }

    /** A new job for `product`: nothing completed or planned, all clocks at 0. */
    constructor (id: string, product: Product)
      requires WellFormed(product)
      ensures Valid() && this.id == id && this.product == product
      ensures completedOperations == [] && plannedJobOperation == None && plannedAGVStationWarehouse == None
      ensures !materialArrived && !infeasible && !createlist && !predictiveList
      ensures nextSequences == [] && operationCounts == map[] && materialNeededOperationsList == []
      ensures lastTime == 0.0 && workingTime == 0.0 && waitingTime == 0.0 && transportTime == 0.0 && transportTest == 0.0
      ensures workTime2 == 0.0 && workTime3 == 0.0 && usedStations == [] && sequencesArray == [] && sequencesString == ""
      ensures dispatchedAt == None && jobStartTime == 0.0 && completedAt == None
      ensures jobEndTime == 0.0 && jobTotalTime == 0.0 && jobElseTime == 0.0
    {
      this.id := id;
      this.product := product;
      completedOperations := [];
      plannedJobOperation := None;
      plannedAGVStationWarehouse := None;
      materialArrived := false;
      infeasible := false;
      nextSequences := [];
      operationCounts := map[];
      materialNeededOperationsList := [];
      createlist := false;
      predictiveList := false;
      lastTime := 0.0;
      workingTime := 0.0;
      waitingTime := 0.0;
      transportTime := 0.0;
      transportTest := 0.0;
      workTime2 := 0.0;
      workTime3 := 0.0;
      usedStations := [];
      sequencesArray := [];
      sequencesString := "";
      dispatchedAt := None;
      jobStartTime := 0.0;
      completedAt := None;
      jobEndTime := 0.0;
      jobTotalTime := 0.0;
      jobElseTime := 0.0;
    }

    /** The operations `getSequences2` treats as done: the completed ones and the planned one. */
    function PastOperations(): seq<Operation>
      reads this`completedOperations, this`plannedJobOperation
    {
      completedOperations + (if plannedJobOperation.Some? then [plannedJobOperation.value.operation] else [])
    }

    /** The planned operation, if any. */
    function PlannedOperation(): Option<Operation>
      reads this`plannedJobOperation
    {
      if plannedJobOperation.Some? then Some(plannedJobOperation.value.operation) else None
    }

    /** `dispatch`: the dispatch time and the job's start time are now; no other field changes. */
    method Dispatch(now: real)
      modifies this`dispatchedAt, this`jobStartTime
      ensures dispatchedAt == Some(now) && jobStartTime == now
    {
      dispatchedAt := Some(now);
      jobStartTime := dispatchedAt.value;
    }

    /**
     * `completeOperation`: the operation is appended to the completed ones,
     * the work metrics grow by its times, the time since `lastTime` counts as
     * working time, and the planned station goes into the station history.
     */
    method CompleteOperation(operation: Operation, now: real)
      modifies this`workTime2, this`workTime3, this`workingTime, this`lastTime, this`completedOperations,
              this`usedStations, this`sequencesArray, this`sequencesString
      ensures completedOperations == old(completedOperations) + [operation]
      ensures workTime2 == old(workTime2) + WorkContent(operation)
      ensures workTime3 == old(workTime3) + operation.processingTime
      ensures workingTime == old(workingTime) + (now - old(lastTime)) && lastTime == now
      ensures usedStations == old(usedStations)
                              + (if old(plannedJobOperation).Some? then [old(plannedJobOperation).value.station.id] else [])
      ensures sequencesArray == old(sequencesArray) + [operation.name]
      ensures sequencesString == old(sequencesString) + " " + operation.name + ";"
      ensures plannedJobOperation == old(plannedJobOperation) && nextSequences == old(nextSequences)
      ensures waitingTime == old(waitingTime) && transportTime == old(transportTime)
      ensures PrecedenceConsistent(product, old(completedOperations)) && operation in NextOps(product, old(completedOperations))
              ==> PrecedenceConsistent(product, completedOperations)
    {
      ghost var before := completedOperations;
      workTime2 := workTime2 + (operation.followUpTime + operation.setUpTime + operation.processingTime);
      workTime3 := workTime3 + operation.processingTime;
      workingTime := workingTime + (now - lastTime);
      lastTime := now;
      completedOperations := completedOperations + [operation];
      if plannedJobOperation.Some? {
        usedStations := usedStations + [plannedJobOperation.value.station.id];
      }
      sequencesArray := sequencesArray + [operation.name];
      sequencesString := sequencesString + " " + operation.name + ";";
      CompletingNextKeepsConsistency(product, before, operation);
    }

    /**
     * `getSequences2`: the remaining sequences after the completed and the
     * planned operations; there is at least one and they all share a length.
     */
    method GetSequences2()
      requires Valid()
      modifies this`nextSequences
      ensures nextSequences == NextSequences(product, old(PastOperations()))
      ensures |nextSequences| > 0 && AllLonger(nextSequences, |nextSequences[0]|)
      ensures completedOperations == old(completedOperations) && plannedJobOperation == old(plannedJobOperation)
      ensures operationCounts == old(operationCounts) && lastTime == old(lastTime)
      ensures predictiveList == old(predictiveList) && transportTime == old(transportTime)
      ensures materialNeededOperationsList == old(materialNeededOperationsList)
    {
      var pastOperations := PastOperations();
      RemainingSequencesAligned(product, pastOperations);
      nextSequences := EnumerateRemaining(pastOperations, product);
    }

    /** `analyzeSequences2`: the frequency tables of the remaining sequences, position 0 timed by the planned operation. */
    method AnalyzeSequences2()
      requires |nextSequences| > 0 && AllLonger(nextSequences, |nextSequences[0]|)
      modifies this`operationCounts
      ensures operationCounts == AnalyzedCounts(old(nextSequences), FinishingTime(old(PlannedOperation()), old(lastTime)),
                                                old(operationCounts))
      ensures nextSequences == old(nextSequences) && completedOperations == old(completedOperations)
      ensures plannedJobOperation == old(plannedJobOperation) && lastTime == old(lastTime)
      ensures predictiveList == old(predictiveList) && transportTime == old(transportTime)
      ensures materialNeededOperationsList == old(materialNeededOperationsList)
    {
      var tiempo := FinishingTime(PlannedOperation(), lastTime);
      operationCounts := AnalyzeSequences(nextSequences, tiempo, operationCounts);
    }

    /** The readings `calculateTimeToOperation` takes from the job for the given planned operation, station and warehouse. */
    function ContextFor(plannedOp: Operation, station: Station, warehouse: Option<Warehouse>, now: real, loadDelay: real)
      : ForecastContext
      reads this`predictiveList, this`plannedJobOperation, this`transportTime
    {
      ForecastContext(now, plannedOp, predictiveList, PlannedOperation(), warehouse, id, transportTime, station, loadDelay)
    }

    /** `calculateOperationPositions`: the material-need records are appended to the list. */
    method CalculateOperationPositions(plannedOp: Operation, station: Station, warehouse: Option<Warehouse>,
                                       now: real, loadDelay: real)
      requires predictiveList || plannedJobOperation.Some?
      requires RecordsDefined(nextSequences, operationCounts, product)
      modifies this`materialNeededOperationsList
      ensures nextSequences == old(nextSequences) && operationCounts == old(operationCounts)
      ensures materialNeededOperationsList ==
        old(materialNeededOperationsList)
        + MaterialNeeds(nextSequences, operationCounts, product, old(ContextFor(plannedOp, station, warehouse, now, loadDelay)))
      ensures completedOperations == old(completedOperations) && plannedJobOperation == old(plannedJobOperation)
    {
      var ctx := ContextFor(plannedOp, station, warehouse, now, loadDelay);
      var records := Forecast.CalculateOperationPositions(nextSequences, operationCounts, product, ctx);
      materialNeededOperationsList := materialNeededOperationsList + records;
    }

    /**
     * `findNextnextOperations`: the material-need list is rebuilt from
     * scratch.  With an operation given, the remaining sequences are
     * regenerated and analysed and the records computed from them; the list
     * is then marked as created.
     */
    method FindNextnextOperations(ope: Option<Operation>, station: Station, warehouse: Option<Warehouse>,
                                  now: real, loadDelay: real)
      requires Valid() && (ope.Some? ==> predictiveList || plannedJobOperation.Some?)
      modifies this`nextSequences, this`operationCounts, this`materialNeededOperationsList, this`createlist
      ensures createlist
      ensures ope.None? ==> materialNeededOperationsList == [] && nextSequences == old(nextSequences)
      ensures ope.None? ==> operationCounts == old(operationCounts)
      ensures ope.Some? ==> nextSequences == NextSequences(product, old(PastOperations()))
      ensures ope.Some? ==> |nextSequences| > 0 && RecordsDefined(nextSequences, operationCounts, product)
      ensures ope.Some? ==>
        operationCounts == AnalyzedCounts(nextSequences, FinishingTime(old(PlannedOperation()), old(lastTime)), old(operationCounts))
      ensures ope.Some? ==>
        materialNeededOperationsList ==
          MaterialNeeds(nextSequences, operationCounts, product, old(ContextFor(ope.value, station, warehouse, now, loadDelay)))
      ensures completedOperations == old(completedOperations) && plannedJobOperation == old(plannedJobOperation)
    {
      if ope.Some? {
        RebuildNeeds(ope.value, station, warehouse, now, loadDelay);
      } else {
        materialNeededOperationsList := [];
      }
      createlist := true;
    }

    /** The branch of `findNextnextOperations` with an operation: sequences, analysis, then records. */
    method RebuildNeeds(op: Operation, station: Station, warehouse: Option<Warehouse>, now: real, loadDelay: real)
      requires Valid() && (predictiveList || plannedJobOperation.Some?)
      modifies this`nextSequences, this`operationCounts, this`materialNeededOperationsList
      ensures nextSequences == NextSequences(product, old(PastOperations()))
      ensures |nextSequences| > 0 && RecordsDefined(nextSequences, operationCounts, product)
      ensures operationCounts == AnalyzedCounts(nextSequences, FinishingTime(old(PlannedOperation()), old(lastTime)), old(operationCounts))
      ensures materialNeededOperationsList ==
          MaterialNeeds(nextSequences, operationCounts, product, old(ContextFor(op, station, warehouse, now, loadDelay)))
      ensures completedOperations == old(completedOperations) && plannedJobOperation == old(plannedJobOperation)
    {
      materialNeededOperationsList := [];
      ghost var past := PastOperations();
      ghost var tiempo := FinishingTime(PlannedOperation(), lastTime);
      ghost var before := operationCounts;
      ghost var ctx := ContextFor(op, station, warehouse, now, loadDelay);
      GetSequences2();
      assert nextSequences == NextSequences(product, past);
      AnalyzeSequences2();
      assert operationCounts == AnalyzedCounts(nextSequences, tiempo, before);
      AnalysisCoversSightings(product, past, tiempo, before);
      assert ContextFor(op, station, warehouse, now, loadDelay) == ctx;
      CalculateOperationPositions(op, station, warehouse, now, loadDelay);
      assert materialNeededOperationsList == MaterialNeeds(nextSequences, operationCounts, product, ctx);
    }

    /**
     * `findNextStation`: plans the first best candidate over the next
     * operations, takes the transport time to it, and carries out the
     * supply decision on the job's own fields.
     */
    method FindNextStation(capable: Operation -> seq<Station>, r: Readings) returns (supply: SupplyAction)
      modifies this`plannedJobOperation, this`transportTime, this`plannedAGVStationWarehouse, this`materialArrived
      ensures var plan := PlanFor(NextOps(product, old(completedOperations)), capable, r);
        && plannedJobOperation == plan.planned && transportTime == plan.transportTime && supply == plan.supply
        && (supply.Reserve? ==> plannedAGVStationWarehouse == Some(Reservation(supply.offer, plan.planned.value.station)))
        && (supply.AwaitAgv? ==> plannedAGVStationWarehouse == None)
        && (!supply.Reserve? && !supply.AwaitAgv? ==> plannedAGVStationWarehouse == old(plannedAGVStationWarehouse))
        && materialArrived == (old(materialArrived) || supply.MaterialReady?)
      ensures completedOperations == old(completedOperations) && nextSequences == old(nextSequences)
    {
      var next := Precedence.NextOperations(product, completedOperations);
      var plan := Selection.FindNextStation(next, capable, r);
      plannedJobOperation := plan.planned;
      transportTime := plan.transportTime;
      supply := plan.supply;
      plannedAGVStationWarehouse := ReservationAfter(supply, plan.planned, plannedAGVStationWarehouse);
      materialArrived := materialArrived || supply.MaterialReady?;
    }

    /** The end of `prepareNextOperation` without a move: infeasible when work remains, otherwise completed. */
    method Settle() returns (outcome: Outcome)
      modifies this`plannedJobOperation, this`infeasible
      ensures outcome == OutcomeOf(old(plannedJobOperation), UncompletedOperations(product.operations, completedOperations))
      ensures outcome == Move ==> plannedJobOperation == old(plannedJobOperation) && infeasible == old(infeasible)
      ensures outcome == Infeasible ==> plannedJobOperation == None && infeasible
      ensures outcome == Completed ==> plannedJobOperation == None && infeasible == old(infeasible)
      ensures completedOperations == old(completedOperations)
    {
      if plannedJobOperation.Some? {
        outcome := Move;
      } else if |UncompletedOperations(product.operations, completedOperations)| > 0 {
        plannedJobOperation := None;
        infeasible := true;
        outcome := Infeasible;
      } else {
        plannedJobOperation := None;
        outcome := Completed;
      }
    }

    /**
     * The end of the job: the last transport leg is added, the total time
     * is split into transport, working and waiting time, and what none of
     * them accounts for is booked as waiting time.
     */
    method FinishJob(startTime: real, endTime: real, eta: real)
      modifies this`transportTest, this`transportTime, this`completedAt, this`jobEndTime, this`jobTotalTime,
              this`jobElseTime, this`waitingTime
      ensures transportTest == old(transportTest) + (endTime - startTime) && transportTime == transportTest
      ensures completedAt == Some(eta) && jobEndTime == eta && jobTotalTime == eta - jobStartTime
      ensures jobElseTime == jobTotalTime - (transportTime + workingTime + old(waitingTime))
      ensures waitingTime == old(waitingTime) + jobElseTime && workingTime == old(workingTime)
      ensures transportTime + workingTime + waitingTime == jobTotalTime
      ensures jobStartTime == old(jobStartTime) && completedOperations == old(completedOperations)
    {
      transportTest := transportTest + (endTime - startTime);
      transportTime := transportTest;
      completedAt := Some(eta);
      jobEndTime := completedAt.value;
      jobTotalTime := jobEndTime - jobStartTime;
      jobElseTime := jobTotalTime - (transportTime + workingTime + waitingTime);
      waitingTime := waitingTime + jobElseTime;
    }
  }

  /**
   * A job's life from `dispatch` to the sink: whatever happens in the
   * planning rounds between, the total time booked at the end spans from
   * the dispatch time to the arrival.
   */
  method DispatchToSink(job: AssemblyJob, dispatchTime: real, operation: Operation, done: real,
                        capable: Operation -> seq<Station>, r: Readings, startTime: real, endTime: real, eta: real)
    returns (outcome: Outcome)
    modifies job
    ensures job.jobTotalTime == eta - dispatchTime
    ensures job.transportTime + job.workingTime + job.waitingTime == eta - dispatchTime
  {
    job.Dispatch(dispatchTime);
    job.CompleteOperation(operation, done);
    assert job.jobStartTime == dispatchTime;
    var supply := job.FindNextStation(capable, r);
    assert job.jobStartTime == dispatchTime;
    outcome := job.Settle();
    assert job.jobStartTime == dispatchTime;
    job.FinishJob(startTime, endTime, eta);
  }
}
