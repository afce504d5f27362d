/**
 * `getScoreForJobOperation`: the priority of a job operation at a station,
 * the reciprocal of a weighted sum of the job's remaining time to its due
 * date, the operation's set-up time and, under managed material supply,
 * the time until its material arrives.  Each term is normalised by the
 * manager's maximum of that quantity.
 */
module JobPriority {
  import opened Wrappers
  import opened Products
  import opened Selection

  /** What the score reads: the job, the operation, the last operation at the station, and the manager's maxima. */
  datatype JobReadings = JobReadings(
    dueDate: real,
    now: real,
    operation: Operation,
    lastOperation: Option<Operation>,
    materialArrived: bool,
    assignedAgvSupplyTime: Option<real>,
    maxST: real,
    maxRTTF: real,
    maxMS: real,
    policy: SupplyPolicy,
    strategy: Strategy)

  /** The time left until the due date, 0 once it has passed. */
  function RemainingTimeToFinish(dueDate: real, now: real): (t: real)
    ensures t >= 0.0 && t >= dueDate - now
    ensures t == 0.0 || t == dueDate - now
  {
    if dueDate >= now then dueDate - now else 0.0
  }

  /** As time passes the remaining time never grows, and it shrinks by at most the time passed. */
  lemma RemainingTimeToFinishShrinks(dueDate: real, now1: real, now2: real)
    requires now1 <= now2
    ensures RemainingTimeToFinish(dueDate, now2) <= RemainingTimeToFinish(dueDate, now1)
    ensures RemainingTimeToFinish(dueDate, now1) - RemainingTimeToFinish(dueDate, now2) <= now2 - now1
  {
  }

  /** Every overdue job has the same remaining time, 0. */
  lemma OverdueJobsTie(dueDate1: real, dueDate2: real, now: real)
    requires dueDate1 < now && dueDate2 < now
    ensures RemainingTimeToFinish(dueDate1, now) == RemainingTimeToFinish(dueDate2, now) == 0.0
  {
  }

  /**
   * The time until the material is there: 0 once it arrived, otherwise the
   * assigned AGV's expected supply time from now, or the manager's maximum
   * when no AGV is assigned.
   */
  function RemainingTimeMaterial(j: JobReadings): (t: real)
    ensures j.materialArrived ==> t == 0.0
  {
    if !j.materialArrived then
      (if j.assignedAgvSupplyTime.Some? then j.assignedAgvSupplyTime.value - j.now else j.maxMS)
    else 0.0
  }

  /** The maxima the formulas divide by are non-zero. */
  predicate Normalisable(j: JobReadings) {
    j.maxRTTF != 0.0 && (ManagesSupply(j.policy) ==> j.maxMS != 0.0)
  }

  /** Weights and readings with no negative part, the maxima strictly positive. */
  predicate NonNegativeReadings(j: JobReadings, setUpTime: real) {
    && j.strategy.pE >= 0.0 && j.strategy.pF >= 0.0 && j.strategy.pH >= 0.0
    && j.maxRTTF > 0.0 && j.maxST >= 0.0 && setUpTime >= 0.0
    && (ManagesSupply(j.policy) ==> j.maxMS > 0.0 && RemainingTimeMaterial(j) >= 0.0)
  }

  /**
   * The score formulas with the given set-up time.  Reactive supply is
   * checked first; managed supply adds the material term; a zero maximum
   * set-up time drops the set-up term.  With nothing negative the score is
   * positive or infinite.
   */
  function JobScoreWith(j: JobReadings, setUpTime: real): (r: Score)
    requires Normalisable(j)
    ensures NonNegativeReadings(j, setUpTime) ==> r.Infinite? || r.value > 0.0
  {
    var s := j.strategy;
    var due := s.pE * (RemainingTimeToFinish(j.dueDate, j.now) / j.maxRTTF);
    if j.policy == Reactive then
      if j.maxST == 0.0 then Reciprocal(due) else Reciprocal(due + s.pF * (setUpTime / j.maxST))
    else if ManagesSupply(j.policy) then
      var material := s.pH * (RemainingTimeMaterial(j) / j.maxMS);
      if j.maxST == 0.0 then Reciprocal(due + material)
      else Reciprocal(due + s.pF * (setUpTime / j.maxST) + material)
    else
      if j.maxST == 0.0 then Reciprocal(due) else Reciprocal(due + s.pF * (setUpTime / j.maxST))
  }

  /** Reactive supply scores as no supply does: neither has a material term. */
  lemma ReactiveScoresAsNoSupply(j: JobReadings, setUpTime: real)
    requires Normalisable(j)
    ensures JobScoreWith(j.(policy := Reactive), setUpTime) == JobScoreWith(j.(policy := NoSupply), setUpTime)
  {
  }

  /** A zero maximum set-up time drops the set-up term: the set-up time does not matter. */
  lemma ZeroMaximumSetUpIgnoresSetUp(j: JobReadings, setUpTime: real)
    requires Normalisable(j) && j.maxST == 0.0
    ensures JobScoreWith(j, setUpTime) == JobScoreWith(j, 0.0)
  {
  }

  /** Under managed supply an arrived material adds nothing: the score is the one without supply. */
  lemma ArrivedMaterialAddsNothing(j: JobReadings, setUpTime: real)
    requires Normalisable(j) && ManagesSupply(j.policy) && j.materialArrived
    ensures JobScoreWith(j, setUpTime) == JobScoreWith(j.(policy := NoSupply), setUpTime)
  {
    var material := j.strategy.pH * (RemainingTimeMaterial(j) / j.maxMS);
    assert RemainingTimeMaterial(j) == 0.0;
    assert material == 0.0;
  }

  /** The score as the formulas are written: with the operation's own set-up time. */
  function JobScoreAsWritten(j: JobReadings): Score
    requires Normalisable(j)
  {
    JobScoreWith(j, j.operation.setUpTime)
  }

  /** The local set-up time: none when the station's last operation is this very operation. */
  function LocalSetUpTime(j: JobReadings): (t: real)
    ensures j.lastOperation == Some(j.operation) ==> t == 0.0
    ensures j.lastOperation != Some(j.operation) ==> t == j.operation.setUpTime
  {
    if j.lastOperation == Some(j.operation) then 0.0 else j.operation.setUpTime
  }

  /** The score with the local set-up time, as the computation of that local evidently intends. */
  function JobScore(j: JobReadings): Score
    requires Normalisable(j)
  {
    JobScoreWith(j, LocalSetUpTime(j))
  }

  /** The two agree whenever the operation is not a repeat of the station's last one. */
  lemma JobScoresAgreeWithoutRepeat(j: JobReadings)
    requires Normalisable(j) && j.lastOperation != Some(j.operation)
    ensures JobScore(j) == JobScoreAsWritten(j)
  {
  }

  /**
   * As written, repeating the station's last operation is still charged its
   * set-up time: with the readings below the written score is 1/2 where the
   * local set-up time gives 1.
   */
  lemma SetUpTimeChargedOnRepeat()
    ensures var op := Operation("op", "op", 1.0, 1.0, 0.0, None, false, []);
      var j := JobReadings(1.0, 0.0, op, Some(op), true, None, 1.0, 1.0, 1.0, NoSupply,
                           Strategy(0.0, 0.0, 0.0, 0.0, 1.0, 1.0, 0.0, 0.0));
      JobScoreAsWritten(j) == Finite(0.5) && JobScore(j) == Finite(1.0)
  {
    var op := Operation("op", "op", 1.0, 1.0, 0.0, None, false, []);
    var j := JobReadings(1.0, 0.0, op, Some(op), true, None, 1.0, 1.0, 1.0, NoSupply,
                         Strategy(0.0, 0.0, 0.0, 0.0, 1.0, 1.0, 0.0, 0.0));
    assert RemainingTimeToFinish(1.0, 0.0) == 1.0;
    assert JobScoreAsWritten(j) == Reciprocal(1.0 * (1.0 / 1.0) + 1.0 * (1.0 / 1.0));
    assert JobScore(j) == Reciprocal(1.0 * (1.0 / 1.0) + 1.0 * (0.0 / 1.0));
  }

  /** With the local set-up time a repeated operation scores as if it had no set-up at all. */
  lemma RepeatedOperationScoresSetUpFree(j: JobReadings)
    requires Normalisable(j) && j.lastOperation == Some(j.operation)
    ensures JobScore(j) == JobScore(j.(maxST := 0.0))
  {
  }

  /** Without managed supply the material readings do not affect the score. */
  lemma ScoreIgnoresMaterialWithoutManagedSupply(j: JobReadings, arrived: bool, agvTime: Option<real>)
    requires Normalisable(j) && !ManagesSupply(j.policy)
    ensures JobScore(j) == JobScore(j.(materialArrived := arrived, assignedAgvSupplyTime := agvTime))
  {
  }
}
