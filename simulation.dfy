/**
 * `simulateCombination`: replays a finished job order on `N` initially
 * empty vehicles, measuring every job against its secondary (most probable)
 * deadline.  The vehicle choice is the same scan as the scheduler's, over
 * field 6 of a seven-field entry; the totals are the summed delay and the
 * latest return time.  The source reads the last entry of every vehicle, so
 * a vehicle that never received a job makes it throw: the model returns
 * `None` there.
 */
module Simulation {
  import opened Wrappers
  import opened JobPermutations
  import opened Sequences
  import opened Scheduling

  /** An entry `[job, start, pt, finish, deadline, delay, return]`. */
  datatype SimEntry = SimEntry(
    job: JobId,
    start: real,
    processTime: real,
    finish: real,
    deadline: real,
    delay: real,
    returnTime: real)

  type SimLedger = seq<seq<SimEntry>>

  /** The result `[jobOrder, agvs, delay, maxDuration]`; no duration is `Math.max()` of nothing. */
  datatype Simulation = Simulation(jobOrder: seq<JobId>, ledger: SimLedger, delay: real, maxDuration: Option<real>)

  function SimLast(es: seq<SimEntry>): SimEntry
    requires es != []
  {
    es[|es| - 1]
  }

  /** `N` vehicles without entries. */
  function Vacant(n: nat): (agvs: SimLedger)
    ensures |agvs| == n && forall v | 0 <= v < n :: agvs[v] == []
  {
    seq(n, v => [])
  }

  predicate SimBusy(agvs: SimLedger) {
    forall v | 0 <= v < |agvs| :: agvs[v] != []
  }

  /** Each vehicle's last return time, `None` for a vehicle without entries. */
  function SimLastReturns(agvs: SimLedger): (r: seq<Option<real>>)
    ensures |r| == |agvs|
    ensures forall v | 0 <= v < |agvs| :: r[v].None? <==> agvs[v] == []
    ensures forall v | 0 <= v < |agvs| && agvs[v] != [] :: r[v] == Some(SimLast(agvs[v]).returnTime)
  {
    seq(|agvs|, v requires 0 <= v < |agvs| => if agvs[v] == [] then None else Some(SimLast(agvs[v]).returnTime))
  }

  /** The entry for `job` starting at `start`, measured against the deadline `d`. */
  function SimNewEntry(job: JobId, start: real, pt: real, d: Deadline): SimEntry {
    SimEntry(job, start, pt, start + pt, d.time, start + pt - d.time, start + pt * 2.0)
  }

  /** Appends `job` to the chosen vehicle, starting at its last return time or at 0 after an empty vehicle was seen. */
  function SimAssign(agvs: SimLedger, job: JobId, jobs: map<JobId, Window>, secondary: map<JobId, Deadline>,
                     rFactor: real): (r: SimLedger)
    requires |agvs| > 0 && job in jobs && job in secondary
    ensures |r| == |agvs|
    ensures SimBusy(agvs) ==> SimBusy(r)
    ensures forall u | 0 <= u < |agvs| :: |agvs[u]| <= |r[u]| && r[u][..|agvs[u]|] == agvs[u]
  {
    var c := Choose(SimLastReturns(agvs));
    var v := c.selected.value;
    var start := if c.emptyAgv then 0.0 else SimLast(agvs[v]).returnTime;
    var e := SimNewEntry(job, start, ProcessTime(jobs[job], rFactor), secondary[job]);
    assert (agvs[v] + [e])[..|agvs[v]|] == agvs[v];
    agvs[v := agvs[v] + [e]]
  }

  /** Assigns the jobs of `order` in turn. */
  function SimAssignAll(agvs: SimLedger, order: seq<JobId>, jobs: map<JobId, Window>,
                        secondary: map<JobId, Deadline>, rFactor: real): (r: SimLedger)
    requires |agvs| > 0 && Known(order, jobs, secondary)
    ensures |r| == |agvs|
    ensures SimBusy(agvs) ==> SimBusy(r)
  {
    if order == [] then agvs
    else
      var n := |order| - 1;
      SimAssign(SimAssignAll(agvs, order[..n], jobs, secondary, rFactor), order[n], jobs, secondary, rFactor)
  }

  function SimEntriesDelay(es: seq<SimEntry>): real {
    if es == [] then 0.0 else SimEntriesDelay(es[..|es| - 1]) + SimLast(es).delay
  }

  /** The sum of every entry's delay, field 5. */
  function SimTotalDelay(agvs: SimLedger): real {
    if agvs == [] then 0.0 else SimTotalDelay(agvs[..|agvs| - 1]) + SimEntriesDelay(agvs[|agvs| - 1])
  }

  /** The latest of the vehicles' last return times. */
  function SimMakespan(agvs: SimLedger): (m: real)
    requires |agvs| > 0 && SimBusy(agvs)
    ensures forall v | 0 <= v < |agvs| :: SimLast(agvs[v]).returnTime <= m
    ensures exists v | 0 <= v < |agvs| :: m == SimLast(agvs[v]).returnTime
  {
    var n := |agvs| - 1;
    if n == 0 then SimLast(agvs[0]).returnTime
    else
      assert forall u | 0 <= u < n :: agvs[..n][u] == agvs[u];
      Max(SimMakespan(agvs[..n]), SimLast(agvs[n]).returnTime)
  }

  /**
   * The outcome of `simulateCombination`.  With no vehicle at all a job has
   * nowhere to go and the source throws; an empty order then yields the
   * empty ledger and no duration.
   */
  function Simulate(order: seq<JobId>, jobs: map<JobId, Window>, secondary: map<JobId, Deadline>,
                    nAgv: nat, rFactor: real): (r: Option<Simulation>)
    requires Known(order, jobs, secondary)
    ensures r.Some? ==> r.value.jobOrder == order && |r.value.ledger| == nAgv
    ensures r.Some? && nAgv > 0 ==> SimBusy(r.value.ledger) && r.value.maxDuration.Some?
  {
    if nAgv == 0 then (if order == [] then Some(Simulation(order, [], 0.0, None)) else None)
    else
      var ledger := SimAssignAll(Vacant(nAgv), order, jobs, secondary, rFactor);
      if SimBusy(ledger) then Some(Simulation(order, ledger, SimTotalDelay(ledger), Some(SimMakespan(ledger))))
      else None
  }

  // ---------------------------------------------------------------------
  // Properties
  // ---------------------------------------------------------------------

  /** The jobs a vehicle's entries carry. */
  function SimEntryJobs(es: seq<SimEntry>): multiset<JobId> {
    if es == [] then multiset{} else SimEntryJobs(es[..|es| - 1]) + multiset{SimLast(es).job}
  }

  function SimLedgerJobs(agvs: SimLedger): multiset<JobId> {
    if agvs == [] then multiset{} else SimLedgerJobs(agvs[..|agvs| - 1]) + SimEntryJobs(agvs[|agvs| - 1])
  }

  lemma {:induction false} VacantCarriesNothing(n: nat)
    ensures SimLedgerJobs(Vacant(n)) == multiset{}
  {
    if n > 0 {
      assert Vacant(n)[..n - 1] == Vacant(n - 1);
      VacantCarriesNothing(n - 1);
    }
  }

  lemma {:induction false} SimLedgerJobsAppend(agvs: SimLedger, v: nat, e: SimEntry)
    requires v < |agvs|
    ensures SimLedgerJobs(agvs[v := agvs[v] + [e]]) == SimLedgerJobs(agvs) + multiset{e.job}
    decreases |agvs|, 1
  {
    if v < |agvs| - 1 {
      SimLedgerJobsAppendFront(agvs, v, e);
    } else {
      SimLedgerJobsAppendLast(agvs, e);
    }
  }

  /** Appending to a vehicle other than the last: the last vehicle's jobs are untouched. */
  lemma {:induction false} SimLedgerJobsAppendFront(agvs: SimLedger, v: nat, e: SimEntry)
    requires v < |agvs| - 1
    ensures SimLedgerJobs(agvs[v := agvs[v] + [e]]) == SimLedgerJobs(agvs) + multiset{e.job}
    decreases |agvs|, 0
  {
    var init, last := agvs[..|agvs| - 1], agvs[|agvs| - 1];
    var x := init[v] + [e];
    assert agvs == init + [last];
    calc {
      SimLedgerJobs(agvs[v := x]);
    == { UpdateFront(init, last, v, x); }
      SimLedgerJobs(init[v := x] + [last]);
    == { SimLedgerJobsSnoc(init[v := x], last); }
      SimLedgerJobs(init[v := x]) + SimEntryJobs(last);
    == { SimLedgerJobsAppend(init, v, e); }
      SimLedgerJobs(init) + multiset{e.job} + SimEntryJobs(last);
    == { SimLedgerJobsSnoc(init, last); }
      SimLedgerJobs(agvs) + multiset{e.job};
    }
  }

  /** Appending to the last vehicle. */
  lemma SimLedgerJobsAppendLast(agvs: SimLedger, e: SimEntry)
    requires |agvs| > 0
    ensures SimLedgerJobs(agvs[|agvs| - 1 := agvs[|agvs| - 1] + [e]]) == SimLedgerJobs(agvs) + multiset{e.job}
  {
    var init, last := agvs[..|agvs| - 1], agvs[|agvs| - 1];
    assert agvs == init + [last];
    calc {
      SimLedgerJobs(agvs[|agvs| - 1 := last + [e]]);
    == { UpdateLast(init, last, last + [e]); }
      SimLedgerJobs(init + [last + [e]]);
    == { SimLedgerJobsSnoc(init, last + [e]); }
      SimLedgerJobs(init) + SimEntryJobs(last + [e]);
    == { SimEntryJobsSnoc(last, e); }
      SimLedgerJobs(init) + SimEntryJobs(last) + multiset{e.job};
    == { SimLedgerJobsSnoc(init, last); }
      SimLedgerJobs(agvs) + multiset{e.job};
    }
  }

  lemma SimEntryJobsSnoc(es: seq<SimEntry>, e: SimEntry)
    ensures SimEntryJobs(es + [e]) == SimEntryJobs(es) + multiset{e.job}
  {
    assert (es + [e])[..|es|] == es;
  }

  lemma SimLedgerJobsSnoc(agvs: SimLedger, es: seq<SimEntry>)
    ensures SimLedgerJobs(agvs + [es]) == SimLedgerJobs(agvs) + SimEntryJobs(es)
  {
    assert (agvs + [es])[..|agvs|] == agvs;
  }

  lemma SimAssignJobs(agvs: SimLedger, job: JobId, jobs: map<JobId, Window>, secondary: map<JobId, Deadline>,
                      rFactor: real)
    requires |agvs| > 0 && job in jobs && job in secondary
    ensures SimLedgerJobs(SimAssign(agvs, job, jobs, secondary, rFactor)) == SimLedgerJobs(agvs) + multiset{job}
  {
    var c := Choose(SimLastReturns(agvs));
    var v := c.selected.value;
    var start := if c.emptyAgv then 0.0 else SimLast(agvs[v]).returnTime;
    SimLedgerJobsAppend(agvs, v, SimNewEntry(job, start, ProcessTime(jobs[job], rFactor), secondary[job]));
  }

  lemma {:induction false} SimAssignAllJobs(agvs: SimLedger, order: seq<JobId>, jobs: map<JobId, Window>,
                                            secondary: map<JobId, Deadline>, rFactor: real)
    requires |agvs| > 0 && Known(order, jobs, secondary)
    ensures SimLedgerJobs(SimAssignAll(agvs, order, jobs, secondary, rFactor)) == SimLedgerJobs(agvs) + multiset(order)
  {
    if order != [] {
      var n := |order| - 1;
      var mid := SimAssignAll(agvs, order[..n], jobs, secondary, rFactor);
      SimAssignAllJobs(agvs, order[..n], jobs, secondary, rFactor);
      SimAssignJobs(mid, order[n], jobs, secondary, rFactor);
      assert SimAssignAll(agvs, order, jobs, secondary, rFactor) == SimAssign(mid, order[n], jobs, secondary, rFactor);
      MultisetSnoc(order);
    }
  }

  /** A simulated ledger carries every job of the order exactly once. */
  lemma SimulateCarriesEveryJobOnce(order: seq<JobId>, jobs: map<JobId, Window>, secondary: map<JobId, Deadline>,
                                    nAgv: nat, rFactor: real)
    requires Known(order, jobs, secondary)
    ensures var r := Simulate(order, jobs, secondary, nAgv, rFactor);
      r.Some? ==> SimLedgerJobs(r.value.ledger) == multiset(order)
  {
    if nAgv > 0 {
      VacantCarriesNothing(nAgv);
      SimAssignAllJobs(Vacant(nAgv), order, jobs, secondary, rFactor);
    }
  }

  /**
   * Every entry is measured against the secondary deadline of its job: it
   * finishes one processing time after its start, is late by its finish
   * minus that deadline, and returns after twice the processing time.
   */
  predicate MeasuredEntry(e: SimEntry, jobs: map<JobId, Window>, secondary: map<JobId, Deadline>, rFactor: real) {
    e.job in jobs && e.job in secondary &&
    e.processTime == ProcessTime(jobs[e.job], rFactor) && e.finish == e.start + e.processTime &&
    e.deadline == secondary[e.job].time && e.delay == e.finish - e.deadline &&
    e.returnTime == e.start + 2.0 * e.processTime
  }

  predicate Measured(agvs: SimLedger, jobs: map<JobId, Window>, secondary: map<JobId, Deadline>, rFactor: real) {
    forall v, i | 0 <= v < |agvs| && 0 <= i < |agvs[v]| :: MeasuredEntry(agvs[v][i], jobs, secondary, rFactor)
  }

  lemma {:induction false} SimAssignAllMeasured(agvs: SimLedger, order: seq<JobId>, jobs: map<JobId, Window>,
                                                secondary: map<JobId, Deadline>, rFactor: real)
    requires |agvs| > 0 && Known(order, jobs, secondary) && Measured(agvs, jobs, secondary, rFactor)
    ensures Measured(SimAssignAll(agvs, order, jobs, secondary, rFactor), jobs, secondary, rFactor)
  {
    if order != [] {
      var n := |order| - 1;
      var mid := SimAssignAll(agvs, order[..n], jobs, secondary, rFactor);
      SimAssignAllMeasured(agvs, order[..n], jobs, secondary, rFactor);
      var r := SimAssign(mid, order[n], jobs, secondary, rFactor);
      forall v, i | 0 <= v < |r| && 0 <= i < |r[v]| ensures MeasuredEntry(r[v][i], jobs, secondary, rFactor) {
        if i < |mid[v]| {
          assert r[v][i] == r[v][..|mid[v]|][i] == mid[v][i];
        }
      }
    }
  }

  /** Every simulated entry's delay is its finish minus its job's secondary deadline. */
  lemma SimulateMeasuresAgainstSecondary(order: seq<JobId>, jobs: map<JobId, Window>, secondary: map<JobId, Deadline>,
                                         nAgv: nat, rFactor: real)
    requires Known(order, jobs, secondary)
    ensures var r := Simulate(order, jobs, secondary, nAgv, rFactor);
      r.Some? ==> Measured(r.value.ledger, jobs, secondary, rFactor)
  {
    if nAgv > 0 {
      SimAssignAllMeasured(Vacant(nAgv), order, jobs, secondary, rFactor);
    }
  }

  /** No job of the order has a negative processing time. */
  predicate NonNegative(order: seq<JobId>, jobs: map<JobId, Window>, rFactor: real) {
    forall k | 0 <= k < |order| :: order[k] in jobs ==> ProcessTime(jobs[order[k]], rFactor) >= 0.0
  }

  /**
   * The ledger after the first `k` jobs while vehicles are still free: job
   * `j` alone on vehicle `N - 1 - j`, starting at 0, the first `N - k`
   * vehicles empty.
   */
  function FilledFromBack(order: seq<JobId>, jobs: map<JobId, Window>, secondary: map<JobId, Deadline>,
                          nAgv: nat, k: nat, rFactor: real): (agvs: SimLedger)
    requires k <= nAgv && k <= |order| && Known(order, jobs, secondary)
    ensures |agvs| == nAgv
  {
    seq(nAgv, v requires 0 <= v < nAgv =>
      if v < nAgv - k then []
      else [SimNewEntry(order[nAgv - 1 - v], 0.0, ProcessTime(jobs[order[nAgv - 1 - v]], rFactor),
                        secondary[order[nAgv - 1 - v]])])
  }

  /** The free vehicle taken is always the last one still empty. */
  lemma FilledFromBackStep(order: seq<JobId>, jobs: map<JobId, Window>, secondary: map<JobId, Deadline>,
                           nAgv: nat, k: nat, rFactor: real)
    requires k < nAgv && k < |order| && Known(order, jobs, secondary) && NonNegative(order, jobs, rFactor)
    ensures SimAssign(FilledFromBack(order, jobs, secondary, nAgv, k, rFactor), order[k], jobs, secondary, rFactor)
      == FilledFromBack(order, jobs, secondary, nAgv, k + 1, rFactor)
  {
    var agvs := FilledFromBack(order, jobs, secondary, nAgv, k, rFactor);
    var lasts := SimLastReturns(agvs);
    forall v | nAgv - k <= v < nAgv ensures lasts[v].Some? && lasts[v].value >= 0.0 {
      var j := nAgv - 1 - v;
      assert 0 <= j < |order| && order[j] in jobs;
      assert ProcessTime(jobs[order[j]], rFactor) >= 0.0;
      assert agvs[v] == [SimNewEntry(order[j], 0.0, ProcessTime(jobs[order[j]], rFactor), secondary[order[j]])];
    }
    ChooseLastEmpty(lasts, nAgv - k);
    var r := SimAssign(agvs, order[k], jobs, secondary, rFactor);
    var s := FilledFromBack(order, jobs, secondary, nAgv, k + 1, rFactor);
    assert nAgv - 1 - (nAgv - k - 1) == k;
    forall v | 0 <= v < nAgv ensures r[v] == s[v] {
    }
  }

  lemma {:induction false} SimAssignAllFillsFromBack(order: seq<JobId>, jobs: map<JobId, Window>,
                                                     secondary: map<JobId, Deadline>, nAgv: nat, k: nat, rFactor: real)
    requires 0 < nAgv && k <= nAgv && k <= |order| && Known(order, jobs, secondary) && NonNegative(order, jobs, rFactor)
    ensures SimAssignAll(Vacant(nAgv), order[..k], jobs, secondary, rFactor) == FilledFromBack(order, jobs, secondary, nAgv, k, rFactor)
  {
    if k == 0 {
      assert FilledFromBack(order, jobs, secondary, nAgv, 0, rFactor) == Vacant(nAgv);
    } else {
      assert order[..k][..k - 1] == order[..k - 1];
      SimAssignAllFillsFromBack(order, jobs, secondary, nAgv, k - 1, rFactor);
      FilledFromBackStep(order, jobs, secondary, nAgv, k - 1, rFactor);
    }
  }

  /** Earlier entries stay in place: every vehicle's old entries remain a prefix. */
  lemma {:induction false} SimAssignAllKeepsHistory(agvs: SimLedger, order: seq<JobId>, jobs: map<JobId, Window>,
                                                    secondary: map<JobId, Deadline>, rFactor: real)
    requires |agvs| > 0 && Known(order, jobs, secondary)
    ensures var r := SimAssignAll(agvs, order, jobs, secondary, rFactor);
      forall u | 0 <= u < |agvs| :: |agvs[u]| <= |r[u]| && r[u][..|agvs[u]|] == agvs[u]
  {
    if order != [] {
      var n := |order| - 1;
      var mid := SimAssignAll(agvs, order[..n], jobs, secondary, rFactor);
      SimAssignAllKeepsHistory(agvs, order[..n], jobs, secondary, rFactor);
      var r := SimAssignAll(agvs, order, jobs, secondary, rFactor);
      forall u | 0 <= u < |agvs| ensures |agvs[u]| <= |r[u]| && r[u][..|agvs[u]|] == agvs[u] {
        assert r[u][..|mid[u]|] == mid[u];
        assert r[u][..|agvs[u]|] == r[u][..|mid[u]|][..|agvs[u]|];
      }
    }
  }

  /** Assigning two orders one after the other is assigning their concatenation. */
  lemma {:induction false} SimAssignAllAppend(agvs: SimLedger, p: seq<JobId>, q: seq<JobId>, jobs: map<JobId, Window>,
                                              secondary: map<JobId, Deadline>, rFactor: real)
    requires |agvs| > 0 && Known(p, jobs, secondary) && Known(q, jobs, secondary)
    ensures Known(p + q, jobs, secondary)
    ensures SimAssignAll(agvs, p + q, jobs, secondary, rFactor) ==
      SimAssignAll(SimAssignAll(agvs, p, jobs, secondary, rFactor), q, jobs, secondary, rFactor)
  {
    assert Known(p + q, jobs, secondary) by {
      forall k | 0 <= k < |p + q| ensures (p + q)[k] in jobs && (p + q)[k] in secondary {
        if k >= |p| {
          assert (p + q)[k] == q[k - |p|];
        }
      }
    }
    if q == [] {
      assert p + q == p;
    } else {
      var n := |q| - 1;
      assert (p + q)[..|p + q| - 1] == p + q[..n];
      SimAssignAllAppend(agvs, p, q[..n], jobs, secondary, rFactor);
    }
  }

  /**
   * With non-negative processing times the simulation succeeds exactly when
   * there are at least as many jobs as vehicles: the first `N` jobs go one
   * each to vehicles `N - 1`, ..., `0`, starting at 0, and stay first there;
   * the duration is then the latest last return time.
   */
  lemma SimulateFillsFromBack(order: seq<JobId>, jobs: map<JobId, Window>, secondary: map<JobId, Deadline>,
                              nAgv: nat, rFactor: real)
    requires 0 < nAgv && Known(order, jobs, secondary) && NonNegative(order, jobs, rFactor)
    ensures var r := Simulate(order, jobs, secondary, nAgv, rFactor);
      (r.Some? <==> |order| >= nAgv) &&
      (r.Some? ==>
        (forall k | 0 <= k < nAgv ::
          r.value.ledger[nAgv - 1 - k][0] ==
            SimNewEntry(order[k], 0.0, ProcessTime(jobs[order[k]], rFactor), secondary[order[k]])) &&
        (forall v | 0 <= v < nAgv :: SimLast(r.value.ledger[v]).returnTime <= r.value.maxDuration.value) &&
        (exists v | 0 <= v < nAgv :: r.value.maxDuration.value == SimLast(r.value.ledger[v]).returnTime))
  {
    if |order| < nAgv {
      SimulateShortOrder(order, jobs, secondary, nAgv, rFactor);
    } else {
      SimulateFullOrder(order, jobs, secondary, nAgv, rFactor);
    }
  }

  /** Fewer jobs than vehicles leave a vehicle empty, so there is no simulation. */
  lemma SimulateShortOrder(order: seq<JobId>, jobs: map<JobId, Window>, secondary: map<JobId, Deadline>,
                           nAgv: nat, rFactor: real)
    requires 0 < nAgv && Known(order, jobs, secondary) && NonNegative(order, jobs, rFactor) && |order| < nAgv
    ensures Simulate(order, jobs, secondary, nAgv, rFactor).None?
  {
    var ledger := SimAssignAll(Vacant(nAgv), order, jobs, secondary, rFactor);
    SimAssignAllFillsFromBack(order, jobs, secondary, nAgv, |order|, rFactor);
    assert order[..|order|] == order;
    assert ledger[0] == [];
  }

  /** With at least as many jobs as vehicles the simulation exists, seeded from the back. */
  lemma SimulateFullOrder(order: seq<JobId>, jobs: map<JobId, Window>, secondary: map<JobId, Deadline>,
                          nAgv: nat, rFactor: real)
    requires 0 < nAgv <= |order| && Known(order, jobs, secondary) && NonNegative(order, jobs, rFactor)
    ensures var r := Simulate(order, jobs, secondary, nAgv, rFactor);
      r.Some? &&
      (forall k | 0 <= k < nAgv ::
        r.value.ledger[nAgv - 1 - k][0] ==
          SimNewEntry(order[k], 0.0, ProcessTime(jobs[order[k]], rFactor), secondary[order[k]])) &&
      (forall v | 0 <= v < nAgv :: SimLast(r.value.ledger[v]).returnTime <= r.value.maxDuration.value) &&
      (exists v | 0 <= v < nAgv :: r.value.maxDuration.value == SimLast(r.value.ledger[v]).returnTime)
  {
    SeededFirstEntries(order, jobs, secondary, nAgv, rFactor);
  }

  /** The first `N` jobs stay first on vehicles `N - 1`, ..., `0`, starting at 0. */
  lemma SeededFirstEntries(order: seq<JobId>, jobs: map<JobId, Window>, secondary: map<JobId, Deadline>,
                           nAgv: nat, rFactor: real)
    requires 0 < nAgv <= |order| && Known(order, jobs, secondary) && NonNegative(order, jobs, rFactor)
    ensures var ledger := SimAssignAll(Vacant(nAgv), order, jobs, secondary, rFactor);
      SimBusy(ledger) &&
      (forall k | 0 <= k < nAgv ::
        ledger[nAgv - 1 - k][0] == SimNewEntry(order[k], 0.0, ProcessTime(jobs[order[k]], rFactor), secondary[order[k]])) &&
      forall v | 0 <= v < nAgv :: ledger[v][0].start == 0.0
  {
    var ledger := SimAssignAll(Vacant(nAgv), order, jobs, secondary, rFactor);
    SeededExtendsFilled(order, jobs, secondary, nAgv, rFactor);
    FilledFirstEntriesKept(order, jobs, secondary, nAgv, rFactor, ledger);
  }

  /** The ledger of the whole order extends, vehicle by vehicle, the one filled by the first `nAgv` jobs. */
  lemma SeededExtendsFilled(order: seq<JobId>, jobs: map<JobId, Window>, secondary: map<JobId, Deadline>,
                            nAgv: nat, rFactor: real)
    requires 0 < nAgv <= |order| && Known(order, jobs, secondary) && NonNegative(order, jobs, rFactor)
    ensures var seeded := FilledFromBack(order, jobs, secondary, nAgv, nAgv, rFactor);
      var ledger := SimAssignAll(Vacant(nAgv), order, jobs, secondary, rFactor);
      |ledger| == nAgv && forall u | 0 <= u < nAgv :: |seeded[u]| <= |ledger[u]| && ledger[u][..|seeded[u]|] == seeded[u]
  {
    SimAssignAllFillsFromBack(order, jobs, secondary, nAgv, nAgv, rFactor);
    var seeded := SimAssignAll(Vacant(nAgv), order[..nAgv], jobs, secondary, rFactor);
    SeededSplit(order, jobs, secondary, nAgv, rFactor);
    SimAssignAllKeepsHistory(seeded, order[nAgv..], jobs, secondary, rFactor);
  }

  /** A ledger that extends the filled one keeps its single entries first. */
  lemma FilledFirstEntriesKept(order: seq<JobId>, jobs: map<JobId, Window>, secondary: map<JobId, Deadline>,
                               nAgv: nat, rFactor: real, ledger: SimLedger)
    requires nAgv <= |order| && Known(order, jobs, secondary)
    requires var seeded := FilledFromBack(order, jobs, secondary, nAgv, nAgv, rFactor);
      |ledger| == nAgv && forall u | 0 <= u < nAgv :: |seeded[u]| <= |ledger[u]| && ledger[u][..|seeded[u]|] == seeded[u]
    ensures SimBusy(ledger)
    ensures forall k | 0 <= k < nAgv ::
      ledger[nAgv - 1 - k][0] == SimNewEntry(order[k], 0.0, ProcessTime(jobs[order[k]], rFactor), secondary[order[k]])
    ensures forall v | 0 <= v < nAgv :: ledger[v][0].start == 0.0
  {
    var seeded := FilledFromBack(order, jobs, secondary, nAgv, nAgv, rFactor);
    forall v | 0 <= v < nAgv
      ensures ledger[v] != [] && ledger[v][0] == seeded[v][0]
    {
      assert |seeded[v]| == 1;
      assert ledger[v][..1][0] == seeded[v][0];
    }
    forall k | 0 <= k < nAgv
      ensures ledger[nAgv - 1 - k][0] ==
        SimNewEntry(order[k], 0.0, ProcessTime(jobs[order[k]], rFactor), secondary[order[k]])
    {
      var v := nAgv - 1 - k;
      assert nAgv - 1 - v == k;
    }
  }

  /** The whole order is its first `N` jobs followed by the rest. */
  lemma {:induction false} SeededSplit(order: seq<JobId>, jobs: map<JobId, Window>, secondary: map<JobId, Deadline>,
                    nAgv: nat, rFactor: real)
    requires 0 < nAgv <= |order| && Known(order, jobs, secondary)
    ensures Known(order[nAgv..], jobs, secondary)
    ensures SimAssignAll(Vacant(nAgv), order, jobs, secondary, rFactor) ==
      SimAssignAll(SimAssignAll(Vacant(nAgv), order[..nAgv], jobs, secondary, rFactor), order[nAgv..], jobs, secondary, rFactor)
  {
    KnownSplit(order, nAgv, jobs, secondary);
    SimAssignAllAppend(Vacant(nAgv), order[..nAgv], order[nAgv..], jobs, secondary, rFactor);
    TakeDrop(order, nAgv);
  }

  /** Each entry after a vehicle's first starts when the previous one returns. */
  predicate SimChained(agvs: SimLedger) {
    forall v, i | 0 <= v < |agvs| && 0 < i < |agvs[v]| :: agvs[v][i].start == agvs[v][i - 1].returnTime
  }

  /**
   * Once every vehicle is busy, a job joins the first vehicle that returns
   * earliest and starts at that return time, so the entries stay chained.
   */
  lemma SimAssignToEarliestReturn(agvs: SimLedger, job: JobId, jobs: map<JobId, Window>,
                                  secondary: map<JobId, Deadline>, rFactor: real, v: nat)
    requires |agvs| > 0 && SimBusy(agvs) && job in jobs && job in secondary && v < |agvs|
    requires forall u | 0 <= u < |agvs| :: SimLast(agvs[v]).returnTime <= SimLast(agvs[u]).returnTime
    requires forall u | 0 <= u < v :: SimLast(agvs[u]).returnTime > SimLast(agvs[v]).returnTime
    ensures SimAssign(agvs, job, jobs, secondary, rFactor) ==
      agvs[v := agvs[v] + [SimNewEntry(job, SimLast(agvs[v]).returnTime, ProcessTime(jobs[job], rFactor), secondary[job])]]
  {
    var lasts := SimLastReturns(agvs);
    ChooseFirstEarliest(lasts);
    var s := Choose(lasts).selected.value;
    assert lasts[s].value <= lasts[v].value && lasts[v].value <= lasts[s].value;
    assert s == v;
  }

  lemma SimAssignChained(agvs: SimLedger, job: JobId, jobs: map<JobId, Window>,
                         secondary: map<JobId, Deadline>, rFactor: real)
    requires |agvs| > 0 && SimBusy(agvs) && SimChained(agvs) && job in jobs && job in secondary
    ensures SimChained(SimAssign(agvs, job, jobs, secondary, rFactor))
  {
    var lasts := SimLastReturns(agvs);
    ChooseFirstEarliest(lasts);
    var v := Choose(lasts).selected.value;
    SimAssignToEarliestReturn(agvs, job, jobs, secondary, rFactor, v);
  }

  lemma {:induction false} SimAssignAllChained(agvs: SimLedger, order: seq<JobId>, jobs: map<JobId, Window>,
                                               secondary: map<JobId, Deadline>, rFactor: real)
    requires |agvs| > 0 && SimBusy(agvs) && SimChained(agvs) && Known(order, jobs, secondary)
    ensures SimChained(SimAssignAll(agvs, order, jobs, secondary, rFactor))
  {
    if order != [] {
      var n := |order| - 1;
      SimAssignAllChained(agvs, order[..n], jobs, secondary, rFactor);
      SimAssignChained(SimAssignAll(agvs, order[..n], jobs, secondary, rFactor), order[n], jobs, secondary, rFactor);
    }
  }

  /** With non-negative processing times every vehicle's entries start at 0 and then back to back. */
  lemma {:induction false} SimulateChains(order: seq<JobId>, jobs: map<JobId, Window>, secondary: map<JobId, Deadline>,
                       nAgv: nat, rFactor: real)
    requires 0 < nAgv && Known(order, jobs, secondary) && NonNegative(order, jobs, rFactor)
    ensures var r := Simulate(order, jobs, secondary, nAgv, rFactor);
      r.Some? ==> SimChained(r.value.ledger) && forall v | 0 <= v < nAgv :: r.value.ledger[v][0].start == 0.0
  {
    SimulateFillsFromBack(order, jobs, secondary, nAgv, rFactor);
    if |order| >= nAgv {
      SeededChains(order, jobs, secondary, nAgv, rFactor);
    }
  }

  lemma {:induction false} SeededChains(order: seq<JobId>, jobs: map<JobId, Window>, secondary: map<JobId, Deadline>,
                                        nAgv: nat, rFactor: real)
    requires 0 < nAgv <= |order| && Known(order, jobs, secondary) && NonNegative(order, jobs, rFactor)
    ensures var ledger := SimAssignAll(Vacant(nAgv), order, jobs, secondary, rFactor);
      SimBusy(ledger) && SimChained(ledger) && forall v | 0 <= v < nAgv :: ledger[v][0].start == 0.0
  {
    SimAssignAllFillsFromBack(order, jobs, secondary, nAgv, nAgv, rFactor);
    FilledChained(order, jobs, secondary, nAgv, rFactor);
    var seeded := SimAssignAll(Vacant(nAgv), order[..nAgv], jobs, secondary, rFactor);
    SeededSplit(order, jobs, secondary, nAgv, rFactor);
    SimAssignAllChained(seeded, order[nAgv..], jobs, secondary, rFactor);
    SeededFirstEntries(order, jobs, secondary, nAgv, rFactor);
  }

  /** One entry on every vehicle is trivially chained. */
  lemma FilledChained(order: seq<JobId>, jobs: map<JobId, Window>, secondary: map<JobId, Deadline>,
                      nAgv: nat, rFactor: real)
    requires nAgv <= |order| && Known(order, jobs, secondary)
    ensures var filled := FilledFromBack(order, jobs, secondary, nAgv, nAgv, rFactor);
      SimBusy(filled) && SimChained(filled)
  {
  }

  // ---------------------------------------------------------------------
  // The method
  // ---------------------------------------------------------------------

  /** The vehicle scan over return field 6. */
  method SimSelectVehicle(agvs: SimLedger) returns (emptyAgv: bool, earliestFinish: real, selectedAgv: Option<nat>)
    ensures Choice(emptyAgv, earliestFinish, selectedAgv) == Choose(SimLastReturns(agvs))
  {
    emptyAgv, earliestFinish, selectedAgv := false, 0.0, None;
    var lasts := SimLastReturns(agvs);
    var v := 0;
    while v < |agvs|
      invariant 0 <= v <= |agvs|
      invariant Choice(emptyAgv, earliestFinish, selectedAgv) == Choose(lasts[..v])
    {
      assert lasts[..v + 1][..v] == lasts[..v];
      var details := agvs[v];
      if |details| == 0 {
        selectedAgv := Some(v);
        emptyAgv := true;
      } else if selectedAgv.None? {
        earliestFinish := SimLast(details).returnTime;
        selectedAgv := Some(v);
      } else if SimLast(details).returnTime < earliestFinish {
        earliestFinish := SimLast(details).returnTime;
        selectedAgv := Some(v);
      }
      v := v + 1;
    }
    assert lasts[..|agvs|] == lasts;
  }

  /** Assigns the jobs of the order to the vehicles. */
  method SimAssignOrder(agvs: SimLedger, jobOrder: seq<JobId>, jobs: map<JobId, Window>,
                        deadlinesSecondary: map<JobId, Deadline>, rFactor: real) returns (r: SimLedger)
    requires |agvs| > 0 && Known(jobOrder, jobs, deadlinesSecondary)
    ensures r == SimAssignAll(agvs, jobOrder, jobs, deadlinesSecondary, rFactor)
  {
    r := agvs;
    for k := 0 to |jobOrder|
      invariant r == SimAssignAll(agvs, jobOrder[..k], jobs, deadlinesSecondary, rFactor)
    {
      assert jobOrder[..k + 1][..k] == jobOrder[..k];
      var job := jobOrder[k];
      var emptyAgv, earliestFinish, selectedAgv := SimSelectVehicle(r);
      var v := selectedAgv.value;
      var processTime := ProcessTime(jobs[job], rFactor);
      var start := if emptyAgv then 0.0 else SimLast(r[v]).returnTime;
      r := r[v := r[v] + [SimNewEntry(job, start, processTime, deadlinesSecondary[job])]];
    }
    assert jobOrder[..|jobOrder|] == jobOrder;
  }

  /**
   * The totals loop; `complete` is false where the source reads the last
   * entry of an empty vehicle and throws.
   */
  method SimTotals(agvs: SimLedger) returns (complete: bool, delay: real, maxDuration: Option<real>)
    ensures complete <==> SimBusy(agvs)
    ensures complete ==> delay == SimTotalDelay(agvs)
    ensures complete && |agvs| == 0 ==> maxDuration == None
    ensures complete && |agvs| > 0 ==> maxDuration == Some(SimMakespan(agvs))
  {
    delay, maxDuration := 0.0, None;
    for v := 0 to |agvs|
      invariant delay == SimTotalDelay(agvs[..v]) && SimBusy(agvs[..v])
      invariant v == 0 ==> maxDuration == None
      invariant v > 0 ==> maxDuration == Some(SimMakespan(agvs[..v]))
    {
      var details := agvs[v];
      if details == [] {
        return false, delay, maxDuration;
      }
      var vehicleDelay := 0.0;
      for i := 0 to |details|
        invariant vehicleDelay == SimEntriesDelay(details[..i])
      {
        assert details[..i + 1][..i] == details[..i];
        vehicleDelay := vehicleDelay + details[i].delay;
      }
      assert details[..|details|] == details;
      assert agvs[..v + 1][..v] == agvs[..v];
      delay := delay + vehicleDelay;
      maxDuration := Some(if maxDuration.None? then SimLast(details).returnTime
                          else Max(maxDuration.value, SimLast(details).returnTime));
    }
    assert agvs[..|agvs|] == agvs;
    complete := true;
  }

  /** `simulateCombination`; `None` where the source throws. */
  method SimulateCombination(jobOrder: seq<JobId>, jobs: map<JobId, Window>, deadlinesSecondary: map<JobId, Deadline>,
                             nAgv: nat, rFactor: real) returns (r: Option<Simulation>)
    requires Known(jobOrder, jobs, deadlinesSecondary)
    ensures r == Simulate(jobOrder, jobs, deadlinesSecondary, nAgv, rFactor)
  {
    var agvs: SimLedger := [];
    for i := 0 to nAgv
      invariant agvs == Vacant(i)
    {
      agvs := agvs + [[]];
    }
    if nAgv == 0 {
      if jobOrder != [] {
        return None;
      }
    } else {
      agvs := SimAssignOrder(agvs, jobOrder, jobs, deadlinesSecondary, rFactor);
    }
    var complete, delay, maxDuration := SimTotals(agvs);
    if !complete {
      return None;
    }
    r := Some(Simulation(jobOrder, agvs, delay, maxDuration));
  }
}
