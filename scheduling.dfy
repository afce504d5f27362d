/**
 * The batch scheduler's per-permutation step, `runPermutations`: each
 * permutation of the batch is assigned job by job to the vehicle that
 * returns first, the resulting ledgers are totalled, permutations worse than
 * the first one are pruned, and the survivors are ranked by weighted delay
 * and then makespan and cut to the beam width.
 *
 * A ledger is one sequence of entries per vehicle; vehicle `v` is the
 * source's `AGV v+1`, and the sequence order is the order in which the
 * source's object lists its keys.
 */
module Scheduling {
  import opened Wrappers
  import opened JobPermutations
  import opened Sequences

  /** A job's `[earliestPosition, latestPosition]`. */
  datatype Window = Window(earliestPosition: real, latestPosition: real)

  /** A deadline `[time, probability]`. */
  datatype Deadline = Deadline(time: real, probability: real)

  /** Every job of the list has a window and a deadline (the source crashes on a missing one). */
  predicate Known(jobIds: seq<JobId>, jobs: map<JobId, Window>, deadlines: map<JobId, Deadline>) {
    forall k | 0 <= k < |jobIds| :: jobIds[k] in jobs && jobIds[k] in deadlines
  }

  lemma TakeDrop(jobIds: seq<JobId>, n: nat)
    requires n <= |jobIds|
    ensures jobIds[..n] + jobIds[n..] == jobIds
  {
  }

  /** Both parts of a list whose jobs are all known have only known jobs. */
  lemma KnownSplit(jobIds: seq<JobId>, n: nat, jobs: map<JobId, Window>, deadlines: map<JobId, Deadline>)
    requires n <= |jobIds| && Known(jobIds, jobs, deadlines)
    ensures Known(jobIds[..n], jobs, deadlines) && Known(jobIds[n..], jobs, deadlines)
  {
    forall k | 0 <= k < n ensures jobIds[..n][k] in jobs && jobIds[..n][k] in deadlines {
      assert jobIds[..n][k] == jobIds[k];
    }
    forall k | 0 <= k < |jobIds| - n ensures jobIds[n..][k] in jobs && jobIds[n..][k] in deadlines {
      assert jobIds[n..][k] == jobIds[n + k];
    }
  }

  /** The processing time, interpolated between the two positions by `R`. */
  function ProcessTime(w: Window, rFactor: real): real {
    rFactor * w.latestPosition + w.earliestPosition * (1.0 - rFactor)
  }

  /** For `0 <= R <= 1` the processing time lies between the two positions. */
  lemma ProcessTimeBetween(w: Window, rFactor: real)
    requires 0.0 <= rFactor <= 1.0 && w.earliestPosition <= w.latestPosition
    ensures w.earliestPosition <= ProcessTime(w, rFactor) <= w.latestPosition
    ensures rFactor == 1.0 ==> ProcessTime(w, rFactor) == w.latestPosition
    ensures rFactor == 0.0 ==> ProcessTime(w, rFactor) == w.earliestPosition
  {
    var gap := w.latestPosition - w.earliestPosition;
    assert ProcessTime(w, rFactor) == w.earliestPosition + rFactor * gap;
    assert 0.0 <= rFactor * gap <= gap;
  }

  // ---------------------------------------------------------------------
  // Choosing a vehicle
  // ---------------------------------------------------------------------

  /** The scan's variables `emptyAgv`, `earliestFinish` and `selectedAgv`. */
  datatype Choice = Choice(emptyAgv: bool, earliestFinish: real, selected: Option<nat>)

  /**
   * The scan over the vehicles' last return times (`None` for a vehicle with
   * no entry): an empty vehicle is always taken, the first busy vehicle is
   * taken while nothing is selected, and a later one only when it returns
   * strictly earlier than the recorded time.
   */
  function Choose(lasts: seq<Option<real>>): (c: Choice)
    ensures c.selected.Some? <==> |lasts| > 0
    ensures c.selected.Some? ==> c.selected.value < |lasts|
    ensures c.emptyAgv <==> exists v | 0 <= v < |lasts| :: lasts[v].None?
  {
    if lasts == [] then Choice(false, 0.0, None)
    else
      var c := Choose(lasts[..|lasts| - 1]);
      var v := |lasts| - 1;
      assert forall u | 0 <= u < v :: lasts[..v][u] == lasts[u];
      match lasts[v]
      case None => Choice(true, c.earliestFinish, Some(v))
      case Some(t) =>
        if c.selected.None? || t < c.earliestFinish then Choice(c.emptyAgv, t, Some(v)) else c
  }

  /** When every vehicle is busy the choice is the first vehicle with the smallest return time. */
  lemma {:induction false} ChooseFirstEarliest(lasts: seq<Option<real>>)
    requires |lasts| > 0 && forall v | 0 <= v < |lasts| :: lasts[v].Some?
    ensures var c := Choose(lasts);
      !c.emptyAgv && c.selected.Some? && c.earliestFinish == lasts[c.selected.value].value &&
      (forall u | 0 <= u < |lasts| :: c.earliestFinish <= lasts[u].value) &&
      (forall u | 0 <= u < c.selected.value :: lasts[u].value > c.earliestFinish)
  {
    var v := |lasts| - 1;
    var init := lasts[..v];
    assert forall u | 0 <= u < v :: init[u] == lasts[u];
    if v > 0 {
      ChooseFirstEarliest(init);
    }
  }

  /** With no vehicle busy the source takes the last one and records no time. */
  lemma {:induction false} ChooseAllEmpty(lasts: seq<Option<real>>)
    requires |lasts| > 0 && forall v | 0 <= v < |lasts| :: lasts[v].None?
    ensures Choose(lasts) == Choice(true, 0.0, Some(|lasts| - 1))
  {
    var v := |lasts| - 1;
    var init := lasts[..v];
    assert forall u | 0 <= u < v :: init[u] == lasts[u];
    if v > 0 {
      ChooseAllEmpty(init);
    }
  }

  /**
   * When the first `k` vehicles are empty and the others return at
   * non-negative times, the last empty vehicle is taken: a busy vehicle after
   * it would have to return before time 0 to be preferred.
   */
  lemma {:induction false} ChooseLastEmpty(lasts: seq<Option<real>>, k: nat)
    requires 0 < k <= |lasts|
    requires forall v | 0 <= v < k :: lasts[v].None?
    requires forall v | k <= v < |lasts| :: lasts[v].Some? && lasts[v].value >= 0.0
    ensures Choose(lasts) == Choice(true, 0.0, Some(k - 1))
  {
    var v := |lasts| - 1;
    var init := lasts[..v];
    assert forall u | 0 <= u < v :: init[u] == lasts[u];
    if v + 1 == k {
      ChooseAllEmpty(lasts);
    } else {
      ChooseLastEmpty(init, k);
    }
  }

  // ---------------------------------------------------------------------
  // Ledgers
  // ---------------------------------------------------------------------

  /** An entry `[job, start, pt, finish, deadline, delay, weighted delay, return]`. */
  datatype Entry = Entry(
    job: JobId,
    start: real,
    processTime: real,
    finish: real,
    deadline: real,
    delay: real,
    weightedDelay: real,
    returnTime: real)

  type Ledger = seq<seq<Entry>>

  function Last(es: seq<Entry>): Entry
    requires es != []
  {
    es[|es| - 1]
  }

  /** Every vehicle has at least one entry. */
  predicate Busy(agvs: Ledger) {
    forall v | 0 <= v < |agvs| :: agvs[v] != []
  }

  /** Each vehicle's last return time, `None` for a vehicle without entries. */
  function LastReturns(agvs: Ledger): (r: seq<Option<real>>)
    ensures |r| == |agvs|
    ensures forall v | 0 <= v < |agvs| :: r[v].None? <==> agvs[v] == []
    ensures forall v | 0 <= v < |agvs| && agvs[v] != [] :: r[v] == Some(Last(agvs[v]).returnTime)
  {
    seq(|agvs|, v requires 0 <= v < |agvs| => if agvs[v] == [] then None else Some(Last(agvs[v]).returnTime))
  }

  /** The entry for `job` starting at `start`, measured against deadline `d`. */
  function NewEntry(job: JobId, start: real, pt: real, d: Deadline): Entry {
    Entry(job, start, pt, start + pt, d.time, start + pt - d.time, (start + pt - d.time) * d.probability, start + pt * 2.0)
  }

  /** Appends `job` to the chosen vehicle, starting at its last return time or at 0 after an empty vehicle was seen. */
  function Assign(agvs: Ledger, job: JobId, jobs: map<JobId, Window>, deadlines: map<JobId, Deadline>,
                  rFactor: real): (r: Ledger)
    requires |agvs| > 0 && job in jobs && job in deadlines
    ensures |r| == |agvs|
    ensures Busy(agvs) ==> Busy(r)
    ensures forall u | 0 <= u < |agvs| :: |agvs[u]| <= |r[u]| && r[u][..|agvs[u]|] == agvs[u]
  {
    var c := Choose(LastReturns(agvs));
    var v := c.selected.value;
    var start := if c.emptyAgv then 0.0 else Last(agvs[v]).returnTime;
    assert (agvs[v] + [NewEntry(job, start, ProcessTime(jobs[job], rFactor), deadlines[job])])[..|agvs[v]|] == agvs[v];
    agvs[v := agvs[v] + [NewEntry(job, start, ProcessTime(jobs[job], rFactor), deadlines[job])]]
  }

  /** Assigns the jobs of `perm` in order. */
  function AssignAll(agvs: Ledger, perm: seq<JobId>, jobs: map<JobId, Window>, deadlines: map<JobId, Deadline>,
                     rFactor: real): (r: Ledger)
    requires |agvs| > 0 && Known(perm, jobs, deadlines)
    ensures |r| == |agvs|
    ensures Busy(agvs) ==> Busy(r)
  {
    if perm == [] then agvs
    else
      var n := |perm| - 1;
      Assign(AssignAll(agvs, perm[..n], jobs, deadlines, rFactor), perm[n], jobs, deadlines, rFactor)
  }

  /**
   * With every vehicle busy, the job joins the first vehicle whose last entry
   * returns earliest, as an entry starting at that return time.
   */
  lemma AssignToEarliestReturn(agvs: Ledger, job: JobId, jobs: map<JobId, Window>,
                               deadlines: map<JobId, Deadline>, rFactor: real, v: nat)
    requires |agvs| > 0 && Busy(agvs) && job in jobs && job in deadlines && v < |agvs|
    requires forall u | 0 <= u < |agvs| :: Last(agvs[v]).returnTime <= Last(agvs[u]).returnTime
    requires forall u | 0 <= u < v :: Last(agvs[u]).returnTime > Last(agvs[v]).returnTime
    ensures Assign(agvs, job, jobs, deadlines, rFactor) ==
      agvs[v := agvs[v] + [NewEntry(job, Last(agvs[v]).returnTime, ProcessTime(jobs[job], rFactor), deadlines[job])]]
  {
    var lasts := LastReturns(agvs);
    ChooseFirstEarliest(lasts);
    var s := Choose(lasts).selected.value;
    assert lasts[s].value <= lasts[v].value && lasts[v].value <= lasts[s].value;
    assert s == v;
  }

  /** Earlier entries are never changed: every vehicle's old entries stay a prefix. */
  lemma {:induction false} AssignAllKeepsHistory(agvs: Ledger, perm: seq<JobId>, jobs: map<JobId, Window>,
                                                 deadlines: map<JobId, Deadline>, rFactor: real)
    requires |agvs| > 0 && Known(perm, jobs, deadlines)
    ensures var r := AssignAll(agvs, perm, jobs, deadlines, rFactor);
      forall u | 0 <= u < |agvs| :: |agvs[u]| <= |r[u]| && r[u][..|agvs[u]|] == agvs[u]
  {
    if perm != [] {
      var n := |perm| - 1;
      var mid := AssignAll(agvs, perm[..n], jobs, deadlines, rFactor);
      AssignAllKeepsHistory(agvs, perm[..n], jobs, deadlines, rFactor);
      var r := AssignAll(agvs, perm, jobs, deadlines, rFactor);
      forall u | 0 <= u < |agvs| ensures |agvs[u]| <= |r[u]| && r[u][..|agvs[u]|] == agvs[u] {
        assert r[u][..|mid[u]|] == mid[u];
        assert r[u][..|agvs[u]|] == r[u][..|mid[u]|][..|agvs[u]|];
      }
    }
  }

  /** The jobs a vehicle's entries carry. */
  function EntryJobs(es: seq<Entry>): multiset<JobId> {
    if es == [] then multiset{} else EntryJobs(es[..|es| - 1]) + multiset{Last(es).job}
  }

  /** The jobs the whole ledger carries. */
  function LedgerJobs(agvs: Ledger): multiset<JobId> {
    if agvs == [] then multiset{} else LedgerJobs(agvs[..|agvs| - 1]) + EntryJobs(agvs[|agvs| - 1])
  }

  lemma {:induction false} LedgerJobsAppend(agvs: Ledger, v: nat, e: Entry)
    requires v < |agvs|
    ensures LedgerJobs(agvs[v := agvs[v] + [e]]) == LedgerJobs(agvs) + multiset{e.job}
    decreases |agvs|, 1
  {
    if v < |agvs| - 1 {
      LedgerJobsAppendFront(agvs, v, e);
    } else {
      LedgerJobsAppendLast(agvs, e);
    }
  }

  /** Appending to a vehicle other than the last: the last vehicle's jobs are untouched. */
  lemma {:induction false} LedgerJobsAppendFront(agvs: Ledger, v: nat, e: Entry)
    requires v < |agvs| - 1
    ensures LedgerJobs(agvs[v := agvs[v] + [e]]) == LedgerJobs(agvs) + multiset{e.job}
    decreases |agvs|, 0
  {
    var init, last := agvs[..|agvs| - 1], agvs[|agvs| - 1];
    var x := init[v] + [e];
    assert agvs == init + [last];
    calc {
      LedgerJobs(agvs[v := x]);
    == { UpdateFront(init, last, v, x); }
      LedgerJobs(init[v := x] + [last]);
    == { LedgerJobsSnoc(init[v := x], last); }
      LedgerJobs(init[v := x]) + EntryJobs(last);
    == { LedgerJobsAppend(init, v, e); }
      LedgerJobs(init) + multiset{e.job} + EntryJobs(last);
    == { LedgerJobsSnoc(init, last); }
      LedgerJobs(agvs) + multiset{e.job};
    }
  }

  /** Appending to the last vehicle. */
  lemma LedgerJobsAppendLast(agvs: Ledger, e: Entry)
    requires |agvs| > 0
    ensures LedgerJobs(agvs[|agvs| - 1 := agvs[|agvs| - 1] + [e]]) == LedgerJobs(agvs) + multiset{e.job}
  {
    var init, last := agvs[..|agvs| - 1], agvs[|agvs| - 1];
    assert agvs == init + [last];
    calc {
      LedgerJobs(agvs[|agvs| - 1 := last + [e]]);
    == { UpdateLast(init, last, last + [e]); }
      LedgerJobs(init + [last + [e]]);
    == { LedgerJobsSnoc(init, last + [e]); }
      LedgerJobs(init) + EntryJobs(last + [e]);
    == { EntryJobsSnoc(last, e); }
      LedgerJobs(init) + EntryJobs(last) + multiset{e.job};
    == { LedgerJobsSnoc(init, last); }
      LedgerJobs(agvs) + multiset{e.job};
    }
  }

  lemma EntryJobsSnoc(es: seq<Entry>, e: Entry)
    ensures EntryJobs(es + [e]) == EntryJobs(es) + multiset{e.job}
  {
    assert (es + [e])[..|es|] == es;
  }

  lemma LedgerJobsSnoc(agvs: Ledger, es: seq<Entry>)
    ensures LedgerJobs(agvs + [es]) == LedgerJobs(agvs) + EntryJobs(es)
  {
    assert (agvs + [es])[..|agvs|] == agvs;
  }

  /** One assignment adds its job to the ledger once. */
  lemma AssignJobs(agvs: Ledger, job: JobId, jobs: map<JobId, Window>, deadlines: map<JobId, Deadline>, rFactor: real)
    requires |agvs| > 0 && job in jobs && job in deadlines
    ensures LedgerJobs(Assign(agvs, job, jobs, deadlines, rFactor)) == LedgerJobs(agvs) + multiset{job}
  {
    var c := Choose(LastReturns(agvs));
    var v := c.selected.value;
    var start := if c.emptyAgv then 0.0 else Last(agvs[v]).returnTime;
    LedgerJobsAppend(agvs, v, NewEntry(job, start, ProcessTime(jobs[job], rFactor), deadlines[job]));
  }

  /** Exactly the jobs of `perm` are added to the ledger, each once. */
  lemma {:induction false} AssignAllJobs(agvs: Ledger, perm: seq<JobId>, jobs: map<JobId, Window>,
                                         deadlines: map<JobId, Deadline>, rFactor: real)
    requires |agvs| > 0 && Known(perm, jobs, deadlines)
    ensures LedgerJobs(AssignAll(agvs, perm, jobs, deadlines, rFactor)) == LedgerJobs(agvs) + multiset(perm)
  {
    if perm != [] {
      var n := |perm| - 1;
      var mid := AssignAll(agvs, perm[..n], jobs, deadlines, rFactor);
      AssignAllJobs(agvs, perm[..n], jobs, deadlines, rFactor);
      AssignJobs(mid, perm[n], jobs, deadlines, rFactor);
      assert AssignAll(agvs, perm, jobs, deadlines, rFactor) == Assign(mid, perm[n], jobs, deadlines, rFactor);
      MultisetSnoc(perm);
    }
  }

  /** Each entry after a vehicle's first starts when the previous one returns. */
  predicate ChainedEntries(es: seq<Entry>) {
    forall k | 0 < k < |es| :: es[k].start == es[k - 1].returnTime
  }

  predicate Chained(agvs: Ledger) {
    forall v | 0 <= v < |agvs| :: ChainedEntries(agvs[v])
  }

  /** On busy vehicles assignment keeps every vehicle's entries chained. */
  lemma {:induction false} AssignAllChained(agvs: Ledger, perm: seq<JobId>, jobs: map<JobId, Window>,
                                            deadlines: map<JobId, Deadline>, rFactor: real)
    requires |agvs| > 0 && Busy(agvs) && Chained(agvs) && Known(perm, jobs, deadlines)
    ensures Chained(AssignAll(agvs, perm, jobs, deadlines, rFactor))
  {
    if perm != [] {
      var n := |perm| - 1;
      AssignAllChained(agvs, perm[..n], jobs, deadlines, rFactor);
      AssignChained(AssignAll(agvs, perm[..n], jobs, deadlines, rFactor), perm[n], jobs, deadlines, rFactor);
    }
  }

  /** One assignment onto busy, chained vehicles keeps them chained. */
  lemma AssignChained(agvs: Ledger, job: JobId, jobs: map<JobId, Window>, deadlines: map<JobId, Deadline>, rFactor: real)
    requires |agvs| > 0 && Busy(agvs) && Chained(agvs) && job in jobs && job in deadlines
    ensures Chained(Assign(agvs, job, jobs, deadlines, rFactor))
  {
    var lasts := LastReturns(agvs);
    ChooseFirstEarliest(lasts);
    var v := Choose(lasts).selected.value;
    AssignToEarliestReturn(agvs, job, jobs, deadlines, rFactor, v);
    var e := NewEntry(job, Last(agvs[v]).returnTime, ProcessTime(jobs[job], rFactor), deadlines[job]);
    assert ChainedEntries(agvs[v] + [e]);
  }

  // ---------------------------------------------------------------------
  // Totals
  // ---------------------------------------------------------------------

  function EntriesDelay(es: seq<Entry>): real {
    if es == [] then 0.0 else EntriesDelay(es[..|es| - 1]) + Last(es).delay
  }

  function EntriesWeightedDelay(es: seq<Entry>): real {
    if es == [] then 0.0 else EntriesWeightedDelay(es[..|es| - 1]) + Last(es).weightedDelay
  }

  /** The sum of every entry's delay, field 5. */
  function TotalDelay(agvs: Ledger): real {
    if agvs == [] then 0.0 else TotalDelay(agvs[..|agvs| - 1]) + EntriesDelay(agvs[|agvs| - 1])
  }

  /** The sum of every entry's weighted delay, field 6. */
  function TotalWeightedDelay(agvs: Ledger): real {
    if agvs == [] then 0.0 else TotalWeightedDelay(agvs[..|agvs| - 1]) + EntriesWeightedDelay(agvs[|agvs| - 1])
  }

  function Max(a: real, b: real): real {
    if a >= b then a else b
  }

  /** The latest of the vehicles' last return times. */
  function Makespan(agvs: Ledger): (m: real)
    requires |agvs| > 0 && Busy(agvs)
    ensures forall v | 0 <= v < |agvs| :: Last(agvs[v]).returnTime <= m
    ensures exists v | 0 <= v < |agvs| :: m == Last(agvs[v]).returnTime
  {
    var n := |agvs| - 1;
    if n == 0 then Last(agvs[0]).returnTime
    else
      assert forall u | 0 <= u < n :: agvs[..n][u] == agvs[u];
      Max(Makespan(agvs[..n]), Last(agvs[n]).returnTime)
  }

  /** The totals loop: delay and weighted delay summed entry by entry, the makespan as a running maximum. */
  method Totals(agvs: Ledger) returns (delay: real, weightedDelay: real, maxDuration: real)
    requires |agvs| > 0 && Busy(agvs)
    ensures delay == TotalDelay(agvs) && weightedDelay == TotalWeightedDelay(agvs)
    ensures maxDuration == Makespan(agvs)
  {
    delay, weightedDelay, maxDuration := 0.0, 0.0, 0.0;
    var v := 0;
    while v < |agvs|
      invariant 0 <= v <= |agvs|
      invariant delay == TotalDelay(agvs[..v]) && weightedDelay == TotalWeightedDelay(agvs[..v])
      invariant v > 0 ==> maxDuration == Makespan(agvs[..v])
    {
      var details := agvs[v];
      var vehicleDelay, vehicleWeighted := 0.0, 0.0;
      var k := 0;
      while k < |details|
        invariant 0 <= k <= |details|
        invariant vehicleDelay == EntriesDelay(details[..k])
        invariant vehicleWeighted == EntriesWeightedDelay(details[..k])
      {
        assert details[..k + 1][..k] == details[..k];
        vehicleWeighted := vehicleWeighted + details[k].weightedDelay;
        vehicleDelay := vehicleDelay + details[k].delay;
        k := k + 1;
      }
      assert details[..|details|] == details;
      assert agvs[..v + 1][..v] == agvs[..v];
      delay := delay + vehicleDelay;
      weightedDelay := weightedDelay + vehicleWeighted;
      maxDuration := if v == 0 then Last(details).returnTime else Max(maxDuration, Last(details).returnTime);
      v := v + 1;
    }
    assert agvs[..|agvs|] == agvs;
  }

  // ---------------------------------------------------------------------
  // Candidates, ranking and pruning
  // ---------------------------------------------------------------------

  /** A candidate `[jobOrder, ledger, delay, weighted delay, makespan]`. */
  datatype Combination = Combination(jobOrder: seq<JobId>, ledger: Ledger, delay: real, weightedDelay: real, makespan: real)

  /** The candidate for one permutation: its ledger and totals. */
  function Evaluate(perm: seq<JobId>, prior: seq<JobId>, agvs: Ledger, jobs: map<JobId, Window>,
                    deadlines: map<JobId, Deadline>, rFactor: real): Combination
    requires |agvs| > 0 && Busy(agvs) && Known(perm, jobs, deadlines)
  {
    var ledger := AssignAll(agvs, perm, jobs, deadlines, rFactor);
    Combination(prior + perm, ledger, TotalDelay(ledger), TotalWeightedDelay(ledger), Makespan(ledger))
  }

  /** What a candidate records about its permutation. */
  lemma EvaluateFacts(perm: seq<JobId>, prior: seq<JobId>, agvs: Ledger, jobs: map<JobId, Window>,
                      deadlines: map<JobId, Deadline>, rFactor: real)
    requires |agvs| > 0 && Busy(agvs) && Known(perm, jobs, deadlines)
    ensures var c := Evaluate(perm, prior, agvs, jobs, deadlines, rFactor);
      c.jobOrder == prior + perm && |c.ledger| == |agvs| && Busy(c.ledger) &&
      LedgerJobs(c.ledger) == LedgerJobs(agvs) + multiset(perm) &&
      (forall u | 0 <= u < |agvs| :: |agvs[u]| <= |c.ledger[u]| && c.ledger[u][..|agvs[u]|] == agvs[u]) &&
      (Chained(agvs) ==> Chained(c.ledger))
  {
    AssignAllJobs(agvs, perm, jobs, deadlines, rFactor);
    AssignAllKeepsHistory(agvs, perm, jobs, deadlines, rFactor);
    if Chained(agvs) {
      AssignAllChained(agvs, perm, jobs, deadlines, rFactor);
    }
  }

  predicate AllKnown(perms: seq<seq<JobId>>, jobs: map<JobId, Window>, deadlines: map<JobId, Deadline>) {
    forall k | 0 <= k < |perms| :: Known(perms[k], jobs, deadlines)
  }

  /** The candidates of the permutations, in generation order. */
  function Evaluations(perms: seq<seq<JobId>>, prior: seq<JobId>, agvs: Ledger, jobs: map<JobId, Window>,
                       deadlines: map<JobId, Deadline>, rFactor: real): (r: seq<Combination>)
    requires |agvs| > 0 && Busy(agvs) && AllKnown(perms, jobs, deadlines)
    ensures |r| == |perms|
  {
    seq(|perms|, k requires 0 <= k < |perms| => Evaluate(perms[k], prior, agvs, jobs, deadlines, rFactor))
  }

  /** The comparator `a[3] - b[3] || a[4] - b[4]` is positive: `a` ranks after `b`. */
  predicate RanksAfter(a: Combination, b: Combination) {
    a.weightedDelay > b.weightedDelay || (a.weightedDelay == b.weightedDelay && a.makespan > b.makespan)
  }

  /** Ascending by weighted delay, then makespan. */
  predicate Ranked(cs: seq<Combination>) {
    forall i, j | 0 <= i < j < |cs| :: !RanksAfter(cs[i], cs[j])
  }

  /**
   * Sorting a ranked list with `c` pushed at its end, stably: `c` goes after
   * every candidate that does not rank after it.
   */
  function Insert(cs: seq<Combination>, c: Combination): (r: seq<Combination>)
    ensures multiset(r) == multiset(cs) + multiset{c}
  {
    if cs == [] then [c]
    else
      var n := |cs| - 1;
      assert cs == cs[..n] + [cs[n]];
      if RanksAfter(cs[n], c) then Insert(cs[..n], c) + [cs[n]] else cs + [c]
  }

  lemma {:induction false} InsertRanked(cs: seq<Combination>, c: Combination)
    requires Ranked(cs)
    ensures Ranked(Insert(cs, c))
  {
    if cs == [] {
      assert Insert(cs, c) == [c];
    } else {
      var n := |cs| - 1;
      var init, last := cs[..n], cs[n];
      if RanksAfter(last, c) {
        assert Ranked(init) && forall k | 0 <= k < n :: init[k] == cs[k];
        InsertRanked(init, c);
        InsertBelow(init, c, last);
        RankedSnoc(Insert(init, c), last);
      } else {
        BelowLast(cs, c);
        RankedSnoc(cs, c);
      }
    }
  }

  /** Appending a candidate that nothing before it ranks after keeps the order. */
  lemma RankedSnoc(cs: seq<Combination>, c: Combination)
    requires Ranked(cs) && forall k | 0 <= k < |cs| :: !RanksAfter(cs[k], c)
    ensures Ranked(cs + [c])
  {
    var r := cs + [c];
    forall i, j | 0 <= i < j < |r| ensures !RanksAfter(r[i], r[j]) {
      assert r[i] == cs[i];
    }
  }

  /** Ranking is transitive, so a candidate the last does not rank after is ranked after by none. */
  lemma BelowLast(cs: seq<Combination>, c: Combination)
    requires Ranked(cs) && cs != [] && !RanksAfter(cs[|cs| - 1], c)
    ensures forall k | 0 <= k < |cs| :: !RanksAfter(cs[k], c)
  {
    forall k | 0 <= k < |cs| - 1 ensures !RanksAfter(cs[k], c) {
      assert !RanksAfter(cs[k], cs[|cs| - 1]);
    }
  }

  /** Inserting a candidate the last ranks after keeps every element at or ahead of the last. */
  lemma InsertBelow(cs: seq<Combination>, c: Combination, last: Combination)
    requires (forall k | 0 <= k < |cs| :: !RanksAfter(cs[k], last)) && RanksAfter(last, c)
    ensures forall i | 0 <= i < |Insert(cs, c)| :: !RanksAfter(Insert(cs, c)[i], last)
  {
    var front := Insert(cs, c);
    forall i | 0 <= i < |front| ensures !RanksAfter(front[i], last) {
      assert front[i] in multiset(front);
      if front[i] != c {
        assert front[i] in multiset(cs);
        var k :| 0 <= k < |cs| && cs[k] == front[i];
      }
    }
  }


  /** The ranked survivors and the recorded weighted delay of the first permutation. */
  datatype Beam = Beam(best: seq<Combination>, bound: Option<real>)

  /** One permutation's turn: the first is always kept and fixes the bound; a later one is skipped when above it. */
  function Consider(b: Beam, c: Combination): Beam {
    if b.bound.None? then Beam(Insert(b.best, c), Some(c.weightedDelay))
    else if c.weightedDelay > b.bound.value then b
    else Beam(Insert(b.best, c), b.bound)
  }

  function Prune(evals: seq<Combination>): Beam {
    if evals == [] then Beam([], None) else Consider(Prune(evals[..|evals| - 1]), evals[|evals| - 1])
  }

  /** The candidates no worse than weighted delay `w`, in order. */
  function Kept(evals: seq<Combination>, w: real): (r: seq<Combination>)
    ensures forall c :: c in r <==> c in evals && c.weightedDelay <= w
  {
    if evals == [] then []
    else
      var n := |evals| - 1;
      assert evals == evals[..n] + [evals[n]];
      Kept(evals[..n], w) + (if evals[n].weightedDelay <= w then [evals[n]] else [])
  }

  /**
   * Pruning keeps exactly the candidates whose weighted delay is at most the
   * first one's, ranked; the bound is the first candidate's weighted delay.
   */
  lemma {:induction false} PruneKeepsNoWorseThanFirst(evals: seq<Combination>)
    requires evals != []
    ensures Prune(evals).bound == Some(evals[0].weightedDelay)
    ensures multiset(Prune(evals).best) == multiset(Kept(evals, evals[0].weightedDelay))
    ensures Ranked(Prune(evals).best)
  {
    var n := |evals| - 1;
    var init := evals[..n];
    var w := evals[0].weightedDelay;
    if n == 0 {
      assert Prune(evals) == Consider(Beam([], None), evals[0]);
      assert Kept(evals, w) == Kept([], w) + [evals[0]];
    } else {
      assert init[0] == evals[0];
      assert evals == init + [evals[n]];
      PruneKeepsNoWorseThanFirst(init);
      ConsiderKeeps(Prune(init), init, evals[n], w);
    }
  }

  /** Once the bound is set, considering one more candidate keeps it exactly when it is no worse. */
  lemma ConsiderKeeps(b: Beam, init: seq<Combination>, c: Combination, w: real)
    requires b.bound == Some(w) && multiset(b.best) == multiset(Kept(init, w)) && Ranked(b.best)
    ensures Consider(b, c).bound == Some(w)
    ensures multiset(Consider(b, c).best) == multiset(Kept(init + [c], w))
    ensures Ranked(Consider(b, c).best)
  {
    assert (init + [c])[..|init|] == init;
    if c.weightedDelay <= w {
      InsertRanked(b.best, c);
    }
  }

  /** `runPermutations`' result: the survivors of all permutations, cut to `bFactor`. */
  function BestPermutations(toAssign: seq<JobId>, prior: seq<JobId>, deadlines: map<JobId, Deadline>,
                            agvs: Ledger, jobs: map<JobId, Window>, rFactor: real, bFactor: nat): seq<Combination>
    requires |toAssign| >= 1 && Known(toAssign, jobs, deadlines) && |agvs| > 0 && Busy(agvs)
  {
    PermutationsKnown(toAssign, jobs, deadlines);
    var best := Prune(Evaluations(Permutations(toAssign), prior, agvs, jobs, deadlines, rFactor)).best;
    best[..if bFactor < |best| then bFactor else |best|]
  }

  lemma PermutationsKnown(toAssign: seq<JobId>, jobs: map<JobId, Window>, deadlines: map<JobId, Deadline>)
    requires |toAssign| >= 1 && Known(toAssign, jobs, deadlines)
    ensures AllKnown(Permutations(toAssign), jobs, deadlines)
  {
    var perms := Permutations(toAssign);
    forall k | 0 <= k < |perms| ensures Known(perms[k], jobs, deadlines) {
      PermutationsRearrange(toAssign, perms[k]);
      forall i | 0 <= i < |perms[k]| ensures perms[k][i] in jobs && perms[k][i] in deadlines {
        assert perms[k][i] in multiset(toAssign);
      }
    }
  }

  /** The survivors before the cut to the beam width. */
  lemma Survivors(toAssign: seq<JobId>, prior: seq<JobId>, deadlines: map<JobId, Deadline>,
                  agvs: Ledger, jobs: map<JobId, Window>, rFactor: real)
    requires |toAssign| >= 1 && Known(toAssign, jobs, deadlines) && |agvs| > 0 && Busy(agvs)
    ensures AllKnown(Permutations(toAssign), jobs, deadlines)
    ensures var evals := Evaluations(Permutations(toAssign), prior, agvs, jobs, deadlines, rFactor);
      evals != [] &&
      multiset(Prune(evals).best) == multiset(Kept(evals, evals[0].weightedDelay)) &&
      Ranked(Prune(evals).best) && |Prune(evals).best| >= 1
  {
    PermutationsKnown(toAssign, jobs, deadlines);
    var perms := Permutations(toAssign);
    PermutationsCount(toAssign);
    FactorialPositive(|toAssign|);
    var evals := Evaluations(perms, prior, agvs, jobs, deadlines, rFactor);
    PruneKeepsNoWorseThanFirst(evals);
    assert evals[0] in Kept(evals, evals[0].weightedDelay);
    assert evals[0] in multiset(Prune(evals).best);
  }

  /**
   * The result holds at most `bFactor` candidates, ranked by weighted delay
   * and then makespan, and at least one when `bFactor >= 1`.
   */
  lemma BestPermutationsRankedWithinBeam(toAssign: seq<JobId>, prior: seq<JobId>, deadlines: map<JobId, Deadline>,
                                         agvs: Ledger, jobs: map<JobId, Window>, rFactor: real, bFactor: nat)
    requires |toAssign| >= 1 && Known(toAssign, jobs, deadlines) && |agvs| > 0 && Busy(agvs)
    ensures var r := BestPermutations(toAssign, prior, deadlines, agvs, jobs, rFactor, bFactor);
      |r| <= bFactor && Ranked(r) && (bFactor >= 1 ==> |r| >= 1)
  {
    Survivors(toAssign, prior, deadlines, agvs, jobs, rFactor);
  }

  /**
   * The result is the best `bFactor` survivors: `bFactor` of them, or all
   * when fewer survive, and no survivor left out ranks strictly before one
   * that is kept.
   */
  lemma BestPermutationsKeepBest(toAssign: seq<JobId>, prior: seq<JobId>, deadlines: map<JobId, Deadline>,
                                 agvs: Ledger, jobs: map<JobId, Window>, rFactor: real, bFactor: nat)
    requires |toAssign| >= 1 && Known(toAssign, jobs, deadlines) && |agvs| > 0 && Busy(agvs)
    ensures AllKnown(Permutations(toAssign), jobs, deadlines)
    ensures var evals := Evaluations(Permutations(toAssign), prior, agvs, jobs, deadlines, rFactor);
      evals != [] &&
      var kept := Kept(evals, evals[0].weightedDelay);
      var r := BestPermutations(toAssign, prior, deadlines, agvs, jobs, rFactor, bFactor);
      |r| == (if bFactor < |kept| then bFactor else |kept|) &&
      forall c, i | c in multiset(kept) - multiset(r) && 0 <= i < |r| :: !RanksAfter(r[i], c)
  {
    Survivors(toAssign, prior, deadlines, agvs, jobs, rFactor);
    var evals := Evaluations(Permutations(toAssign), prior, agvs, jobs, deadlines, rFactor);
    CutIsBest(Prune(evals).best, Kept(evals, evals[0].weightedDelay), bFactor);
  }

  /** The first `b` of a ranked arrangement of `kept` are `b` of them, or all, and the best. */
  lemma CutIsBest(best: seq<Combination>, kept: seq<Combination>, b: nat)
    requires Ranked(best) && multiset(best) == multiset(kept)
    ensures var r := best[..if b < |best| then b else |best|];
      |r| == (if b < |kept| then b else |kept|) &&
      forall c, i | c in multiset(kept) - multiset(r) && 0 <= i < |r| :: !RanksAfter(r[i], c)
  {
    assert |best| == |kept| by {
      assert |multiset(best)| == |multiset(kept)|;
    }
    CutLeavesNoBetter(best, if b < |best| then b else |best|);
  }

  /** Cutting a ranked list leaves out nothing that ranks strictly before what is kept. */
  lemma CutLeavesNoBetter(best: seq<Combination>, m: nat)
    requires Ranked(best) && m <= |best|
    ensures forall c, i | c in multiset(best) - multiset(best[..m]) && 0 <= i < m :: !RanksAfter(best[..m][i], c)
  {
    SplitAt(best, m);
    assert multiset(best) == multiset(best[..m]) + multiset(best[m..]);
    assert multiset(best) - multiset(best[..m]) == multiset(best[m..]);
    forall c, i | c in multiset(best) - multiset(best[..m]) && 0 <= i < m
      ensures !RanksAfter(best[..m][i], c)
    {
      assert c in best[m..];
      var j :| 0 <= j < |best| - m && best[m..][j] == c;
      assert best[m + j] == c && best[..m][i] == best[i];
    }
  }

  /**
   * Each candidate of the result is that of one permutation of the batch,
   * no worse in weighted delay than the first permutation's.
   */
  lemma BestPermutationsNoWorseThanFirst(toAssign: seq<JobId>, prior: seq<JobId>, deadlines: map<JobId, Deadline>,
                                         agvs: Ledger, jobs: map<JobId, Window>, rFactor: real, bFactor: nat,
                                         c: Combination)
    requires |toAssign| >= 1 && Known(toAssign, jobs, deadlines) && |agvs| > 0 && Busy(agvs)
    requires c in BestPermutations(toAssign, prior, deadlines, agvs, jobs, rFactor, bFactor)
    ensures AllKnown(Permutations(toAssign), jobs, deadlines)
    ensures var evals := Evaluations(Permutations(toAssign), prior, agvs, jobs, deadlines, rFactor);
      evals != [] && c in evals && c.weightedDelay <= evals[0].weightedDelay
  {
    Survivors(toAssign, prior, deadlines, agvs, jobs, rFactor);
    var perms := Permutations(toAssign);
    var evals := Evaluations(perms, prior, agvs, jobs, deadlines, rFactor);
    var best := Prune(evals).best;
    assert c in best;
    assert c in multiset(Kept(evals, evals[0].weightedDelay));
  }

  lemma {:induction false} FactorialPositive(n: nat)
    ensures Factorial(n) >= 1
  {
    if n > 0 {
      FactorialPositive(n - 1);
    }
  }

  // ---------------------------------------------------------------------
  // The loops
  // ---------------------------------------------------------------------

  /** The vehicle scan of a job's assignment. */
  method SelectVehicle(agvs: Ledger) returns (emptyAgv: bool, earliestFinish: real, selectedAgv: Option<nat>)
    ensures Choice(emptyAgv, earliestFinish, selectedAgv) == Choose(LastReturns(agvs))
  {
    emptyAgv, earliestFinish, selectedAgv := false, 0.0, None;
    var lasts := LastReturns(agvs);
    var v := 0;
    while v < |agvs|
      invariant 0 <= v <= |agvs|
      invariant Choice(emptyAgv, earliestFinish, selectedAgv) == Choose(lasts[..v])
    {
      assert lasts[..v + 1][..v] == lasts[..v];
      var details := agvs[v];
      if |details| == 0 {
        selectedAgv := Some(v);
        emptyAgv := true;
      } else if selectedAgv.None? {
        earliestFinish := Last(details).returnTime;
        selectedAgv := Some(v);
      } else if Last(details).returnTime < earliestFinish {
        earliestFinish := Last(details).returnTime;
        selectedAgv := Some(v);
      }
      v := v + 1;
    }
    assert lasts[..|agvs|] == lasts;
  }

  /** Assigns the jobs of one permutation to the cloned ledger. */
  method AssignPermutation(agvs: Ledger, perm: seq<JobId>, jobs: map<JobId, Window>,
                           deadlines: map<JobId, Deadline>, rFactor: real) returns (agvsPerm: Ledger)
    requires |agvs| > 0 && Known(perm, jobs, deadlines)
    ensures agvsPerm == AssignAll(agvs, perm, jobs, deadlines, rFactor)
  {
    agvsPerm := agvs;
    var i := 0;
    while i < |perm|
      invariant 0 <= i <= |perm|
      invariant agvsPerm == AssignAll(agvs, perm[..i], jobs, deadlines, rFactor)
    {
      assert perm[..i + 1][..i] == perm[..i];
      var job := perm[i];
      var emptyAgv, earliestFinish, selectedAgv := SelectVehicle(agvsPerm);
      var v := selectedAgv.value;
      var processTime := ProcessTime(jobs[job], rFactor);
      var start := if emptyAgv then 0.0 else Last(agvsPerm[v]).returnTime;
      agvsPerm := agvsPerm[v := agvsPerm[v] + [NewEntry(job, start, processTime, deadlines[job])]];
      i := i + 1;
    }
    assert perm[..|perm|] == perm;
  }

  /** `runPermutations`. */
  method RunPermutations(toAssign: seq<JobId>, prior: seq<JobId>, deadlinesPrimary: map<JobId, Deadline>,
                         agvs: Ledger, jobs: map<JobId, Window>, rFactor: real, bFactor: nat)
    returns (result: seq<Combination>)
    requires |toAssign| >= 1 && Known(toAssign, jobs, deadlinesPrimary) && |agvs| > 0 && Busy(agvs)
    ensures result == BestPermutations(toAssign, prior, deadlinesPrimary, agvs, jobs, rFactor, bFactor)
  {
    PermutationsKnown(toAssign, jobs, deadlinesPrimary);
    var permutationsList := Permutations(toAssign);
    var bestPermutations := PruneAll(permutationsList, prior, agvs, jobs, deadlinesPrimary, rFactor);
    result := bestPermutations[..if bFactor < |bestPermutations| then bFactor else |bestPermutations|];
  }

  /** The candidate of one permutation: the cloned ledger with the permutation assigned, and its totals. */
  method EvaluatePermutation(permutationsList: seq<seq<JobId>>, i: nat, prior: seq<JobId>, agvs: Ledger,
                             jobs: map<JobId, Window>, deadlinesPrimary: map<JobId, Deadline>, rFactor: real)
    returns (candidate: Combination)
    requires |agvs| > 0 && Busy(agvs) && AllKnown(permutationsList, jobs, deadlinesPrimary) && i < |permutationsList|
    ensures candidate == Evaluations(permutationsList, prior, agvs, jobs, deadlinesPrimary, rFactor)[i]
  {
    var perm := permutationsList[i];
    var agvsPerm := AssignPermutation(agvs, perm, jobs, deadlinesPrimary, rFactor);
    var delay, weightedDelayPerm, maxDuration := Totals(agvsPerm);
    candidate := Combination(prior + perm, agvsPerm, delay, weightedDelayPerm, maxDuration);
  }

  /**
   * The pruning test and the push-and-sort: the first candidate fixes the
   * bound, a later one is kept unless its weighted delay is above it.
   */
  method KeepIfNoWorse(bestPermutations: seq<Combination>, previousWeightedDelay: Option<real>, candidate: Combination)
    returns (best: seq<Combination>, bound: Option<real>)
    ensures Beam(best, bound) == Consider(Beam(bestPermutations, previousWeightedDelay), candidate)
  {
    best, bound := bestPermutations, previousWeightedDelay;
    if bound.None? {
      bound := Some(candidate.weightedDelay);
      best := Insert(best, candidate);
    } else if candidate.weightedDelay <= bound.value {
      best := Insert(best, candidate);
    }
  }

  /** One more permutation is one more `Consider`. */
  lemma PruneStep(evals: seq<Combination>, i: nat)
    requires i < |evals|
    ensures Prune(evals[..i + 1]) == Consider(Prune(evals[..i]), evals[i])
  {
    assert evals[..i + 1][..i] == evals[..i];
  }

  /** The loop of `runPermutations`: every permutation is evaluated and either kept in the beam or pruned. */
  method PruneAll(permutationsList: seq<seq<JobId>>, prior: seq<JobId>, agvs: Ledger, jobs: map<JobId, Window>,
                  deadlinesPrimary: map<JobId, Deadline>, rFactor: real) returns (bestPermutations: seq<Combination>)
    requires |agvs| > 0 && Busy(agvs) && AllKnown(permutationsList, jobs, deadlinesPrimary)
    ensures bestPermutations == Prune(Evaluations(permutationsList, prior, agvs, jobs, deadlinesPrimary, rFactor)).best
  {
    bestPermutations := [];
    // The set of previous weighted delays only ever receives the first permutation's.
    var previousWeightedDelay: Option<real> := None;
    ghost var evals := Evaluations(permutationsList, prior, agvs, jobs, deadlinesPrimary, rFactor);
    var i := 0;
    while i < |permutationsList|
      invariant 0 <= i <= |permutationsList|
      invariant Beam(bestPermutations, previousWeightedDelay) == Prune(evals[..i])
    {
      var candidate := EvaluatePermutation(permutationsList, i, prior, agvs, jobs, deadlinesPrimary, rFactor);
      PruneStep(evals, i);
      bestPermutations, previousWeightedDelay := KeepIfNoWorse(bestPermutations, previousWeightedDelay, candidate);
      i := i + 1;
    }
    assert evals[..|permutationsList|] == evals;
  }
}
