/**
 * `robustSchedule`: the jobs are sorted by their secondary deadline, the
 * first `N` seed one vehicle each, the rest are cut into batches of `P` in
 * that order, and the candidates are expanded batch by batch, every
 * candidate of one batch passing on its own best `B` children to the next.
 */
module RobustScheduling {
  import opened Wrappers
  import opened JobPermutations
  import opened Scheduling
  import opened Sequences

  // ---------------------------------------------------------------------
  // Sorting by secondary deadline
  // ---------------------------------------------------------------------

  predicate HasDeadlines(ids: seq<JobId>, deadlines: map<JobId, Deadline>) {
    forall k | 0 <= k < |ids| :: ids[k] in deadlines
  }

  /** Ascending by deadline time. */
  predicate ByDeadline(ids: seq<JobId>, deadlines: map<JobId, Deadline>)
    requires HasDeadlines(ids, deadlines)
  {
    forall i, j | 0 <= i < j < |ids| :: deadlines[ids[i]].time <= deadlines[ids[j]].time
  }

  /** Places `id` after every job whose deadline is not later, as a stable sort does. */
  function InsertByDeadline(sorted: seq<JobId>, id: JobId, deadlines: map<JobId, Deadline>): (r: seq<JobId>)
    requires HasDeadlines(sorted, deadlines) && id in deadlines
    ensures multiset(r) == multiset(sorted) + multiset{id}
    ensures HasDeadlines(r, deadlines)
  {
    if sorted == [] then [id]
    else
      var n := |sorted| - 1;
      assert sorted == sorted[..n] + [sorted[n]];
      if deadlines[sorted[n]].time > deadlines[id].time then
        var front := InsertByDeadline(sorted[..n], id, deadlines);
        DeadlinesSnoc(front, sorted[n], deadlines);
        front + [sorted[n]]
      else
        DeadlinesSnoc(sorted, id, deadlines);
        sorted + [id]
  }

  lemma DeadlinesSnoc(ids: seq<JobId>, id: JobId, deadlines: map<JobId, Deadline>)
    requires HasDeadlines(ids, deadlines) && id in deadlines
    ensures HasDeadlines(ids + [id], deadlines)
  {
  }

  /** The stable sort of the job ids by deadline time. */
  function SortByDeadline(ids: seq<JobId>, deadlines: map<JobId, Deadline>): (r: seq<JobId>)
    requires HasDeadlines(ids, deadlines)
    ensures multiset(r) == multiset(ids) && |r| == |ids|
    ensures HasDeadlines(r, deadlines)
  {
    assert |multiset(ids)| == |ids|;
    if ids == [] then []
    else
      var n := |ids| - 1;
      assert ids == ids[..n] + [ids[n]];
      InsertByDeadline(SortByDeadline(ids[..n], deadlines), ids[n], deadlines)
  }

  /** `t` bounds every deadline of `ids`. */
  predicate DeadlinesAtMost(ids: seq<JobId>, deadlines: map<JobId, Deadline>, t: real)
    requires HasDeadlines(ids, deadlines)
  {
    forall i | 0 <= i < |ids| :: deadlines[ids[i]].time <= t
  }

  lemma AppendByDeadline(front: seq<JobId>, x: JobId, deadlines: map<JobId, Deadline>)
    requires HasDeadlines(front, deadlines) && x in deadlines && ByDeadline(front, deadlines)
    requires DeadlinesAtMost(front, deadlines, deadlines[x].time)
    ensures HasDeadlines(front + [x], deadlines) && ByDeadline(front + [x], deadlines)
  {
    var r := front + [x];
    assert forall i | 0 <= i < |front| :: r[i] == front[i];
  }

  lemma InsertByDeadlineBounded(sorted: seq<JobId>, id: JobId, deadlines: map<JobId, Deadline>, t: real)
    requires HasDeadlines(sorted, deadlines) && id in deadlines
    requires DeadlinesAtMost(sorted, deadlines, t) && deadlines[id].time <= t
    ensures DeadlinesAtMost(InsertByDeadline(sorted, id, deadlines), deadlines, t)
  {
    var r := InsertByDeadline(sorted, id, deadlines);
    forall i | 0 <= i < |r| ensures deadlines[r[i]].time <= t {
      assert r[i] in multiset(r);
      if r[i] != id {
        assert r[i] in multiset(sorted);
        var k :| 0 <= k < |sorted| && sorted[k] == r[i];
      }
    }
  }

  lemma {:induction false} InsertByDeadlineSorted(sorted: seq<JobId>, id: JobId, deadlines: map<JobId, Deadline>)
    requires HasDeadlines(sorted, deadlines) && id in deadlines && ByDeadline(sorted, deadlines)
    ensures ByDeadline(InsertByDeadline(sorted, id, deadlines), deadlines)
  {
    if sorted != [] {
      var n := |sorted| - 1;
      var init, last := sorted[..n], sorted[n];
      assert forall i | 0 <= i < n :: init[i] == sorted[i];
      if deadlines[last].time > deadlines[id].time {
        InsertByDeadlineSorted(init, id, deadlines);
        InsertByDeadlineBounded(init, id, deadlines, deadlines[last].time);
        AppendByDeadline(InsertByDeadline(init, id, deadlines), last, deadlines);
      } else {
        AppendByDeadline(sorted, id, deadlines);
      }
    }
  }

  /** The sorted jobs are ascending by deadline and a rearrangement of the input. */
  lemma {:induction false} SortByDeadlineSorts(ids: seq<JobId>, deadlines: map<JobId, Deadline>)
    requires HasDeadlines(ids, deadlines)
    ensures ByDeadline(SortByDeadline(ids, deadlines), deadlines)
    ensures multiset(SortByDeadline(ids, deadlines)) == multiset(ids)
  {
    if ids != [] {
      var n := |ids| - 1;
      SortByDeadlineSorts(ids[..n], deadlines);
      InsertByDeadlineSorted(SortByDeadline(ids[..n], deadlines), ids[n], deadlines);
    }
  }

  /** Membership survives rearrangement. */
  lemma KnownRearranged(a: seq<JobId>, b: seq<JobId>, jobs: map<JobId, Window>, deadlines: map<JobId, Deadline>)
    requires Known(a, jobs, deadlines) && multiset(a) == multiset(b)
    ensures Known(b, jobs, deadlines)
  {
    forall k | 0 <= k < |b| ensures b[k] in jobs && b[k] in deadlines {
      assert b[k] in multiset(a);
    }
  }

  // ---------------------------------------------------------------------
  // Seeds
  // ---------------------------------------------------------------------

  /** The seed entry: it records the secondary deadline but measures its delay against the primary one. */
  function Seed(job: JobId, jobs: map<JobId, Window>, primary: map<JobId, Deadline>,
                secondary: map<JobId, Deadline>, rFactor: real): Entry
    requires job in jobs && job in primary && job in secondary
  {
    var pt := ProcessTime(jobs[job], rFactor);
    Entry(job, 0.0, pt, pt, secondary[job].time, pt - primary[job].time,
          (pt - primary[job].time) * primary[job].probability, pt * 2.0)
  }

  /** A seed's delay is its finish minus its recorded deadline exactly when the two deadlines agree. */
  lemma SeedDelayAgainstPrimary(job: JobId, jobs: map<JobId, Window>, primary: map<JobId, Deadline>,
                                secondary: map<JobId, Deadline>, rFactor: real)
    requires job in jobs && job in primary && job in secondary
    ensures var e := Seed(job, jobs, primary, secondary, rFactor);
      e.start == 0.0 && e.finish == e.processTime && e.returnTime == 2.0 * e.processTime &&
      (e.delay == e.finish - e.deadline <==> primary[job].time == secondary[job].time)
  {
  }

  /** Vehicle `i` starts with the seed of the `i`-th sorted job. */
  function Seeds(sorted: seq<JobId>, count: nat, jobs: map<JobId, Window>, primary: map<JobId, Deadline>,
                 secondary: map<JobId, Deadline>, rFactor: real): (agvs: Ledger)
    requires count <= |sorted| && Known(sorted, jobs, primary) && HasDeadlines(sorted, secondary)
    ensures |agvs| == count
  {
    seq(count, i requires 0 <= i < count => [Seed(sorted[i], jobs, primary, secondary, rFactor)])
  }

  /** The seeded ledger carries the first `count` sorted jobs, one per vehicle, chained trivially. */
  lemma {:induction false} SeedsCarryFirstJobs(sorted: seq<JobId>, count: nat, jobs: map<JobId, Window>,
                                               primary: map<JobId, Deadline>, secondary: map<JobId, Deadline>,
                                               rFactor: real)
    requires count <= |sorted| && Known(sorted, jobs, primary) && HasDeadlines(sorted, secondary)
    ensures var agvs := Seeds(sorted, count, jobs, primary, secondary, rFactor);
      Busy(agvs) && Chained(agvs) && LedgerJobs(agvs) == multiset(sorted[..count])
  {
    var agvs: Ledger := Seeds(sorted, count, jobs, primary, secondary, rFactor);
    assert forall v | 0 <= v < count :: |agvs[v]| == 1 && agvs[v][0].job == sorted[..count][v];
    SingletonLedgerJobs(agvs, sorted[..count]);
  }

  lemma SingletonEntryJobs(es: seq<Entry>)
    requires |es| == 1
    ensures EntryJobs(es) == multiset{es[0].job}
  {
    assert es[..0] == [];
  }

  /** A ledger of one entry per vehicle carries exactly those entries' jobs. */
  lemma {:induction false} SingletonLedgerJobs(agvs: Ledger, ids: seq<JobId>)
    requires |agvs| == |ids|
    requires forall v | 0 <= v < |agvs| :: |agvs[v]| == 1 && agvs[v][0].job == ids[v]
    ensures LedgerJobs(agvs) == multiset(ids)
  {
    if agvs != [] {
      var n := |agvs| - 1;
      SingletonLedgerJobs(agvs[..n], ids[..n]);
      assert LedgerJobs(agvs) == LedgerJobs(agvs[..n]) + EntryJobs(agvs[n]);
      SingletonEntryJobs(agvs[n]);
      assert ids == ids[..n] + [ids[n]];
      assert multiset(ids) == multiset(ids[..n]) + multiset{ids[n]};
    }
  }

  // ---------------------------------------------------------------------
  // Batches
  // ---------------------------------------------------------------------

  /** A non-negative slice bound clamped to the length `n`. */
  function Clamp(i: nat, n: nat): nat {
    if i < n then i else n
  }

  /** `s.slice(start, end)` for non-negative bounds: both are clamped to the length. */
  function Slice(s: seq<JobId>, start: nat, end: nat): seq<JobId> {
    var a, b := Clamp(start, |s|), Clamp(end, |s|);
    if a <= b then s[a..b] else []
  }

  lemma SliceClamps(s: seq<JobId>, start: nat, end: nat)
    requires start <= end
    ensures Slice(s, start, end) == s[Clamp(start, |s|)..Clamp(end, |s|)]
  {
  }

  /** `Math.ceil((n - N) / P)`, and no batch when nothing is left after the seeds. */
  function IntervalCount(n: nat, nAgv: nat, pFactor: nat): nat
    requires nAgv < n ==> pFactor > 0
  {
    if n <= nAgv then 0 else (n - nAgv + pFactor - 1) / pFactor
  }

  /** `i * p`, by repeated addition. */
  function Stride(i: nat, p: nat): nat {
    if i == 0 then 0 else Stride(i - 1, p) + p
  }

  lemma {:induction false} StrideIsProduct(i: nat, p: nat)
    ensures Stride(i, p) == i * p
  {
    if i > 0 {
      StrideIsProduct(i - 1, p);
      assert i * p == (i - 1) * p + p;
    }
  }

  lemma {:induction false} StrideMonotone(i: nat, j: nat, p: nat)
    requires i <= j
    ensures Stride(i, p) <= Stride(j, p)
    decreases j
  {
    if i < j {
      StrideMonotone(i, j - 1, p);
    }
  }

  /** The batches `[N + iP, N + iP + P)` of the sorted jobs, for `i < count`. */
  function Intervals(sorted: seq<JobId>, nAgv: nat, pFactor: nat, count: nat): (r: seq<seq<JobId>>)
    ensures |r| == count
  {
    if count == 0 then []
    else
      var start := nAgv + Stride(count - 1, pFactor);
      Intervals(sorted, nAgv, pFactor, count - 1) + [Slice(sorted, start, start + pFactor)]
  }

  lemma {:induction false} IntervalAt(sorted: seq<JobId>, nAgv: nat, pFactor: nat, count: nat, i: nat)
    requires i < count
    ensures var start := nAgv + Stride(i, pFactor);
      Intervals(sorted, nAgv, pFactor, count)[i] == Slice(sorted, start, start + pFactor)
  {
    if i < count - 1 {
      IntervalAt(sorted, nAgv, pFactor, count - 1, i);
    }
  }

  function Flatten(batches: seq<seq<JobId>>): seq<JobId> {
    FlattenTo(batches, |batches|)
  }

  /** The first `k` batches, joined in order. */
  function FlattenTo(batches: seq<seq<JobId>>, k: nat): seq<JobId>
    requires k <= |batches|
  {
    if k == 0 then [] else FlattenTo(batches, k - 1) + batches[k - 1]
  }

  lemma {:induction false} FlattenToPrefix(bs: seq<seq<JobId>>, m: nat, k: nat)
    requires k <= m <= |bs|
    ensures FlattenTo(bs[..m], k) == FlattenTo(bs, k)
  {
    if k > 0 {
      FlattenToPrefix(bs, m, k - 1);
      assert bs[..m][k - 1] == bs[k - 1];
    }
  }

  /** Joining the batches is joining all but the last, then the last. */
  lemma FlattenLast(bs: seq<seq<JobId>>)
    requires bs != []
    ensures Flatten(bs) == Flatten(bs[..|bs| - 1]) + bs[|bs| - 1]
  {
    FlattenToPrefix(bs, |bs| - 1, |bs| - 1);
  }

  lemma CeilingBounds(m: nat, p: nat)
    requires m > 0 && p > 0
    ensures var c := (m + p - 1) / p; c >= 1 && (c - 1) * p < m <= c * p
  {
    var c := (m + p - 1) / p;
    var rest := (m + p - 1) % p;
    assert m + p - 1 == c * p + rest;
    assert (c - 1) * p == c * p - p;
  }

  lemma MultiplyMonotone(i: nat, j: nat, p: nat)
    requires i <= j
    ensures i * p <= j * p
  {
    assert j * p == i * p + (j - i) * p;
  }

  lemma MultiplySuccessor(n: nat, b: nat)
    ensures (n + 1) * b == n * b + b
  {
  }

  /** The first `k` batches together are the jobs from the first after the seeds up to the `k`-th stride. */
  lemma {:induction false} IntervalsPrefix(sorted: seq<JobId>, nAgv: nat, pFactor: nat, k: nat)
    requires nAgv <= |sorted|
    ensures Flatten(Intervals(sorted, nAgv, pFactor, k)) == sorted[nAgv..Clamp(nAgv + Stride(k, pFactor), |sorted|)]
  {
    var bs := Intervals(sorted, nAgv, pFactor, k);
    forall i | 0 <= i < k ensures CutAt(sorted, nAgv, pFactor, bs, i) {
      IntervalAt(sorted, nAgv, pFactor, k, i);
    }
    SlicesPrefix(sorted, nAgv, pFactor, bs);
  }

  /** Batch `i` of `bs` is the slice at the `i`-th stride after the seeds. */
  ghost predicate CutAt(sorted: seq<JobId>, nAgv: nat, pFactor: nat, bs: seq<seq<JobId>>, i: nat)
    requires i < |bs|
  {
    bs[i] == Slice(sorted, nAgv + Stride(i, pFactor), nAgv + Stride(i, pFactor) + pFactor)
  }

  /** Batches cut at consecutive strides from `nAgv` flatten to one slice. */
  lemma SlicesPrefix(sorted: seq<JobId>, nAgv: nat, pFactor: nat, bs: seq<seq<JobId>>)
    requires nAgv <= |sorted|
    requires forall i | 0 <= i < |bs| :: CutAt(sorted, nAgv, pFactor, bs, i)
    ensures Flatten(bs) == sorted[nAgv..Clamp(nAgv + Stride(|bs|, pFactor), |sorted|)]
  {
    SlicesTo(sorted, nAgv, pFactor, bs, |bs|);
  }

  lemma {:induction false} SlicesTo(sorted: seq<JobId>, nAgv: nat, pFactor: nat, bs: seq<seq<JobId>>, k: nat)
    requires nAgv <= |sorted| && k <= |bs|
    requires forall i | 0 <= i < |bs| :: CutAt(sorted, nAgv, pFactor, bs, i)
    ensures FlattenTo(bs, k) == sorted[nAgv..Clamp(nAgv + Stride(k, pFactor), |sorted|)]
  {
    if k == 0 {
      assert sorted[nAgv..nAgv] == [];
    } else {
      SlicesTo(sorted, nAgv, pFactor, bs, k - 1);
      SlicesStep(sorted, nAgv, pFactor, bs, k);
    }
  }

  /** One more batch cut at the next stride extends the joined slice to that stride's end. */
  lemma SlicesStep(sorted: seq<JobId>, nAgv: nat, pFactor: nat, bs: seq<seq<JobId>>, k: nat)
    requires nAgv <= |sorted| && 0 < k <= |bs| && CutAt(sorted, nAgv, pFactor, bs, k - 1)
    requires FlattenTo(bs, k - 1) == sorted[nAgv..Clamp(nAgv + Stride(k - 1, pFactor), |sorted|)]
    ensures FlattenTo(bs, k) == sorted[nAgv..Clamp(nAgv + Stride(k, pFactor), |sorted|)]
  {
    var start := nAgv + Stride(k - 1, pFactor);
    var mid, hi := Clamp(start, |sorted|), Clamp(start + pFactor, |sorted|);
    assert bs[k - 1] == sorted[mid..hi];
    SliceAppend(sorted, nAgv, mid, hi);
  }

  /** A batch before the last starts inside the jobs and the last ends at or after their end. */
  lemma IntervalSize(sorted: seq<JobId>, nAgv: nat, pFactor: nat, count: nat, i: nat)
    requires nAgv < |sorted| && pFactor > 0 && i < count
    requires nAgv + Stride(count - 1, pFactor) < |sorted|
    ensures 1 <= |Intervals(sorted, nAgv, pFactor, count)[i]| <= pFactor
  {
    StrideMonotone(i, count - 1, pFactor);
    IntervalAt(sorted, nAgv, pFactor, count, i);
    SliceClamps(sorted, nAgv + Stride(i, pFactor), nAgv + Stride(i, pFactor) + pFactor);
  }

  /**
   * The batches split the jobs after the seeds in order: each holds between
   * one and `P` jobs, and together they are exactly the remaining jobs.
   */
  lemma IntervalsPartition(sorted: seq<JobId>, nAgv: nat, pFactor: nat)
    requires nAgv <= |sorted| && (nAgv < |sorted| ==> pFactor > 0)
    ensures var bs := Intervals(sorted, nAgv, pFactor, IntervalCount(|sorted|, nAgv, pFactor));
      Flatten(bs) == sorted[nAgv..] && forall i | 0 <= i < |bs| :: 1 <= |bs[i]| <= pFactor
  {
    var count := IntervalCount(|sorted|, nAgv, pFactor);
    var bs := Intervals(sorted, nAgv, pFactor, count);
    if nAgv < |sorted| {
      var m := |sorted| - nAgv;
      CeilingBounds(m, pFactor);
      StrideIsProduct(count, pFactor);
      StrideIsProduct(count - 1, pFactor);
      IntervalsPrefix(sorted, nAgv, pFactor, count);
      forall i | 0 <= i < count ensures 1 <= |bs[i]| <= pFactor {
        IntervalSize(sorted, nAgv, pFactor, count, i);
      }
    } else {
      assert sorted[nAgv..] == [];
    }
  }

  // ---------------------------------------------------------------------
  // Expansion
  // ---------------------------------------------------------------------

  /** Candidates that can be expanded: at least one vehicle, every one busy. */
  predicate Parents(cs: seq<Combination>) {
    forall k | 0 <= k < |cs| :: |cs[k].ledger| > 0 && Busy(cs[k].ledger)
  }

  lemma BestPermutationsAreParents(toAssign: seq<JobId>, prior: seq<JobId>, primary: map<JobId, Deadline>,
                                   agvs: Ledger, jobs: map<JobId, Window>, rFactor: real, bFactor: nat)
    requires |toAssign| >= 1 && Known(toAssign, jobs, primary) && |agvs| > 0 && Busy(agvs)
    ensures Parents(BestPermutations(toAssign, prior, primary, agvs, jobs, rFactor, bFactor))
  {
    var r := BestPermutations(toAssign, prior, primary, agvs, jobs, rFactor, bFactor);
    forall k | 0 <= k < |r| ensures |r[k].ledger| > 0 && Busy(r[k].ledger) {
      ChildShape(toAssign, prior, primary, agvs, jobs, rFactor, bFactor, r[k]);
    }
  }

  /** What a candidate's child inherits: its order extended by a rearranged batch, and its ledger extended by exactly those jobs. */
  ghost predicate ChildOf(c: Combination, toAssign: seq<JobId>, prior: seq<JobId>, agvs: Ledger) {
    exists perm: seq<JobId> | multiset(perm) == multiset(toAssign) ::
      c.jobOrder == prior + perm && LedgerJobs(c.ledger) == LedgerJobs(agvs) + multiset(perm) &&
      |c.ledger| == |agvs| && Busy(c.ledger) &&
      (forall u | 0 <= u < |agvs| :: |agvs[u]| <= |c.ledger[u]| && c.ledger[u][..|agvs[u]|] == agvs[u]) &&
      (Chained(agvs) ==> Chained(c.ledger))
  }

  /** Every candidate of a permutation runs it on top of the given ledger. */
  lemma EvaluationIsChild(toAssign: seq<JobId>, prior: seq<JobId>, primary: map<JobId, Deadline>,
                          agvs: Ledger, jobs: map<JobId, Window>, rFactor: real, c: Combination)
    requires |toAssign| >= 1 && |agvs| > 0 && Busy(agvs) && AllKnown(Permutations(toAssign), jobs, primary)
    requires c in Evaluations(Permutations(toAssign), prior, agvs, jobs, primary, rFactor)
    ensures ChildOf(c, toAssign, prior, agvs)
  {
    var perms := Permutations(toAssign);
    var evals := Evaluations(perms, prior, agvs, jobs, primary, rFactor);
    var k :| 0 <= k < |evals| && evals[k] == c;
    PermutationsRearrange(toAssign, perms[k]);
    EvaluateIsChild(perms[k], toAssign, prior, primary, agvs, jobs, rFactor);
  }

  lemma EvaluateIsChild(perm: seq<JobId>, toAssign: seq<JobId>, prior: seq<JobId>, primary: map<JobId, Deadline>,
                        agvs: Ledger, jobs: map<JobId, Window>, rFactor: real)
    requires |agvs| > 0 && Busy(agvs) && Known(perm, jobs, primary) && multiset(perm) == multiset(toAssign)
    ensures ChildOf(Evaluate(perm, prior, agvs, jobs, primary, rFactor), toAssign, prior, agvs)
  {
    EvaluateFacts(perm, prior, agvs, jobs, primary, rFactor);
  }

  /** Every child of a candidate runs one permutation of the batch on top of the candidate's own ledger. */
  lemma ChildShape(toAssign: seq<JobId>, prior: seq<JobId>, primary: map<JobId, Deadline>,
                   agvs: Ledger, jobs: map<JobId, Window>, rFactor: real, bFactor: nat, c: Combination)
    requires |toAssign| >= 1 && Known(toAssign, jobs, primary) && |agvs| > 0 && Busy(agvs)
    requires c in BestPermutations(toAssign, prior, primary, agvs, jobs, rFactor, bFactor)
    ensures ChildOf(c, toAssign, prior, agvs)
  {
    BestPermutationsNoWorseThanFirst(toAssign, prior, primary, agvs, jobs, rFactor, bFactor, c);
    EvaluationIsChild(toAssign, prior, primary, agvs, jobs, rFactor, c);
  }

  /** Every parent in turn passes on its own best children; the lists are concatenated. */
  function Expand(parents: seq<Combination>, interval: seq<JobId>, primary: map<JobId, Deadline>,
                  jobs: map<JobId, Window>, rFactor: real, bFactor: nat): (r: seq<Combination>)
    requires |interval| >= 1 && Known(interval, jobs, primary) && Parents(parents)
    ensures Parents(r)
  {
    if parents == [] then []
    else
      var n := |parents| - 1;
      var p := parents[n];
      BestPermutationsAreParents(interval, p.jobOrder, primary, p.ledger, jobs, rFactor, bFactor);
      Expand(parents[..n], interval, primary, jobs, rFactor, bFactor) +
        BestPermutations(interval, p.jobOrder, primary, p.ledger, jobs, rFactor, bFactor)
  }

  /** The candidates after each batch: the first expands the seeds, every later one the previous candidates. */
  function Schedule(intervals: seq<seq<JobId>>, seedOrder: seq<JobId>, seeds: Ledger, primary: map<JobId, Deadline>,
                    jobs: map<JobId, Window>, rFactor: real, bFactor: nat): (r: seq<Combination>)
    requires |seeds| > 0 && Busy(seeds)
    requires Batches(intervals, jobs, primary)
    ensures Parents(r)
  {
    if intervals == [] then []
    else if |intervals| == 1 then
      BestPermutationsAreParents(intervals[0], seedOrder, primary, seeds, jobs, rFactor, bFactor);
      BestPermutations(intervals[0], seedOrder, primary, seeds, jobs, rFactor, bFactor)
    else
      var n := |intervals| - 1;
      Expand(Schedule(intervals[..n], seedOrder, seeds, primary, jobs, rFactor, bFactor), intervals[n], primary, jobs, rFactor, bFactor)
  }

  /** The result of `robustSchedule`. */
  function RobustCandidates(ids: seq<JobId>, jobs: map<JobId, Window>, primary: map<JobId, Deadline>,
                            secondary: map<JobId, Deadline>, nAgv: nat, rFactor: real, pFactor: nat,
                            bFactor: nat): seq<Combination>
    requires Known(ids, jobs, primary) && HasDeadlines(ids, secondary)
    requires nAgv <= |ids| && (nAgv < |ids| ==> nAgv >= 1 && pFactor >= 1)
  {
    var sorted := SortByDeadline(ids, secondary);
    KnownRearranged(ids, sorted, jobs, primary);
    var count := IntervalCount(|ids|, nAgv, pFactor);
    if count == 0 then []
    else
      var intervals := Intervals(sorted, nAgv, pFactor, count);
      IntervalsKnown(sorted, nAgv, pFactor, count, jobs, primary);
      SeedsCarryFirstJobs(sorted, nAgv, jobs, primary, secondary, rFactor);
      Schedule(intervals, sorted[..nAgv], Seeds(sorted, nAgv, jobs, primary, secondary, rFactor), primary, jobs, rFactor, bFactor)
  }

  lemma IntervalsKnown(sorted: seq<JobId>, nAgv: nat, pFactor: nat, count: nat,
                       jobs: map<JobId, Window>, primary: map<JobId, Deadline>)
    requires nAgv <= |sorted| && (nAgv < |sorted| ==> pFactor > 0) && Known(sorted, jobs, primary)
    requires count == IntervalCount(|sorted|, nAgv, pFactor)
    ensures Batches(Intervals(sorted, nAgv, pFactor, count), jobs, primary)
  {
    IntervalsPartition(sorted, nAgv, pFactor);
    var bs := Intervals(sorted, nAgv, pFactor, count);
    forall k | 0 <= k < count ensures Known(bs[k], jobs, primary) {
      var start := nAgv + Stride(k, pFactor);
      IntervalAt(sorted, nAgv, pFactor, count, k);
      SliceKnown(sorted, start, start + pFactor, jobs, primary);
    }
    BatchesOf(bs, jobs, primary);
  }

  /** Every batch is non-empty and has only known jobs. */
  predicate Batches(intervals: seq<seq<JobId>>, jobs: map<JobId, Window>, primary: map<JobId, Deadline>) {
    |intervals| == 0 ||
    (Batches(intervals[..|intervals| - 1], jobs, primary) &&
     |intervals[|intervals| - 1]| >= 1 && Known(intervals[|intervals| - 1], jobs, primary))
  }

  /** Every prefix of the batches is again batches, and each batch is non-empty and known. */
  /** The schedule of one more batch: the first batch's best permutations, or the expansion of the schedule so far. */
  lemma ScheduleStep(intervals: seq<seq<JobId>>, k: nat, seedOrder: seq<JobId>, seeds: Ledger,
                     primary: map<JobId, Deadline>, jobs: map<JobId, Window>, rFactor: real, bFactor: nat)
    requires |seeds| > 0 && Busy(seeds) && Batches(intervals, jobs, primary) && k < |intervals|
    ensures Batches(intervals[..k], jobs, primary) && Batches(intervals[..k + 1], jobs, primary)
    ensures |intervals[k]| >= 1 && Known(intervals[k], jobs, primary)
    ensures Schedule(intervals[..k + 1], seedOrder, seeds, primary, jobs, rFactor, bFactor) ==
      if k == 0 then BestPermutations(intervals[k], seedOrder, primary, seeds, jobs, rFactor, bFactor)
      else Expand(Schedule(intervals[..k], seedOrder, seeds, primary, jobs, rFactor, bFactor), intervals[k], primary, jobs, rFactor, bFactor)
  {
    BatchesPrefix(intervals, k, jobs, primary);
    BatchesPrefix(intervals, k + 1, jobs, primary);
    assert intervals[..k + 1][..k] == intervals[..k];
    assert intervals[..k + 1][k] == intervals[k];
  }

  lemma {:induction false} BatchesPrefix(intervals: seq<seq<JobId>>, k: nat, jobs: map<JobId, Window>,
                                         primary: map<JobId, Deadline>)
    requires Batches(intervals, jobs, primary) && k <= |intervals|
    ensures Batches(intervals[..k], jobs, primary)
    ensures k < |intervals| ==> |intervals[k]| >= 1 && Known(intervals[k], jobs, primary)
    decreases |intervals|
  {
    if k == |intervals| {
      assert intervals[..k] == intervals;
    } else {
      var n := |intervals| - 1;
      if k < n {
        BatchesPrefix(intervals[..n], k, jobs, primary);
        assert intervals[..n][..k] == intervals[..k];
      }
    }
  }

  lemma {:induction false} BatchesOf(intervals: seq<seq<JobId>>, jobs: map<JobId, Window>, primary: map<JobId, Deadline>)
    requires forall k | 0 <= k < |intervals| :: |intervals[k]| >= 1 && Known(intervals[k], jobs, primary)
    ensures Batches(intervals, jobs, primary)
  {
    if |intervals| > 0 {
      var n := |intervals| - 1;
      assert forall k | 0 <= k < n :: intervals[..n][k] == intervals[k];
      BatchesOf(intervals[..n], jobs, primary);
    }
  }

  lemma SliceKnown(s: seq<JobId>, start: nat, end: nat, jobs: map<JobId, Window>, primary: map<JobId, Deadline>)
    requires Known(s, jobs, primary)
    ensures Known(Slice(s, start, end), jobs, primary)
  {
    var a, b := Clamp(start, |s|), Clamp(end, |s|);
    if a <= b {
      forall i | 0 <= i < b - a ensures s[a..b][i] in jobs && s[a..b][i] in primary {
        assert s[a..b][i] == s[a + i];
      }
    }
  }

  // ---------------------------------------------------------------------
  // Properties
  // ---------------------------------------------------------------------

  /** A candidate list of `parents` grows by at most `bFactor` children per parent. */
  lemma {:induction false} ExpandWithinBeam(parents: seq<Combination>, interval: seq<JobId>, primary: map<JobId, Deadline>,
                                            jobs: map<JobId, Window>, rFactor: real, bFactor: nat)
    requires |interval| >= 1 && Known(interval, jobs, primary) && Parents(parents)
    ensures |Expand(parents, interval, primary, jobs, rFactor, bFactor)| <= |parents| * bFactor
  {
    if parents != [] {
      var n := |parents| - 1;
      var p := parents[n];
      ExpandWithinBeam(parents[..n], interval, primary, jobs, rFactor, bFactor);
      BestPermutationsRankedWithinBeam(interval, p.jobOrder, primary, p.ledger, jobs, rFactor, bFactor);
      MultiplySuccessor(n, bFactor);
    }
  }

  /** `c` is one of the best permutations of the batch run on top of candidate `p`. */
  ghost predicate Begets(p: Combination, c: Combination, interval: seq<JobId>, primary: map<JobId, Deadline>,
                         jobs: map<JobId, Window>, rFactor: real, bFactor: nat) {
    |interval| >= 1 && Known(interval, jobs, primary) && |p.ledger| > 0 && Busy(p.ledger) &&
    c in BestPermutations(interval, p.jobOrder, primary, p.ledger, jobs, rFactor, bFactor)
  }

  /** The expansion is that of all parents but the last followed by the last parent's best permutations. */
  lemma ExpandLast(parents: seq<Combination>, interval: seq<JobId>, primary: map<JobId, Deadline>,
                   jobs: map<JobId, Window>, rFactor: real, bFactor: nat)
    requires |interval| >= 1 && Known(interval, jobs, primary) && Parents(parents) && parents != []
    ensures Parents(parents[..|parents| - 1])
    ensures var p := parents[|parents| - 1];
            Expand(parents, interval, primary, jobs, rFactor, bFactor)
            == Expand(parents[..|parents| - 1], interval, primary, jobs, rFactor, bFactor)
               + BestPermutations(interval, p.jobOrder, primary, p.ledger, jobs, rFactor, bFactor)
  {
  }

  /** Every child in the expansion comes from some parent. */
  lemma {:induction false} ExpandChildrenHaveParent(parents: seq<Combination>, interval: seq<JobId>,
                                                    primary: map<JobId, Deadline>, jobs: map<JobId, Window>,
                                                    rFactor: real, bFactor: nat, c: Combination)
    requires |interval| >= 1 && Known(interval, jobs, primary) && Parents(parents)
    requires c in Expand(parents, interval, primary, jobs, rFactor, bFactor)
    ensures exists k | 0 <= k < |parents| :: Begets(parents[k], c, interval, primary, jobs, rFactor, bFactor)
  {
    var n := |parents| - 1;
    var init := parents[..n];
    var p := parents[n];
    var own := BestPermutations(interval, p.jobOrder, primary, p.ledger, jobs, rFactor, bFactor);
    ExpandLast(parents, interval, primary, jobs, rFactor, bFactor);
    InConcat(Expand(init, interval, primary, jobs, rFactor, bFactor), own, c);
    if c in own {
      assert Begets(parents[n], c, interval, primary, jobs, rFactor, bFactor);
    } else {
      ExpandChildrenHaveParent(init, interval, primary, jobs, rFactor, bFactor, c);
      var k :| 0 <= k < n && Begets(init[k], c, interval, primary, jobs, rFactor, bFactor);
      assert init[k] == parents[k];
    }
  }

  /** The last parent's children are in the expansion. */
  lemma ExpandKeepsLastChildren(parents: seq<Combination>, interval: seq<JobId>,
                                primary: map<JobId, Deadline>, jobs: map<JobId, Window>,
                                rFactor: real, bFactor: nat, k: nat, c: Combination)
    requires |interval| >= 1 && Known(interval, jobs, primary) && Parents(parents)
    requires k == |parents| - 1 && Begets(parents[k], c, interval, primary, jobs, rFactor, bFactor)
    ensures c in Expand(parents, interval, primary, jobs, rFactor, bFactor)
  {
    var p := parents[|parents| - 1];
    ExpandLast(parents, interval, primary, jobs, rFactor, bFactor);
    InConcat(Expand(parents[..|parents| - 1], interval, primary, jobs, rFactor, bFactor),
             BestPermutations(interval, p.jobOrder, primary, p.ledger, jobs, rFactor, bFactor), c);
  }

  /** Every child of every parent is in the expansion. */
  lemma {:induction false} ExpandKeepsChildren(parents: seq<Combination>, interval: seq<JobId>,
                                               primary: map<JobId, Deadline>, jobs: map<JobId, Window>,
                                               rFactor: real, bFactor: nat, k: nat, c: Combination)
    requires |interval| >= 1 && Known(interval, jobs, primary) && Parents(parents)
    requires k < |parents| && Begets(parents[k], c, interval, primary, jobs, rFactor, bFactor)
    ensures c in Expand(parents, interval, primary, jobs, rFactor, bFactor)
  {
    var n := |parents| - 1;
    if k < n {
      var init := parents[..n];
      var p := parents[n];
      ExpandLast(parents, interval, primary, jobs, rFactor, bFactor);
      assert init[k] == parents[k];
      ExpandKeepsChildren(init, interval, primary, jobs, rFactor, bFactor, k, c);
      InConcat(Expand(init, interval, primary, jobs, rFactor, bFactor),
               BestPermutations(interval, p.jobOrder, primary, p.ledger, jobs, rFactor, bFactor), c);
    } else {
      ExpandKeepsLastChildren(parents, interval, primary, jobs, rFactor, bFactor, k, c);
    }
  }

  /** Each parent's children are exactly its own best permutations of the batch. */
  lemma ExpandChildren(parents: seq<Combination>, interval: seq<JobId>, primary: map<JobId, Deadline>,
                       jobs: map<JobId, Window>, rFactor: real, bFactor: nat, c: Combination)
    requires |interval| >= 1 && Known(interval, jobs, primary) && Parents(parents)
    ensures c in Expand(parents, interval, primary, jobs, rFactor, bFactor) <==>
      exists k | 0 <= k < |parents| :: Begets(parents[k], c, interval, primary, jobs, rFactor, bFactor)
  {
    if c in Expand(parents, interval, primary, jobs, rFactor, bFactor) {
      ExpandChildrenHaveParent(parents, interval, primary, jobs, rFactor, bFactor, c);
    }
    if exists k | 0 <= k < |parents| :: Begets(parents[k], c, interval, primary, jobs, rFactor, bFactor) {
      var k :| 0 <= k < |parents| && Begets(parents[k], c, interval, primary, jobs, rFactor, bFactor);
      ExpandKeepsChildren(parents, interval, primary, jobs, rFactor, bFactor, k, c);
    }
  }

  function Power(b: nat, e: nat): nat {
    if e == 0 then 1 else Power(b, e - 1) * b
  }

  /** A beam of at most `b` children per parent grows a bound `b^e` on the parents to `b^(e+1)`. */
  lemma BeamBound(size: nat, before: nat, b: nat, e: nat)
    requires size <= before * b && before <= Power(b, e)
    ensures size <= Power(b, e + 1)
  {
    MultiplyMonotone(before, Power(b, e), b);
  }

  /** After `k` batches at most `B^k` candidates remain. */
  lemma {:induction false} ScheduleWithinBeam(intervals: seq<seq<JobId>>, seedOrder: seq<JobId>, seeds: Ledger,
                                              primary: map<JobId, Deadline>, jobs: map<JobId, Window>,
                                              rFactor: real, bFactor: nat)
    requires |seeds| > 0 && Busy(seeds)
    requires Batches(intervals, jobs, primary)
    ensures |Schedule(intervals, seedOrder, seeds, primary, jobs, rFactor, bFactor)| <= Power(bFactor, |intervals|)
  {
    if |intervals| == 1 {
      ScheduleFirstWithinBeam(intervals, seedOrder, seeds, primary, jobs, rFactor, bFactor);
    } else if |intervals| > 1 {
      var n := |intervals| - 1;
      ScheduleWithinBeam(intervals[..n], seedOrder, seeds, primary, jobs, rFactor, bFactor);
      ScheduleStepWithinBeam(intervals, seedOrder, seeds, primary, jobs, rFactor, bFactor);
    }
  }

  lemma ScheduleFirstWithinBeam(intervals: seq<seq<JobId>>, seedOrder: seq<JobId>, seeds: Ledger,
                                primary: map<JobId, Deadline>, jobs: map<JobId, Window>, rFactor: real, bFactor: nat)
    requires |seeds| > 0 && Busy(seeds) && |intervals| == 1
    requires |intervals[0]| >= 1 && Known(intervals[0], jobs, primary)
    ensures |Schedule(intervals, seedOrder, seeds, primary, jobs, rFactor, bFactor)| <= Power(bFactor, 1)
  {
    BestPermutationsRankedWithinBeam(intervals[0], seedOrder, primary, seeds, jobs, rFactor, bFactor);
  }

  lemma ScheduleStepWithinBeam(intervals: seq<seq<JobId>>, seedOrder: seq<JobId>, seeds: Ledger,
                               primary: map<JobId, Deadline>, jobs: map<JobId, Window>, rFactor: real, bFactor: nat)
    requires |seeds| > 0 && Busy(seeds) && |intervals| > 1
    requires Batches(intervals, jobs, primary)
    requires var n := |intervals| - 1;
      |Schedule(intervals[..n], seedOrder, seeds, primary, jobs, rFactor, bFactor)| <= Power(bFactor, n)
    ensures |Schedule(intervals, seedOrder, seeds, primary, jobs, rFactor, bFactor)| <= Power(bFactor, |intervals|)
  {
    var n := |intervals| - 1;
    var before := Schedule(intervals[..n], seedOrder, seeds, primary, jobs, rFactor, bFactor);
    ExpandWithinBeam(before, intervals[n], primary, jobs, rFactor, bFactor);
    BeamBound(|Expand(before, intervals[n], primary, jobs, rFactor, bFactor)|, |before|, bFactor, n);
  }

  /**
   * A candidate's ledger carries each job of its order exactly once, every
   * vehicle still begins with its seed and its entries are chained.
   */
  ghost predicate Sound(c: Combination, order: seq<JobId>, seeds: Ledger) {
    multiset(c.jobOrder) == multiset(order) && LedgerJobs(c.ledger) == multiset(c.jobOrder) &&
    |c.ledger| == |seeds| && Busy(c.ledger) && Chained(c.ledger) &&
    forall v | 0 <= v < |seeds| && seeds[v] != [] :: c.ledger[v][0] == seeds[v][0]
  }

  lemma ChildSound(parent: Combination, order: seq<JobId>, seeds: Ledger, interval: seq<JobId>,
                   primary: map<JobId, Deadline>, jobs: map<JobId, Window>, rFactor: real, bFactor: nat, c: Combination)
    requires Sound(parent, order, seeds) && |seeds| > 0
    requires |interval| >= 1 && Known(interval, jobs, primary)
    requires c in BestPermutations(interval, parent.jobOrder, primary, parent.ledger, jobs, rFactor, bFactor)
    ensures Sound(c, order + interval, seeds)
  {
    ChildShape(interval, parent.jobOrder, primary, parent.ledger, jobs, rFactor, bFactor, c);
    var perm :| multiset(perm) == multiset(interval) &&
      c.jobOrder == parent.jobOrder + perm && LedgerJobs(c.ledger) == LedgerJobs(parent.ledger) + multiset(perm) &&
      |c.ledger| == |parent.ledger| && Busy(c.ledger) &&
      (forall u | 0 <= u < |parent.ledger| :: |parent.ledger[u]| <= |c.ledger[u]| && c.ledger[u][..|parent.ledger[u]|] == parent.ledger[u]) &&
      (Chained(parent.ledger) ==> Chained(c.ledger));
    forall v | 0 <= v < |seeds| && seeds[v] != [] ensures c.ledger[v][0] == seeds[v][0] {
      assert c.ledger[v][..|parent.ledger[v]|][0] == parent.ledger[v][0];
    }
  }

  /** The first batch expands the seeds themselves. */
  lemma FirstBatchSound(interval: seq<JobId>, seedOrder: seq<JobId>, seeds: Ledger,
                        primary: map<JobId, Deadline>, jobs: map<JobId, Window>,
                        rFactor: real, bFactor: nat, c: Combination)
    requires |seeds| > 0 && Busy(seeds) && Chained(seeds) && LedgerJobs(seeds) == multiset(seedOrder)
    requires |interval| >= 1 && Known(interval, jobs, primary)
    requires c in BestPermutations(interval, seedOrder, primary, seeds, jobs, rFactor, bFactor)
    ensures Sound(c, seedOrder + Flatten([interval]), seeds)
  {
    var seedsCandidate := Combination(seedOrder, seeds, 0.0, 0.0, 0.0);
    assert Sound(seedsCandidate, seedOrder, seeds);
    ChildSound(seedsCandidate, seedOrder, seeds, interval, primary, jobs, rFactor, bFactor, c);
    FlattenOne(interval);
  }

  lemma FlattenOne(interval: seq<JobId>)
    ensures Flatten([interval]) == interval
  {
    assert FlattenTo([interval], 1) == FlattenTo([interval], 0) + interval;
  }

  /** A later batch expands a sound candidate of the batches before it. */
  lemma LaterBatchSound(intervals: seq<seq<JobId>>, seedOrder: seq<JobId>, seeds: Ledger,
                        primary: map<JobId, Deadline>, jobs: map<JobId, Window>,
                        rFactor: real, bFactor: nat, parent: Combination, c: Combination)
    requires |intervals| > 0 && |seeds| > 0
    requires Sound(parent, seedOrder + Flatten(intervals[..|intervals| - 1]), seeds)
    requires Begets(parent, c, intervals[|intervals| - 1], primary, jobs, rFactor, bFactor)
    ensures Sound(c, seedOrder + Flatten(intervals), seeds)
  {
    var n := |intervals| - 1;
    FlattenSnoc(seedOrder, intervals);
    ChildSound(parent, seedOrder + Flatten(intervals[..n]), seeds, intervals[n], primary, jobs, rFactor, bFactor, c);
  }

  lemma FlattenSnoc(seedOrder: seq<JobId>, intervals: seq<seq<JobId>>)
    requires |intervals| > 0
    ensures seedOrder + Flatten(intervals) == seedOrder + Flatten(intervals[..|intervals| - 1]) + intervals[|intervals| - 1]
  {
    var n := |intervals| - 1;
    FlattenLast(intervals);
    Associate(seedOrder, Flatten(intervals[..n]), intervals[n]);
  }

  lemma Associate(a: seq<JobId>, b: seq<JobId>, c: seq<JobId>)
    ensures a + (b + c) == a + b + c
  {
  }

  lemma {:induction false} ScheduleSound(intervals: seq<seq<JobId>>, seedOrder: seq<JobId>, seeds: Ledger,
                                         primary: map<JobId, Deadline>, jobs: map<JobId, Window>,
                                         rFactor: real, bFactor: nat, c: Combination)
    requires |seeds| > 0 && Busy(seeds) && Chained(seeds) && LedgerJobs(seeds) == multiset(seedOrder)
    requires Batches(intervals, jobs, primary)
    requires c in Schedule(intervals, seedOrder, seeds, primary, jobs, rFactor, bFactor)
    ensures Sound(c, seedOrder + Flatten(intervals), seeds)
  {
    if |intervals| == 1 {
      assert intervals == [intervals[0]];
      FirstBatchSound(intervals[0], seedOrder, seeds, primary, jobs, rFactor, bFactor, c);
    } else {
      var n := |intervals| - 1;
      var before := Schedule(intervals[..n], seedOrder, seeds, primary, jobs, rFactor, bFactor);
      ExpandChildren(before, intervals[n], primary, jobs, rFactor, bFactor, c);
      var k :| 0 <= k < |before| && Begets(before[k], c, intervals[n], primary, jobs, rFactor, bFactor);
      ScheduleSound(intervals[..n], seedOrder, seeds, primary, jobs, rFactor, bFactor, before[k]);
      LaterBatchSound(intervals, seedOrder, seeds, primary, jobs, rFactor, bFactor, before[k], c);
    }
  }

  /**
   * Every candidate of `robustSchedule` orders all the jobs, carries each of
   * them exactly once in its ledger, keeps on vehicle `v` the seed of the
   * `v`-th job by secondary deadline, and chains every vehicle's entries;
   * there are at most `B` to the number of batches of them.
   */
  lemma RobustScheduleAssignsEveryJobOnce(ids: seq<JobId>, jobs: map<JobId, Window>, primary: map<JobId, Deadline>,
                                          secondary: map<JobId, Deadline>, nAgv: nat, rFactor: real,
                                          pFactor: nat, bFactor: nat, c: Combination)
    requires Known(ids, jobs, primary) && HasDeadlines(ids, secondary)
    requires nAgv <= |ids| && (nAgv < |ids| ==> nAgv >= 1 && pFactor >= 1)
    requires c in RobustCandidates(ids, jobs, primary, secondary, nAgv, rFactor, pFactor, bFactor)
    ensures Known(SortByDeadline(ids, secondary), jobs, primary)
    ensures var sorted := SortByDeadline(ids, secondary);
      multiset(c.jobOrder) == multiset(ids) && LedgerJobs(c.ledger) == multiset(ids) &&
      |c.ledger| == nAgv && Busy(c.ledger) && Chained(c.ledger) &&
      forall v | 0 <= v < nAgv :: c.ledger[v][0] == Seed(sorted[v], jobs, primary, secondary, rFactor)
  {
    var sorted := SortByDeadline(ids, secondary);
    KnownRearranged(ids, sorted, jobs, primary);
    var count := IntervalCount(|ids|, nAgv, pFactor);
    var intervals := Intervals(sorted, nAgv, pFactor, count);
    IntervalsKnown(sorted, nAgv, pFactor, count, jobs, primary);
    IntervalsPartition(sorted, nAgv, pFactor);
    SeedsCarryFirstJobs(sorted, nAgv, jobs, primary, secondary, rFactor);
    var seeds := Seeds(sorted, nAgv, jobs, primary, secondary, rFactor);
    assert c in Schedule(intervals, sorted[..nAgv], seeds, primary, jobs, rFactor, bFactor);
    ScheduleSound(intervals, sorted[..nAgv], seeds, primary, jobs, rFactor, bFactor, c);
    SoundOverAllJobs(c, sorted, nAgv, Flatten(intervals), seeds);
  }

  lemma SoundOverAllJobs(c: Combination, sorted: seq<JobId>, nAgv: nat, rest: seq<JobId>, seeds: Ledger)
    requires nAgv <= |sorted| && rest == sorted[nAgv..] && Sound(c, sorted[..nAgv] + rest, seeds)
    ensures multiset(c.jobOrder) == multiset(sorted) && LedgerJobs(c.ledger) == multiset(sorted)
  {
    assert sorted[..nAgv] + rest == sorted;
  }

  lemma RobustScheduleWithinBeam(ids: seq<JobId>, jobs: map<JobId, Window>, primary: map<JobId, Deadline>,
                                 secondary: map<JobId, Deadline>, nAgv: nat, rFactor: real,
                                 pFactor: nat, bFactor: nat)
    requires Known(ids, jobs, primary) && HasDeadlines(ids, secondary)
    requires nAgv <= |ids| && (nAgv < |ids| ==> nAgv >= 1 && pFactor >= 1)
    ensures |RobustCandidates(ids, jobs, primary, secondary, nAgv, rFactor, pFactor, bFactor)|
      <= Power(bFactor, IntervalCount(|ids|, nAgv, pFactor))
  {
    var sorted := SortByDeadline(ids, secondary);
    KnownRearranged(ids, sorted, jobs, primary);
    var count := IntervalCount(|ids|, nAgv, pFactor);
    assert |sorted| == |ids|;
    if count > 0 {
      assert count == IntervalCount(|sorted|, nAgv, pFactor);
      var intervals := Intervals(sorted, nAgv, pFactor, count);
      var seeds := Seeds(sorted, nAgv, jobs, primary, secondary, rFactor);
      IntervalsKnown(sorted, nAgv, pFactor, count, jobs, primary);
      SeedsCarryFirstJobs(sorted, nAgv, jobs, primary, secondary, rFactor);
      ScheduleWithinBeam(intervals, sorted[..nAgv], seeds, primary, jobs, rFactor, bFactor);
    }
  }

  // ---------------------------------------------------------------------
  // The method
  // ---------------------------------------------------------------------

  /** One vehicle per seed job: vehicle `i` starts out carrying the `i`-th job by secondary deadline. */
  method SeedVehicles(sortedJobs: seq<JobId>, nAgv: nat, jobs: map<JobId, Window>,
                      deadlinesPrimary: map<JobId, Deadline>, deadlinesSecondary: map<JobId, Deadline>,
                      rFactor: real) returns (agvs: Ledger)
    requires nAgv <= |sortedJobs| && Known(sortedJobs, jobs, deadlinesPrimary) && HasDeadlines(sortedJobs, deadlinesSecondary)
    ensures agvs == Seeds(sortedJobs, nAgv, jobs, deadlinesPrimary, deadlinesSecondary, rFactor)
  {
    agvs := [];
    for i := 0 to nAgv
      invariant agvs == Seeds(sortedJobs, i, jobs, deadlinesPrimary, deadlinesSecondary, rFactor)
    {
      agvs := agvs + [[Seed(sortedJobs[i], jobs, deadlinesPrimary, deadlinesSecondary, rFactor)]];
    }
  }

  /** The remaining jobs cut into batches of `pFactor`. */
  method SplitIntervals(sortedJobs: seq<JobId>, nAgv: nat, pFactor: nat, nIntervals: nat)
    returns (intervalsToAssign: seq<seq<JobId>>)
    ensures intervalsToAssign == Intervals(sortedJobs, nAgv, pFactor, nIntervals)
  {
    intervalsToAssign := [];
    for i := 0 to nIntervals
      invariant intervalsToAssign == Intervals(sortedJobs, nAgv, pFactor, i)
    {
      var start := nAgv + i * pFactor;
      StrideIsProduct(i, pFactor);
      intervalsToAssign := intervalsToAssign + [Slice(sortedJobs, start, start + pFactor)];
    }
  }

  /** Every current candidate in turn runs the batch on top of its own ledger. */
  method ExpandCandidates(allCombinations: seq<Combination>, interval: seq<JobId>,
                          deadlinesPrimary: map<JobId, Deadline>, jobs: map<JobId, Window>,
                          rFactor: real, bFactor: nat) returns (runningCombinations: seq<Combination>)
    requires |interval| >= 1 && Known(interval, jobs, deadlinesPrimary) && Parents(allCombinations)
    ensures runningCombinations == Expand(allCombinations, interval, deadlinesPrimary, jobs, rFactor, bFactor)
  {
    runningCombinations := [];
    for c := 0 to |allCombinations|
      invariant runningCombinations == Expand(allCombinations[..c], interval, deadlinesPrimary, jobs, rFactor, bFactor)
    {
      assert allCombinations[..c + 1][..c] == allCombinations[..c];
      var combination := allCombinations[c];
      var generatedPermutations := RunPermutations(interval, combination.jobOrder, deadlinesPrimary,
                                                   combination.ledger, jobs, rFactor, bFactor);
      runningCombinations := runningCombinations + generatedPermutations;
    }
    assert allCombinations[..|allCombinations|] == allCombinations;
  }

  /** `robustSchedule`. */
  method RobustSchedule(ids: seq<JobId>, jobs: map<JobId, Window>, deadlinesPrimary: map<JobId, Deadline>,
                        deadlinesSecondary: map<JobId, Deadline>, nAgv: nat, rFactor: real, pFactor: nat,
                        bFactor: nat) returns (allCombinations: seq<Combination>)
    requires Known(ids, jobs, deadlinesPrimary) && HasDeadlines(ids, deadlinesSecondary)
    requires nAgv <= |ids| && (nAgv < |ids| ==> nAgv >= 1 && pFactor >= 1)
    ensures allCombinations == RobustCandidates(ids, jobs, deadlinesPrimary, deadlinesSecondary, nAgv, rFactor, pFactor, bFactor)
  {
    var sortedJobs := SortByDeadline(ids, deadlinesSecondary);
    KnownRearranged(ids, sortedJobs, jobs, deadlinesPrimary);
    var agvs := SeedVehicles(sortedJobs, nAgv, jobs, deadlinesPrimary, deadlinesSecondary, rFactor);
    var nIntervals := IntervalCount(|ids|, nAgv, pFactor);
    var intervalsToAssign := SplitIntervals(sortedJobs, nAgv, pFactor, nIntervals);
    allCombinations := [];
    if nIntervals == 0 {
      return;
    }
    IntervalsKnown(sortedJobs, nAgv, pFactor, nIntervals, jobs, deadlinesPrimary);
    SeedsCarryFirstJobs(sortedJobs, nAgv, jobs, deadlinesPrimary, deadlinesSecondary, rFactor);
    allCombinations := ScheduleBatches(intervalsToAssign, sortedJobs[..nAgv], agvs, deadlinesPrimary, jobs, rFactor, bFactor);
  }

  /** The first batch runs on the seeded ledger, every later one expands all current candidates. */
  method ScheduleBatches(intervalsToAssign: seq<seq<JobId>>, seedOrder: seq<JobId>, agvs: Ledger,
                         deadlinesPrimary: map<JobId, Deadline>, jobs: map<JobId, Window>, rFactor: real,
                         bFactor: nat) returns (allCombinations: seq<Combination>)
    requires |agvs| > 0 && Busy(agvs) && Batches(intervalsToAssign, jobs, deadlinesPrimary)
    ensures allCombinations == Schedule(intervalsToAssign, seedOrder, agvs, deadlinesPrimary, jobs, rFactor, bFactor)
  {
    allCombinations := [];
    for k := 0 to |intervalsToAssign|
      invariant Batches(intervalsToAssign[..k], jobs, deadlinesPrimary)
      invariant allCombinations == Schedule(intervalsToAssign[..k], seedOrder, agvs, deadlinesPrimary, jobs, rFactor, bFactor)
    {
      ScheduleStep(intervalsToAssign, k, seedOrder, agvs, deadlinesPrimary, jobs, rFactor, bFactor);
      if k == 0 {
        allCombinations := RunPermutations(intervalsToAssign[k], seedOrder, deadlinesPrimary, agvs, jobs, rFactor, bFactor);
      } else {
        allCombinations := ExpandCandidates(allCombinations, intervalsToAssign[k], deadlinesPrimary, jobs, rFactor, bFactor);
      }
    }
    assert intervalsToAssign[..|intervalsToAssign|] == intervalsToAssign;
  }
}
