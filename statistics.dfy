/**
 * Per-position frequency tables over the remaining sequences
 * (`analyzeSequences2`): for every position and operation name, how many of
 * the remaining sequences put that operation there, the share in percent,
 * the material flag, and at position 0 the expected finishing time.
 */
module Statistics {
  import opened Wrappers
  import opened Products

  /** One cell of `operationCounts[position][name]`. */
  datatype OperationCount = OperationCount(count: nat, percentage: real, neededMaterial: bool, finishingTime: Option<real>)

  type Table = map<string, OperationCount>

  /** Every sequence has at least `n` operations. */
  predicate AllLonger(seqs: seq<seq<Operation>>, n: nat) {
    forall s <- seqs :: n <= |s|
  }

  /**
   * `tiempo`: the planned operation's total time plus the job's last time, or
   * 0 when there is no planned operation or its total time is undefined.
   */
  function FinishingTime(planned: Option<Operation>, lastTime: real): (t: real)
    ensures planned.Some? && planned.value.totalTime.Some? ==> t == planned.value.totalTime.value + lastTime
    ensures planned.None? || planned.value.totalTime.None? ==> t == 0.0
  {
    match planned
    case Some(op) => (match op.totalTime case Some(total) => total + lastTime case None => 0.0)
    case None => 0.0
  }

  /** Sequence `s` has an operation called `name` at position `i`. */
  predicate HoldsAt(s: seq<Operation>, i: nat, name: string) {
    i < |s| && s[i].name == name
  }

  /** How many sequences hold an operation called `name` at position `i`. */
  function CountAt(seqs: seq<seq<Operation>>, i: nat, name: string): (c: nat)
    ensures c <= |seqs|
  {
    if seqs == [] then 0
    else CountAt(seqs[..|seqs| - 1], i, name) + (if HoldsAt(seqs[|seqs| - 1], i, name) then 1 else 0)
  }

  /** The names that occur at position `i`. */
  function NamesAt(seqs: seq<seq<Operation>>, i: nat): set<string>
  {
    if seqs == [] then {}
    else NamesAt(seqs[..|seqs| - 1], i) + (if i < |seqs[|seqs| - 1]| then {seqs[|seqs| - 1][i].name} else {})
  }

  /** The material flag of the LAST sequence that holds `name` at position `i` (it overwrites earlier ones). */
  function LastFlag(seqs: seq<seq<Operation>>, i: nat, name: string): bool
  {
    if seqs == [] then false
    else if HoldsAt(seqs[|seqs| - 1], i, name) then seqs[|seqs| - 1][i].materialRequired
    else LastFlag(seqs[..|seqs| - 1], i, name)
  }

  /** The count loop's body for one cell: create it if missing, count one more, overwrite the flag, stamp the time at position 0. */
  function Bump(t: Table, op: Operation, i: nat, tiempo: real): Table {
    var e := if op.name in t then t[op.name] else OperationCount(0, 0.0, false, None);
    t[op.name := e.(count := e.count + 1, neededMaterial := op.materialRequired,
                    finishingTime := if i == 0 then Some(tiempo) else e.finishingTime)]
  }

  /** The table of position `i` after counting `seqs` in order, before percentages are filled in. */
  function Tally(seqs: seq<seq<Operation>>, i: nat, tiempo: real): Table
  {
    if seqs == [] then map[]
    else
      var t, last := Tally(seqs[..|seqs| - 1], i, tiempo), seqs[|seqs| - 1];
      if i < |last| then Bump(t, last[i], i, tiempo) else t
  }

  /** What the tally holds: a cell per name present, with its count, the last flag, and the time at position 0 only. */
  lemma {:induction false} TallyCells(seqs: seq<seq<Operation>>, i: nat, tiempo: real, name: string)
    ensures name in Tally(seqs, i, tiempo) <==> name in NamesAt(seqs, i)
    ensures name in Tally(seqs, i, tiempo) ==>
      Tally(seqs, i, tiempo)[name] ==
        OperationCount(CountAt(seqs, i, name), 0.0, LastFlag(seqs, i, name), if i == 0 then Some(tiempo) else None)
  {
    if seqs != [] {
      var init := seqs[..|seqs| - 1];
      TallyCells(init, i, tiempo, name);
      if name !in NamesAt(init, i) {
        CountAtAbsent(init, i, name);
      }
    }
  }

  lemma CountAtAbsent(seqs: seq<seq<Operation>>, i: nat, name: string)
    requires name !in NamesAt(seqs, i)
    ensures CountAt(seqs, i, name) == 0
  {
    if seqs != [] {
      CountAtAbsent(seqs[..|seqs| - 1], i, name);
    }
  }

  /** Counting one more sequence is one `Bump` of the table. */
  lemma TallyStep(seqs: seq<seq<Operation>>, j: nat, i: nat, tiempo: real)
    requires j < |seqs| && i < |seqs[j]|
    ensures Tally(seqs[..j + 1], i, tiempo) == Bump(Tally(seqs[..j], i, tiempo), seqs[j][i], i, tiempo)
  {
    assert seqs[..j + 1][..j] == seqs[..j];
  }

  /** The share of each name, in percent of all sequences. */
  function Percentages(t: Table, total: nat): (r: Table)
    requires total > 0
    ensures r.Keys == t.Keys
  {
    map name | name in t :: t[name].(percentage := t[name].count as real / total as real * 100.0)
  }

  /** The positions `0 .. n-1`. */
  function Positions(n: nat): (r: set<nat>)
    ensures forall k: nat :: k in r <==> k < n
  {
    if n == 0 then {} else Positions(n - 1) + {n - 1}
  }

  /** `before` with positions `0 .. |tables|-1` replaced by `tables`; other positions are kept. */
  function Overlay(before: map<nat, Table>, tables: seq<Table>): (r: map<nat, Table>)
    ensures forall k: nat :: k in r <==> k in before || k < |tables|
  {
    map k | k in before.Keys + Positions(|tables|) :: if k < |tables| then tables[k] else before[k]
  }

  /** The fresh table of every position below the common length, percentages filled in. */
  function FreshTables(seqs: seq<seq<Operation>>, tiempo: real): (r: seq<Table>)
    requires |seqs| > 0
    ensures |r| == |seqs[0]|
  {
    seq(|seqs[0]|, k requires 0 <= k < |seqs[0]| => Percentages(Tally(seqs, k, tiempo), |seqs|))
  }

  /**
   * `operationCounts` after `analyzeSequences2`: positions below the common
   * length get fresh tables with percentages; every other position keeps its
   * old, stale table.
   */
  function AnalyzedCounts(seqs: seq<seq<Operation>>, tiempo: real, operationCounts: map<nat, Table>): map<nat, Table>
    requires |seqs| > 0
  {
    Overlay(operationCounts, FreshTables(seqs, tiempo))
  }

  /** The percentage loop over the names of one position (key order does not matter: each key is set on its own). */
  method FillPercentages(table: Table, totalSequences: nat) returns (r: Table)
    requires totalSequences > 0
    ensures r == Percentages(table, totalSequences)
  {
    r := table;
    var todo := table.Keys;
    while todo != {}
      invariant todo <= table.Keys && r.Keys == table.Keys
      invariant forall name | name in table :: r[name] == if name in todo then table[name] else Percentages(table, totalSequences)[name]
      decreases todo
    {
      var operationName :| operationName in todo;
      var count := r[operationName].count;
      var percentage := (count as real / totalSequences as real) * 100.0;
      r := r[operationName := r[operationName].(percentage := percentage)];
      todo := todo - {operationName};
    }
  }

  /** `analyzeSequences2`, with the job's `operationCounts` passed in and returned. */
  method AnalyzeSequences(nextSequences: seq<seq<Operation>>, tiempo: real, operationCounts: map<nat, Table>)
    returns (counts: map<nat, Table>)
    requires |nextSequences| > 0 && AllLonger(nextSequences, |nextSequences[0]|)
    ensures counts == AnalyzedCounts(nextSequences, tiempo, operationCounts)
  {
    var totalSequences := |nextSequences|;
    var sequenceLength := |nextSequences[0]|;
    var tables: seq<Table> := [];
    for i := 0 to sequenceLength
      invariant |tables| == i && forall k | 0 <= k < i :: tables[k] == map[]
    {
      tables := tables + [map[]];
    }
    for j := 0 to totalSequences
      invariant |tables| == sequenceLength
      invariant forall k | 0 <= k < sequenceLength :: tables[k] == Tally(nextSequences[..j], k, tiempo)
    {
      tables := CountSequence(nextSequences, j, tiempo, tables);
    }
    assert nextSequences[..totalSequences] == nextSequences;
    for i := 0 to sequenceLength
      invariant |tables| == sequenceLength
      invariant forall k | 0 <= k < i :: tables[k] == Percentages(Tally(nextSequences, k, tiempo), totalSequences)
      invariant forall k | i <= k < sequenceLength :: tables[k] == Tally(nextSequences, k, tiempo)
    {
      var filled := FillPercentages(tables[i], totalSequences);
      tables := tables[i := filled];
    }
    assert tables == FreshTables(nextSequences, tiempo);
    counts := Overlay(operationCounts, tables);
  }

  /** The inner count loop of `analyzeSequences2`: sequence `j` bumps one cell per position. */
  method CountSequence(nextSequences: seq<seq<Operation>>, j: nat, tiempo: real, tables0: seq<Table>)
    returns (tables: seq<Table>)
    requires j < |nextSequences| && |tables0| <= |nextSequences[j]|
    requires forall k | 0 <= k < |tables0| :: tables0[k] == Tally(nextSequences[..j], k, tiempo)
    ensures |tables| == |tables0|
    ensures forall k | 0 <= k < |tables| :: tables[k] == Tally(nextSequences[..j + 1], k, tiempo)
  {
    var sequence := nextSequences[j];
    tables := tables0;
    for i := 0 to |tables0|
      invariant |tables| == |tables0|
      invariant forall k | 0 <= k < i :: tables[k] == Tally(nextSequences[..j + 1], k, tiempo)
      invariant forall k | i <= k < |tables0| :: tables[k] == Tally(nextSequences[..j], k, tiempo)
    {
      TallyStep(nextSequences, j, i, tiempo);
      tables := tables[i := Bump(tables[i], sequence[i], i, tiempo)];
    }
  }

  // ---------------------------------------------------------------------
  // What the tables mean
  // ---------------------------------------------------------------------

  /** A name is in the table exactly when some sequence holds it there, i.e. when its count is positive. */
  lemma {:induction false} NamesAtIff(seqs: seq<seq<Operation>>, i: nat, name: string)
    ensures name in NamesAt(seqs, i) <==> exists k | 0 <= k < |seqs| :: HoldsAt(seqs[k], i, name)
    ensures name in NamesAt(seqs, i) <==> CountAt(seqs, i, name) > 0
  {
    if seqs != [] {
      var init, last := seqs[..|seqs| - 1], seqs[|seqs| - 1];
      NamesAtIff(init, i, name);
      if exists k | 0 <= k < |seqs| :: HoldsAt(seqs[k], i, name) {
        var k :| 0 <= k < |seqs| && HoldsAt(seqs[k], i, name);
        if k < |init| {
          assert init[k] == seqs[k];
        }
      }
      if name in NamesAt(init, i) {
        var k :| 0 <= k < |init| && HoldsAt(init[k], i, name);
        assert seqs[k] == init[k];
      }
    }
  }

  /** Sum of the counts of `names` at position `i`. */
  function SumCounts(seqs: seq<seq<Operation>>, i: nat, names: seq<string>): nat
  {
    if names == [] then 0 else SumCounts(seqs, i, names[..|names| - 1]) + CountAt(seqs, i, names[|names| - 1])
  }

  lemma {:induction false} SumCountsSnoc(seqs: seq<seq<Operation>>, s: seq<Operation>, i: nat, names: seq<string>)
    requires Distinct(names)
    ensures SumCounts(seqs + [s], i, names) == SumCounts(seqs, i, names) + (if i < |s| && s[i].name in names then 1 else 0)
    decreases |names|
  {
    assert (seqs + [s])[..|seqs|] == seqs;
    if names != [] {
      var init := names[..|names| - 1];
      assert Distinct(init);
      SumCountsSnoc(seqs, s, i, init);
      assert names == init + [names[|names| - 1]];
    }
  }

  /** The counts at one position partition the sequences: over the distinct names present they add up to the total. */
  lemma {:induction false} CountsPartition(seqs: seq<seq<Operation>>, i: nat, names: seq<string>)
    requires AllLonger(seqs, i + 1) && Distinct(names)
    requires forall n <- NamesAt(seqs, i) :: n in names
    ensures SumCounts(seqs, i, names) == |seqs|
    decreases |seqs|
  {
    if seqs == [] {
      SumCountsEmpty(i, names);
    } else {
      var init, s := seqs[..|seqs| - 1], seqs[|seqs| - 1];
      assert seqs == init + [s];
      CountsPartition(init, i, names);
      SumCountsSnoc(init, s, i, names);
    }
  }

  lemma {:induction false} SumCountsEmpty(i: nat, names: seq<string>)
    ensures SumCounts([], i, names) == 0
  {
    if names != [] {
      SumCountsEmpty(i, names[..|names| - 1]);
    }
  }

  /** A share of `c` out of `total`, in percent, lies in (0, 100]. */
  lemma ShareBounds(c: nat, total: nat)
    requires 0 < c <= total
    ensures 0.0 < c as real / total as real * 100.0 <= 100.0
  {
    var q := c as real / total as real;
    assert q * total as real == c as real;
    assert 0.0 < q <= 1.0;
  }

  /** Each fresh cell: its count, share in (0, 100], the last flag, and the time at position 0 only. */
  lemma FreshCell(seqs: seq<seq<Operation>>, tiempo: real, k: nat, name: string)
    requires |seqs| > 0 && k < |seqs[0]|
    ensures name in FreshTables(seqs, tiempo)[k] <==> exists m | 0 <= m < |seqs| :: HoldsAt(seqs[m], k, name)
    ensures name in FreshTables(seqs, tiempo)[k] ==>
      var c := FreshTables(seqs, tiempo)[k][name];
      && c.count == CountAt(seqs, k, name) > 0
      && c.percentage == c.count as real / |seqs| as real * 100.0
      && 0.0 < c.percentage <= 100.0
      && c.neededMaterial == LastFlag(seqs, k, name)
      && c.finishingTime == if k == 0 then Some(tiempo) else None
  {
    NamesAtIff(seqs, k, name);
    TallyCells(seqs, k, tiempo, name);
    if name in NamesAt(seqs, k) {
      ShareBounds(CountAt(seqs, k, name), |seqs|);
    }
  }

  /** Positions below the common length hold the fresh tables. */
  lemma AnalyzedFresh(seqs: seq<seq<Operation>>, tiempo: real, operationCounts: map<nat, Table>, k: nat)
    requires |seqs| > 0 && k < |seqs[0]|
    ensures k in AnalyzedCounts(seqs, tiempo, operationCounts)
    ensures AnalyzedCounts(seqs, tiempo, operationCounts)[k] == FreshTables(seqs, tiempo)[k]
  {
  }

  /** Positions at or beyond the common length keep whatever the previous analysis left there. */
  lemma AnalyzedKeepsStale(seqs: seq<seq<Operation>>, tiempo: real, operationCounts: map<nat, Table>, k: nat)
    requires |seqs| > 0 && |seqs[0]| <= k
    ensures k in AnalyzedCounts(seqs, tiempo, operationCounts) <==> k in operationCounts
    ensures k in operationCounts ==> AnalyzedCounts(seqs, tiempo, operationCounts)[k] == operationCounts[k]
  {
  }
}
