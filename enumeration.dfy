/**
 * The sequence-enumeration engine of the assembly job: which operations the
 * dependency matrix allows after a given partial sequence (`getCanOperation`),
 * the exhaustive expansion of partial sequences into maximal ones
 * (`getNewLevel`), and the job-level entry point that strips the completed
 * prefix (`getSequences2`).
 */
module Enumeration {
  import opened Products
  import opened Sequences

  // ---------------------------------------------------------------------
  // Eligibility against the dependency matrix
  // ---------------------------------------------------------------------

  /** `donePosition`: 0 (the start marker) followed by `indexOf(step) + 1` for every step. */
  function DonePositions(operations: seq<Operation>, s: seq<Operation>): (d: seq<int>)
    ensures |d| == |s| + 1 && d[0] == 0
    decreases |s|
  {
    if s == [] then [0]
    else DonePositions(operations, s[..|s| - 1]) + [IndexOf(operations, s[|s| - 1]) + 1]
  }

  /** Column `j` counts as done exactly when it is the start marker or operation `j - 1` is in `s`. */
  lemma DoneIff(operations: seq<Operation>, s: seq<Operation>, j: int)
    requires Distinct(operations)
    ensures j in DonePositions(operations, s) <==> j == 0 || (1 <= j <= |operations| && operations[j - 1] in s)
    decreases |s|
  {
    if s != [] {
      var init, x := s[..|s| - 1], s[|s| - 1];
      DoneIff(operations, init, j);
      assert s == init + [x];
      if 1 <= j <= |operations| {
        IndexOfDistinct(operations, j - 1);
      }
    }
  }

  /** The columns of `row[..n]` that hold `true` (the source's `needOperationPos`). */
  function TrueColumns(row: seq<bool>, n: nat): (r: seq<int>)
    requires n <= |row|
    ensures forall q :: q in r <==> 0 <= q < n && row[q]
  {
    if n == 0 then [] else TrueColumns(row, n - 1) + (if row[n - 1] then [n - 1] else [])
  }

  /** Every column that row `row` requires is done. */
  predicate RowSatisfied(row: seq<bool>, done: seq<int>) {
    forall j | 0 <= j < |row| && row[j] :: j in done
  }

  /** Row `i` is not done yet, its requirements are met and it is not the sink row. */
  predicate RowCanRun(p: Product, done: seq<int>, i: nat)
    requires i < |p.dependencyMatrice|
  {
    && (i + 1) !in done
    && RowSatisfied(p.dependencyMatrice[i], done)
    && i < |p.dependencyMatrice| - 1
  }

  /** The operations of rows `0 .. n-1` that can run, in row order. */
  function CanRows(p: Product, done: seq<int>, n: nat): (r: seq<Operation>)
    requires WellFormed(p) && n <= |p.dependencyMatrice|
  {
    if n == 0 then []
    else CanRows(p, done, n - 1) + (if RowCanRun(p, done, n - 1) then [p.operations[n - 1]] else [])
  }

  lemma {:induction false} CanRowsIff(p: Product, done: seq<int>, n: nat, o: Operation)
    requires WellFormed(p) && n <= |p.dependencyMatrice|
    ensures o in CanRows(p, done, n) <==> exists i | 0 <= i < n :: RowCanRun(p, done, i) && p.operations[i] == o
  {
    if n > 0 {
      CanRowsIff(p, done, n - 1, o);
    }
  }

  /** What `getCanOperation` returns for the partial sequence `s`. */
  function CanOperation(p: Product, s: seq<Operation>): seq<Operation>
    requires WellFormed(p)
  {
    CanRows(p, DonePositions(p.operations, s), |p.dependencyMatrice|)
  }

  /**
   * Row `i` read in terms of operations: it is not the sink row, operation
   * `i` is not in `s`, and every true column `j` is the start marker or has
   * operation `j - 1` in `s`.
   */
  ghost predicate Eligible(p: Product, s: seq<Operation>, i: int)
    requires WellFormed(p)
  {
    && 0 <= i < |p.dependencyMatrice| - 1
    && p.operations[i] !in s
    && forall j | 0 <= j < |p.dependencyMatrice[i]| && p.dependencyMatrice[i][j] ::
         j == 0 || (j <= |p.operations| && p.operations[j - 1] in s)
  }

  /** `getCanOperation` returns operation `o` exactly when some row of it is `Eligible`. */
  lemma CanOperationIff(p: Product, s: seq<Operation>, o: Operation)
    requires WellFormed(p)
    ensures o in CanOperation(p, s) <==> exists i :: Eligible(p, s, i) && p.operations[i] == o
  {
    var done := DonePositions(p.operations, s);
    CanRowsIff(p, done, |p.dependencyMatrice|, o);
    forall i | 0 <= i < |p.dependencyMatrice| - 1
      ensures RowCanRun(p, done, i) <==> Eligible(p, s, i)
    {
      RowEligible(p, s, i);
    }
  }

  /** Row `i` can run on the done positions of `s` exactly when it is `Eligible` after `s`. */
  lemma RowEligible(p: Product, s: seq<Operation>, i: nat)
    requires WellFormed(p) && i < |p.dependencyMatrice| - 1
    ensures RowCanRun(p, DonePositions(p.operations, s), i) <==> Eligible(p, s, i)
  {
    DoneIff(p.operations, s, i + 1);
    RowSatisfiedIff(p.operations, s, p.dependencyMatrice[i]);
  }

  /** A row is satisfied exactly when each column it requires is the start marker or a done operation. */
  lemma RowSatisfiedIff(operations: seq<Operation>, s: seq<Operation>, row: seq<bool>)
    requires Distinct(operations)
    ensures RowSatisfied(row, DonePositions(operations, s)) <==>
      forall j | 0 <= j < |row| && row[j] :: j == 0 || (j <= |operations| && operations[j - 1] in s)
  {
    forall j | 0 <= j < |row| {
      DoneIff(operations, s, j);
    }
  }

  /** The `donePosition` loop of `getCanOperation`. */
  method DonePositionsOf(operations: seq<Operation>, currentSequence: seq<Operation>) returns (donePosition: seq<int>)
    ensures donePosition == DonePositions(operations, currentSequence)
  {
    donePosition := [0];
    for k := 0 to |currentSequence|
      invariant donePosition == DonePositions(operations, currentSequence[..k])
    {
      var p := IndexOf(operations, currentSequence[k]) + 1;
      donePosition := donePosition + [p];
      assert currentSequence[..k + 1][..k] == currentSequence[..k];
    }
    assert currentSequence[..|currentSequence|] == currentSequence;
  }

  /** The column loops of `getCanOperation`: collect the true columns, then check each is done. */
  method RowPossible(op: seq<bool>, donePosition: seq<int>) returns (possible: bool)
    ensures possible <==> RowSatisfied(op, donePosition)
  {
    var needOperationPos: seq<int> := [];
    for j := 0 to |op|
      invariant needOperationPos == TrueColumns(op, j)
    {
      if op[j] {
        needOperationPos := needOperationPos + [j];
      }
    }
    possible := true;
    for k := 0 to |needOperationPos|
      invariant possible <==> forall m | 0 <= m < k :: needOperationPos[m] in donePosition
    {
      if needOperationPos[k] !in donePosition {
        possible := false;
      }
    }
    forall m | 0 <= m < |needOperationPos|
      ensures 0 <= needOperationPos[m] < |op| && op[needOperationPos[m]]
    {
      assert needOperationPos[m] in needOperationPos;
    }
    forall j | 0 <= j < |op| && op[j]
      ensures exists m | 0 <= m < |needOperationPos| :: needOperationPos[m] == j
    {
      assert j in needOperationPos;
    }
  }

  /** `getCanOperation`: the operations whose dependency row is met after `currentSequence`. */
  method GetCanOperation(currentSequence: seq<Operation>, product: Product) returns (canOperation: seq<Operation>)
    requires WellFormed(product)
    ensures canOperation == CanOperation(product, currentSequence)
  {
    canOperation := [];
    var donePosition := DonePositionsOf(product.operations, currentSequence);
    var matrix := product.dependencyMatrice;
    for i := 0 to |matrix|
      invariant canOperation == CanRows(product, donePosition, i)
    {
      if i + 1 in donePosition {
        continue;
      }
      var possible := RowPossible(matrix[i], donePosition);
      if possible {
        if i < |matrix| - 1 {
          canOperation := canOperation + [product.operations[i]];
        }
      }
    }
  }

  // ---------------------------------------------------------------------
  // Exhaustive expansion
  // ---------------------------------------------------------------------

  /** The non-sink rows whose operation is not yet in `s`; it shrinks with every step. */
  ghost function Remaining(p: Product, s: seq<Operation>): set<int>
    requires WellFormed(p)
  {
    set i | 0 <= i < |p.dependencyMatrice| - 1 && p.operations[i] !in s
  }

  lemma RemainingShrinks(p: Product, s: seq<Operation>, c: Operation)
    requires WellFormed(p) && c in CanOperation(p, s)
    ensures Remaining(p, s + [c]) < Remaining(p, s)
  {
    CanOperationIff(p, s, c);
    var i :| Eligible(p, s, i) && p.operations[i] == c;
    assert i in Remaining(p, s) && i !in Remaining(p, s + [c]);
  }

  /**
   * Every maximal sequence reachable from `s`, in the order `getNewLevel`
   * pushes them: `s` itself when nothing is eligible, otherwise the leaves
   * below each eligible extension in `getCanOperation` order.
   */
  function Leaves(p: Product, s: seq<Operation>): seq<seq<Operation>>
    requires WellFormed(p)
    decreases Remaining(p, s), 1, 0
  {
    var can := CanOperation(p, s);
    if can == [] then [s] else Expand(p, s, can)
  }

  /** The leaves below `s + [c]` for each `c` of `cs`, in order. */
  function Expand(p: Product, s: seq<Operation>, cs: seq<Operation>): seq<seq<Operation>>
    requires WellFormed(p) && forall c <- cs :: c in CanOperation(p, s)
    decreases Remaining(p, s), 0, |cs|
  {
    if cs == [] then []
    else
      var c := cs[|cs| - 1];
      RemainingShrinks(p, s, c);
      Expand(p, s, cs[..|cs| - 1]) + Leaves(p, s + [c])
  }

  /** The leaves of each sequence of `ss`, concatenated in order. */
  function LeavesOf(p: Product, ss: seq<seq<Operation>>): seq<seq<Operation>>
    requires WellFormed(p)
  {
    if ss == [] then [] else LeavesOf(p, ss[..|ss| - 1]) + Leaves(p, ss[|ss| - 1])
  }

  /** The source's `helpSequence`: one copy of `s` per eligible operation, extended by it. */
  function Children(s: seq<Operation>, cs: seq<Operation>): (r: seq<seq<Operation>>)
    ensures |r| == |cs| && forall k | 0 <= k < |cs| :: r[k] == s + [cs[k]]
  {
    seq(|cs|, k requires 0 <= k < |cs| => s + [cs[k]])
  }

  lemma {:induction false} LeavesOfChildren(p: Product, s: seq<Operation>, cs: seq<Operation>)
    requires WellFormed(p) && forall c <- cs :: c in CanOperation(p, s)
    ensures LeavesOf(p, Children(s, cs)) == Expand(p, s, cs)
    decreases |cs|
  {
    if cs != [] {
      var init := cs[..|cs| - 1];
      assert Children(s, cs)[..|cs| - 1] == Children(s, init);
      LeavesOfChildren(p, s, init);
    }
  }

  /** Building `helpSequence`: one extended copy of `sequence` per eligible operation. */
  method ExtendEach(sequence: seq<Operation>, canOperation: seq<Operation>) returns (helpSequence: seq<seq<Operation>>)
    ensures helpSequence == Children(sequence, canOperation)
  {
    helpSequence := [];
    for i := 0 to |canOperation|
      invariant helpSequence == Children(sequence, canOperation[..i])
    {
      helpSequence := helpSequence + [sequence + [canOperation[i]]];
    }
    assert canOperation[..|canOperation|] == canOperation;
  }

  lemma ChildrenShrink(p: Product, s: seq<Operation>, cs: seq<Operation>)
    requires WellFormed(p) && forall c <- cs :: c in CanOperation(p, s)
    ensures forall h <- Children(s, cs) :: Remaining(p, h) < Remaining(p, s)
  {
    forall k | 0 <= k < |cs|
      ensures Remaining(p, Children(s, cs)[k]) < Remaining(p, s)
    {
      RemainingShrinks(p, s, cs[k]);
    }
  }

  /**
   * `getNewLevel`: for each sequence of `currentSequences`, push it to the
   * caller's `targetSequence` when nothing is eligible, otherwise recurse on
   * its one-step extensions.  The caller-owned array is passed in and the
   * extended array returned.  `bound` is a ghost termination measure.
   */
  method GetNewLevel(currentSequences: seq<seq<Operation>>, product: Product,
                     targetSequence: seq<seq<Operation>>, ghost bound: set<int>)
    returns (target: seq<seq<Operation>>)
    requires WellFormed(product)
    requires forall s <- currentSequences :: Remaining(product, s) < bound
    ensures target == targetSequence + LeavesOf(product, currentSequences)
    decreases bound, 1
  {
    target := targetSequence;
    for k := 0 to |currentSequences|
      invariant target == targetSequence + LeavesOf(product, currentSequences[..k])
    {
      LeavesOfSnoc(product, currentSequences, k);
      target := NewLevelOf(currentSequences[k], product, target, bound);
    }
    assert currentSequences[..|currentSequences|] == currentSequences;
  }

  /** One pass of the loop of `getNewLevel`: `sequence` itself when nothing is eligible, else its extensions' leaves. */
  method NewLevelOf(sequence: seq<Operation>, product: Product, targetSequence: seq<seq<Operation>>,
                    ghost bound: set<int>) returns (target: seq<seq<Operation>>)
    requires WellFormed(product) && Remaining(product, sequence) < bound
    ensures target == targetSequence + Leaves(product, sequence)
    decreases bound, 0
  {
    var canOperation := GetCanOperation(sequence, product);
    if |canOperation| == 0 {
      target := targetSequence + [sequence];
    } else {
      var helpSequence := ExtendEach(sequence, canOperation);
      ChildrenShrink(product, sequence, canOperation);
      target := GetNewLevel(helpSequence, product, targetSequence, Remaining(product, sequence));
      LeavesOfChildren(product, sequence, canOperation);
    }
  }

  lemma LeavesOfSnoc(p: Product, ss: seq<seq<Operation>>, k: nat)
    requires WellFormed(p) && k < |ss|
    ensures LeavesOf(p, ss[..k + 1]) == LeavesOf(p, ss[..k]) + Leaves(p, ss[k])
  {
    assert ss[..k + 1][..k] == ss[..k];
  }

  // ---------------------------------------------------------------------
  // What the expansion produces
  // ---------------------------------------------------------------------

  /** `t` is `s` extended one eligible operation at a time. */
  ghost predicate IsRun(p: Product, s: seq<Operation>, t: seq<Operation>)
    requires WellFormed(p)
  {
    && |s| <= |t|
    && t[..|s|] == s
    && forall k | |s| <= k < |t| :: t[k] in CanOperation(p, t[..k])
  }

  /** A run that cannot be extended further. */
  ghost predicate IsMaximalRun(p: Product, s: seq<Operation>, t: seq<Operation>)
    requires WellFormed(p)
  {
    IsRun(p, s, t) && CanOperation(p, t) == []
  }

  lemma RunStep(p: Product, s: seq<Operation>, c: Operation, t: seq<Operation>)
    requires WellFormed(p) && c in CanOperation(p, s) && IsRun(p, s + [c], t)
    ensures IsRun(p, s, t)
  {
    assert t[..|s|] == t[..|s| + 1][..|s|];
  }

  /** Soundness: everything `getNewLevel` emits from `s` is a maximal run from `s`. */
  lemma {:induction false} LeavesSound(p: Product, s: seq<Operation>, t: seq<Operation>)
    requires WellFormed(p) && t in Leaves(p, s)
    ensures IsMaximalRun(p, s, t)
    decreases Remaining(p, s), 1, 0
  {
    var can := CanOperation(p, s);
    if can == [] {
      assert t == s && t[..|s|] == s;
    } else {
      ExpandSound(p, s, can, t);
    }
  }

  lemma {:induction false} ExpandSound(p: Product, s: seq<Operation>, cs: seq<Operation>, t: seq<Operation>)
    requires WellFormed(p) && forall c <- cs :: c in CanOperation(p, s)
    requires t in Expand(p, s, cs)
    ensures IsMaximalRun(p, s, t)
    decreases Remaining(p, s), 0, |cs|
  {
    var c := cs[|cs| - 1];
    if t in Expand(p, s, cs[..|cs| - 1]) {
      ExpandSound(p, s, cs[..|cs| - 1], t);
    } else {
      RemainingShrinks(p, s, c);
      LeavesSound(p, s + [c], t);
      RunStep(p, s, c, t);
    }
  }

  /** Every start sequence yields at least one emitted sequence. */
  lemma {:induction false} LeavesNonEmpty(p: Product, s: seq<Operation>)
    requires WellFormed(p)
    ensures |Leaves(p, s)| >= 1
    decreases Remaining(p, s), 1, 0
  {
    var can := CanOperation(p, s);
    if can != [] {
      ExpandNonEmpty(p, s, can);
    }
  }

  lemma {:induction false} ExpandNonEmpty(p: Product, s: seq<Operation>, cs: seq<Operation>)
    requires WellFormed(p) && forall c <- cs :: c in CanOperation(p, s)
    requires cs != []
    ensures |Expand(p, s, cs)| >= 1
    decreases Remaining(p, s), 0, |cs|
  {
    var c := cs[|cs| - 1];
    RemainingShrinks(p, s, c);
    LeavesNonEmpty(p, s + [c]);
  }

  lemma {:induction false} ExpandContains(p: Product, s: seq<Operation>, cs: seq<Operation>, c: Operation, t: seq<Operation>)
    requires WellFormed(p) && forall c' <- cs :: c' in CanOperation(p, s)
    requires c in cs && t in Leaves(p, s + [c])
    ensures t in Expand(p, s, cs)
    decreases |cs|
  {
    if cs[|cs| - 1] != c {
      assert c in cs[..|cs| - 1] by {
        var k :| 0 <= k < |cs| && cs[k] == c;
        assert cs[..|cs| - 1][k] == c;
      }
      ExpandContains(p, s, cs[..|cs| - 1], c, t);
    }
  }

  /** Completeness: every maximal run from `s` is emitted. */
  lemma {:induction false} LeavesComplete(p: Product, s: seq<Operation>, t: seq<Operation>)
    requires WellFormed(p) && IsMaximalRun(p, s, t)
    ensures t in Leaves(p, s)
    decreases Remaining(p, s)
  {
    if |t| == |s| {
      assert t == t[..|s|];
    } else {
      var c := t[|s|];
      assert t[..|s|] == s;
      assert c in CanOperation(p, s);
      assert t[..|s| + 1] == s + [c];
      assert IsRun(p, s + [c], t);
      RemainingShrinks(p, s, c);
      LeavesComplete(p, s + [c], t);
      ExpandContains(p, s, CanOperation(p, s), c, t);
    }
  }

  // ---------------------------------------------------------------------
  // All emitted sequences have the same length
  // ---------------------------------------------------------------------

  ghost function Elems(s: seq<Operation>): set<Operation> {
    set x | x in s
  }

  lemma ElemsSnoc(t: seq<Operation>)
    requires t != []
    ensures Elems(t) == Elems(t[..|t| - 1]) + {t[|t| - 1]}
  {
    assert t == t[..|t| - 1] + [t[|t| - 1]];
  }

  /** No element repeats an earlier one. */
  ghost predicate Fresh(e: seq<Operation>) {
    forall k | 0 <= k < |e| :: e[k] !in e[..k]
  }

  lemma {:induction false} FreshCard(e: seq<Operation>)
    requires Fresh(e)
    ensures |Elems(e)| == |e|
    decreases |e|
  {
    if e != [] {
      var init := e[..|e| - 1];
      assert Fresh(init) by {
        forall k | 0 <= k < |init| ensures init[k] !in init[..k] {
          assert init[..k] == e[..k];
        }
      }
      FreshCard(init);
      assert e == init + [e[|e| - 1]];
      assert Elems(e) == Elems(init) + {e[|e| - 1]};
    }
  }

  lemma RunPrefix(p: Product, s: seq<Operation>, t: seq<Operation>, m: nat)
    requires WellFormed(p) && IsRun(p, s, t) && |s| <= m <= |t|
    ensures IsRun(p, s, t[..m])
  {
    forall k | |s| <= k < m ensures t[..m][k] in CanOperation(p, t[..m][..k]) {
      assert t[..m][..k] == t[..k];
    }
  }

  /** Each step of a run adds an operation that was not there before. */
  lemma RunAddsFresh(p: Product, s: seq<Operation>, t: seq<Operation>)
    requires WellFormed(p) && IsRun(p, s, t)
    ensures forall k | |s| <= k < |t| :: t[k] !in t[..k]
  {
    forall k | |s| <= k < |t| ensures t[k] !in t[..k] {
      CanOperationIff(p, t[..k], t[k]);
    }
  }

  /** An operation eligible after `u` is in every maximal run that contains all of `u`. */
  lemma EligibleReachesMaximal(p: Product, u: seq<Operation>, t: seq<Operation>, x: Operation)
    requires WellFormed(p) && x in CanOperation(p, u) && Elems(u) <= Elems(t) && CanOperation(p, t) == []
    ensures x in t
  {
    CanOperationIff(p, u, x);
    var i :| Eligible(p, u, i) && p.operations[i] == x;
    if x !in t {
      assert forall y <- u :: y in Elems(u);
      assert Eligible(p, t, i);
      CanOperationIff(p, t, x);
    }
  }

  /** Everything a run from `s` reaches is also in any maximal run from `s`. */
  lemma {:induction false} RunInsideMaximal(p: Product, s: seq<Operation>, t1: seq<Operation>, t2: seq<Operation>)
    requires WellFormed(p) && |s| <= |t1| && t1[..|s|] == s && CanOperation(p, t1) == [] && IsRun(p, s, t2)
    ensures Elems(t2) <= Elems(t1)
    decreases |t2|
  {
    if |t2| == |s| {
      assert t2 == s;
      PrefixElems(s, t1);
    } else {
      var u, x := t2[..|t2| - 1], t2[|t2| - 1];
      RunLast(p, s, t2);
      RunInsideMaximal(p, s, t1, u);
      EligibleReachesMaximal(p, u, t1, x);
      ElemsSnoc(t2);
    }
  }

  lemma PrefixElems(s: seq<Operation>, t: seq<Operation>)
    requires |s| <= |t| && t[..|s|] == s
    ensures Elems(s) <= Elems(t)
  {
    forall y | y in Elems(s) ensures y in Elems(t) {
      var k :| 0 <= k < |s| && s[k] == y;
      assert t[k] == y;
    }
  }

  /** A run longer than its start is a shorter run followed by an eligible operation. */
  lemma RunLast(p: Product, s: seq<Operation>, t: seq<Operation>)
    requires WellFormed(p) && IsRun(p, s, t) && |t| > |s|
    ensures IsRun(p, s, t[..|t| - 1]) && t[|t| - 1] in CanOperation(p, t[..|t| - 1])
  {
    var n := |t| - 1;
    assert t[n] in CanOperation(p, t[..n]);
    RunPrefix(p, s, t, n);
  }

  /** The operations a run adds beyond `s`: fresh, and exactly the run's elements outside `s`. */
  lemma RunExtension(p: Product, s: seq<Operation>, t: seq<Operation>)
    requires WellFormed(p) && IsRun(p, s, t)
    ensures Fresh(t[|s|..])
    ensures Elems(t[|s|..]) == Elems(t) - Elems(s)
  {
    RunAddsFresh(p, s, t);
    var e := t[|s|..];
    assert t == s + e;
    forall k | 0 <= k < |e| ensures e[k] !in e[..k] && e[k] !in s {
      assert t[..|s| + k] == s + e[..k];
      assert e[k] == t[|s| + k];
    }
  }

  /** Any two maximal runs from the same start have the same length. */
  lemma MaximalRunsSameLength(p: Product, s: seq<Operation>, t1: seq<Operation>, t2: seq<Operation>)
    requires WellFormed(p) && IsMaximalRun(p, s, t1) && IsMaximalRun(p, s, t2)
    ensures |t1| == |t2|
  {
    RunInsideMaximal(p, s, t1, t2);
    RunInsideMaximal(p, s, t2, t1);
    RunExtension(p, s, t1);
    RunExtension(p, s, t2);
    var e1, e2 := t1[|s|..], t2[|s|..];
    assert Elems(e1) == Elems(e2);
    FreshCard(e1);
    FreshCard(e2);
    assert |t1| == |s| + |e1| && |t2| == |s| + |e2|;
  }

  // ---------------------------------------------------------------------
  // getSequences2: the remaining sequences after the past operations
  // ---------------------------------------------------------------------

  lemma LeavesExtend(p: Product, s: seq<Operation>)
    requires WellFormed(p)
    ensures forall t <- Leaves(p, s) :: |s| <= |t| && t[..|s|] == s
  {
    forall t <- Leaves(p, s) ensures |s| <= |t| && t[..|s|] == s {
      LeavesSound(p, s, t);
    }
  }

  /** Every emitted sequence with the `past` prefix cut off, in emission order. */
  function NextSequences(p: Product, past: seq<Operation>): (r: seq<seq<Operation>>)
    requires WellFormed(p)
    ensures |r| == |Leaves(p, past)|
  {
    var leaves := Leaves(p, past);
    LeavesExtend(p, past);
    seq(|leaves|, k requires 0 <= k < |leaves| => leaves[k][|past|..])
  }

  /**
   * The body of `getSequences2` once `past` (completed operations plus the
   * planned one) is built: expand `[past]` with an empty target, then slice
   * the past off every result.
   */
  method EnumerateRemaining(past: seq<Operation>, product: Product) returns (nextSequences: seq<seq<Operation>>)
    requires WellFormed(product)
    ensures nextSequences == NextSequences(product, past)
  {
    var currentSequence := [past];
    assert Remaining(product, past) < Remaining(product, past) + {-1};
    var helpSequence := GetNewLevel(currentSequence, product, [], Remaining(product, past) + {-1});
    assert LeavesOf(product, currentSequence) == Leaves(product, past) by {
      assert currentSequence[..0] == [];
    }
    LeavesExtend(product, past);
    nextSequences := [];
    for k := 0 to |helpSequence|
      invariant |nextSequences| == k
      invariant forall m | 0 <= m < k :: nextSequences[m] == helpSequence[m][|past|..]
    {
      nextSequences := nextSequences + [helpSequence[k][|past|..]];
    }
  }

  /** Each remaining sequence completes `past` to a maximal run. */
  lemma NextSequencesSound(p: Product, past: seq<Operation>, r: seq<Operation>)
    requires WellFormed(p) && r in NextSequences(p, past)
    ensures IsMaximalRun(p, past, past + r)
  {
    var leaves := Leaves(p, past);
    var k :| 0 <= k < |leaves| && NextSequences(p, past)[k] == r;
    var t := leaves[k];
    LeavesSound(p, past, t);
    assert r == t[|past|..];
    SplitAt(t, |past|);
  }

  /** Every way to complete `past` to a maximal run appears among the remaining sequences. */
  lemma NextSequencesComplete(p: Product, past: seq<Operation>, r: seq<Operation>)
    requires WellFormed(p) && IsMaximalRun(p, past, past + r)
    ensures r in NextSequences(p, past)
  {
    LeavesComplete(p, past, past + r);
    var leaves := Leaves(p, past);
    var k :| 0 <= k < |leaves| && leaves[k] == past + r;
    assert NextSequences(p, past)[k] == (past + r)[|past|..] == r;
  }

  /** There is always at least one remaining sequence, and it is `[]` exactly when nothing is eligible. */
  lemma NextSequencesShape(p: Product, past: seq<Operation>)
    requires WellFormed(p)
    ensures |NextSequences(p, past)| >= 1
    ensures CanOperation(p, past) == [] <==> NextSequences(p, past) == [[]]
  {
    LeavesNonEmpty(p, past);
    if CanOperation(p, past) == [] {
      assert past[|past|..] == [];
    } else {
      var r := NextSequences(p, past)[0];
      NextSequencesSound(p, past, r);
      assert CanOperation(p, past + r) == [];
      assert past + r != past;
      assert r != [];
    }
  }

  /** All remaining sequences have the same length (what `analyzeSequences2` relies on). */
  lemma NextSequencesSameLength(p: Product, past: seq<Operation>, r1: seq<Operation>, r2: seq<Operation>)
    requires WellFormed(p) && r1 in NextSequences(p, past) && r2 in NextSequences(p, past)
    ensures |r1| == |r2|
  {
    NextSequencesSound(p, past, r1);
    NextSequencesSound(p, past, r2);
    MaximalRunsSameLength(p, past, past + r1, past + r2);
  }

  /** The remaining sequences consist of operations of the product. */
  lemma NextSequencesUseProductOperations(p: Product, past: seq<Operation>, r: seq<Operation>)
    requires WellFormed(p) && r in NextSequences(p, past)
    ensures forall op <- r :: op in p.operations
  {
    NextSequencesSound(p, past, r);
    var t := past + r;
    forall m | 0 <= m < |r| ensures r[m] in p.operations {
      var k := |past| + m;
      assert t[k] == r[m];
      assert t[k] in CanOperation(p, t[..k]);
      CanOperationIff(p, t[..k], t[k]);
    }
  }
}
