/**
 * The precedence filter of an assembly job: which operations are still to
 * do, and which of them may start now because every predecessor that belongs
 * to the product is completed.
 */
module Precedence {
  import opened Products

  /**
   * `uncompletedOperations`: the operations not yet completed, in product
   * order.
   */
  function UncompletedOperations(operations: seq<Operation>, completed: seq<Operation>): (r: seq<Operation>)
    ensures forall o :: o in r <==> o in operations && o !in completed
    ensures IsSubsequence(r, operations)
    decreases |operations|
  {
    if operations == [] then []
    else
      var last := operations[|operations| - 1];
      var init := UncompletedOperations(operations[..|operations| - 1], completed);
      if last in completed then init
      else
        assert (init + [last])[..|init|] == init;
        init + [last]
  }

  /** The predecessors of `o` that belong to the product (the source's `filter` with `includes`). */
  function PredecessorsInProduct(preds: seq<Operation>, operations: seq<Operation>): (r: seq<Operation>)
    ensures forall q :: q in r <==> q in preds && q in operations
    decreases |preds|
  {
    if preds == [] then []
    else
      var last := preds[|preds| - 1];
      PredecessorsInProduct(preds[..|preds| - 1], operations) + (if last in operations then [last] else [])
  }

  /** Every predecessor of `o` that belongs to `p` is completed. */
  predicate Ready(p: Product, completed: seq<Operation>, o: Operation) {
    forall q <- o.predecessors :: q in p.operations ==> q in completed
  }

  /** The elements of `candidates` that are `Ready`, in order. */
  function ReadyAmong(p: Product, completed: seq<Operation>, candidates: seq<Operation>): (r: seq<Operation>)
    ensures forall o :: o in r <==> o in candidates && Ready(p, completed, o)
    ensures IsSubsequence(r, candidates)
    decreases |candidates|
  {
    if candidates == [] then []
    else
      var last := candidates[|candidates| - 1];
      var init := ReadyAmong(p, completed, candidates[..|candidates| - 1]);
      if Ready(p, completed, last) then
        assert (init + [last])[..|init|] == init;
        init + [last]
      else init
  }

  /**
   * `nextOperations`: exactly the uncompleted operations whose predecessors
   * in the product are all completed; predecessors outside the product do
   * not count.
   */
  function NextOps(p: Product, completed: seq<Operation>): (r: seq<Operation>)
    ensures forall o :: o in r <==> o in p.operations && o !in completed && Ready(p, completed, o)
    ensures IsSubsequence(r, UncompletedOperations(p.operations, completed))
  {
    ReadyAmong(p, completed, UncompletedOperations(p.operations, completed))
  }

  /** The getter `nextOperations`, with its `forEach` loops and the `operationIsPossible` flag. */
  method NextOperations(p: Product, completed: seq<Operation>) returns (next: seq<Operation>)
    ensures next == NextOps(p, completed)
  {
    var uncompleted := UncompletedOperations(p.operations, completed);
    next := [];
    for i := 0 to |uncompleted|
      invariant next == ReadyAmong(p, completed, uncompleted[..i])
    {
      var o := uncompleted[i];
      var operationIsPossible := OperationIsPossible(p, completed, o);
      if operationIsPossible {
        next := next + [o];
      }
      assert uncompleted[..i + 1][..i] == uncompleted[..i];
    }
    assert uncompleted[..|uncompleted|] == uncompleted;
  }

  /** The inner loop of `nextOperations`: the flag stays set while every predecessor in the product is completed. */
  method OperationIsPossible(p: Product, completed: seq<Operation>, o: Operation) returns (operationIsPossible: bool)
    ensures operationIsPossible <==> Ready(p, completed, o)
  {
    operationIsPossible := true;
    var preds := PredecessorsInProduct(o.predecessors, p.operations);
    for j := 0 to |preds|
      invariant operationIsPossible <==> forall k | 0 <= k < j :: preds[k] in completed
    {
      if preds[j] !in completed {
        operationIsPossible := false;
      }
    }
  }

  /**
   * The job invariant on `completedOperations`: each entry is an operation
   * of the product, appears once, and comes after every predecessor of it
   * that belongs to the product.
   */
  ghost predicate PrecedenceConsistent(p: Product, completed: seq<Operation>) {
    forall k | 0 <= k < |completed| ::
      && completed[k] in p.operations
      && completed[k] !in completed[..k]
      && Ready(p, completed[..k], completed[k])
  }

  /** Completing one of `nextOperations` keeps the job invariant. */
  lemma CompletingNextKeepsConsistency(p: Product, completed: seq<Operation>, o: Operation)
    ensures PrecedenceConsistent(p, completed) && o in NextOps(p, completed) ==> PrecedenceConsistent(p, completed + [o])
  {
    if PrecedenceConsistent(p, completed) && o in NextOps(p, completed) {
      ConsistentAfterNext(p, completed, o);
    }
  }

  lemma ConsistentAfterNext(p: Product, completed: seq<Operation>, o: Operation)
    requires PrecedenceConsistent(p, completed)
    requires o in NextOps(p, completed)
    ensures PrecedenceConsistent(p, completed + [o])
  {
    var c' := completed + [o];
    forall k | 0 <= k < |c'|
      ensures c'[k] in p.operations && c'[k] !in c'[..k] && Ready(p, c'[..k], c'[k])
    {
      if k < |completed| {
        assert c'[..k] == completed[..k];
      } else {
        assert c'[..k] == completed;
      }
    }
  }
}
