/**
 * The data model shared by the assembly job: operations, products and the
 * small sequence helpers the source gets from JavaScript's array methods
 * (`includes`, `indexOf`).
 */
module Products {
  import opened Wrappers

  /**
   * One unit of work of a product.  Durations are in simulation time units.
   * `totalTime` is optional in the source (`operation.totalTime !== undefined`).
   * `predecessors` lists operations that must be completed first; they may
   * belong to another product, in which case they are ignored.
   */
  datatype Operation = Operation(
    id: string,
    name: string,
    processingTime: real,
    setUpTime: real,
    followUpTime: real,
    totalTime: Option<real>,
    materialRequired: bool,
    predecessors: seq<Operation>)

  /**
   * A product: its operations and the dependency matrix.  Row `i` describes
   * operation `i`; column 0 is the "start" marker and column `j > 0` stands
   * for operation `j - 1`.  The last row is the sink ("finished") row.
   */
  datatype Product = Product(
    name: string,
    operations: seq<Operation>,
    dependencyMatrice: seq<seq<bool>>)

  predicate Distinct<T(==)>(s: seq<T>) {
    forall i, j | 0 <= i < j < |s| :: s[i] != s[j]
  }

  /**
   * What the enumeration needs of a product: operations are pairwise
   * distinct (they are looked up with `indexOf`) and every non-sink row of
   * the matrix has an operation.
   */
  predicate WellFormed(p: Product) {
    && Distinct(p.operations)
    && |p.dependencyMatrice| <= |p.operations| + 1
  }

  /** JavaScript's `indexOf`: the first position of `x`, or -1. */
  function IndexOf<T(==)>(s: seq<T>, x: T): (k: int)
    ensures -1 <= k < |s|
    ensures k == -1 <==> x !in s
    ensures k >= 0 ==> s[k] == x && x !in s[..k]
  {
    if |s| == 0 then -1
    else if s[0] == x then 0
    else
      var r := IndexOf(s[1..], x);
      assert r >= 0 ==> s[1..][..r] == s[1..r + 1];
      if r == -1 then -1 else r + 1
  }

  lemma IndexOfDistinct<T>(s: seq<T>, k: nat)
    requires Distinct(s) && k < |s|
    ensures IndexOf(s, s[k]) == k
  {
  }

  /** `r` keeps some of the elements of `s`, in their order. */
  ghost predicate IsSubsequence<T>(r: seq<T>, s: seq<T>)
    decreases |s|
  {
    || r == []
    || (&& s != []
        && (|| (r[|r| - 1] == s[|s| - 1] && IsSubsequence(r[..|r| - 1], s[..|s| - 1]))
            || IsSubsequence(r, s[..|s| - 1])))
  }
}
