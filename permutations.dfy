/**
 * The recursive `permutations` generator of the batch scheduler: the
 * permutations of the tail, each with the head inserted at every position
 * from the front to the back.  The generated sequence is materialised in
 * generation order.
 */
module JobPermutations {

  /** A job identifier. */
  type JobId = string

  /** `[...perm.slice(0, i), x, ...perm.slice(i)]`. */
  function InsertAt(perm: seq<JobId>, x: JobId, i: nat): (r: seq<JobId>)
    requires i <= |perm|
    ensures |r| == |perm| + 1 && r[i] == x
    ensures multiset(r) == multiset(perm) + multiset{x}
  {
    assert perm == perm[..i] + perm[i..];
    perm[..i] + [x] + perm[i..]
  }

  /** The insertions of `x` at positions `0 .. n - 1` of `perm`, in that order. */
  function SpreadUpTo(perm: seq<JobId>, x: JobId, n: nat): (r: seq<seq<JobId>>)
    requires n <= |perm| + 1
    ensures |r| == n
  {
    if n == 0 then [] else SpreadUpTo(perm, x, n - 1) + [InsertAt(perm, x, n - 1)]
  }

  /**
   * The insertions of `x` at every position of `perm`, front to back (the
   * source bounds the position by the length of the whole input, which is
   * one more than that of the tail's permutation).
   */
  function Spread(perm: seq<JobId>, x: JobId): seq<seq<JobId>> {
    SpreadUpTo(perm, x, |perm| + 1)
  }

  /** For each permutation of the tail in order, its spread. */
  function SpreadAll(perms: seq<seq<JobId>>, x: JobId): seq<seq<JobId>> {
    if perms == [] then [] else SpreadAll(perms[..|perms| - 1], x) + Spread(perms[|perms| - 1], x)
  }

  /** The generator; on an empty input the source recurses forever, so it is excluded. */
  function Permutations(a: seq<JobId>): seq<seq<JobId>>
    requires |a| >= 1
    decreases |a|
  {
    if |a| == 1 then [a] else SpreadAll(Permutations(a[1..]), a[0])
  }

  function Factorial(n: nat): nat {
    if n == 0 then 1 else n * Factorial(n - 1)
  }

  lemma {:induction false} SpreadAllCount(perms: seq<seq<JobId>>, x: JobId, m: nat)
    requires forall k | 0 <= k < |perms| :: |perms[k]| == m
    ensures |SpreadAll(perms, x)| == |perms| * (m + 1)
  {
    if perms != [] {
      var init := perms[..|perms| - 1];
      SpreadAllCount(init, x, m);
      assert |perms| * (m + 1) == |init| * (m + 1) + (m + 1);
    }
  }

  lemma {:induction false} PermutationsLength(a: seq<JobId>, p: seq<JobId>)
    requires |a| >= 1 && p in Permutations(a)
    ensures |p| == |a|
    decreases |a|
  {
    if |a| > 1 {
      SpreadAllMembers(Permutations(a[1..]), a[0], p);
      var p0 :| p0 in Permutations(a[1..]) && InsertionOf(p, p0, a[0]);
      var i :| 0 <= i <= |p0| && p == InsertAt(p0, a[0], i);
      PermutationsLength(a[1..], p0);
    }
  }

  /** A sequence of length `n` has `n!` permutations generated, and a single element only itself. */
  lemma {:induction false} PermutationsCount(a: seq<JobId>)
    requires |a| >= 1
    ensures |Permutations(a)| == Factorial(|a|)
    ensures |a| == 1 ==> Permutations(a) == [a]
    decreases |a|
  {
    if |a| > 1 {
      PermutationsCount(a[1..]);
      CountFromTail(a);
    }
  }

  /** Spreading the head over `(n - 1)!` tail permutations of length `n - 1` gives `n!`. */
  lemma CountFromTail(a: seq<JobId>)
    requires |a| >= 2 && |Permutations(a[1..])| == Factorial(|a| - 1)
    ensures |Permutations(a)| == Factorial(|a|)
  {
    var tail := Permutations(a[1..]);
    forall k | 0 <= k < |tail| ensures |tail[k]| == |a| - 1 {
      PermutationsLength(a[1..], tail[k]);
    }
    SpreadAllCount(tail, a[0], |a| - 1);
  }

  lemma {:induction false} SpreadUpToMembers(perm: seq<JobId>, x: JobId, n: nat, q: seq<JobId>)
    requires n <= |perm| + 1
    ensures q in SpreadUpTo(perm, x, n) <==> exists i | 0 <= i < n :: q == InsertAt(perm, x, i)
  {
    if n > 0 {
      SpreadUpToMembers(perm, x, n - 1, q);
    }
  }

  /** `q` is `p` with `x` inserted somewhere. */
  ghost predicate InsertionOf(q: seq<JobId>, p: seq<JobId>, x: JobId) {
    exists i | 0 <= i <= |p| :: q == InsertAt(p, x, i)
  }

  lemma SpreadMembers(perm: seq<JobId>, x: JobId, q: seq<JobId>)
    ensures q in Spread(perm, x) <==> InsertionOf(q, perm, x)
  {
    SpreadUpToMembers(perm, x, |perm| + 1, q);
  }

  lemma {:induction false} SpreadAllMembers(perms: seq<seq<JobId>>, x: JobId, q: seq<JobId>)
    ensures q in SpreadAll(perms, x) <==> exists p | p in perms :: InsertionOf(q, p, x)
  {
    if perms != [] {
      var init, last := perms[..|perms| - 1], perms[|perms| - 1];
      assert perms == init + [last];
      SpreadAllMembers(init, x, q);
      SpreadMembers(last, x, q);
      assert SpreadAll(perms, x) == SpreadAll(init, x) + Spread(last, x);
      if q in SpreadAll(perms, x) {
        if q in Spread(last, x) {
          assert last in perms;
        } else {
          var p :| p in init && InsertionOf(q, p, x);
          assert p in perms;
        }
      }
      if exists p | p in perms :: InsertionOf(q, p, x) {
        var p :| p in perms && InsertionOf(q, p, x);
        if p != last {
          assert p in init;
        }
      }
    }
  }

  lemma HeadCount(a: seq<JobId>)
    requires |a| >= 1
    ensures multiset(a) == multiset(a[1..]) + multiset{a[0]}
  {
    assert a == [a[0]] + a[1..];
  }

  /** Every generated sequence is a rearrangement of the input. */
  lemma {:induction false} PermutationsRearrange(a: seq<JobId>, p: seq<JobId>)
    requires |a| >= 1 && p in Permutations(a)
    ensures multiset(p) == multiset(a)
    decreases |a|
  {
    if |a| > 1 {
      var tail := Permutations(a[1..]);
      SpreadAllMembers(tail, a[0], p);
      var p0 :| p0 in tail && InsertionOf(p, p0, a[0]);
      var i :| 0 <= i <= |p0| && p == InsertAt(p0, a[0], i);
      PermutationsRearrange(a[1..], p0);
      HeadCount(a);
    }
  }

  /** `q` without its element at `i`, from which inserting that element back gives `q`. */
  function RemoveAt(q: seq<JobId>, i: nat): (rest: seq<JobId>)
    requires i < |q|
    ensures multiset(rest) == multiset(q) - multiset{q[i]}
    ensures InsertAt(rest, q[i], i) == q
  {
    assert q == q[..i] + [q[i]] + q[i + 1..];
    q[..i] + q[i + 1..]
  }

  /** Every rearrangement of the input is generated. */
  lemma {:induction false} PermutationsComplete(a: seq<JobId>, q: seq<JobId>)
    requires |a| >= 1 && multiset(q) == multiset(a)
    ensures q in Permutations(a)
    decreases |a|
  {
    if |a| == 1 {
      SingletonRearrangement(a, q);
    } else {
      var i := HeadPosition(a, q);
      var rest := RemoveAt(q, i);
      PermutationsComplete(a[1..], rest);
      assert InsertionOf(q, rest, a[0]);
      SpreadAllMembers(Permutations(a[1..]), a[0], q);
    }
  }

  /** The only rearrangement of a single element is itself. */
  lemma SingletonRearrangement(a: seq<JobId>, q: seq<JobId>)
    requires |a| == 1 && multiset(q) == multiset(a)
    ensures q == a
  {
    assert |q| == |a| by {
      assert |multiset(q)| == |q| && |multiset(a)| == |a|;
    }
    assert q[0] in multiset(a);
    assert a == [a[0]];
  }

  /** A rearrangement of `a` holds `a[0]` somewhere, and the rest of it rearranges `a[1..]`. */
  lemma HeadPosition(a: seq<JobId>, q: seq<JobId>) returns (i: nat)
    requires |a| >= 1 && multiset(q) == multiset(a)
    ensures i < |q| && q[i] == a[0]
    ensures multiset(q) - multiset{q[i]} == multiset(a[1..])
  {
    HeadCount(a);
    assert a[0] in multiset(q);
    i :| 0 <= i < |q| && q[i] == a[0];
  }
}
