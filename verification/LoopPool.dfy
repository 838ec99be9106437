/**
The pool of I/O loops and its round-robin choice: the server asks it for a home loop once for every
connection it accepts.
*/
module LoopPool {

  type LoopId = nat

  class Pool {
    const base: LoopId
    var loops: seq<LoopId>
    var nextIdx: nat
    /** How many calls the loops of the pool have answered. */
    ghost var served: nat

    ghost predicate Valid()
      reads this
    {
      if loops == [] then nextIdx == 0 && served == 0 else nextIdx == served % |loops|
    }

    constructor (base: LoopId)
      ensures Valid() && loops == [] && served == 0 && this.base == base
    {
      this.base := base;
      loops, nextIdx, served := [], 0, 0;
    }

    /** `started` are the loops that the pool's threads report, in the order the threads are started. */
    method Start(started: seq<LoopId>)
      requires Valid() && loops == []
      modifies this
      ensures Valid() && loops == started && served == 0
    {
      for i := 0 to |started|
        invariant loops == started[..i] && nextIdx == 0 && served == 0
      {
        loops := loops + [started[i]];
      }
      assert loops != [] ==> 0 % |loops| == 0;
    }

    /** The k-th answer (from zero) is loop k mod N; a pool without threads always gives the base loop. */
    method GetNextLoop() returns (l: LoopId)
      requires Valid()
      modifies this`nextIdx, this`served
      ensures Valid()
      ensures loops == [] ==> l == base && served == old(served)
      ensures loops != [] ==> l == loops[old(served) % |loops|] && served == old(served) + 1
    {
      l := base;
      if loops != [] {
        l := loops[nextIdx];
        NextIndex(served, |loops|);
        nextIdx := (nextIdx + 1) % |loops|;
        served := served + 1;
      }
    }

    /** The homes of the next `count` connections, spread evenly over the loops wherever the pool is in its round. */
    method HomesFor(count: nat) returns (homes: seq<LoopId>)
      requires Valid() && loops != []
      modifies this`nextIdx, this`served
      ensures Valid() && served == old(served) + count
      ensures |homes| == count && forall i :: 0 <= i < count ==> homes[i] == loops[(old(served) + i) % |loops|]
      ensures Distinct(loops) ==> forall i, j :: 0 <= i < |loops| && 0 <= j < |loops| ==>
        multiset(homes)[loops[i]] <= multiset(homes)[loops[j]] + 1
    {
      homes := [];
      for i := 0 to count
        invariant Valid() && served == old(served) + i && |homes| == i
        invariant forall j :: 0 <= j < i ==> homes[j] == loops[(old(served) + j) % |loops|]
        invariant homes == Homes(loops, old(served), i)
      {
        var l := GetNextLoop();
        homes := homes + [l];
      }
      if Distinct(loops) {
        RoundRobinFair(loops, old(served), count);
      }
    }
  }

  /** Loop k mod N answers call k; these are the answers to `count` calls from call number `start` on. */
  function Homes(loops: seq<LoopId>, start: nat, count: nat): seq<LoopId>
    requires loops != []
  {
    if count == 0 then [] else Homes(loops, start, count - 1) + [loops[(start + count - 1) % |loops|]]
  }

  ghost predicate Distinct(loops: seq<LoopId>) {
    forall i, j :: 0 <= i < j < |loops| ==> loops[i] != loops[j]
  }

  lemma NextIndex(k: nat, n: nat)
    requires n > 0
    ensures (k % n + 1) % n == (k + 1) % n
  {
    var q, r := k / n, k % n;
    assert k == q * n + r;
    if r + 1 < n {
      DivMod(q, r + 1, n);
      DivMod(0, r + 1, n);
    } else {
      assert (q + 1) * n == q * n + n;
      DivMod(q + 1, 0, n);
      DivMod(1, 0, n);
    }
  }

  lemma {:induction false} MulAtLeast(d: nat, n: nat)
    requires d > 0
    ensures d * n >= n
  {
    if d > 1 {
      MulAtLeast(d - 1, n);
      assert d * n == (d - 1) * n + n;
    }
  }

  lemma FarFromZero(d: int, n: nat)
    requires d != 0
    ensures d * n >= n || -(d * n) >= n
  {
    if d > 0 {
      MulAtLeast(d, n);
    } else {
      MulAtLeast(-d, n);
      assert -(d * n) == (-d) * n;
    }
  }

  /** Quotient and remainder are unique. */
  lemma DivMod(q: nat, r: nat, n: nat)
    requires r < n
    ensures (q * n + r) / n == q && (q * n + r) % n == r
  {
    var x := q * n + r;
    var d := x / n - q;
    assert d * n == (x / n) * n - q * n;
    assert d * n == r - x % n;
    if d != 0 {
      FarFromZero(d, n);
    }
  }

  /** How many of the first `m` answers of a pool of `n` loops are loop number `i`. */
  function Share(n: nat, i: nat, m: nat): nat
    requires n > 0
  {
    if m == 0 then 0 else Share(n, i, m - 1) + if (m - 1) % n == i then 1 else 0
  }

  /** After `q` full rounds and `r` more answers every loop has `q`, and the first `r` loops one more. */
  lemma {:induction false} ShareFormula(n: nat, i: nat, q: nat, r: nat, m: nat)
    requires i < n && r < n && m == q * n + r
    ensures Share(n, i, m) == q + if i < r then 1 else 0
    decreases m
  {
    if r > 0 {
      ShareStep(n, q, r - 1, m - 1);
      ShareFormula(n, i, q, r - 1, m - 1);
    } else if q > 0 {
      MulAtLeast(q, n);
      assert m - 1 == (q - 1) * n + (n - 1);
      ShareStep(n, q - 1, n - 1, m - 1);
      ShareFormula(n, i, q - 1, n - 1, m - 1);
    }
  }

  lemma ShareStep(n: nat, q: nat, r: nat, m: nat)
    requires r < n && m == q * n + r
    ensures m % n == r
  {
    DivMod(q, r, n);
  }

  lemma CountOneMore(s: seq<LoopId>, loops: seq<LoopId>, k: nat, i: nat)
    requires Distinct(loops) && i < |loops| && k < |loops|
    ensures multiset(s + [loops[k]])[loops[i]] == multiset(s)[loops[i]] + if k == i then 1 else 0
  {
    assert loops[k] == loops[i] <==> k == i;
  }

  /** How often a loop occurs among the answers. */
  lemma {:induction false} HomeCount(loops: seq<LoopId>, start: nat, count: nat, i: nat)
    requires Distinct(loops) && i < |loops|
    ensures Share(|loops|, i, start) + multiset(Homes(loops, start, count))[loops[i]]
         == Share(|loops|, i, start + count)
  {
    if count > 0 {
      HomeCount(loops, start, count - 1, i);
      CountOneMore(Homes(loops, start, count - 1), loops, (start + count - 1) % |loops|, i);
    }
  }

  /** Fairness: among any number of consecutive answers two loops occur equally often, give or take one. */
  lemma {:induction false} RoundRobinFair(loops: seq<LoopId>, start: nat, count: nat)
    requires Distinct(loops) && loops != []
    ensures forall i, j :: 0 <= i < |loops| && 0 <= j < |loops| ==>
      multiset(Homes(loops, start, count))[loops[i]] <= multiset(Homes(loops, start, count))[loops[j]] + 1
  {
    forall i, j | 0 <= i < |loops| && 0 <= j < |loops|
      ensures multiset(Homes(loops, start, count))[loops[i]] <= multiset(Homes(loops, start, count))[loops[j]] + 1
    {
      HomeCount(loops, start, count, i);
      HomeCount(loops, start, count, j);
      ShareBalance(|loops|, i, j, start, start + count);
    }
  }

  lemma {:induction false} ShareBalance(n: nat, i: nat, j: nat, from: nat, to: nat)
    requires i < n && j < n
    ensures Share(n, i, to) - Share(n, i, from) <= Share(n, j, to) - Share(n, j, from) + 1
  {
    ShareOf(n, i, from);
    ShareOf(n, j, from);
    ShareOf(n, i, to);
    ShareOf(n, j, to);
  }

  lemma ShareOf(n: nat, i: nat, m: nat)
    requires i < n
    ensures Share(n, i, m) == m / n + if i < m % n then 1 else 0
  {
    assert m == m / n * n + m % n;
    ShareFormula(n, i, m / n, m % n, m);
  }
}
