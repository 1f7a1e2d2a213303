/** How the two transfer counters follow the remote cumulative byte totals. */
module Counters {

  /** Counter values are 64-bit unsigned in the metrics library. */
  const U64Modulus: int := 0x1_0000_0000_0000_0000
  type U64 = x: int | 0 <= x < U64Modulus

  /** The increment the status half applies: `remote - local`, defined only when it does not underflow. */
  function Increment(local: nat, remote: nat): (d: nat)
    requires local <= remote
    ensures local + d == remote
  {
    remote - local
  }

  /** Unsigned subtraction as a release build performs it: modulo 2^64. */
  function WrappingSub(a: U64, b: U64): (r: U64)
    ensures a >= b ==> r == a - b
    ensures a < b ==> r == a - b + U64Modulus
  {
    (a - b) % U64Modulus
  }

  /** `inc_by` on the counter's atomic cell: an addition modulo 2^64. */
  function WrappingAdd(a: U64, b: U64): (r: U64)
    ensures a + b < U64Modulus ==> r == a + b
    ensures a + b >= U64Modulus ==> r == a + b - U64Modulus
  {
    (a + b) % U64Modulus
  }

  /** The counter after one status update as written, without overflow checks: it simply becomes `remote`. */
  function CounterAfterAsWritten(local: U64, remote: U64): (c: U64)
    ensures c == remote
  {
    WrappingAdd(local, WrappingSub(remote, local))
  }

  /** As written, a remote reset (downloaded 500 locally, remote now reports 200) takes the counter down. */
  lemma RegressionLowersCounterAsWritten()
    ensures CounterAfterAsWritten(500, 200) == 200 < 500
  {
  }

  /** The intended reconciliation: apply `remote - local` when it is non-negative, else an increment of zero. */
  function Reconcile(local: nat, remote: nat): (c: nat)
    ensures c >= local
    ensures remote >= local ==> c == remote
    ensures remote < local ==> c == local
  {
    local + (if remote >= local then remote - local else 0)
  }

  /** Where the remote total has not gone backwards, the source and the reconciliation agree. */
  lemma ReconcileAgreesWithSource(local: U64, remote: U64)
    requires local <= remote
    ensures Reconcile(local, remote) == local + Increment(local, remote) == CounterAfterAsWritten(local, remote)
  {
  }

  /** The counter after reconciling, in order, every remote total of `vs`, starting from `start`. */
  function Run(start: nat, vs: seq<nat>): nat
    decreases |vs|
  {
    if vs == [] then start else Reconcile(Run(start, vs[..|vs| - 1]), vs[|vs| - 1])
  }

  ghost predicate NonDecreasing(vs: seq<nat>)
  {
    forall i, j :: 0 <= i <= j < |vs| ==> vs[i] <= vs[j]
  }

  /** The largest of `start` and the values of `vs`. */
  function MaxOf(start: nat, vs: seq<nat>): nat
    decreases |vs|
  {
    if vs == [] then start
    else
      var m := MaxOf(start, vs[..|vs| - 1]);
      if vs[|vs| - 1] > m then vs[|vs| - 1] else m
  }

  /** The reconciled counter is the running maximum of the remote totals it has seen. */
  lemma {:induction false} RunIsRunningMax(start: nat, vs: seq<nat>)
    ensures Run(start, vs) == MaxOf(start, vs)
    decreases |vs|
  {
    if vs != [] {
      RunIsRunningMax(start, vs[..|vs| - 1]);
    }
  }

  /** One more cycle never lowers the reconciled counter. */
  lemma RunNeverDecreases(start: nat, vs: seq<nat>, v: nat)
    ensures Run(start, vs + [v]) >= Run(start, vs)
  {
    assert (vs + [v])[..|vs|] == vs;
  }

  /** When the remote totals never go backwards, the counter equals the latest of them exactly. */
  lemma {:induction false} RunTracksNonDecreasing(vs: seq<nat>)
    requires vs != [] && NonDecreasing(vs)
    ensures Run(0, vs) == vs[|vs| - 1]
    decreases |vs|
  {
    var n := |vs| - 1;
    if n > 0 {
      var prefix := vs[..n];
      assert NonDecreasing(prefix) by {
        forall i, j | 0 <= i <= j < |prefix| ensures prefix[i] <= prefix[j] {
          assert prefix[i] == vs[i] && prefix[j] == vs[j];
        }
      }
      RunTracksNonDecreasing(prefix);
      assert prefix[n - 1] == vs[n - 1] <= vs[n];
    }
  }

  /** After a remote total that falls below the counter, the counter keeps its previous value. */
  lemma RegressionLeavesRunUnchanged(start: nat, vs: seq<nat>, v: nat)
    requires v < Run(start, vs)
    ensures Run(start, vs + [v]) == Run(start, vs)
  {
    assert (vs + [v])[..|vs|] == vs;
  }
}
