/**
 * Balance maps shared by the token contract and the exchange contract.
 *
 * Both contracts keep Solidity mappings from a key to an unsigned amount. A
 * Solidity mapping reads 0 for a key that was never written, so a map here is
 * always read through `Get`, and two maps that agree under `Get` describe the
 * same contract storage.
 */
module Ledger {

  /** An account address. Address 0 is the zero address. */
  type Address = nat

  const ZeroAddress: Address := 0

  /** The address of a deployed contract, which is never the zero address. */
  type ContractAddress = a: Address | a != ZeroAddress witness 1

  /** The largest value a Solidity `uint256` holds, 2^256 - 1. */
  const MaxUint256: nat := 0xffff_ffff_ffff_ffff_ffff_ffff_ffff_ffff_ffff_ffff_ffff_ffff_ffff_ffff_ffff_ffff

  /** The mapping read: the stored amount, or 0 for a key never written. */
  function Get<K>(m: map<K, nat>, k: K): nat
  {
    if k in m then m[k] else 0
  }

  /** The sum of all amounts in a map (for a token: its circulating supply). */
  ghost function Sum<K>(m: map<K, nat>): nat
    decreases |m|
  {
    if m == map[] then 0
    else
      var k :| k in m;
      m[k] + Sum(m - {k})
  }

  /** Removing one key takes exactly its amount out of the sum, whichever key is removed. */
  lemma {:induction false} SumRemove<K>(m: map<K, nat>, k: K)
    requires k in m
    ensures Sum(m) == m[k] + Sum(m - {k})
    decreases |m|
  {
    var j :| j in m && Sum(m) == m[j] + Sum(m - {j});
    if j != k {
      assert |m - {j}| < |m| by { assert (m - {j}).Keys < m.Keys; }
      assert |m - {k}| < |m| by { assert (m - {k}).Keys < m.Keys; }
      SumRemove(m - {j}, k);
      SumRemove(m - {k}, j);
      assert m - {j} - {k} == m - {k} - {j};
    }
  }

  /** Overwriting one key changes the sum by the difference between the new and the old amount. */
  lemma {:induction false} SumUpdate<K>(m: map<K, nat>, k: K, v: nat)
    ensures Sum(m[k := v]) + Get(m, k) == Sum(m) + v
  {
    SumRemove(m[k := v], k);
    assert m[k := v] - {k} == m - {k};
    if k in m {
      SumRemove(m, k);
    } else {
      assert m - {k} == m;
    }
  }

  /** A map holding one key has that key's amount as its sum. */
  lemma SumSingleton<K>(k: K, v: nat)
    ensures Sum(map[k := v]) == v
  {
    var m: map<K, nat> := map[];
    SumUpdate(m, k, v);
    assert m[k := v] == map[k := v];
  }

  /** No single balance exceeds the sum of all balances. */
  lemma {:induction false} GetAtMostSum<K>(m: map<K, nat>, k: K)
    ensures Get(m, k) <= Sum(m)
  {
    if k in m {
      SumRemove(m, k);
    }
  }

  /** Adds `v` to the amount under `k`; nothing else changes. */
  function Credit<K>(m: map<K, nat>, k: K, v: nat): (r: map<K, nat>)
    ensures Get(r, k) == Get(m, k) + v
    ensures forall j :: j in m.Keys + r.Keys && j != k ==> Get(r, j) == Get(m, j)
    ensures Sum(r) == Sum(m) + v
  {
    SumUpdate(m, k, Get(m, k) + v);
    m[k := Get(m, k) + v]
  }

  /** Takes `v` from the amount under `k`, which holds at least `v`; nothing else changes. */
  function Debit<K>(m: map<K, nat>, k: K, v: nat): (r: map<K, nat>)
    requires v <= Get(m, k)
    ensures Get(r, k) == Get(m, k) - v
    ensures forall j :: j in m.Keys + r.Keys && j != k ==> Get(r, j) == Get(m, j)
    ensures Sum(r) + v == Sum(m)
  {
    SumUpdate(m, k, Get(m, k) - v);
    m[k := Get(m, k) - v]
  }

  /**
   * Moves `v` from `from` to `to` (first the debit, then the credit, so a move
   * to oneself leaves the amount as it was). The sum is conserved.
   */
  function Move<K>(m: map<K, nat>, from: K, to: K, v: nat): (r: map<K, nat>)
    requires v <= Get(m, from)
    ensures from != to ==> Get(r, from) == Get(m, from) - v && Get(r, to) == Get(m, to) + v
    ensures from == to ==> Get(r, from) == Get(m, from)
    ensures forall j :: j in m.Keys + r.Keys && j != from && j != to ==> Get(r, j) == Get(m, j)
    ensures Sum(r) == Sum(m)
  {
    Credit(Debit(m, from, v), to, v)
  }

  /** Two maps that read the same under every key. */
  ghost predicate SameBalances<K>(m: map<K, nat>, n: map<K, nat>)
  {
    forall k :: k in m.Keys + n.Keys ==> Get(m, k) == Get(n, k)
  }

  /** A debit of what was just credited restores every balance. */
  lemma DebitUndoesCredit<K>(m: map<K, nat>, k: K, v: nat)
    ensures SameBalances(Debit(Credit(m, k, v), k, v), m)
  {
  }
}
