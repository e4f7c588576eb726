/** The sum of all balances, the quantity that every ledger handler must keep equal to the
    total supply, and the facts about it that the conservation proofs use. */
module Sums {
  import opened Types

  ghost function Sum(balances: map<Address, U128>): nat
    decreases |balances|
  {
    if balances == map[] then 0
    else
      var k :| k in balances;
      assert |balances - {k}| < |balances| by {
        assert (balances - {k}).Keys == balances.Keys - {k};
      }
      balances[k] + Sum(balances - {k})
  }

  /** Taking any one account out of the sum removes exactly its balance, whichever account
      the definition of Sum happens to pick first. */
  lemma {:induction false} SumRemove(balances: map<Address, U128>, k: Address)
    requires k in balances
    ensures Sum(balances) == balances[k] + Sum(balances - {k})
    decreases |balances|
  {
    var j :| j in balances && Sum(balances) == balances[j] + Sum(balances - {j});
    if j != k {
      assert (balances - {j}).Keys == balances.Keys - {j};
      assert (balances - {k}).Keys == balances.Keys - {k};
      SumRemove(balances - {j}, k);
      SumRemove(balances - {k}, j);
      assert balances - {j} - {k} == balances - {k} - {j};
    }
  }

  /** Writing one balance changes the sum by the difference between the new and the old value. */
  lemma SumUpdate(balances: map<Address, U128>, k: Address, v: U128)
    ensures Sum(balances[k := v]) + BalanceOf(balances, k) == Sum(balances) + v
  {
    var updated := balances[k := v];
    SumRemove(updated, k);
    if k in balances {
      SumRemove(balances, k);
      assert updated - {k} == balances - {k};
    } else {
      assert updated - {k} == balances;
    }
  }

  /** No single balance exceeds the sum of all balances. */
  lemma BalanceAtMostSum(balances: map<Address, U128>, k: Address)
    ensures BalanceOf(balances, k) <= Sum(balances)
  {
    if k in balances {
      SumRemove(balances, k);
    }
  }

  /** Two distinct balances together do not exceed the sum of all balances. */
  lemma TwoBalancesAtMostSum(balances: map<Address, U128>, a: Address, b: Address)
    requires a != b
    ensures BalanceOf(balances, a) + BalanceOf(balances, b) <= Sum(balances)
  {
    if a in balances {
      SumRemove(balances, a);
      BalanceAtMostSum(balances - {a}, b);
      assert BalanceOf(balances - {a}, b) == BalanceOf(balances, b);
    } else {
      BalanceAtMostSum(balances, b);
    }
  }
}
