/**
 * The balance sheet of one payment channel: a map from participant name to
 * amount, as the channel record's `balances` object holds it, together with
 * the guarded debit/credit that a transfer applies to it.
 */
module Balances {

  type Party = string

  /** Participant name to balance. Amounts are exact integers. */
  type Sheet = map<Party, int>

  /** Sum of all balances on the sheet. */
  ghost function Total(m: Sheet): int
    decreases |m|
  {
    if m == map[] then 0
    else
      var k :| k in m;
      m[k] + Total(m - {k})
  }

  /**
   * The value `m[k] || 0` reads: an absent participant, like one whose
   * balance is 0, counts as 0.
   */
  function BalanceOf(m: Sheet, k: Party): int
  {
    if k in m then m[k] else 0
  }

  /**
   * The payer guard of a transfer. The payer is rejected when it has no
   * entry, when its balance is 0 (a falsy number), or when its balance is
   * below `amount`; the amount itself is not checked.
   */
  function Funded(m: Sheet, payer: Party, amount: int): (r: bool)
    ensures r <==> BalanceOf(m, payer) != 0 && BalanceOf(m, payer) >= amount
    ensures r ==> payer in m
  {
    payer in m && m[payer] != 0 && m[payer] >= amount
  }

  /**
   * The debit of the payer followed by the credit of the payee, in that
   * order, with a missing payee entry created.
   */
  function Settle(m: Sheet, payer: Party, payee: Party, amount: int): (r: Sheet)
    requires payer in m
    ensures r.Keys == m.Keys + {payee}
    ensures payer != payee ==> r[payer] == m[payer] - amount && r[payee] == BalanceOf(m, payee) + amount
    ensures payer == payee ==> r == m
    ensures forall k :: k in m && k != payer && k != payee ==> r[k] == m[k]
  {
    var debited := m[payer := m[payer] - amount];
    debited[payee := BalanceOf(debited, payee) + amount]
  }

  /** Every balance on the sheet is non-negative. */
  ghost predicate NonNegative(m: Sheet)
  {
    forall k :: k in m ==> m[k] >= 0
  }

  /** Removing any one participant splits the total into its balance and the rest. */
  lemma {:induction false} TotalRemove(m: Sheet, k: Party)
    requires k in m
    ensures Total(m) == m[k] + Total(m - {k})
    decreases |m|
  {
    var j :| j in m && Total(m) == m[j] + Total(m - {j});
    if j != k {
      var rest := m - {j} - {k};
      assert m - {j} - {k} == m - {k} - {j};
      assert |m - {j}| == |m| - 1 by {
        assert (m - {j}).Keys == m.Keys - {j};
      }
      assert |m - {k}| == |m| - 1 by {
        assert (m - {k}).Keys == m.Keys - {k};
      }
      TotalRemove(m - {j}, k);
      TotalRemove(m - {k}, j);
    }
  }

  /** Setting one balance changes the total by exactly the difference. */
  lemma TotalUpdate(m: Sheet, k: Party, v: int)
    ensures Total(m[k := v]) == Total(m) - BalanceOf(m, k) + v
  {
    TotalRemove(m[k := v], k);
    if k in m {
      assert m[k := v] - {k} == m - {k};
      TotalRemove(m, k);
    } else {
      assert m[k := v] - {k} == m;
    }
  }

  /** A settled transfer neither creates nor destroys value. */
  lemma SettleConserves(m: Sheet, payer: Party, payee: Party, amount: int)
    requires payer in m
    ensures Total(Settle(m, payer, payee, amount)) == Total(m)
  {
    var debited := m[payer := m[payer] - amount];
    var credit := BalanceOf(debited, payee) + amount;
    calc {
      Total(Settle(m, payer, payee, amount));
      { assert Settle(m, payer, payee, amount) == debited[payee := credit]; }
      Total(debited[payee := credit]);
      { TotalUpdate(debited, payee, credit); }
      Total(debited) - BalanceOf(debited, payee) + credit;
      Total(debited) + amount;
      { TotalUpdate(m, payer, m[payer] - amount); }
      Total(m);
    }
  }

  /**
   * A transfer of a non-negative amount that passed the payer guard keeps
   * every balance non-negative.
   */
  lemma SettleNonNegative(m: Sheet, payer: Party, payee: Party, amount: int)
    requires NonNegative(m) && Funded(m, payer, amount) && amount >= 0
    ensures NonNegative(Settle(m, payer, payee, amount))
  {
  }
}
