/** The sum of all values of a map of balances. */
module Totals {
  ghost function Total(balances: map<string, real>): real {
    if balances == map[] then 0.0
    else var a :| a in balances; balances[a] + Total(balances - {a})
  }

  lemma {:induction false} TotalSplits(balances: map<string, real>, a: string)
    requires a in balances
    ensures Total(balances) == balances[a] + Total(balances - {a})
    decreases |balances|
  {
    var b :| b in balances && Total(balances) == balances[b] + Total(balances - {b});
    if a == b {
    } else {
      TotalSplits(balances - {b}, a);
      TotalSplits(balances - {a}, b);
      assert balances - {a} - {b} == balances - {b} - {a};
    }
  }

  lemma TotalUpdates(balances: map<string, real>, a: string, amount: real)
    ensures Total(balances[a := amount]) == Total(balances) + amount - (if a in balances then balances[a] else 0.0)
  {
    var after := balances[a := amount];
    TotalSplits(after, a);
    if a in balances {
      TotalSplits(balances, a);
      assert after - {a} == balances - {a};
    } else {
      assert after - {a} == balances;
    }
  }
}
