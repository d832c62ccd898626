/** The join of the selected activity with the Finance Act table
    (the `financeAct.filter` in the effect of the page). */
module Fees {
  import opened Definitions
  import opened Sequences

  /** The Finance Act rows whose `NAICS` key equals `trade`: exactly those
      rows, in table order, with their multiplicity in the table. */
  function FeeJoin(financeAct: seq<FinancialAct>, trade: string): (r: seq<FinancialAct>)
    ensures IsSubsequence(r, financeAct)
    ensures forall row :: multiset(r)[row] == if row.NAICS == trade then multiset(financeAct)[row] else 0
    ensures forall row :: row in r <==> row in financeAct && row.NAICS == trade
    decreases |financeAct|
  {
    if financeAct == [] then []
    else
      var rest := FeeJoin(financeAct[1..], trade);
      assert financeAct == [financeAct[0]] + financeAct[1..];
      if financeAct[0].NAICS == trade then [financeAct[0]] + rest else rest
  }

  /** The join is empty exactly when no row of the table carries the trade key. */
  lemma FeeJoinEmpty(financeAct: seq<FinancialAct>, trade: string)
    ensures FeeJoin(financeAct, trade) == [] <==> forall row :: row in financeAct ==> row.NAICS != trade
  {
    var r := FeeJoin(financeAct, trade);
    if r != [] {
      assert r[0] in r;
    }
  }

  /** When every row carries the trade key, the join is the whole table. */
  lemma {:induction false} FeeJoinAll(financeAct: seq<FinancialAct>, trade: string)
    requires forall row :: row in financeAct ==> row.NAICS == trade
    ensures FeeJoin(financeAct, trade) == financeAct
    decreases |financeAct|
  {
    if financeAct != [] {
      assert financeAct[0] in financeAct;
      FeeJoinAll(financeAct[1..], trade);
    }
  }

  /** Joining the already joined rows again with the same key changes nothing. */
  lemma FeeJoinIdempotent(financeAct: seq<FinancialAct>, trade: string)
    ensures FeeJoin(FeeJoin(financeAct, trade), trade) == FeeJoin(financeAct, trade)
  {
    FeeJoinAll(FeeJoin(financeAct, trade), trade);
  }
}
