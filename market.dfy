/** The sale model of the sell action (app.py:143-153). For every lot held the
    player names a price, each unit is one weighted 0/1 draw, and the number of
    units sold is the sum of the draws. The floating-point weights are not modelled:
    the draws themselves are given. */
module Market {
  import opened Ledger

  /** A result of `random.choices([1, 0], ..., k)`: every draw is 0 or 1. */
  predicate Trials(d: seq<int>) {
    forall j :: 0 <= j < |d| ==> d[j] == 0 || d[j] == 1
  }

  /** The number of units sold: the sum of the draws. Never more than were drawn
      for, never negative; all of them exactly when every draw succeeds, none
      exactly when every draw fails. */
  function SaleCount(d: seq<int>): (n: int)
    requires Trials(d)
    ensures 0 <= n <= |d|
    ensures n == |d| <==> forall j :: 0 <= j < |d| ==> d[j] == 1
    ensures n == 0 <==> forall j :: 0 <= j < |d| ==> d[j] == 0
  {
    if d == [] then 0
    else
      assert forall j :: 0 <= j < |d| - 1 ==> d[1..][j] == d[j + 1];
      d[0] + SaleCount(d[1..])
  }

  /** The draws fit the lots in `order`: one list of draws per lot, every lot held. */
  predicate Fits(inv: Inventory, order: seq<Item>, trials: seq<seq<int>>) {
    && |trials| == |order|
    && forall k :: 0 <= k < |order| ==> order[k] in inv && Trials(trials[k])
  }

  /** What the sell action demands of its inputs: one positive price and one list of
      draws per lot, in dict order, each list as long as the lot's count. */
  predicate SaleInputs(inv: Inventory, order: seq<Item>, prices: seq<int>, trials: seq<seq<int>>) {
    && Fits(inv, order, trials)
    && |prices| == |order|
    && forall k :: 0 <= k < |order| ==> prices[k] > 0 && |trials[k]| == inv[order[k]]
  }

  /** The inventory after selling from the first `n` lots of `order`, one after the
      other. */
  function AfterSales(inv: Inventory, order: seq<Item>, trials: seq<seq<int>>, n: nat): (r: Inventory)
    requires Fits(inv, order, trials) && n <= |order|
    ensures r.Keys == inv.Keys
  {
    if n == 0 then inv
    else
      var prev := AfterSales(inv, order, trials, n - 1);
      prev[order[n - 1] := prev[order[n - 1]] - SaleCount(trials[n - 1])]
  }

  /** The takings from the first `n` lots: each lot's price times the units it sold. */
  function Revenue(prices: seq<int>, trials: seq<seq<int>>, n: nat): (r: int)
    requires |prices| == |trials| && n <= |trials|
    requires forall k :: 0 <= k < |trials| ==> Trials(trials[k])
    ensures (forall k :: 0 <= k < |prices| ==> prices[k] >= 0) ==> r >= 0
  {
    if n == 0 then 0
    else Revenue(prices, trials, n - 1) + prices[n - 1] * SaleCount(trials[n - 1])
  }

  /** A lot the first `n` sales do not visit keeps its count. */
  lemma {:induction false} AfterSalesElsewhere(inv: Inventory, order: seq<Item>, trials: seq<seq<int>>, n: nat, it: Item)
    requires Fits(inv, order, trials) && n <= |order| && it in inv
    requires forall j :: 0 <= j < n ==> order[j] != it
    ensures AfterSales(inv, order, trials, n)[it] == inv[it]
  {
    if n != 0 {
      AfterSalesElsewhere(inv, order, trials, n - 1, it);
    }
  }

  /** A lot visited once loses exactly the units its own draws sold. */
  lemma {:induction false} AfterSalesAt(inv: Inventory, order: seq<Item>, trials: seq<seq<int>>, n: nat, k: int)
    requires Fits(inv, order, trials) && Distinct(order) && 0 <= k < n <= |order|
    ensures AfterSales(inv, order, trials, n)[order[k]] == inv[order[k]] - SaleCount(trials[k])
  {
    if k == n - 1 {
      AfterSalesElsewhere(inv, order, trials, n - 1, order[k]);
    } else {
      assert order[k] != order[n - 1];
      AfterSalesAt(inv, order, trials, n - 1, k);
    }
  }

  /** A sale never drives a count negative: every lot draws once per unit held, so
      it sells at most what it holds. */
  lemma SalesKeepStock(inv: Inventory, order: seq<Item>, prices: seq<int>, trials: seq<seq<int>>)
    requires Lists(order, inv) && NonNegative(inv) && SaleInputs(inv, order, prices, trials)
    ensures NonNegative(AfterSales(inv, order, trials, |order|))
  {
    var r := AfterSales(inv, order, trials, |order|);
    forall it | it in r ensures r[it] >= 0 {
      var k :| 0 <= k < |order| && order[k] == it;
      AfterSalesAt(inv, order, trials, |order|, k);
    }
  }
}
