/**
 * answer_question_2_with_c_language.h: the best profit from one purchase
 * followed by one later sale, found in a single scan that keeps the lowest
 * price seen so far.
 */
module MaxProfit {

  /**
   * `p` is the best single-transaction profit on `prices`: at least every
   * sale at day k after a purchase at day j < k, never negative, and either
   * 0 (do not trade) or attained by such a pair.
   */
  ghost predicate IsBestProfit(prices: seq<int>, p: int) {
    && p >= 0
    && (forall j, k :: 0 <= j < k < |prices| ==> prices[k] - prices[j] <= p)
    && (p == 0 || exists j, k :: 0 <= j < k < |prices| && prices[k] - prices[j] == p)
  }

  /**
   * The scan of lines 16-27. `prices[0]` is read unconditionally, so the
   * list must be non-empty.
   */
  method BestProfit(prices: array<int>) returns (maxProfit: int)
    requires prices.Length >= 1
    ensures IsBestProfit(prices[..], maxProfit)
  {
    var minPrice := prices[0];
    maxProfit := 0;
    // the day of the lowest price so far, and a best purchase and sale
    ghost var minDay, buy, sell := 0, 0, 0;
    for i := 1 to prices.Length
      // minPrice is the minimum of prices[0..i)
      invariant 0 <= minDay < i && prices[minDay] == minPrice
      invariant forall j :: 0 <= j < i ==> minPrice <= prices[j]
      // maxProfit is the best profit within prices[0..i)
      invariant maxProfit >= 0
      invariant forall j, k :: 0 <= j < k < i ==> prices[k] - prices[j] <= maxProfit
      invariant maxProfit == 0 || (0 <= buy < sell < i && prices[sell] - prices[buy] == maxProfit)
    {
      // the sale at day i is priced against purchases strictly before it
      var profit := prices[i] - minPrice;
      if profit > maxProfit {
        maxProfit := profit;
        buy, sell := minDay, i;
      }
      if prices[i] < minPrice {
        minPrice := prices[i];
        minDay := i;
      }
    }
    ghost var s := prices[..];
    assert forall j :: 0 <= j < |s| ==> s[j] == prices[j];
  }

  /** The best profit is determined uniquely. */
  lemma BestProfitUnique(prices: seq<int>, p1: int, p2: int)
    requires IsBestProfit(prices, p1) && IsBestProfit(prices, p2)
    ensures p1 == p2
  {
  }

  /** On a single day nothing can be gained. */
  lemma SingleDayZero(x: int, p: int)
    requires IsBestProfit([x], p)
    ensures p == 0
  {
  }

  /** Prices that never rise from one day to the next. */
  ghost predicate NonIncreasing(prices: seq<int>) {
    forall i :: 0 < i < |prices| ==> prices[i] <= prices[i - 1]
  }

  lemma {:induction false} NonIncreasingOrdered(prices: seq<int>, j: nat, k: nat)
    requires NonIncreasing(prices) && j < k < |prices|
    ensures prices[k] <= prices[j]
    decreases k - j
  {
    if j + 1 < k {
      NonIncreasingOrdered(prices, j + 1, k);
    }
  }

  /** Prices that never rise give no profit. */
  lemma NonIncreasingZero(prices: seq<int>, p: int)
    requires NonIncreasing(prices) && IsBestProfit(prices, p)
    ensures p == 0
  {
    if p != 0 {
      var j, k :| 0 <= j < k < |prices| && prices[k] - prices[j] == p;
      NonIncreasingOrdered(prices, j, k);
    }
  }
}
