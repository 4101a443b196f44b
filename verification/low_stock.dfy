/**
 * The low-stock edge trigger: a product update raises the alert only when its
 * stock goes from above the threshold to at or below it.
 */
module LowStock {

  /** Stock level at or below which a product counts as low. */
  const Threshold: int := 10

  predicate Above(stock: int) {
    stock > Threshold
  }

  /** The guard of the update handler, on the stock before and after the update. */
  predicate CrossesBelow(oldStock: int, newStock: int) {
    newStock <= Threshold && oldStock > Threshold
  }

  /** An update that takes the stock from low back above the threshold. */
  predicate Recovers(oldStock: int, newStock: int) {
    !Above(oldStock) && Above(newStock)
  }

  /** The guard is exactly a downward crossing of the threshold. */
  lemma GuardIsDownwardCrossing(oldStock: int, newStock: int)
    ensures CrossesBelow(oldStock, newStock) <==> Above(oldStock) && !Above(newStock)
    ensures CrossesBelow(oldStock, newStock) ==> newStock < oldStock
  {
  }

  /** An update that does not lower the stock never fires. */
  lemma NoIncreaseFires(oldStock: int, newStock: int)
    requires oldStock <= newStock
    ensures !CrossesBelow(oldStock, newStock)
  {
  }

  /** Of two consecutive updates a -> b -> c, at most one fires. */
  lemma NoConsecutiveFirings(a: int, b: int, c: int)
    ensures !(CrossesBelow(a, b) && CrossesBelow(b, c))
  {
  }

  /** Number of updates along a stock history that pass the guard. */
  function Firings(history: seq<int>): nat
  {
    if |history| < 2 then 0
    else (if CrossesBelow(history[0], history[1]) then 1 else 0) + Firings(history[1..])
  }

  /** Number of updates along a stock history that bring the stock back above the threshold. */
  function Recoveries(history: seq<int>): nat
  {
    if |history| < 2 then 0
    else (if Recovers(history[0], history[1]) then 1 else 0) + Recoveries(history[1..])
  }

  function AboveCount(stock: int): nat {
    if Above(stock) then 1 else 0
  }

  /**
   * Along any history, firings and recoveries alternate: their counts differ
   * only by where the history starts and ends relative to the threshold.
   */
  lemma {:induction false} FiringsAlternateWithRecoveries(history: seq<int>)
    requires |history| >= 1
    ensures Firings(history) + AboveCount(history[|history| - 1])
         == Recoveries(history) + AboveCount(history[0])
    decreases |history|
  {
    if |history| >= 2 {
      var tail := history[1..];
      FiringsAlternateWithRecoveries(tail);
      assert tail[|tail| - 1] == history[|history| - 1];
    }
  }

  /** The alert fires at most once more than the stock has recovered. */
  lemma {:induction false} AtMostOneFiringPerRecovery(history: seq<int>)
    requires |history| >= 1
    ensures Firings(history) <= Recoveries(history) + 1
    ensures !Above(history[0]) ==> Firings(history) <= Recoveries(history)
  {
    FiringsAlternateWithRecoveries(history);
  }
}
