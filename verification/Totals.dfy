/** Sums over sequences. */
module Totals {

  function Total<T>(items: seq<T>, amount: T -> real): real {
    if items == [] then 0.0 else Total(items[..|items| - 1], amount) + amount(items[|items| - 1])
  }

  function TotalCount<T>(items: seq<T>, count: T -> int): int {
    if items == [] then 0 else TotalCount(items[..|items| - 1], count) + count(items[|items| - 1])
  }
}
