/** Entries of the daily recommendation snapshot. */
module Stocks {

  /** One recommended stock: a `[code, name]` pair of the snapshot's
      `top1`, `top3` and `top10` lists. */
  datatype Stock = Stock(code: string, name: string)
}
