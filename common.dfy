/** Types shared by the account model, the transaction ledger and the engine. */
module Common {

  datatype Option<+T> = None | Some(value: T)

  /** A client identifier, a `u16` in the source. */
  type ClientId = x: int | 0 <= x < 0x1_0000

  /** A transaction identifier, a `u32` in the source. */
  type TxId = x: int | 0 <= x < 0x1_0000_0000

  /**
   * A money amount in fixed-point units of 1/10000 (the source keeps `f64`
   * and rounds to four decimals only when it prints). Unbounded, and signed:
   * the engine never rejects a negative amount.
   */
  type Money = int
}
