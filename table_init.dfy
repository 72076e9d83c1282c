/**
 * What the two drivers' table-driven initialisation loops have in common:
 * each row is checked by asserts that halt the program when they fail.
 */
module TableInit {

  /**
   * The outcome of applying one table row to the registers of one unit (a
   * USART port, a DMA stream): either every step ran, or an assert failed and
   * the program halted with the writes made so far.
   */
  datatype RowResult<R> = Configured(regs: R) | Halted(regs: R)
  {
    predicate IsFailure() { Halted? }
    function PropagateFailure(): RowResult<R> requires Halted? { this }
    function Extract(): R requires Configured? { regs }
  }

  /** How an initialisation loop ended: it went through the table, or an assert on row `row` halted it. */
  datatype InitStatus = Done | AssertFailed(row: nat)

  /** An optional value, for what the rows of a table write to one unit, if any row names it. */
  datatype Option<T> = None | Some(value: T)
}
