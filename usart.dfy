/**
 * The USART driver: table-driven initialisation of CR1, CR2, CR3 and BRR,
 * a blocking NUL-terminated transmit and a blocking one-byte receive.
 *
 * The registers of the three ports live in one `UsartRegisters` object, one
 * array per register indexed by port, as the driver's pointer tables are.
 * What initialisation does to them is given by the pure functions `ApplyRow`
 * (one table row on one port's registers) and `Run` (a whole table on all
 * ports); the methods are proved to do exactly that.
 *
 * The status register is not state here: the hardware sets TXE and RXNE on
 * its own, so the values that successive reads of SR return are an input
 * (`status`). A finite `status` that never shows the awaited flag stands for
 * a busy-wait that does not end.
 */
module Usart {
  import opened CTypes
  import opened RegisterBits
  import opened TableInit
  import opened UsartCfg

  // Bit positions from RM0368, section 19.6.
  const CR1_RE: bv32 := 0x0000_0004     // bit 2: receiver enable
  const CR1_TE: bv32 := 0x0000_0008     // bit 3: transmitter enable
  const CR1_PCE: bv32 := 0x0000_0400    // bit 10: parity control enable
  const CR1_M: bv32 := 0x0000_1000      // bit 12: word length
  const CR1_UE: bv32 := 0x0000_2000     // bit 13: USART enable
  const CR2_STOP_0: bv32 := 0x0000_1000 // bit 12: STOP[0]
  const CR2_STOP_1: bv32 := 0x0000_2000 // bit 13: STOP[1]
  const CR3_DMAR: bv32 := 0x0000_0040   // bit 6: DMA enable receiver
  const CR3_DMAT: bv32 := 0x0000_0080   // bit 7: DMA enable transmitter
  const SR_RXNE: bv32 := 0x0000_0020    // bit 5: read data register not empty
  const SR_TXE: bv32 := 0x0000_0080     // bit 7: transmit data register empty

  /** The bits of each control register that initialisation writes. */
  const CR1_INIT_BITS: bv32 := CR1_M | CR1_PCE | CR1_RE | CR1_TE | CR1_UE
  const CR2_INIT_BITS: bv32 := CR2_STOP_0 | CR2_STOP_1
  const CR3_INIT_BITS: bv32 := CR3_DMAR | CR3_DMAT

  /** The registers of one port that initialisation touches. */
  datatype PortRegs = PortRegs(cr1: bv32, cr2: bv32, cr3: bv32, brr: bv32)

  /** The register state of all ports after initialisation, and how it ended. */
  datatype InitResult = InitResult(ports: seq<PortRegs>, status: InitStatus)

  /** Whole division by a positive divisor never reverses an order. */
  lemma DivMonotone(a: nat, b: nat, d: nat)
    requires a <= b && d > 0
    ensures a / d <= b / d
  {
    var qa, qb := a / d, b / d;
    assert qa * d + a % d == a && qb * d + b % d == b;
    assert qa * d < (qb + 1) * d;
  }

  /** Reducing modulo a positive number never makes a natural number larger. */
  lemma ModAtMost(x: nat, m: nat)
    requires m > 0
    ensures x % m <= x
  {
    if x >= m {
      assert x % m < m <= x;
    }
  }

  /** Wrapping the sum to 32 bits and the quotient to 16 bits can only make the quotient smaller. */
  lemma WrapAndTruncateLower(sum: nat, divisor: nat)
    requires divisor > 0
    ensures (sum % 0x1_0000_0000 / divisor) % 0x1_0000 <= sum / divisor
  {
    var wrapped := sum % 0x1_0000_0000;
    assert wrapped <= sum by { ModAtMost(sum, 0x1_0000_0000); }
    var quotient := wrapped / divisor;
    assert quotient <= sum / divisor by { DivMonotone(wrapped, sum, divisor); }
    assert quotient % 0x1_0000 <= quotient by { ModAtMost(quotient, 0x1_0000); }
  }

  /**
   * USART_baudRateCalculate: the divisor rounded to nearest, computed in
   * 32-bit unsigned arithmetic and truncated to 16 bits on return. The wrap
   * and the truncation can only lower it below the rounded quotient.
   */
  function BaudRateCalculate(peripheralClock: uint32, baudRate: uint32): (r: uint16)
    requires baudRate > 0
    ensures r <= (peripheralClock + baudRate / 2) / baudRate
  {
    WrapAndTruncateLower(peripheralClock + baudRate / 2, baudRate);
    ((peripheralClock + baudRate / 2) % 0x1_0000_0000 / baudRate) % 0x1_0000
  }

  /** The CR2.STOP field for a StopBits ordinal below the sentinel: the ordinal as a two-bit number. */
  function StopValue(stopBits: nat): bv32 {
    if stopBits == STOP_BITS_1 then 0
    else if stopBits == STOP_BITS_0_5 then CR2_STOP_0
    else if stopBits == STOP_BITS_2 then CR2_STOP_1
    else CR2_STOP_0 | CR2_STOP_1
  }

  // Each if/else-if chain of USART_init's loop body, as the change it makes to
  // the port. For a two-valued setting the chain sets the flag for one value
  // and clears it for the other, so a value below the sentinel overwrites the
  // flag with whether it is the "on" value; any other value fails the closing
  // assert and writes nothing.

  /** The word length: bit M set for nine data bits. */
  function WordLengthStep(c: PortRegs, wordLength: nat): RowResult<PortRegs> {
    if wordLength < WORD_LENGTH_MAX then Configured(c.(cr1 := Overwrite(c.cr1, CR1_M, Flag(wordLength == WORD_LENGTH_9, CR1_M))))
    else Halted(c)
  }

  /** The stop bits: both STOP bits overwritten with the ordinal. */
  function StopBitsStep(c: PortRegs, stopBits: nat): RowResult<PortRegs> {
    if stopBits < STOP_BITS_MAX then Configured(c.(cr2 := Overwrite(c.cr2, CR2_INIT_BITS, StopValue(stopBits))))
    else Halted(c)
  }

  /** Parity: bit PCE set when parity is enabled. */
  function ParityStep(c: PortRegs, parity: nat): RowResult<PortRegs> {
    if parity < PARITY_MAX then Configured(c.(cr1 := Overwrite(c.cr1, CR1_PCE, Flag(parity == PARITY_ENABLED, CR1_PCE))))
    else Halted(c)
  }

  /** The receiver: bit RE set when enabled. */
  function RxStep(c: PortRegs, rx: nat): RowResult<PortRegs> {
    if rx < RX_MAX then Configured(c.(cr1 := Overwrite(c.cr1, CR1_RE, Flag(rx == RX_ENABLED, CR1_RE))))
    else Halted(c)
  }

  /** The transmitter: bit TE set when enabled. */
  function TxStep(c: PortRegs, tx: nat): RowResult<PortRegs> {
    if tx < TX_MAX then Configured(c.(cr1 := Overwrite(c.cr1, CR1_TE, Flag(tx == TX_ENABLED, CR1_TE))))
    else Halted(c)
  }

  /** DMA on reception: bit DMAR set when enabled. */
  function RxDmaStep(c: PortRegs, rxDma: nat): RowResult<PortRegs> {
    if rxDma < RX_DMA_MAX then Configured(c.(cr3 := Overwrite(c.cr3, CR3_DMAR, Flag(rxDma == RX_DMA_ENABLED, CR3_DMAR))))
    else Halted(c)
  }

  /** DMA on transmission: bit DMAT set when enabled. */
  function TxDmaStep(c: PortRegs, txDma: nat): RowResult<PortRegs> {
    if txDma < TX_DMA_MAX then Configured(c.(cr3 := Overwrite(c.cr3, CR3_DMAT, Flag(txDma == TX_DMA_ENABLED, CR3_DMAT))))
    else Halted(c)
  }

  /** The peripheral: bit UE set when enabled. */
  function EnableStep(c: PortRegs, enable: nat): RowResult<PortRegs> {
    if enable < UE_MAX then Configured(c.(cr1 := Overwrite(c.cr1, CR1_UE, Flag(enable == ENABLED, CR1_UE))))
    else Halted(c)
  }

  /** The value BRR receives for a named baud rate. */
  function BaudRegister(clock: uint32, baudRate: nat): bv32
    requires IsNamedBaudRate(baudRate)
  {
    BaudRateCalculate(clock, baudRate) as bv32
  }

  /**
   * The baud rate: a named rate overwrites BRR whole with its 16-bit divisor;
   * a rate below the sentinel that names none passes the assert and leaves
   * BRR as it was.
   */
  function BaudRateStep(c: PortRegs, baudRate: nat, clock: uint32): RowResult<PortRegs> {
    if IsNamedBaudRate(baudRate) then Configured(c.(brr := BaudRegister(clock, baudRate)))
    else if baudRate < BAUD_RATE_MAX then Configured(c)
    else Halted(c)
  }

  // One iteration of USART_init's loop is the nine chains above in source
  // order, stopping at the first failed assert. `ApplyRow` runs them all; each
  // `From...` function runs the chains from the one it names to the end.

  /** One iteration of USART_init's loop on the registers of the row's port. */
  function ApplyRow(c: PortRegs, row: UsartConfig, clock: uint32): RowResult<PortRegs> {
    var c :- WordLengthStep(c, row.wordLength);
    FromStopBits(c, row, clock)
  }

  function FromStopBits(c: PortRegs, row: UsartConfig, clock: uint32): RowResult<PortRegs> {
    var c :- StopBitsStep(c, row.stopBits);
    FromParity(c, row, clock)
  }

  function FromParity(c: PortRegs, row: UsartConfig, clock: uint32): RowResult<PortRegs> {
    var c :- ParityStep(c, row.parity);
    FromRx(c, row, clock)
  }

  function FromRx(c: PortRegs, row: UsartConfig, clock: uint32): RowResult<PortRegs> {
    var c :- RxStep(c, row.rx);
    FromTx(c, row, clock)
  }

  function FromTx(c: PortRegs, row: UsartConfig, clock: uint32): RowResult<PortRegs> {
    var c :- TxStep(c, row.tx);
    FromRxDma(c, row, clock)
  }

  function FromRxDma(c: PortRegs, row: UsartConfig, clock: uint32): RowResult<PortRegs> {
    var c :- RxDmaStep(c, row.rxDma);
    FromTxDma(c, row, clock)
  }

  function FromTxDma(c: PortRegs, row: UsartConfig, clock: uint32): RowResult<PortRegs> {
    var c :- TxDmaStep(c, row.txDma);
    FromEnable(c, row, clock)
  }

  function FromEnable(c: PortRegs, row: UsartConfig, clock: uint32): RowResult<PortRegs> {
    var c :- EnableStep(c, row.enable);
    BaudRateStep(c, row.baudRate, clock)
  }

  /**
   * USART_init over `table` from the port registers `ports`: rows in order,
   * each first checked for its port, stopping at the first failing assert.
   */
  function Run(ports: seq<PortRegs>, table: seq<UsartConfig>, clock: uint32): (r: InitResult)
    requires |ports| == USART_PORTS_NUMBER
    ensures |r.ports| == USART_PORTS_NUMBER
    decreases |table|
  {
    if table == [] then InitResult(ports, Done)
    else
      var prev := Run(ports, table[..|table| - 1], clock);
      var i := |table| - 1;
      var row := table[i];
      if prev.status.AssertFailed? then prev
      else if !(row.port < PORT_MAX) then InitResult(prev.ports, AssertFailed(i))
      else match ApplyRow(prev.ports[row.port], row, clock)
        case Configured(c) => InitResult(prev.ports[row.port := c], Done)
        case Halted(c) => InitResult(prev.ports[row.port := c], AssertFailed(i))
  }

  /** Once an assert has halted the run, the rows after it are never reached. */
  lemma {:induction false} RunHaltsAtFailure(ports: seq<PortRegs>, table: seq<UsartConfig>, clock: uint32, k: nat)
    requires |ports| == USART_PORTS_NUMBER && k <= |table|
    requires Run(ports, table[..k], clock).status.AssertFailed?
    ensures Run(ports, table, clock) == Run(ports, table[..k], clock)
    decreases |table|
  {
    if k < |table| {
      assert table[..|table| - 1][..k] == table[..k];
      RunHaltsAtFailure(ports, table[..|table| - 1], clock, k);
    } else {
      assert table[..k] == table;
    }
  }

  /** One event on the bus side of USART_transmit: a read of SR or a write of DR. */
  datatype TxEvent = StatusRead(sr: bv32) | DataWrite(byte: bv8)

  /**
   * How USART_transmit ended: the port assert failed, the string was sent,
   * or a wait for TXE never ended; with the events up to that point.
   */
  datatype TxResult = PortAborted | Sent(events: seq<TxEvent>) | Spinning(events: seq<TxEvent>)

  function Prepend(prefix: seq<TxEvent>, r: TxResult): TxResult {
    match r
    case PortAborted => PortAborted
    case Sent(ev) => Sent(prefix + ev)
    case Spinning(ev) => Spinning(prefix + ev)
  }

  lemma PrependPrepend(a: seq<TxEvent>, b: seq<TxEvent>, r: TxResult)
    ensures Prepend(a, Prepend(b, r)) == Prepend(a + b, r)
  {
    match r
    case PortAborted =>
    case Sent(ev) => assert a + (b + ev) == (a + b) + ev;
    case Spinning(ev) => assert a + (b + ev) == (a + b) + ev;
  }

  /**
   * The transmit loop from the current character of `data`, with `status`
   * the values that the next reads of SR return.
   */
  function TransmitLoop(data: seq<bv8>, status: seq<bv32>): (r: TxResult)
    requires 0 in data
    ensures !r.PortAborted?
    decreases |status|
  {
    if data[0] == 0 then Sent([])
    else if status == [] then Spinning([])
    else if !IsSet(status[0], SR_TXE) then
      Prepend([StatusRead(status[0])], TransmitLoop(data, status[1..]))
    else
      Prepend([StatusRead(status[0]), DataWrite(data[0])], TransmitLoop(data[1..], status[1..]))
  }

  /** USART_transmit: the port assert, then the loop. */
  function Transmission(port: nat, data: seq<bv8>, status: seq<bv32>): (r: TxResult)
    requires 0 in data
    ensures r.PortAborted? <==> !(port < PORT_MAX)
  {
    if !(port < PORT_MAX) then PortAborted else TransmitLoop(data, status)
  }

  /** The bytes written to DR, in order. */
  function Writes(events: seq<TxEvent>): seq<bv8> {
    if events == [] then []
    else if events[0].DataWrite? then [events[0].byte] + Writes(events[1..])
    else Writes(events[1..])
  }

  /** The value DR holds after `events`, starting from `dr`. */
  function LastWritten(events: seq<TxEvent>, dr: bv32): bv32 {
    if events == [] then dr
    else if events[|events| - 1].DataWrite? then events[|events| - 1].byte as bv32
    else LastWritten(events[..|events| - 1], dr)
  }

  /** How USART_receive ended: a byte was read, or the wait for RXNE never ended. */
  datatype RxResult = Received(byte: bv8) | Waiting

  /** The memory-mapped registers of the three USART ports. */
  class UsartRegisters {
    const cr1: array<bv32>
    const cr2: array<bv32>
    const cr3: array<bv32>
    const brr: array<bv32>
    /**
     * The transmit side of DR: the last value written. A read of DR returns
     * the receive data register instead, which the hardware fills from the
     * line; `Receive` takes that value as an input.
     */
    const dr: array<bv32>

    ghost predicate Valid() {
      cr1.Length == USART_PORTS_NUMBER && cr2.Length == USART_PORTS_NUMBER
      && cr3.Length == USART_PORTS_NUMBER && brr.Length == USART_PORTS_NUMBER
      && dr.Length == USART_PORTS_NUMBER
      && cr1 != cr2 && cr1 != cr3 && cr1 != brr && cr1 != dr
      && cr2 != cr3 && cr2 != brr && cr2 != dr
      && cr3 != brr && cr3 != dr && brr != dr
    }

    constructor ()
      ensures Valid()
      ensures fresh(cr1) && fresh(cr2) && fresh(cr3) && fresh(brr) && fresh(dr)
      ensures forall p :: 0 <= p < USART_PORTS_NUMBER ==> PortState(p) == PortRegs(0, 0, 0, 0)
      ensures forall p :: 0 <= p < USART_PORTS_NUMBER ==> dr[p] == 0
    {
      cr1 := new bv32[USART_PORTS_NUMBER](_ => 0);
      cr2 := new bv32[USART_PORTS_NUMBER](_ => 0);
      cr3 := new bv32[USART_PORTS_NUMBER](_ => 0);
      brr := new bv32[USART_PORTS_NUMBER](_ => 0);
      dr := new bv32[USART_PORTS_NUMBER](_ => 0);
    }

    function PortState(p: nat): PortRegs
      requires Valid() && p < USART_PORTS_NUMBER
      reads cr1, cr2, cr3, brr
    {
      PortRegs(cr1[p], cr2[p], cr3[p], brr[p])
    }

    function Ports(): (s: seq<PortRegs>)
      requires Valid()
      reads cr1, cr2, cr3, brr
      ensures |s| == USART_PORTS_NUMBER
      ensures forall p :: 0 <= p < USART_PORTS_NUMBER ==> s[p] == PortState(p)
    {
      [PortState(0), PortState(1), PortState(2)]
    }

    // Each of the following methods is one if/else-if chain of USART_init's
    // loop body, acting on the registers of port `p`.

    method SetWordLength(p: nat, wordLength: nat) returns (ok: bool)
      requires Valid() && p < USART_PORTS_NUMBER
      modifies cr1
      ensures ok == WordLengthStep(old(PortState(p)), wordLength).Configured?
      ensures PortState(p) == WordLengthStep(old(PortState(p)), wordLength).regs
      ensures forall q :: 0 <= q < USART_PORTS_NUMBER && q != p ==> cr1[q] == old(cr1[q])
    {
      ok := true;
      if wordLength == WORD_LENGTH_9 {
        SetBits(cr1, p, CR1_M);
      } else if wordLength == WORD_LENGTH_8 {
        ClearBits(cr1, p, CR1_M);
      } else {
        ok := wordLength < WORD_LENGTH_MAX;
      }
    }

    method SetStopBits(p: nat, stopBits: nat) returns (ok: bool)
      requires Valid() && p < USART_PORTS_NUMBER
      modifies cr2
      ensures ok == StopBitsStep(old(PortState(p)), stopBits).Configured?
      ensures PortState(p) == StopBitsStep(old(PortState(p)), stopBits).regs
      ensures forall q :: 0 <= q < USART_PORTS_NUMBER && q != p ==> cr2[q] == old(cr2[q])
    {
      ok := true;
      if stopBits == STOP_BITS_1 {
        WriteStopBits1(p);
      } else if stopBits == STOP_BITS_0_5 {
        WriteStopBits0_5(p);
      } else if stopBits == STOP_BITS_2 {
        WriteStopBits2(p);
      } else if stopBits == STOP_BITS_1_5 {
        WriteStopBits1_5(p);
      } else {
        ok := stopBits < STOP_BITS_MAX;
      }
    }

    // The two writes of each stop-bits branch, STOP[0] and then STOP[1],
    // overwrite the field with the branch's ordinal.

    /** STOP = 00: one stop bit. */
    method WriteStopBits1(p: nat)
      requires Valid() && p < USART_PORTS_NUMBER
      modifies cr2
      ensures cr2[p] == Overwrite(old(cr2[p]), CR2_INIT_BITS, 0)
      ensures forall q :: 0 <= q < USART_PORTS_NUMBER && q != p ==> cr2[q] == old(cr2[q])
    {
      ClearBits(cr2, p, CR2_STOP_0);
      ClearBits(cr2, p, CR2_STOP_1);
    }

    /** STOP = 01: half a stop bit. */
    method WriteStopBits0_5(p: nat)
      requires Valid() && p < USART_PORTS_NUMBER
      modifies cr2
      ensures cr2[p] == Overwrite(old(cr2[p]), CR2_INIT_BITS, CR2_STOP_0)
      ensures forall q :: 0 <= q < USART_PORTS_NUMBER && q != p ==> cr2[q] == old(cr2[q])
    {
      SetBits(cr2, p, CR2_STOP_0);
      ClearBits(cr2, p, CR2_STOP_1);
    }

    /** STOP = 10: two stop bits. */
    method WriteStopBits2(p: nat)
      requires Valid() && p < USART_PORTS_NUMBER
      modifies cr2
      ensures cr2[p] == Overwrite(old(cr2[p]), CR2_INIT_BITS, CR2_STOP_1)
      ensures forall q :: 0 <= q < USART_PORTS_NUMBER && q != p ==> cr2[q] == old(cr2[q])
    {
      ClearBits(cr2, p, CR2_STOP_0);
      SetBits(cr2, p, CR2_STOP_1);
    }

    /** STOP = 11: one and a half stop bits. */
    method WriteStopBits1_5(p: nat)
      requires Valid() && p < USART_PORTS_NUMBER
      modifies cr2
      ensures cr2[p] == Overwrite(old(cr2[p]), CR2_INIT_BITS, CR2_INIT_BITS)
      ensures forall q :: 0 <= q < USART_PORTS_NUMBER && q != p ==> cr2[q] == old(cr2[q])
    {
      SetBits(cr2, p, CR2_STOP_0);
      SetBits(cr2, p, CR2_STOP_1);
    }

    method SetParity(p: nat, parity: nat) returns (ok: bool)
      requires Valid() && p < USART_PORTS_NUMBER
      modifies cr1
      ensures ok == ParityStep(old(PortState(p)), parity).Configured?
      ensures PortState(p) == ParityStep(old(PortState(p)), parity).regs
      ensures forall q :: 0 <= q < USART_PORTS_NUMBER && q != p ==> cr1[q] == old(cr1[q])
    {
      ok := true;
      if parity == PARITY_ENABLED {
        SetBits(cr1, p, CR1_PCE);
      } else if parity == PARITY_DISABLED {
        ClearBits(cr1, p, CR1_PCE);
      } else {
        ok := parity < PARITY_MAX;
      }
    }

    method SetRx(p: nat, rx: nat) returns (ok: bool)
      requires Valid() && p < USART_PORTS_NUMBER
      modifies cr1
      ensures ok == RxStep(old(PortState(p)), rx).Configured?
      ensures PortState(p) == RxStep(old(PortState(p)), rx).regs
      ensures forall q :: 0 <= q < USART_PORTS_NUMBER && q != p ==> cr1[q] == old(cr1[q])
    {
      ok := true;
      if rx == RX_ENABLED {
        SetBits(cr1, p, CR1_RE);
      } else if rx == RX_DISABLED {
        ClearBits(cr1, p, CR1_RE);
      } else {
        ok := rx < RX_MAX;
      }
    }

    method SetTx(p: nat, tx: nat) returns (ok: bool)
      requires Valid() && p < USART_PORTS_NUMBER
      modifies cr1
      ensures ok == TxStep(old(PortState(p)), tx).Configured?
      ensures PortState(p) == TxStep(old(PortState(p)), tx).regs
      ensures forall q :: 0 <= q < USART_PORTS_NUMBER && q != p ==> cr1[q] == old(cr1[q])
    {
      ok := true;
      if tx == TX_ENABLED {
        SetBits(cr1, p, CR1_TE);
      } else if tx == TX_DISABLED {
        ClearBits(cr1, p, CR1_TE);
      } else {
        ok := tx < TX_MAX;
      }
    }

    method SetRxDma(p: nat, rxDma: nat) returns (ok: bool)
      requires Valid() && p < USART_PORTS_NUMBER
      modifies cr3
      ensures ok == RxDmaStep(old(PortState(p)), rxDma).Configured?
      ensures PortState(p) == RxDmaStep(old(PortState(p)), rxDma).regs
      ensures forall q :: 0 <= q < USART_PORTS_NUMBER && q != p ==> cr3[q] == old(cr3[q])
    {
      ok := true;
      if rxDma == RX_DMA_ENABLED {
        SetBits(cr3, p, CR3_DMAR);
      } else if rxDma == RX_DMA_DISABLED {
        ClearBits(cr3, p, CR3_DMAR);
      } else {
        ok := rxDma < RX_DMA_MAX;
      }
    }

    method SetTxDma(p: nat, txDma: nat) returns (ok: bool)
      requires Valid() && p < USART_PORTS_NUMBER
      modifies cr3
      ensures ok == TxDmaStep(old(PortState(p)), txDma).Configured?
      ensures PortState(p) == TxDmaStep(old(PortState(p)), txDma).regs
      ensures forall q :: 0 <= q < USART_PORTS_NUMBER && q != p ==> cr3[q] == old(cr3[q])
    {
      ok := true;
      if txDma == TX_DMA_ENABLED {
        SetBits(cr3, p, CR3_DMAT);
      } else if txDma == TX_DMA_DISABLED {
        ClearBits(cr3, p, CR3_DMAT);
      } else {
        ok := txDma < TX_DMA_MAX;
      }
    }

    method SetEnable(p: nat, enable: nat) returns (ok: bool)
      requires Valid() && p < USART_PORTS_NUMBER
      modifies cr1
      ensures ok == EnableStep(old(PortState(p)), enable).Configured?
      ensures PortState(p) == EnableStep(old(PortState(p)), enable).regs
      ensures forall q :: 0 <= q < USART_PORTS_NUMBER && q != p ==> cr1[q] == old(cr1[q])
    {
      ok := true;
      if enable == ENABLED {
        SetBits(cr1, p, CR1_UE);
      } else if enable == DISABLED {
        ClearBits(cr1, p, CR1_UE);
      } else {
        ok := enable < UE_MAX;
      }
    }

    /** `*baudRateRegister[p] = divisor`: the 16-bit divisor widened into BRR. */
    method WriteBaudRate(p: nat, divisor: uint16)
      requires Valid() && p < USART_PORTS_NUMBER
      modifies brr
      ensures brr[p] == divisor as bv32
      ensures forall q :: 0 <= q < USART_PORTS_NUMBER && q != p ==> brr[q] == old(brr[q])
    {
      brr[p] := divisor as bv32;
    }

    method SetBaudRate(p: nat, baudRate: nat, peripheralClock: uint32) returns (ok: bool)
      requires Valid() && p < USART_PORTS_NUMBER
      modifies brr
      ensures ok == BaudRateStep(old(PortState(p)), baudRate, peripheralClock).Configured?
      ensures PortState(p) == BaudRateStep(old(PortState(p)), baudRate, peripheralClock).regs
      ensures forall q :: 0 <= q < USART_PORTS_NUMBER && q != p ==> brr[q] == old(brr[q])
    {
      ok := true;
      if baudRate == BAUD_RATE_9600 {
        WriteBaudRate(p, BaudRateCalculate(peripheralClock, 9600));
      } else if baudRate == BAUD_RATE_19200 {
        WriteBaudRate(p, BaudRateCalculate(peripheralClock, 19200));
      } else if baudRate == BAUD_RATE_38400 {
        WriteBaudRate(p, BaudRateCalculate(peripheralClock, 38400));
      } else if baudRate == BAUD_RATE_57600 {
        WriteBaudRate(p, BaudRateCalculate(peripheralClock, 57600));
      } else if baudRate == BAUD_RATE_115200 {
        WriteBaudRate(p, BaudRateCalculate(peripheralClock, 115200));
      } else {
        ok := baudRate < BAUD_RATE_MAX;
      }
    }

    /**
     * The body of USART_init's loop for one row whose port passed the
     * assert: the nine chains in source order, stopping at a failed assert.
     */
    method ConfigurePort(row: UsartConfig, peripheralClock: uint32) returns (ok: bool)
      requires Valid() && row.port < PORT_MAX
      modifies cr1, cr2, cr3, brr
      ensures ok == ApplyRow(old(PortState(row.port)), row, peripheralClock).Configured?
      ensures PortState(row.port) == ApplyRow(old(PortState(row.port)), row, peripheralClock).regs
      ensures forall q :: 0 <= q < USART_PORTS_NUMBER && q != row.port ==> PortState(q) == old(PortState(q))
    {
      var p := row.port;
      ghost var want := ApplyRow(PortState(p), row, peripheralClock);
      assert want == ApplyRow(PortState(p), row, peripheralClock);
      ok := SetWordLength(p, row.wordLength);
      if !ok { return; }
      assert want == FromStopBits(PortState(p), row, peripheralClock);
      ok := SetStopBits(p, row.stopBits);
      if !ok { return; }
      assert want == FromParity(PortState(p), row, peripheralClock);
      ok := SetParity(p, row.parity);
      if !ok { return; }
      assert want == FromRx(PortState(p), row, peripheralClock);
      ok := SetRx(p, row.rx);
      if !ok { return; }
      assert want == FromTx(PortState(p), row, peripheralClock);
      ok := SetTx(p, row.tx);
      if !ok { return; }
      assert want == FromRxDma(PortState(p), row, peripheralClock);
      ok := SetRxDma(p, row.rxDma);
      if !ok { return; }
      assert want == FromTxDma(PortState(p), row, peripheralClock);
      ok := SetTxDma(p, row.txDma);
      if !ok { return; }
      assert want == FromEnable(PortState(p), row, peripheralClock);
      ok := SetEnable(p, row.enable);
      if !ok { return; }
      assert want == BaudRateStep(PortState(p), row.baudRate, peripheralClock);
      ok := SetBaudRate(p, row.baudRate, peripheralClock);
    }

    /**
     * USART_init: applies the first `configSize` rows of `config` in order.
     * The result says whether an assert halted it, and on which row.
     */
    method Init(config: seq<UsartConfig>, configSize: nat, peripheralClock: uint32)
      returns (status: InitStatus)
      requires Valid()
      requires configSize <= |config| && configSize <= 255
      modifies cr1, cr2, cr3, brr
      ensures Run(old(Ports()), config[..configSize], peripheralClock) == InitResult(Ports(), status)
    {
      for i := 0 to configSize
        invariant Run(old(Ports()), config[..i], peripheralClock) == InitResult(Ports(), Done)
      {
        assert config[..i + 1][..i] == config[..i];
        var row := config[i];
        if !(row.port < PORT_MAX) {
          status := AssertFailed(i);
          assert config[..configSize][..i + 1] == config[..i + 1];
          assert Run(old(Ports()), config[..i + 1], peripheralClock) == InitResult(Ports(), status);
          RunHaltsAtFailure(old(Ports()), config[..configSize], peripheralClock, i + 1);
          return;
        }
        ghost var before := Ports();
        var ok := ConfigurePort(row, peripheralClock);
        assert Ports() == before[row.port := ApplyRow(before[row.port], row, peripheralClock).regs];
        if !ok {
          status := AssertFailed(i);
          assert config[..configSize][..i + 1] == config[..i + 1];
          assert Run(old(Ports()), config[..i + 1], peripheralClock) == InitResult(Ports(), status);
          RunHaltsAtFailure(old(Ports()), config[..configSize], peripheralClock, i + 1);
          return;
        }
      }
      return Done;
    }

    /**
     * USART_transmit: after the port assert, for each character before the
     * NUL, poll SR until TXE is set and then write the character to DR.
     */
    method Transmit(port: nat, data: seq<bv8>, status: seq<bv32>) returns (r: TxResult)
      requires Valid() && 0 in data
      modifies dr
      ensures r == Transmission(port, data, status)
      ensures !r.PortAborted? ==> port < PORT_MAX && dr[port] == LastWritten(r.events, old(dr[port]))
      ensures forall q :: 0 <= q < USART_PORTS_NUMBER && (q != port || r.PortAborted?) ==> dr[q] == old(dr[q])
    {
      if !(port < PORT_MAX) {
        return PortAborted;
      }
      var i, j := 0, 0;
      var events: seq<TxEvent> := [];
      while data[i] != 0
        invariant i < |data| && 0 in data[i..] && j <= |status|
        invariant Prepend(events, TransmitLoop(data[i..], status[j..])) == TransmitLoop(data, status)
        invariant dr[port] == LastWritten(events, old(dr[port]))
        invariant forall q :: 0 <= q < USART_PORTS_NUMBER && q != port ==> dr[q] == old(dr[q])
        decreases |status| - j
      {
        while j < |status| && !IsSet(status[j], SR_TXE)
          invariant j <= |status|
          invariant Prepend(events, TransmitLoop(data[i..], status[j..])) == TransmitLoop(data, status)
          invariant dr[port] == LastWritten(events, old(dr[port]))
          invariant forall q :: 0 <= q < USART_PORTS_NUMBER && q != port ==> dr[q] == old(dr[q])
          decreases |status| - j
        {
          assert status[j..][1..] == status[j + 1..];
          PrependPrepend(events, [StatusRead(status[j])], TransmitLoop(data[i..], status[j + 1..]));
          assert (events + [StatusRead(status[j])])[..|events|] == events;
          events := events + [StatusRead(status[j])];
          j := j + 1;
        }
        if j == |status| {
          return Spinning(events);
        }
        assert status[j..][1..] == status[j + 1..];
        assert data[i..][1..] == data[i + 1..];
        PrependPrepend(events, [StatusRead(status[j]), DataWrite(data[i])],
                       TransmitLoop(data[i + 1..], status[j + 1..]));
        events := events + [StatusRead(status[j]), DataWrite(data[i])];
        dr[port] := data[i] as bv32;
        i, j := i + 1, j + 1;
      }
      assert events + [] == events;
      return Sent(events);
    }

    /**
     * USART_receive: poll SR until RXNE is set, then read DR into the caller's
     * byte, keeping its low eight bits. `received` is what that read of DR
     * returns: the receive data register, filled by the hardware from the line.
     */
    method Receive(port: nat, status: seq<bv32>, received: bv32) returns (r: RxResult)
      requires Valid() && port < PORT_MAX
      ensures r.Received? <==> exists k :: 0 <= k < |status| && IsSet(status[k], SR_RXNE)
      ensures r.Received? ==> r.byte == (received & 0xFF) as bv8
    {
      var j := 0;
      while j < |status| && !IsSet(status[j], SR_RXNE)
        invariant j <= |status|
        invariant forall k :: 0 <= k < j ==> !IsSet(status[k], SR_RXNE)
      {
        j := j + 1;
      }
      if j == |status| {
        return Waiting;
      }
      return Received((received & 0xFF) as bv8);
    }
  }
}
