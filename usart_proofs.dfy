/**
 * What USART initialisation and transmission promise, proved about the pure
 * functions `Usart.ApplyRow`, `Usart.Run` and `Usart.TransmitLoop` that the
 * driver's methods are proved to follow.
 *
 * The key reference definition is `RowRegs`: a row in range overwrites the
 * initialisation bits of CR1, CR2 and CR3 with the values the row names, keeps
 * every other bit, and overwrites BRR whole when the rate is a named one.
 */
module UsartProofs {
  import opened CTypes
  import opened RegisterBits
  import opened TableInit
  import opened UsartCfg
  import opened Usart

  // ---------------------------------------------------------------------------
  // USART_baudRateCalculate
  // ---------------------------------------------------------------------------

  // Only keeps the solver cheap: the division identity stated once, for the callers to instantiate.
  lemma DivMod(n: nat, d: nat)
    requires d > 0
    ensures n == (n / d) * d + n % d && n % d < d
  {
  }

  /** Below the overflow and truncation bounds, the C arithmetic is exact. */
  lemma BaudNoWrap(clock: uint32, baud: uint32)
    requires baud > 0
    requires clock + baud / 2 < 0x1_0000_0000
    requires (clock + baud / 2) / baud < 0x1_0000
    ensures BaudRateCalculate(clock, baud) == (clock + baud / 2) / baud
  {
  }

  /**
   * Without 32-bit overflow and 16-bit truncation, the divisor is a nearest
   * whole multiple: clock lies within half a baud of divisor * baud.
   */
  lemma BaudDivisorIsNearest(clock: uint32, baud: uint32)
    requires baud > 0
    requires clock + baud / 2 < 0x1_0000_0000
    requires (clock + baud / 2) / baud < 0x1_0000
    ensures var q := BaudRateCalculate(clock, baud);
            -(baud / 2) <= clock - q * baud < baud - baud / 2
  {
    BaudNoWrap(clock, baud);
    DivMod(clock + baud / 2, baud);
  }

  /** The application's rate on a 16 MHz clock: BRR = 1667, i.e. 104 + 3/16 as mantissa and fraction. */
  lemma BaudDivisor16MHz9600()
    ensures BaudRateCalculate(16000000, 9600) == 1667
  {
    assert (16000000 + 9600 / 2) % 0x1_0000_0000 == 16004800;
    assert 16004800 / 9600 == 1667;
  }

  // ---------------------------------------------------------------------------
  // The reference definition of one row
  // ---------------------------------------------------------------------------

  /** The CR1 initialisation bits a row asks for. */
  function Cr1Value(row: UsartConfig): bv32 {
    Flag(row.wordLength == WORD_LENGTH_9, CR1_M) | Flag(row.parity == PARITY_ENABLED, CR1_PCE)
    | Flag(row.rx == RX_ENABLED, CR1_RE) | Flag(row.tx == TX_ENABLED, CR1_TE)
    | Flag(row.enable == ENABLED, CR1_UE)
  }

  /** The CR2.STOP bits a row asks for. */
  function Cr2Value(row: UsartConfig): bv32 {
    StopValue(row.stopBits)
  }

  /** The CR3 initialisation bits a row asks for. */
  function Cr3Value(row: UsartConfig): bv32 {
    Flag(row.rxDma == RX_DMA_ENABLED, CR3_DMAR) | Flag(row.txDma == TX_DMA_ENABLED, CR3_DMAT)
  }

  /** What happens to BRR: a named rate overwrites it, any other rate keeps it. */
  datatype BrrWrite = KeepBrr | SetBrr(value: bv32)

  /** The effect of one or more rows on a port, as values for the initialisation bits. */
  datatype PortWrite = PortWrite(cr1: bv32, cr2: bv32, cr3: bv32, brr: BrrWrite)

  function Apply(c: PortRegs, w: PortWrite): PortRegs {
    PortRegs(Overwrite(c.cr1, CR1_INIT_BITS, w.cr1), Overwrite(c.cr2, CR2_INIT_BITS, w.cr2),
             Overwrite(c.cr3, CR3_INIT_BITS, w.cr3),
             if w.brr.SetBrr? then w.brr.value else c.brr)
  }

  function RowWrite(row: UsartConfig, clock: uint32): PortWrite {
    PortWrite(Cr1Value(row), Cr2Value(row), Cr3Value(row),
              if IsNamedBaudRate(row.baudRate) then SetBrr(BaudRegister(clock, row.baudRate)) else KeepBrr)
  }

  /** The registers a row in range leaves on its port. */
  function RowRegs(c: PortRegs, row: UsartConfig, clock: uint32): PortRegs {
    Apply(c, RowWrite(row, clock))
  }

  /** The five single-bit overwrites of CR1, in the order of the loop body, are one overwrite of all five. */
  lemma Cr1Merge(x: bv32, vm: bv32, vp: bv32, vr: bv32, vt: bv32, vu: bv32)
    requires vm & !CR1_M == 0 && vp & !CR1_PCE == 0 && vr & !CR1_RE == 0
    requires vt & !CR1_TE == 0 && vu & !CR1_UE == 0
    ensures Overwrite(Overwrite(Overwrite(Overwrite(Overwrite(x, CR1_M, vm), CR1_PCE, vp), CR1_RE, vr), CR1_TE, vt), CR1_UE, vu)
         == Overwrite(x, CR1_INIT_BITS, vm | vp | vr | vt | vu)
  {
  }

  /** The two single-bit overwrites of CR3 are one overwrite of both. */
  lemma Cr3Merge(x: bv32, vr: bv32, vt: bv32)
    requires vr & !CR3_DMAR == 0 && vt & !CR3_DMAT == 0
    ensures Overwrite(Overwrite(x, CR3_DMAR, vr), CR3_DMAT, vt) == Overwrite(x, CR3_INIT_BITS, vr | vt)
  {
  }

  lemma Cr1IsRowValue(x: bv32, row: UsartConfig)
    ensures Overwrite(Overwrite(Overwrite(Overwrite(Overwrite(x,
              CR1_M, Flag(row.wordLength == WORD_LENGTH_9, CR1_M)),
              CR1_PCE, Flag(row.parity == PARITY_ENABLED, CR1_PCE)),
              CR1_RE, Flag(row.rx == RX_ENABLED, CR1_RE)),
              CR1_TE, Flag(row.tx == TX_ENABLED, CR1_TE)),
              CR1_UE, Flag(row.enable == ENABLED, CR1_UE))
         == Overwrite(x, CR1_INIT_BITS, Cr1Value(row))
  {
    var vm, vp, vr := Flag(row.wordLength == WORD_LENGTH_9, CR1_M), Flag(row.parity == PARITY_ENABLED, CR1_PCE), Flag(row.rx == RX_ENABLED, CR1_RE);
    var vt, vu := Flag(row.tx == TX_ENABLED, CR1_TE), Flag(row.enable == ENABLED, CR1_UE);
    FlagWithin(row.wordLength == WORD_LENGTH_9, CR1_M);
    FlagWithin(row.parity == PARITY_ENABLED, CR1_PCE);
    FlagWithin(row.rx == RX_ENABLED, CR1_RE);
    FlagWithin(row.tx == TX_ENABLED, CR1_TE);
    FlagWithin(row.enable == ENABLED, CR1_UE);
    Cr1Merge(x, vm, vp, vr, vt, vu);
  }

  lemma Cr3IsRowValue(x: bv32, row: UsartConfig)
    ensures Overwrite(Overwrite(x,
              CR3_DMAR, Flag(row.rxDma == RX_DMA_ENABLED, CR3_DMAR)),
              CR3_DMAT, Flag(row.txDma == TX_DMA_ENABLED, CR3_DMAT))
         == Overwrite(x, CR3_INIT_BITS, Cr3Value(row))
  {
    FlagWithin(row.rxDma == RX_DMA_ENABLED, CR3_DMAR);
    FlagWithin(row.txDma == TX_DMA_ENABLED, CR3_DMAT);
    Cr3Merge(x, Flag(row.rxDma == RX_DMA_ENABLED, CR3_DMAR), Flag(row.txDma == TX_DMA_ENABLED, CR3_DMAT));
  }

  /**
   * A row whose settings are all in range completes, and its effect on the
   * port is the reference one: initialisation bits from the row, other bits kept.
   */
  lemma ApplyRowConfigures(c: PortRegs, row: UsartConfig, clock: uint32)
    requires SettingsInRange(row)
    ensures ApplyRow(c, row, clock) == Configured(RowRegs(c, row, clock))
  {
    Cr1IsRowValue(c.cr1, row);
    Cr3IsRowValue(c.cr3, row);
  }
}
