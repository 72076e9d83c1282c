/**
 * What USART_init promises over a whole configuration table, proved about
 * `Usart.Run`: when it halts and on which row, which bits and ports it
 * leaves alone, that the last row naming a port decides that port, and that
 * running the same table twice is running it once.
 */
module UsartRunProofs {
  import opened CTypes
  import opened RegisterBits
  import opened TableInit
  import opened UsartCfg
  import opened Usart
  import opened UsartProofs

  // ---------------------------------------------------------------------------
  // One row
  // ---------------------------------------------------------------------------

  /** A row passes every assert of the loop body exactly when all its settings are below their sentinels. */
  lemma ApplyRowCompletes(c: PortRegs, row: UsartConfig, clock: uint32)
    ensures ApplyRow(c, row, clock).Configured? <==> SettingsInRange(row)
  {
  }

  /** `d` agrees with `c` on every bit of CR1, CR2 and CR3 that initialisation does not own. */
  predicate KeepsOtherBits(c: PortRegs, d: PortRegs) {
    d.cr1 & !CR1_INIT_BITS == c.cr1 & !CR1_INIT_BITS
    && d.cr2 & !CR2_INIT_BITS == c.cr2 & !CR2_INIT_BITS
    && d.cr3 & !CR3_INIT_BITS == c.cr3 & !CR3_INIT_BITS
  }

  lemma Cr1WriteKeeps(c: PortRegs, mask: bv32, value: bv32)
    requires mask & !CR1_INIT_BITS == 0
    ensures KeepsOtherBits(c, c.(cr1 := Overwrite(c.cr1, mask, value)))
  {
    OverwriteOutside(c.cr1, mask, value, CR1_INIT_BITS);
  }

  lemma Cr2WriteKeeps(c: PortRegs, value: bv32)
    ensures KeepsOtherBits(c, c.(cr2 := Overwrite(c.cr2, CR2_INIT_BITS, value)))
  {
    OverwriteOutside(c.cr2, CR2_INIT_BITS, value, CR2_INIT_BITS);
  }

  lemma Cr3WriteKeeps(c: PortRegs, mask: bv32, value: bv32)
    requires mask & !CR3_INIT_BITS == 0
    ensures KeepsOtherBits(c, c.(cr3 := Overwrite(c.cr3, mask, value)))
  {
    OverwriteOutside(c.cr3, mask, value, CR3_INIT_BITS);
  }

  // Each chain from the one a function names to the end keeps the other bits;
  // proved from the last chain backwards.

  lemma FromEnableKeeps(c: PortRegs, row: UsartConfig, clock: uint32)
    ensures KeepsOtherBits(c, FromEnable(c, row, clock).regs)
  {
    if row.enable < UE_MAX {
      var d := c.(cr1 := Overwrite(c.cr1, CR1_UE, Flag(row.enable == ENABLED, CR1_UE)));
      assert FromEnable(c, row, clock) == BaudRateStep(d, row.baudRate, clock);
      Cr1WriteKeeps(c, CR1_UE, Flag(row.enable == ENABLED, CR1_UE));
    }
  }

  lemma FromTxDmaKeeps(c: PortRegs, row: UsartConfig, clock: uint32)
    ensures KeepsOtherBits(c, FromTxDma(c, row, clock).regs)
  {
    if row.txDma < TX_DMA_MAX {
      var d := c.(cr3 := Overwrite(c.cr3, CR3_DMAT, Flag(row.txDma == TX_DMA_ENABLED, CR3_DMAT)));
      assert FromTxDma(c, row, clock) == FromEnable(d, row, clock);
      Cr3WriteKeeps(c, CR3_DMAT, Flag(row.txDma == TX_DMA_ENABLED, CR3_DMAT));
      FromEnableKeeps(d, row, clock);
    }
  }

  lemma FromRxDmaKeeps(c: PortRegs, row: UsartConfig, clock: uint32)
    ensures KeepsOtherBits(c, FromRxDma(c, row, clock).regs)
  {
    if row.rxDma < RX_DMA_MAX {
      var d := c.(cr3 := Overwrite(c.cr3, CR3_DMAR, Flag(row.rxDma == RX_DMA_ENABLED, CR3_DMAR)));
      assert FromRxDma(c, row, clock) == FromTxDma(d, row, clock);
      Cr3WriteKeeps(c, CR3_DMAR, Flag(row.rxDma == RX_DMA_ENABLED, CR3_DMAR));
      FromTxDmaKeeps(d, row, clock);
    }
  }

  lemma FromTxKeeps(c: PortRegs, row: UsartConfig, clock: uint32)
    ensures KeepsOtherBits(c, FromTx(c, row, clock).regs)
  {
    if row.tx < TX_MAX {
      var d := c.(cr1 := Overwrite(c.cr1, CR1_TE, Flag(row.tx == TX_ENABLED, CR1_TE)));
      assert FromTx(c, row, clock) == FromRxDma(d, row, clock);
      Cr1WriteKeeps(c, CR1_TE, Flag(row.tx == TX_ENABLED, CR1_TE));
      FromRxDmaKeeps(d, row, clock);
    }
  }

  lemma FromRxKeeps(c: PortRegs, row: UsartConfig, clock: uint32)
    ensures KeepsOtherBits(c, FromRx(c, row, clock).regs)
  {
    if row.rx < RX_MAX {
      var d := c.(cr1 := Overwrite(c.cr1, CR1_RE, Flag(row.rx == RX_ENABLED, CR1_RE)));
      assert FromRx(c, row, clock) == FromTx(d, row, clock);
      Cr1WriteKeeps(c, CR1_RE, Flag(row.rx == RX_ENABLED, CR1_RE));
      FromTxKeeps(d, row, clock);
    }
  }

  lemma FromParityKeeps(c: PortRegs, row: UsartConfig, clock: uint32)
    ensures KeepsOtherBits(c, FromParity(c, row, clock).regs)
  {
    if row.parity < PARITY_MAX {
      var d := c.(cr1 := Overwrite(c.cr1, CR1_PCE, Flag(row.parity == PARITY_ENABLED, CR1_PCE)));
      assert FromParity(c, row, clock) == FromRx(d, row, clock);
      Cr1WriteKeeps(c, CR1_PCE, Flag(row.parity == PARITY_ENABLED, CR1_PCE));
      FromRxKeeps(d, row, clock);
    }
  }

  lemma FromStopBitsKeeps(c: PortRegs, row: UsartConfig, clock: uint32)
    ensures KeepsOtherBits(c, FromStopBits(c, row, clock).regs)
  {
    if row.stopBits < STOP_BITS_MAX {
      var d := c.(cr2 := Overwrite(c.cr2, CR2_INIT_BITS, StopValue(row.stopBits)));
      assert FromStopBits(c, row, clock) == FromParity(d, row, clock);
      Cr2WriteKeeps(c, StopValue(row.stopBits));
      FromParityKeeps(d, row, clock);
    }
  }

  /**
   * One iteration of the loop, whether it completes or halts partway, changes
   * no bit of CR1, CR2 or CR3 outside the ones the configuration owns.
   */
  lemma ApplyRowKeepsOtherBits(c: PortRegs, row: UsartConfig, clock: uint32)
    ensures KeepsOtherBits(c, ApplyRow(c, row, clock).regs)
  {
    if row.wordLength < WORD_LENGTH_MAX {
      var d := c.(cr1 := Overwrite(c.cr1, CR1_M, Flag(row.wordLength == WORD_LENGTH_9, CR1_M)));
      assert ApplyRow(c, row, clock) == FromStopBits(d, row, clock);
      Cr1WriteKeeps(c, CR1_M, Flag(row.wordLength == WORD_LENGTH_9, CR1_M));
      FromStopBitsKeeps(d, row, clock);
    }
  }

  /** A halted row never reached the baud-rate chain, so BRR is as it was. */
  lemma HaltedRowKeepsBrr(c: PortRegs, row: UsartConfig, clock: uint32)
    requires ApplyRow(c, row, clock).Halted?
    ensures ApplyRow(c, row, clock).regs.brr == c.brr
  {
  }

  // ---------------------------------------------------------------------------
  // The whole table
  // ---------------------------------------------------------------------------

  /** How the status of USART_init follows from the status before the last row and that row. */
  lemma RunStatusLastRow(ports: seq<PortRegs>, table: seq<UsartConfig>, clock: uint32)
    requires |ports| == USART_PORTS_NUMBER && table != []
    ensures var prev := Run(ports, table[..|table| - 1], clock);
            Run(ports, table, clock).status
            == if prev.status.AssertFailed? then prev.status
               else if RowInRange(table[|table| - 1]) then Done
               else AssertFailed(|table| - 1)
  {
    var n := |table| - 1;
    var prev := Run(ports, table[..n], clock);
    if !prev.status.AssertFailed? && table[n].port < PORT_MAX {
      ApplyRowCompletes(prev.ports[table[n].port], table[n], clock);
    }
  }

  /** Every row of `table` names a port and keeps its settings below their sentinels. */
  predicate AllRowsInRange(table: seq<UsartConfig>) {
    forall i :: 0 <= i < |table| ==> RowInRange(table[i])
  }

  lemma AllRowsInRangeLast(table: seq<UsartConfig>)
    requires table != []
    ensures AllRowsInRange(table)
        <==> AllRowsInRange(table[..|table| - 1]) && RowInRange(table[|table| - 1])
  {
    var n := |table| - 1;
    assert forall i :: 0 <= i < n ==> table[..n][i] == table[i];
  }

  lemma RunEmpty(ports: seq<PortRegs>, clock: uint32)
    requires |ports| == USART_PORTS_NUMBER
    ensures Run(ports, [], clock) == InitResult(ports, Done)
  {
  }

  /** USART_init goes through the whole table exactly when every row is in range. */
  lemma {:induction false} RunDoneIff(ports: seq<PortRegs>, table: seq<UsartConfig>, clock: uint32)
    requires |ports| == USART_PORTS_NUMBER
    ensures Run(ports, table, clock).status == Done <==> AllRowsInRange(table)
    decreases |table|
  {
    if table != [] {
      RunDoneIff(ports, table[..|table| - 1], clock);
      RunStatusLastRow(ports, table, clock);
      AllRowsInRangeLast(table);
    } else {
      RunEmpty(ports, clock);
    }
  }

  /** When an assert halts USART_init, it does so on the first row out of range. */
  lemma {:induction false} RunFailsAtFirstBadRow(ports: seq<PortRegs>, table: seq<UsartConfig>, clock: uint32, k: nat)
    requires |ports| == USART_PORTS_NUMBER
    requires Run(ports, table, clock).status == AssertFailed(k)
    ensures k < |table| && !RowInRange(table[k]) && AllRowsInRange(table[..k])
    decreases |table|
  {
    if table == [] {
      RunEmpty(ports, clock);
    } else {
      var n := |table| - 1;
      RunStatusLastRow(ports, table, clock);
      if Run(ports, table[..n], clock).status.AssertFailed? {
        RunFailsAtFirstBadRow(ports, table[..n], clock, k);
        assert table[..n][..k] == table[..k];
        assert table[..n][k] == table[k];
      } else {
        RunDoneIff(ports, table[..n], clock);
      }
    }
  }

  /**
   * A row naming no port halts USART_init before it writes anything: the run
   * stops on that row with the registers the rows before it left.
   */
  lemma RunBadPortWritesNothing(ports: seq<PortRegs>, table: seq<UsartConfig>, row: UsartConfig, clock: uint32)
    requires |ports| == USART_PORTS_NUMBER
    requires Run(ports, table, clock).status == Done && !(row.port < PORT_MAX)
    ensures Run(ports, table + [row], clock) == InitResult(Run(ports, table, clock).ports, AssertFailed(|table|))
  {
    assert (table + [row])[..|table|] == table;
  }

  /** A port that no row names keeps its registers, whether or not the run halts. */
  lemma {:induction false} RunKeepsUnnamedPort(ports: seq<PortRegs>, table: seq<UsartConfig>, clock: uint32, p: nat)
    requires |ports| == USART_PORTS_NUMBER && p < USART_PORTS_NUMBER
    requires forall i :: 0 <= i < |table| ==> table[i].port != p
    ensures Run(ports, table, clock).ports[p] == ports[p]
    decreases |table|
  {
    if table != [] {
      RunKeepsUnnamedPort(ports, table[..|table| - 1], clock, p);
    }
  }

  /** On every port, USART_init changes no bit of CR1, CR2 or CR3 outside the configured fields, even when it halts. */
  lemma {:induction false} RunKeepsOtherBits(ports: seq<PortRegs>, table: seq<UsartConfig>, clock: uint32, p: nat)
    requires |ports| == USART_PORTS_NUMBER && p < USART_PORTS_NUMBER
    ensures KeepsOtherBits(ports[p], Run(ports, table, clock).ports[p])
    decreases |table|
  {
    if table != [] {
      var n := |table| - 1;
      RunKeepsOtherBits(ports, table[..n], clock, p);
      var prev := Run(ports, table[..n], clock);
      if table[n].port == p {
        ApplyRowKeepsOtherBits(prev.ports[p], table[n], clock);
      }
    }
  }

  /** After a run that went through the whole table, the last row completed on the registers the rows before it left. */
  lemma RunLastRowDone(ports: seq<PortRegs>, table: seq<UsartConfig>, clock: uint32)
    requires |ports| == USART_PORTS_NUMBER && table != []
    requires Run(ports, table, clock).status == Done
    ensures var prev := Run(ports, table[..|table| - 1], clock);
            var row := table[|table| - 1];
            prev.status == Done && RowInRange(row)
            && Run(ports, table, clock).ports == prev.ports[row.port := RowRegs(prev.ports[row.port], row, clock)]
  {
    RunStatusLastRow(ports, table, clock);
    var prev := Run(ports, table[..|table| - 1], clock);
    var row := table[|table| - 1];
    ApplyRowConfigures(prev.ports[row.port], row, clock);
  }

  // ---------------------------------------------------------------------------
  // The rows of one port, composed
  // ---------------------------------------------------------------------------

  /** `w1` then `w2`: the control bits of the second, BRR from the last one that sets it. */
  function Then(w1: PortWrite, w2: PortWrite): PortWrite {
    PortWrite(w2.cr1, w2.cr2, w2.cr3, if w2.brr.SetBrr? then w2.brr else w1.brr)
  }

  function ApplyAll(c: PortRegs, o: Option<PortWrite>): PortRegs {
    if o.Some? then Apply(c, o.value) else c
  }

  /** The combined effect of the rows of `table` that name port `p`, in table order; None when no row does. */
  function PortWrites(table: seq<UsartConfig>, p: nat, clock: uint32): Option<PortWrite>
    decreases |table|
  {
    if table == [] then None
    else
      var before := PortWrites(table[..|table| - 1], p, clock);
      var row := table[|table| - 1];
      if row.port != p then before
      else if before.None? then Some(RowWrite(row, clock))
      else Some(Then(before.value, RowWrite(row, clock)))
  }

  // Of two overwrites of a register's initialisation bits, the second wins.

  lemma Cr1Twice(x: bv32, v1: bv32, v2: bv32)
    ensures Overwrite(Overwrite(x, CR1_INIT_BITS, v1), CR1_INIT_BITS, v2) == Overwrite(x, CR1_INIT_BITS, v2)
  {
  }

  lemma Cr2Twice(x: bv32, v1: bv32, v2: bv32)
    ensures Overwrite(Overwrite(x, CR2_INIT_BITS, v1), CR2_INIT_BITS, v2) == Overwrite(x, CR2_INIT_BITS, v2)
  {
  }

  lemma Cr3Twice(x: bv32, v1: bv32, v2: bv32)
    ensures Overwrite(Overwrite(x, CR3_INIT_BITS, v1), CR3_INIT_BITS, v2) == Overwrite(x, CR3_INIT_BITS, v2)
  {
  }

  /** Applying two port writes in turn is applying their composition. */
  lemma ApplyThen(c: PortRegs, w1: PortWrite, w2: PortWrite)
    ensures Apply(Apply(c, w1), w2) == Apply(c, Then(w1, w2))
  {
    Cr1Twice(c.cr1, w1.cr1, w2.cr1);
    Cr2Twice(c.cr2, w1.cr2, w2.cr2);
    Cr3Twice(c.cr3, w1.cr3, w2.cr3);
  }

  /** Applying the same writes twice is applying them once. */
  lemma ApplyAllTwice(c: PortRegs, o: Option<PortWrite>)
    ensures ApplyAll(ApplyAll(c, o), o) == ApplyAll(c, o)
  {
    if o.Some? {
      ApplyThen(c, o.value, o.value);
      assert Then(o.value, o.value) == o.value;
    }
  }

  /** After a run through the whole table, each port holds its registers with the rows naming it applied in order. */
  lemma {:induction false} RunDonePorts(ports: seq<PortRegs>, table: seq<UsartConfig>, clock: uint32, p: nat)
    requires |ports| == USART_PORTS_NUMBER && p < USART_PORTS_NUMBER
    requires Run(ports, table, clock).status == Done
    ensures Run(ports, table, clock).ports[p] == ApplyAll(ports[p], PortWrites(table, p, clock))
    decreases |table|
  {
    if table == [] {
      RunEmpty(ports, clock);
    } else {
      var n := |table| - 1;
      RunLastRowDone(ports, table, clock);
      RunDonePorts(ports, table[..n], clock, p);
      var before := PortWrites(table[..n], p, clock);
      if table[n].port == p && before.Some? {
        ApplyThen(ports[p], before.value, RowWrite(table[n], clock));
      }
    }
  }

  /** Running USART_init again with the same table, after a run that went through it, changes nothing. */
  lemma RunIdempotent(ports: seq<PortRegs>, table: seq<UsartConfig>, clock: uint32)
    requires |ports| == USART_PORTS_NUMBER
    requires Run(ports, table, clock).status == Done
    ensures Run(Run(ports, table, clock).ports, table, clock) == Run(ports, table, clock)
  {
    var once := Run(ports, table, clock);
    RunDoneIff(ports, table, clock);
    RunDoneIff(once.ports, table, clock);
    var twice := Run(once.ports, table, clock);
    forall p | 0 <= p < USART_PORTS_NUMBER
      ensures twice.ports[p] == once.ports[p]
    {
      RunDonePorts(ports, table, clock, p);
      RunDonePorts(once.ports, table, clock, p);
      ApplyAllTwice(ports[p], PortWrites(table, p, clock));
    }
  }

  /**
   * After a run through the whole table, the last row naming a port decides
   * that port: it completed on whatever the rows before it left there, and no
   * later row touched the port.
   */
  lemma {:induction false} LastRowWins(ports: seq<PortRegs>, table: seq<UsartConfig>, clock: uint32, k: nat)
    requires |ports| == USART_PORTS_NUMBER && k < |table|
    requires Run(ports, table, clock).status == Done
    requires forall i :: k < i < |table| ==> table[i].port != table[k].port
    ensures table[k].port < PORT_MAX
    ensures Run(ports, table, clock).ports[table[k].port]
         == RowRegs(Run(ports, table[..k], clock).ports[table[k].port], table[k], clock)
    decreases |table|
  {
    var n := |table| - 1;
    RunLastRowDone(ports, table, clock);
    if n == k {
      assert table[..n] == table[..k];
    } else {
      LastRowWins(ports, table[..n], clock, k);
      assert table[..n][..k] == table[..k];
    }
  }

  // ---------------------------------------------------------------------------
  // Reading the settings back from the registers
  // ---------------------------------------------------------------------------

  /** CR1 after a row: each of M, PCE, RE, TE and UE is set exactly when the row asks for it. */
  lemma Cr1ReadsBack(x: bv32, row: UsartConfig)
    ensures var v := Overwrite(x, CR1_INIT_BITS, Cr1Value(row));
            (IsSet(v, CR1_M) <==> row.wordLength == WORD_LENGTH_9)
            && (IsSet(v, CR1_PCE) <==> row.parity == PARITY_ENABLED)
            && (IsSet(v, CR1_RE) <==> row.rx == RX_ENABLED)
            && (IsSet(v, CR1_TE) <==> row.tx == TX_ENABLED)
            && (IsSet(v, CR1_UE) <==> row.enable == ENABLED)
  {
  }

  /** CR2 after a row in range: the STOP field, bits 13:12, holds the StopBits ordinal. */
  lemma Cr2ReadsBack(x: bv32, stopBits: nat)
    requires stopBits < STOP_BITS_MAX
    ensures (Overwrite(x, CR2_INIT_BITS, StopValue(stopBits)) & CR2_INIT_BITS) >> 12 == stopBits as bv32
  {
  }

  /** CR3 after a row: DMAR and DMAT are set exactly when the row asks for them. */
  lemma Cr3ReadsBack(x: bv32, row: UsartConfig)
    ensures var v := Overwrite(x, CR3_INIT_BITS, Cr3Value(row));
            (IsSet(v, CR3_DMAR) <==> row.rxDma == RX_DMA_ENABLED)
            && (IsSet(v, CR3_DMAT) <==> row.txDma == TX_DMA_ENABLED)
  {
  }

  /** The settings a port reads back after the run: what the row asked for, and BRR as the baud rate decides. */
  predicate ReadsBack(r: PortRegs, before: PortRegs, row: UsartConfig, clock: uint32) {
    (IsSet(r.cr1, CR1_M) <==> row.wordLength == WORD_LENGTH_9)
    && (IsSet(r.cr1, CR1_PCE) <==> row.parity == PARITY_ENABLED)
    && (IsSet(r.cr1, CR1_RE) <==> row.rx == RX_ENABLED)
    && (IsSet(r.cr1, CR1_TE) <==> row.tx == TX_ENABLED)
    && (IsSet(r.cr1, CR1_UE) <==> row.enable == ENABLED)
    && row.stopBits < STOP_BITS_MAX && (r.cr2 & CR2_INIT_BITS) >> 12 == row.stopBits as bv32
    && (IsSet(r.cr3, CR3_DMAR) <==> row.rxDma == RX_DMA_ENABLED)
    && (IsSet(r.cr3, CR3_DMAT) <==> row.txDma == TX_DMA_ENABLED)
    && r.brr == (if IsNamedBaudRate(row.baudRate) then BaudRegister(clock, row.baudRate) else before.brr)
  }

  /** A row in range leaves on its port registers that read back as the row. */
  lemma RowRegsReadBack(c: PortRegs, row: UsartConfig, clock: uint32)
    requires SettingsInRange(row)
    ensures ReadsBack(RowRegs(c, row, clock), c, row, clock)
  {
    Cr1ReadsBack(c.cr1, row);
    Cr2ReadsBack(c.cr2, row.stopBits);
    Cr3ReadsBack(c.cr3, row);
  }

  /**
   * After USART_init went through the whole table, every port named by a row
   * reads back the settings of the last row naming it.
   */
  lemma RunReadsBack(ports: seq<PortRegs>, table: seq<UsartConfig>, clock: uint32, k: nat)
    requires |ports| == USART_PORTS_NUMBER && k < |table|
    requires Run(ports, table, clock).status == Done
    requires forall i :: k < i < |table| ==> table[i].port != table[k].port
    ensures table[k].port < PORT_MAX
    ensures ReadsBack(Run(ports, table, clock).ports[table[k].port],
                      Run(ports, table[..k], clock).ports[table[k].port], table[k], clock)
  {
    LastRowWins(ports, table, clock, k);
    RunDoneIff(ports, table, clock);
    RowRegsReadBack(Run(ports, table[..k], clock).ports[table[k].port], table[k], clock);
  }

  // ---------------------------------------------------------------------------
  // The application's table on a 16 MHz APB1 clock
  // ---------------------------------------------------------------------------

  /** BRR for 9600 baud on a 16 MHz clock. */
  lemma BaudRegister16MHz9600()
    ensures BaudRegister(16000000, BAUD_RATE_9600) == 1667
  {
    BaudDivisor16MHz9600();
    Is1667(BaudRateCalculate(16000000, 9600));
  }

  // Only keeps the solver cheap: the `as bv32` conversion is proved on its own, away from the callers.
  lemma Is1667(x: int)
    requires x == 1667
    ensures x as bv32 == 1667
  {
  }

  /** The shipped table's one row, on any USART2 registers. */
  lemma ShippedRowRegs(c: PortRegs)
    ensures var d := RowRegs(c, UsartConfigTable[0], 16000000);
            && d.cr1 & CR1_INIT_BITS == CR1_UE | CR1_TE | CR1_RE
            && d.cr2 & CR2_INIT_BITS == 0
            && d.cr3 & CR3_INIT_BITS == CR3_DMAR | CR3_DMAT
            && d.brr == 1667
  {
    var row := UsartConfigTable[0];
    assert Cr1Value(row) == CR1_UE | CR1_TE | CR1_RE;
    assert Cr2Value(row) == 0;
    assert Cr3Value(row) == CR3_DMAR | CR3_DMAT;
    OverwriteInside(c.cr1, CR1_INIT_BITS, CR1_UE | CR1_TE | CR1_RE);
    OverwriteInside(c.cr2, CR2_INIT_BITS, 0);
    OverwriteInside(c.cr3, CR3_INIT_BITS, CR3_DMAR | CR3_DMAT);
    BaudRegister16MHz9600();
  }

  /**
   * USART_init over the shipped table with APB1 at 16 MHz goes through the
   * table, leaves USART1 and USART6 alone, and sets USART2 to 8N1 with Rx,
   * Tx, both DMA requests and the peripheral enabled, BRR 1667 (9600 baud).
   */
  lemma ShippedTableConfiguresUsart2(ports: seq<PortRegs>)
    requires |ports| == USART_PORTS_NUMBER
    ensures var r := Run(ports, UsartConfigTable, 16000000);
            && r.status == Done
            && r.ports[PORT_1] == ports[PORT_1] && r.ports[PORT_6] == ports[PORT_6]
            && r.ports[PORT_2].cr1 & CR1_INIT_BITS == CR1_UE | CR1_TE | CR1_RE
            && r.ports[PORT_2].cr2 & CR2_INIT_BITS == 0
            && r.ports[PORT_2].cr3 & CR3_INIT_BITS == CR3_DMAR | CR3_DMAT
            && r.ports[PORT_2].brr == 1667
  {
    var table := UsartConfigTable;
    assert table[..0] == [];
    RunEmpty(ports, 16000000);
    RunStatusLastRow(ports, table, 16000000);
    ApplyRowConfigures(ports[PORT_2], table[0], 16000000);
    ShippedRowRegs(ports[PORT_2]);
  }
}
