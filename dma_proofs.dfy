/**
 * What one iteration of DMA_init and one call of DMA_transferConfig promise,
 * proved about the pure functions `Dma.ApplyRow` and `Dma.Transfer` that the
 * driver's methods are proved to follow.
 *
 * The key reference definition is `RowRegs`: a row in range overwrites the
 * initialisation bits of CR and FCR with the values the row names and keeps
 * every other bit and register of the stream.
 */
module DmaProofs {
  import opened RegisterBits
  import opened TableInit
  import opened DmaCfg
  import opened Dma

  // ---------------------------------------------------------------------------
  // The reference definition of one row
  // ---------------------------------------------------------------------------

  /** The CR initialisation bits a row asks for. */
  function CrValue(row: DmaConfig): bv32 {
    ChannelValue(row.channel) | FieldValue(row.direction, CR_DIR_0, CR_DIR_1)
    | FieldValue(row.memorySize, CR_MSIZE_0, CR_MSIZE_1)
    | FieldValue(row.peripheralSize, CR_PSIZE_0, CR_PSIZE_1)
    | Flag(row.memoryIncrement == DMA_MEMORY_INCREMENT_ENABLED, CR_MINC)
    | Flag(row.peripheralIncrement == DMA_PERIPHERAL_INCREMENT_ENABLED, CR_PINC)
  }

  /** The FCR initialisation bits a row asks for. */
  function FcrValue(row: DmaConfig): bv32 {
    Flag(row.fifoMode == DMA_FIFO_DIRECT_MODE_DISABLED, FCR_DMDIS) | FieldValue(row.fifoThreshold, FCR_FTH_0, FCR_FTH_1)
  }

  /** The effect of one or more rows on a stream, as values for the initialisation bits of CR and FCR. */
  datatype StreamWrite = StreamWrite(cr: bv32, fcr: bv32)

  function Apply(c: StreamRegs, w: StreamWrite): StreamRegs {
    c.(cr := Overwrite(c.cr, CR_INIT_BITS, w.cr), fcr := Overwrite(c.fcr, FCR_INIT_BITS, w.fcr))
  }

  function RowWrite(row: DmaConfig): StreamWrite {
    StreamWrite(CrValue(row), FcrValue(row))
  }

  /** The registers a row in range leaves on its stream. */
  function RowRegs(c: StreamRegs, row: DmaConfig): StreamRegs {
    Apply(c, RowWrite(row))
  }

  lemma ChannelWithin(channel: nat)
    ensures ChannelValue(channel) & !CR_CHSEL == 0
  {
  }

  lemma DirWithin(ordinal: nat)
    ensures FieldValue(ordinal, CR_DIR_0, CR_DIR_1) & !CR_DIR == 0
  {
  }

  lemma MsizeWithin(ordinal: nat)
    ensures FieldValue(ordinal, CR_MSIZE_0, CR_MSIZE_1) & !CR_MSIZE == 0
  {
  }

  lemma PsizeWithin(ordinal: nat)
    ensures FieldValue(ordinal, CR_PSIZE_0, CR_PSIZE_1) & !CR_PSIZE == 0
  {
  }

  lemma FthWithin(ordinal: nat)
    ensures FieldValue(ordinal, FCR_FTH_0, FCR_FTH_1) & !FCR_FTH == 0
  {
  }

  /** The six field overwrites of CR, in the order of the loop body, are one overwrite of all six. */
  lemma CrMerge(x: bv32, vc: bv32, vd: bv32, vm: bv32, vp: bv32, vmi: bv32, vpi: bv32)
    requires vc & !CR_CHSEL == 0 && vd & !CR_DIR == 0 && vm & !CR_MSIZE == 0
    requires vp & !CR_PSIZE == 0 && vmi & !CR_MINC == 0 && vpi & !CR_PINC == 0
    ensures Overwrite(Overwrite(Overwrite(Overwrite(Overwrite(Overwrite(x,
              CR_CHSEL, vc), CR_DIR, vd), CR_MSIZE, vm), CR_PSIZE, vp), CR_MINC, vmi), CR_PINC, vpi)
         == Overwrite(x, CR_INIT_BITS, vc | vd | vm | vp | vmi | vpi)
  {
  }

  /** The two field overwrites of FCR are one overwrite of both. */
  lemma FcrMerge(x: bv32, vm: bv32, vt: bv32)
    requires vm & !FCR_DMDIS == 0 && vt & !FCR_FTH == 0
    ensures Overwrite(Overwrite(x, FCR_DMDIS, vm), FCR_FTH, vt) == Overwrite(x, FCR_INIT_BITS, vm | vt)
  {
  }

  lemma CrIsRowValue(x: bv32, row: DmaConfig)
    ensures Overwrite(Overwrite(Overwrite(Overwrite(Overwrite(Overwrite(x,
              CR_CHSEL, ChannelValue(row.channel)),
              CR_DIR, FieldValue(row.direction, CR_DIR_0, CR_DIR_1)),
              CR_MSIZE, FieldValue(row.memorySize, CR_MSIZE_0, CR_MSIZE_1)),
              CR_PSIZE, FieldValue(row.peripheralSize, CR_PSIZE_0, CR_PSIZE_1)),
              CR_MINC, Flag(row.memoryIncrement == DMA_MEMORY_INCREMENT_ENABLED, CR_MINC)),
              CR_PINC, Flag(row.peripheralIncrement == DMA_PERIPHERAL_INCREMENT_ENABLED, CR_PINC))
         == Overwrite(x, CR_INIT_BITS, CrValue(row))
  {
    ChannelWithin(row.channel);
    DirWithin(row.direction);
    MsizeWithin(row.memorySize);
    PsizeWithin(row.peripheralSize);
    FlagWithin(row.memoryIncrement == DMA_MEMORY_INCREMENT_ENABLED, CR_MINC);
    FlagWithin(row.peripheralIncrement == DMA_PERIPHERAL_INCREMENT_ENABLED, CR_PINC);
    CrMerge(x, ChannelValue(row.channel), FieldValue(row.direction, CR_DIR_0, CR_DIR_1),
            FieldValue(row.memorySize, CR_MSIZE_0, CR_MSIZE_1), FieldValue(row.peripheralSize, CR_PSIZE_0, CR_PSIZE_1),
            Flag(row.memoryIncrement == DMA_MEMORY_INCREMENT_ENABLED, CR_MINC),
            Flag(row.peripheralIncrement == DMA_PERIPHERAL_INCREMENT_ENABLED, CR_PINC));
  }

  lemma FcrIsRowValue(x: bv32, row: DmaConfig)
    ensures Overwrite(Overwrite(x,
              FCR_DMDIS, Flag(row.fifoMode == DMA_FIFO_DIRECT_MODE_DISABLED, FCR_DMDIS)),
              FCR_FTH, FieldValue(row.fifoThreshold, FCR_FTH_0, FCR_FTH_1))
         == Overwrite(x, FCR_INIT_BITS, FcrValue(row))
  {
    FlagWithin(row.fifoMode == DMA_FIFO_DIRECT_MODE_DISABLED, FCR_DMDIS);
    FthWithin(row.fifoThreshold);
    FcrMerge(x, Flag(row.fifoMode == DMA_FIFO_DIRECT_MODE_DISABLED, FCR_DMDIS), FieldValue(row.fifoThreshold, FCR_FTH_0, FCR_FTH_1));
  }

  /**
   * A row whose settings are all in range completes, and its effect on the
   * stream is the reference one: initialisation bits from the row, everything else kept.
   */
  lemma ApplyRowConfigures(c: StreamRegs, row: DmaConfig)
    requires SettingsInRange(row)
    ensures ApplyRow(c, row) == Configured(RowRegs(c, row))
  {
    CrIsRowValue(c.cr, row);
    FcrIsRowValue(c.fcr, row);
  }

  /** A row passes every assert of the loop body exactly when all its settings are below their sentinels. */
  lemma ApplyRowCompletes(c: StreamRegs, row: DmaConfig)
    ensures ApplyRow(c, row).Configured? <==> SettingsInRange(row)
  {
  }

  // ---------------------------------------------------------------------------
  // What one row leaves alone
  // ---------------------------------------------------------------------------

  /**
   * `d` agrees with `c` on every bit of CR and FCR that initialisation does
   * not own (EN among them) and on the address and count registers.
   */
  predicate KeepsOtherBits(c: StreamRegs, d: StreamRegs) {
    d.cr & !CR_INIT_BITS == c.cr & !CR_INIT_BITS
    && d.fcr & !FCR_INIT_BITS == c.fcr & !FCR_INIT_BITS
    && d.m0ar == c.m0ar && d.par == c.par && d.ndtr == c.ndtr
  }

  lemma CrWriteKeeps(c: StreamRegs, mask: bv32, value: bv32)
    requires mask & !CR_INIT_BITS == 0
    ensures KeepsOtherBits(c, c.(cr := Overwrite(c.cr, mask, value)))
  {
    OverwriteOutside(c.cr, mask, value, CR_INIT_BITS);
  }

  lemma FcrWriteKeeps(c: StreamRegs, mask: bv32, value: bv32)
    requires mask & !FCR_INIT_BITS == 0
    ensures KeepsOtherBits(c, c.(fcr := Overwrite(c.fcr, mask, value)))
  {
    var d := c.(fcr := Overwrite(c.fcr, mask, value));
    assert d.cr == c.cr;
    OverwriteOutside(c.fcr, mask, value, FCR_INIT_BITS);
  }

  // Each chain from the one a function names to the end keeps the other bits;
  // proved from the last chain backwards.

  lemma FifoThresholdKeeps(c: StreamRegs, row: DmaConfig)
    ensures KeepsOtherBits(c, FifoThresholdStep(c, row.fifoThreshold).regs)
  {
    if row.fifoThreshold < DMA_FIFO_THRESHOLD_MAX {
      FcrWriteKeeps(c, FCR_FTH, FieldValue(row.fifoThreshold, FCR_FTH_0, FCR_FTH_1));
    }
  }

  lemma FromFifoModeKeeps(c: StreamRegs, row: DmaConfig)
    ensures KeepsOtherBits(c, FromFifoMode(c, row).regs)
  {
    if row.fifoMode < DMA_FIFO_DIRECT_MODE_MAX {
      var d := c.(fcr := Overwrite(c.fcr, FCR_DMDIS, Flag(row.fifoMode == DMA_FIFO_DIRECT_MODE_DISABLED, FCR_DMDIS)));
      assert FromFifoMode(c, row) == FifoThresholdStep(d, row.fifoThreshold);
      FcrWriteKeeps(c, FCR_DMDIS, Flag(row.fifoMode == DMA_FIFO_DIRECT_MODE_DISABLED, FCR_DMDIS));
      FifoThresholdKeeps(d, row);
    }
  }

  lemma FromPeripheralIncrementKeeps(c: StreamRegs, row: DmaConfig)
    ensures KeepsOtherBits(c, FromPeripheralIncrement(c, row).regs)
  {
    if row.peripheralIncrement < DMA_PERIPHERAL_INCREMENT_MAX {
      var d := c.(cr := Overwrite(c.cr, CR_PINC, Flag(row.peripheralIncrement == DMA_PERIPHERAL_INCREMENT_ENABLED, CR_PINC)));
      assert FromPeripheralIncrement(c, row) == FromFifoMode(d, row);
      CrWriteKeeps(c, CR_PINC, Flag(row.peripheralIncrement == DMA_PERIPHERAL_INCREMENT_ENABLED, CR_PINC));
      FromFifoModeKeeps(d, row);
    }
  }

  lemma FromMemoryIncrementKeeps(c: StreamRegs, row: DmaConfig)
    ensures KeepsOtherBits(c, FromMemoryIncrement(c, row).regs)
  {
    if row.memoryIncrement < DMA_MEMORY_INCREMENT_MAX {
      var d := c.(cr := Overwrite(c.cr, CR_MINC, Flag(row.memoryIncrement == DMA_MEMORY_INCREMENT_ENABLED, CR_MINC)));
      assert FromMemoryIncrement(c, row) == FromPeripheralIncrement(d, row);
      CrWriteKeeps(c, CR_MINC, Flag(row.memoryIncrement == DMA_MEMORY_INCREMENT_ENABLED, CR_MINC));
      FromPeripheralIncrementKeeps(d, row);
    }
  }

  lemma FromPeripheralSizeKeeps(c: StreamRegs, row: DmaConfig)
    ensures KeepsOtherBits(c, FromPeripheralSize(c, row).regs)
  {
    if row.peripheralSize < DMA_PERIPHERAL_SIZE_MAX {
      var d := c.(cr := Overwrite(c.cr, CR_PSIZE, FieldValue(row.peripheralSize, CR_PSIZE_0, CR_PSIZE_1)));
      assert FromPeripheralSize(c, row) == FromMemoryIncrement(d, row);
      CrWriteKeeps(c, CR_PSIZE, FieldValue(row.peripheralSize, CR_PSIZE_0, CR_PSIZE_1));
      FromMemoryIncrementKeeps(d, row);
    }
  }

  lemma FromMemorySizeKeeps(c: StreamRegs, row: DmaConfig)
    ensures KeepsOtherBits(c, FromMemorySize(c, row).regs)
  {
    if row.memorySize < DMA_MEMORY_SIZE_MAX {
      var d := c.(cr := Overwrite(c.cr, CR_MSIZE, FieldValue(row.memorySize, CR_MSIZE_0, CR_MSIZE_1)));
      assert FromMemorySize(c, row) == FromPeripheralSize(d, row);
      CrWriteKeeps(c, CR_MSIZE, FieldValue(row.memorySize, CR_MSIZE_0, CR_MSIZE_1));
      FromPeripheralSizeKeeps(d, row);
    }
  }

  lemma FromDirectionKeeps(c: StreamRegs, row: DmaConfig)
    ensures KeepsOtherBits(c, FromDirection(c, row).regs)
  {
    if row.direction < DMA_DIRECTION_MAX {
      var d := c.(cr := Overwrite(c.cr, CR_DIR, FieldValue(row.direction, CR_DIR_0, CR_DIR_1)));
      assert FromDirection(c, row) == FromMemorySize(d, row);
      CrWriteKeeps(c, CR_DIR, FieldValue(row.direction, CR_DIR_0, CR_DIR_1));
      FromMemorySizeKeeps(d, row);
    }
  }

  /**
   * One iteration of the loop, whether it completes or halts partway, changes
   * no bit of CR or FCR outside the configured fields (so never EN) and no
   * address or count register.
   */
  lemma ApplyRowKeepsOtherBits(c: StreamRegs, row: DmaConfig)
    ensures KeepsOtherBits(c, ApplyRow(c, row).regs)
  {
    if row.channel < DMA_CHANNEL_MAX {
      var d := c.(cr := Overwrite(c.cr, CR_CHSEL, ChannelValue(row.channel)));
      assert ApplyRow(c, row) == FromDirection(d, row);
      CrWriteKeeps(c, CR_CHSEL, ChannelValue(row.channel));
      FromDirectionKeeps(d, row);
    }
  }

  // ---------------------------------------------------------------------------
  // Reading the settings back from the registers
  // ---------------------------------------------------------------------------

  // Under each field's mask, a merged overwrite reads back that field's value.

  lemma CrFieldsChselDir(x: bv32, vc: bv32, vd: bv32, vm: bv32, vp: bv32, vmi: bv32, vpi: bv32)
    requires vc & !CR_CHSEL == 0 && vd & !CR_DIR == 0 && vm & !CR_MSIZE == 0
    requires vp & !CR_PSIZE == 0 && vmi & !CR_MINC == 0 && vpi & !CR_PINC == 0
    ensures var v := Overwrite(x, CR_INIT_BITS, vc | vd | vm | vp | vmi | vpi);
            v & CR_CHSEL == vc && v & CR_DIR == vd
  {
  }

  lemma CrFieldsSizes(x: bv32, vc: bv32, vd: bv32, vm: bv32, vp: bv32, vmi: bv32, vpi: bv32)
    requires vc & !CR_CHSEL == 0 && vd & !CR_DIR == 0 && vm & !CR_MSIZE == 0
    requires vp & !CR_PSIZE == 0 && vmi & !CR_MINC == 0 && vpi & !CR_PINC == 0
    ensures var v := Overwrite(x, CR_INIT_BITS, vc | vd | vm | vp | vmi | vpi);
            v & CR_MSIZE == vm && v & CR_PSIZE == vp
  {
  }

  lemma CrFieldsIncrements(x: bv32, vc: bv32, vd: bv32, vm: bv32, vp: bv32, vmi: bv32, vpi: bv32)
    requires vc & !CR_CHSEL == 0 && vd & !CR_DIR == 0 && vm & !CR_MSIZE == 0
    requires vp & !CR_PSIZE == 0 && vmi & !CR_MINC == 0 && vpi & !CR_PINC == 0
    ensures var v := Overwrite(x, CR_INIT_BITS, vc | vd | vm | vp | vmi | vpi);
            v & CR_MINC == vmi && v & CR_PINC == vpi
  {
  }

  lemma FcrFields(x: bv32, vm: bv32, vt: bv32)
    requires vm & !FCR_DMDIS == 0 && vt & !FCR_FTH == 0
    ensures var v := Overwrite(x, FCR_INIT_BITS, vm | vt);
            v & FCR_DMDIS == vm && v & FCR_FTH == vt
  {
  }

  // Each field value, shifted down to bit 0, is the setting's ordinal.

  lemma ChannelNumber(channel: nat)
    requires channel < DMA_CHANNEL_MAX
    ensures ChannelValue(channel) >> 25 == channel as bv32
  {
  }

  lemma DirNumber(ordinal: nat)
    requires ordinal < DMA_DIRECTION_MAX
    ensures FieldValue(ordinal, CR_DIR_0, CR_DIR_1) >> 6 == ordinal as bv32
  {
  }

  lemma MsizeNumber(ordinal: nat)
    requires ordinal < DMA_MEMORY_SIZE_MAX
    ensures FieldValue(ordinal, CR_MSIZE_0, CR_MSIZE_1) >> 13 == ordinal as bv32
  {
  }

  lemma PsizeNumber(ordinal: nat)
    requires ordinal < DMA_PERIPHERAL_SIZE_MAX
    ensures FieldValue(ordinal, CR_PSIZE_0, CR_PSIZE_1) >> 11 == ordinal as bv32
  {
  }

  lemma FthNumber(ordinal: nat)
    requires ordinal < DMA_FIFO_THRESHOLD_MAX
    ensures FieldValue(ordinal, FCR_FTH_0, FCR_FTH_1) == ordinal as bv32
  {
  }

  /** CR.CHSEL and CR.DIR, shifted down, are the row's channel and direction. */
  predicate ChannelDirectionRead(cr: bv32, row: DmaConfig) {
    row.channel < DMA_CHANNEL_MAX && row.direction < DMA_DIRECTION_MAX
    && (cr & CR_CHSEL) >> 25 == row.channel as bv32
    && (cr & CR_DIR) >> 6 == row.direction as bv32
  }

  /** CR.MSIZE and CR.PSIZE, shifted down, are the row's memory and peripheral sizes. */
  predicate SizesRead(cr: bv32, row: DmaConfig) {
    row.memorySize < DMA_MEMORY_SIZE_MAX && row.peripheralSize < DMA_PERIPHERAL_SIZE_MAX
    && (cr & CR_MSIZE) >> 13 == row.memorySize as bv32
    && (cr & CR_PSIZE) >> 11 == row.peripheralSize as bv32
  }

  /** CR.MINC and CR.PINC are set exactly when the row enables the increments. */
  predicate IncrementsRead(cr: bv32, row: DmaConfig) {
    row.memoryIncrement < DMA_MEMORY_INCREMENT_MAX && row.peripheralIncrement < DMA_PERIPHERAL_INCREMENT_MAX
    && (IsSet(cr, CR_MINC) <==> row.memoryIncrement == DMA_MEMORY_INCREMENT_ENABLED)
    && (IsSet(cr, CR_PINC) <==> row.peripheralIncrement == DMA_PERIPHERAL_INCREMENT_ENABLED)
  }

  /** FCR.DMDIS is set exactly when the direct mode is disabled; FCR.FTH is the threshold's ordinal. */
  predicate FifoRead(fcr: bv32, row: DmaConfig) {
    row.fifoMode < DMA_FIFO_DIRECT_MODE_MAX && row.fifoThreshold < DMA_FIFO_THRESHOLD_MAX
    && (IsSet(fcr, FCR_DMDIS) <==> row.fifoMode == DMA_FIFO_DIRECT_MODE_DISABLED)
    && fcr & FCR_FTH == row.fifoThreshold as bv32
  }

  /** The settings a stream reads back from its CR and FCR: those of `row`. */
  predicate ReadsBack(r: StreamRegs, row: DmaConfig) {
    ChannelDirectionRead(r.cr, row) && SizesRead(r.cr, row) && IncrementsRead(r.cr, row) && FifoRead(r.fcr, row)
  }

  lemma CrValueWithin(row: DmaConfig)
    ensures ChannelValue(row.channel) & !CR_CHSEL == 0
    ensures FieldValue(row.direction, CR_DIR_0, CR_DIR_1) & !CR_DIR == 0
    ensures FieldValue(row.memorySize, CR_MSIZE_0, CR_MSIZE_1) & !CR_MSIZE == 0
    ensures FieldValue(row.peripheralSize, CR_PSIZE_0, CR_PSIZE_1) & !CR_PSIZE == 0
    ensures Flag(row.memoryIncrement == DMA_MEMORY_INCREMENT_ENABLED, CR_MINC) & !CR_MINC == 0
    ensures Flag(row.peripheralIncrement == DMA_PERIPHERAL_INCREMENT_ENABLED, CR_PINC) & !CR_PINC == 0
  {
    ChannelWithin(row.channel);
    DirWithin(row.direction);
    MsizeWithin(row.memorySize);
    PsizeWithin(row.peripheralSize);
    FlagWithin(row.memoryIncrement == DMA_MEMORY_INCREMENT_ENABLED, CR_MINC);
    FlagWithin(row.peripheralIncrement == DMA_PERIPHERAL_INCREMENT_ENABLED, CR_PINC);
  }

  // The fields of CR after a row, one at a time.

  lemma CrChsel(x: bv32, row: DmaConfig)
    ensures Overwrite(x, CR_INIT_BITS, CrValue(row)) & CR_CHSEL == ChannelValue(row.channel)
  {
    CrValueWithin(row);
    CrFieldsChselDir(x, ChannelValue(row.channel), FieldValue(row.direction, CR_DIR_0, CR_DIR_1),
                     FieldValue(row.memorySize, CR_MSIZE_0, CR_MSIZE_1), FieldValue(row.peripheralSize, CR_PSIZE_0, CR_PSIZE_1),
                     Flag(row.memoryIncrement == DMA_MEMORY_INCREMENT_ENABLED, CR_MINC),
                     Flag(row.peripheralIncrement == DMA_PERIPHERAL_INCREMENT_ENABLED, CR_PINC));
  }

  lemma CrDir(x: bv32, row: DmaConfig)
    ensures Overwrite(x, CR_INIT_BITS, CrValue(row)) & CR_DIR == FieldValue(row.direction, CR_DIR_0, CR_DIR_1)
  {
    CrValueWithin(row);
    CrFieldsChselDir(x, ChannelValue(row.channel), FieldValue(row.direction, CR_DIR_0, CR_DIR_1),
                     FieldValue(row.memorySize, CR_MSIZE_0, CR_MSIZE_1), FieldValue(row.peripheralSize, CR_PSIZE_0, CR_PSIZE_1),
                     Flag(row.memoryIncrement == DMA_MEMORY_INCREMENT_ENABLED, CR_MINC),
                     Flag(row.peripheralIncrement == DMA_PERIPHERAL_INCREMENT_ENABLED, CR_PINC));
  }

  lemma CrMsize(x: bv32, row: DmaConfig)
    ensures Overwrite(x, CR_INIT_BITS, CrValue(row)) & CR_MSIZE == FieldValue(row.memorySize, CR_MSIZE_0, CR_MSIZE_1)
  {
    CrValueWithin(row);
    CrFieldsSizes(x, ChannelValue(row.channel), FieldValue(row.direction, CR_DIR_0, CR_DIR_1),
                     FieldValue(row.memorySize, CR_MSIZE_0, CR_MSIZE_1), FieldValue(row.peripheralSize, CR_PSIZE_0, CR_PSIZE_1),
                     Flag(row.memoryIncrement == DMA_MEMORY_INCREMENT_ENABLED, CR_MINC),
                     Flag(row.peripheralIncrement == DMA_PERIPHERAL_INCREMENT_ENABLED, CR_PINC));
  }

  lemma CrPsize(x: bv32, row: DmaConfig)
    ensures Overwrite(x, CR_INIT_BITS, CrValue(row)) & CR_PSIZE == FieldValue(row.peripheralSize, CR_PSIZE_0, CR_PSIZE_1)
  {
    CrValueWithin(row);
    CrFieldsSizes(x, ChannelValue(row.channel), FieldValue(row.direction, CR_DIR_0, CR_DIR_1),
                     FieldValue(row.memorySize, CR_MSIZE_0, CR_MSIZE_1), FieldValue(row.peripheralSize, CR_PSIZE_0, CR_PSIZE_1),
                     Flag(row.memoryIncrement == DMA_MEMORY_INCREMENT_ENABLED, CR_MINC),
                     Flag(row.peripheralIncrement == DMA_PERIPHERAL_INCREMENT_ENABLED, CR_PINC));
  }

  lemma CrMinc(x: bv32, row: DmaConfig)
    ensures Overwrite(x, CR_INIT_BITS, CrValue(row)) & CR_MINC == Flag(row.memoryIncrement == DMA_MEMORY_INCREMENT_ENABLED, CR_MINC)
  {
    CrValueWithin(row);
    CrFieldsIncrements(x, ChannelValue(row.channel), FieldValue(row.direction, CR_DIR_0, CR_DIR_1),
                     FieldValue(row.memorySize, CR_MSIZE_0, CR_MSIZE_1), FieldValue(row.peripheralSize, CR_PSIZE_0, CR_PSIZE_1),
                     Flag(row.memoryIncrement == DMA_MEMORY_INCREMENT_ENABLED, CR_MINC),
                     Flag(row.peripheralIncrement == DMA_PERIPHERAL_INCREMENT_ENABLED, CR_PINC));
  }

  lemma CrPinc(x: bv32, row: DmaConfig)
    ensures Overwrite(x, CR_INIT_BITS, CrValue(row)) & CR_PINC == Flag(row.peripheralIncrement == DMA_PERIPHERAL_INCREMENT_ENABLED, CR_PINC)
  {
    CrValueWithin(row);
    CrFieldsIncrements(x, ChannelValue(row.channel), FieldValue(row.direction, CR_DIR_0, CR_DIR_1),
                     FieldValue(row.memorySize, CR_MSIZE_0, CR_MSIZE_1), FieldValue(row.peripheralSize, CR_PSIZE_0, CR_PSIZE_1),
                     Flag(row.memoryIncrement == DMA_MEMORY_INCREMENT_ENABLED, CR_MINC),
                     Flag(row.peripheralIncrement == DMA_PERIPHERAL_INCREMENT_ENABLED, CR_PINC));
  }

  lemma RowChannelDirectionRead(x: bv32, row: DmaConfig)
    requires SettingsInRange(row)
    ensures ChannelDirectionRead(Overwrite(x, CR_INIT_BITS, CrValue(row)), row)
  {
    CrChsel(x, row);
    CrDir(x, row);
    ChannelNumber(row.channel);
    DirNumber(row.direction);
  }

  lemma RowSizesRead(x: bv32, row: DmaConfig)
    requires SettingsInRange(row)
    ensures SizesRead(Overwrite(x, CR_INIT_BITS, CrValue(row)), row)
  {
    CrMsize(x, row);
    CrPsize(x, row);
    MsizeNumber(row.memorySize);
    PsizeNumber(row.peripheralSize);
  }

  lemma RowIncrementsRead(x: bv32, row: DmaConfig)
    requires SettingsInRange(row)
    ensures IncrementsRead(Overwrite(x, CR_INIT_BITS, CrValue(row)), row)
  {
    CrMinc(x, row);
    CrPinc(x, row);
  }

  lemma RowFifoRead(x: bv32, row: DmaConfig)
    requires SettingsInRange(row)
    ensures FifoRead(Overwrite(x, FCR_INIT_BITS, FcrValue(row)), row)
  {
    FlagWithin(row.fifoMode == DMA_FIFO_DIRECT_MODE_DISABLED, FCR_DMDIS);
    FthWithin(row.fifoThreshold);
    FcrFields(x, Flag(row.fifoMode == DMA_FIFO_DIRECT_MODE_DISABLED, FCR_DMDIS), FieldValue(row.fifoThreshold, FCR_FTH_0, FCR_FTH_1));
    FthNumber(row.fifoThreshold);
  }

  /** A row in range leaves on its stream registers that read back as the row. */
  lemma RowRegsReadBack(c: StreamRegs, row: DmaConfig)
    requires SettingsInRange(row)
    ensures ReadsBack(RowRegs(c, row), row)
  {
    RowChannelDirectionRead(c.cr, row);
    RowSizesRead(c.cr, row);
    RowIncrementsRead(c.cr, row);
    RowFifoRead(c.fcr, row);
  }

  /** DIR = 11 is reserved; a stream that reads back a row never holds it. */
  lemma ReadsBackNoReservedDirection(r: StreamRegs, row: DmaConfig)
    requires ReadsBack(r, row)
    ensures r.cr & CR_DIR != CR_DIR
  {
  }

  // ---------------------------------------------------------------------------
  // DMA_transferConfig
  // ---------------------------------------------------------------------------

  /**
   * After DMA_transferConfig the stream is enabled, holds the descriptor's
   * addresses and count, and keeps every other bit of CR and all of FCR.
   */
  lemma TransferSetsUp(c: StreamRegs, t: DmaTransferConfig)
    ensures var d := Transfer(c, t);
            && IsSet(d.cr, CR_EN)
            && d.cr & !CR_EN == c.cr & !CR_EN
            && d.fcr == c.fcr
            && d.m0ar == t.memory && d.par == t.peripheral && d.ndtr == t.length
  {
  }

  /**
   * DMA_transferConfig enables the stream with its last write: every write
   * before it leaves CR as it was, and by then the addresses and the count
   * already hold the descriptor's values.
   */
  lemma TransferEnablesLast(c: StreamRegs, t: DmaTransferConfig)
    ensures var w := TransferWrites(t);
            && |w| == 4 && w[3] == CrSet(CR_EN)
            && (forall k :: 0 <= k < 4 ==> ApplyTransferWrites(c, w[..k]).cr == c.cr)
            && ApplyTransferWrites(c, w[..3]) == c.(m0ar := t.memory, par := t.peripheral, ndtr := t.length)
  {
    var w := TransferWrites(t);
    assert w[..1][..0] == [] && w[..2][..1] == w[..1] && w[..3][..2] == w[..2];
    assert ApplyTransferWrites(c, w[..1]) == c.(m0ar := t.memory);
    assert ApplyTransferWrites(c, w[..2]) == c.(m0ar := t.memory, par := t.peripheral);
  }

  /** DMA_transferConfig leaves the configuration that DMA_init wrote as it was. */
  lemma TransferKeepsReadsBack(c: StreamRegs, t: DmaTransferConfig, row: DmaConfig)
    requires ReadsBack(c, row)
    ensures ReadsBack(Transfer(c, t), row)
  {
    EnableKeepsFields(c.cr);
  }

  /** Setting EN changes none of the configured fields of CR. */
  lemma EnableKeepsFields(x: bv32)
    ensures (x | CR_EN) & CR_INIT_BITS == x & CR_INIT_BITS
  {
  }

  /** DMA_init never sets EN: a stream it leaves is enabled exactly when it was before. */
  lemma KeepsOtherBitsKeepsEnable(c: StreamRegs, d: StreamRegs)
    requires KeepsOtherBits(c, d)
    ensures IsSet(d.cr, CR_EN) <==> IsSet(c.cr, CR_EN)
  {
  }
}
