/**
 * The DMA driver: table-driven initialisation of each stream's CR and FCR,
 * and the set-up of one transfer (memory address, peripheral address, item
 * count, then the enable bit).
 *
 * The registers of the sixteen streams live in one `DmaRegisters` object,
 * one array per register indexed by stream, as the driver's pointer tables
 * are. What initialisation does to them is given by the pure functions
 * `ApplyRow` (one table row on one stream's registers) and `Run` (a whole
 * table on all streams); the methods are proved to do exactly that.
 */
module Dma {
  import opened RegisterBits
  import opened TableInit
  import opened DmaCfg

  // Bit positions from RM0368, section 9.5: DMA_SxCR and DMA_SxFCR.
  const CR_EN: bv32 := 0x0000_0001      // bit 0: stream enable
  const CR_DIR_0: bv32 := 0x0000_0040   // bits 7:6: data transfer direction
  const CR_DIR_1: bv32 := 0x0000_0080
  const CR_PINC: bv32 := 0x0000_0200    // bit 9: peripheral increment mode
  const CR_MINC: bv32 := 0x0000_0400    // bit 10: memory increment mode
  const CR_PSIZE_0: bv32 := 0x0000_0800 // bits 12:11: peripheral data size
  const CR_PSIZE_1: bv32 := 0x0000_1000
  const CR_MSIZE_0: bv32 := 0x0000_2000 // bits 14:13: memory data size
  const CR_MSIZE_1: bv32 := 0x0000_4000
  const CR_CHSEL_0: bv32 := 0x0200_0000 // bits 27:25: channel selection
  const CR_CHSEL_1: bv32 := 0x0400_0000
  const CR_CHSEL_2: bv32 := 0x0800_0000
  const FCR_FTH_0: bv32 := 0x0000_0001  // bits 1:0: FIFO threshold
  const FCR_FTH_1: bv32 := 0x0000_0002
  const FCR_DMDIS: bv32 := 0x0000_0004  // bit 2: direct mode disable

  const CR_CHSEL: bv32 := CR_CHSEL_0 | CR_CHSEL_1 | CR_CHSEL_2
  const CR_DIR: bv32 := CR_DIR_0 | CR_DIR_1
  const CR_MSIZE: bv32 := CR_MSIZE_0 | CR_MSIZE_1
  const CR_PSIZE: bv32 := CR_PSIZE_0 | CR_PSIZE_1
  const FCR_FTH: bv32 := FCR_FTH_0 | FCR_FTH_1

  /** The bits DMA_init writes, in CR and in FCR. */
  const CR_INIT_BITS: bv32 := CR_CHSEL | CR_DIR | CR_MSIZE | CR_PSIZE | CR_MINC | CR_PINC
  const FCR_INIT_BITS: bv32 := FCR_DMDIS | FCR_FTH

  /** The registers of one stream that the driver touches. */
  datatype StreamRegs = StreamRegs(cr: bv32, fcr: bv32, m0ar: bv32, par: bv32, ndtr: bv32)

  /** The register state of all streams after initialisation, and how it ended. */
  datatype InitResult = InitResult(streams: seq<StreamRegs>, status: InitStatus)

  /**
   * DmaTransferConfig_t: the stream, the peripheral and memory addresses as
   * the 32-bit words the driver casts them to, and the number of items.
   */
  datatype DmaTransferConfig = DmaTransferConfig(stream: nat, peripheral: bv32, memory: bv32, length: bv32)

  /** The CR.CHSEL field for a channel below the sentinel: the channel number as a three-bit number. */
  function ChannelValue(channel: nat): bv32 {
    if channel == DMA_CHANNEL_0 then 0
    else if channel == DMA_CHANNEL_1 then CR_CHSEL_0
    else if channel == DMA_CHANNEL_2 then CR_CHSEL_1
    else if channel == DMA_CHANNEL_3 then CR_CHSEL_0 | CR_CHSEL_1
    else if channel == DMA_CHANNEL_4 then CR_CHSEL_2
    else if channel == DMA_CHANNEL_5 then CR_CHSEL_0 | CR_CHSEL_2
    else if channel == DMA_CHANNEL_6 then CR_CHSEL_1 | CR_CHSEL_2
    else CR_CHSEL_0 | CR_CHSEL_1 | CR_CHSEL_2
  }

  /** A two-bit field for an ordinal below four: the ordinal as a two-bit number on `bit0` and `bit1`. */
  function FieldValue(ordinal: nat, bit0: bv32, bit1: bv32): bv32 {
    if ordinal == 0 then 0
    else if ordinal == 1 then bit0
    else if ordinal == 2 then bit1
    else bit0 | bit1
  }

  // Each if/else-if chain of DMA_init's loop body, as the change it makes to
  // the stream. A value below the sentinel overwrites its field with the
  // value's encoding; any other value fails the closing assert and writes
  // nothing.

  /** The channel: CHSEL overwritten with the channel number. */
  function ChannelStep(c: StreamRegs, channel: nat): RowResult<StreamRegs> {
    if channel < DMA_CHANNEL_MAX then Configured(c.(cr := Overwrite(c.cr, CR_CHSEL, ChannelValue(channel))))
    else Halted(c)
  }

  /** The direction: DIR overwritten with its ordinal. */
  function DirectionStep(c: StreamRegs, direction: nat): RowResult<StreamRegs> {
    if direction < DMA_DIRECTION_MAX then Configured(c.(cr := Overwrite(c.cr, CR_DIR, FieldValue(direction, CR_DIR_0, CR_DIR_1))))
    else Halted(c)
  }

  /** The memory data size: MSIZE overwritten with its ordinal. */
  function MemorySizeStep(c: StreamRegs, memorySize: nat): RowResult<StreamRegs> {
    if memorySize < DMA_MEMORY_SIZE_MAX then Configured(c.(cr := Overwrite(c.cr, CR_MSIZE, FieldValue(memorySize, CR_MSIZE_0, CR_MSIZE_1))))
    else Halted(c)
  }

  /** The peripheral data size: PSIZE overwritten with its ordinal. */
  function PeripheralSizeStep(c: StreamRegs, peripheralSize: nat): RowResult<StreamRegs> {
    if peripheralSize < DMA_PERIPHERAL_SIZE_MAX then Configured(c.(cr := Overwrite(c.cr, CR_PSIZE, FieldValue(peripheralSize, CR_PSIZE_0, CR_PSIZE_1))))
    else Halted(c)
  }

  /** Memory increment: bit MINC set when enabled. */
  function MemoryIncrementStep(c: StreamRegs, memoryIncrement: nat): RowResult<StreamRegs> {
    if memoryIncrement < DMA_MEMORY_INCREMENT_MAX then Configured(c.(cr := Overwrite(c.cr, CR_MINC, Flag(memoryIncrement == DMA_MEMORY_INCREMENT_ENABLED, CR_MINC))))
    else Halted(c)
  }

  /** Peripheral increment: bit PINC set when enabled. */
  function PeripheralIncrementStep(c: StreamRegs, peripheralIncrement: nat): RowResult<StreamRegs> {
    if peripheralIncrement < DMA_PERIPHERAL_INCREMENT_MAX then Configured(c.(cr := Overwrite(c.cr, CR_PINC, Flag(peripheralIncrement == DMA_PERIPHERAL_INCREMENT_ENABLED, CR_PINC))))
    else Halted(c)
  }

  /** The FIFO mode: bit DMDIS set when the direct mode is disabled. */
  function FifoModeStep(c: StreamRegs, fifoMode: nat): RowResult<StreamRegs> {
    if fifoMode < DMA_FIFO_DIRECT_MODE_MAX then Configured(c.(fcr := Overwrite(c.fcr, FCR_DMDIS, Flag(fifoMode == DMA_FIFO_DIRECT_MODE_DISABLED, FCR_DMDIS))))
    else Halted(c)
  }

  /** The FIFO threshold: FTH overwritten with its ordinal. */
  function FifoThresholdStep(c: StreamRegs, fifoThreshold: nat): RowResult<StreamRegs> {
    if fifoThreshold < DMA_FIFO_THRESHOLD_MAX then Configured(c.(fcr := Overwrite(c.fcr, FCR_FTH, FieldValue(fifoThreshold, FCR_FTH_0, FCR_FTH_1))))
    else Halted(c)
  }

  // One iteration of DMA_init's loop is the eight chains above in source
  // order, stopping at the first failed assert. `ApplyRow` runs them all; each
  // `From...` function runs the chains from the one it names to the end.

  /** One iteration of DMA_init's loop on the registers of the row's stream. */
  function ApplyRow(c: StreamRegs, row: DmaConfig): RowResult<StreamRegs> {
    var c :- ChannelStep(c, row.channel);
    FromDirection(c, row)
  }

  function FromDirection(c: StreamRegs, row: DmaConfig): RowResult<StreamRegs> {
    var c :- DirectionStep(c, row.direction);
    FromMemorySize(c, row)
  }

  function FromMemorySize(c: StreamRegs, row: DmaConfig): RowResult<StreamRegs> {
    var c :- MemorySizeStep(c, row.memorySize);
    FromPeripheralSize(c, row)
  }

  function FromPeripheralSize(c: StreamRegs, row: DmaConfig): RowResult<StreamRegs> {
    var c :- PeripheralSizeStep(c, row.peripheralSize);
    FromMemoryIncrement(c, row)
  }

  function FromMemoryIncrement(c: StreamRegs, row: DmaConfig): RowResult<StreamRegs> {
    var c :- MemoryIncrementStep(c, row.memoryIncrement);
    FromPeripheralIncrement(c, row)
  }

  function FromPeripheralIncrement(c: StreamRegs, row: DmaConfig): RowResult<StreamRegs> {
    var c :- PeripheralIncrementStep(c, row.peripheralIncrement);
    FromFifoMode(c, row)
  }

  function FromFifoMode(c: StreamRegs, row: DmaConfig): RowResult<StreamRegs> {
    var c :- FifoModeStep(c, row.fifoMode);
    FifoThresholdStep(c, row.fifoThreshold)
  }

  /**
   * DMA_init over `table` from the stream registers `streams`: rows in
   * order, each first checked for its stream, stopping at the first failing assert.
   */
  function Run(streams: seq<StreamRegs>, table: seq<DmaConfig>): (r: InitResult)
    requires |streams| == DMA_PORTS_NUMBER
    ensures |r.streams| == DMA_PORTS_NUMBER
    decreases |table|
  {
    if table == [] then InitResult(streams, Done)
    else
      var prev := Run(streams, table[..|table| - 1]);
      var i := |table| - 1;
      var row := table[i];
      if prev.status.AssertFailed? then prev
      else if !(row.stream < DMA_PORTS_NUMBER) then InitResult(prev.streams, AssertFailed(i))
      else match ApplyRow(prev.streams[row.stream], row)
        case Configured(c) => InitResult(prev.streams[row.stream := c], Done)
        case Halted(c) => InitResult(prev.streams[row.stream := c], AssertFailed(i))
  }

  /** Once an assert has halted the run, the rows after it are never reached. */
  lemma {:induction false} RunHaltsAtFailure(streams: seq<StreamRegs>, table: seq<DmaConfig>, k: nat)
    requires |streams| == DMA_PORTS_NUMBER && k <= |table|
    requires Run(streams, table[..k]).status.AssertFailed?
    ensures Run(streams, table) == Run(streams, table[..k])
    decreases |table|
  {
    if k < |table| {
      assert table[..|table| - 1][..k] == table[..k];
      RunHaltsAtFailure(streams, table[..|table| - 1], k);
    } else {
      assert table[..k] == table;
    }
  }

  /** DMA_transferConfig on the stream's registers: M0AR, PAR and NDTR written, then EN set. */
  function Transfer(c: StreamRegs, t: DmaTransferConfig): (d: StreamRegs)
    ensures IsSet(d.cr, CR_EN) && d.fcr == c.fcr
  {
    c.(m0ar := t.memory, par := t.peripheral, ndtr := t.length, cr := c.cr | CR_EN)
  }

  /** One register write of DMA_transferConfig, as the bus sees it. */
  datatype TransferWrite = M0arWrite(value: bv32) | ParWrite(value: bv32) | NdtrWrite(value: bv32) | CrSet(mask: bv32)

  function ApplyTransferWrite(c: StreamRegs, w: TransferWrite): StreamRegs {
    match w
    case M0arWrite(v) => c.(m0ar := v)
    case ParWrite(v) => c.(par := v)
    case NdtrWrite(v) => c.(ndtr := v)
    case CrSet(m) => c.(cr := c.cr | m)
  }

  /** The stream's registers after the writes `ws`, made in order. */
  function ApplyTransferWrites(c: StreamRegs, ws: seq<TransferWrite>): StreamRegs
    decreases |ws|
  {
    if ws == [] then c else ApplyTransferWrite(ApplyTransferWrites(c, ws[..|ws| - 1]), ws[|ws| - 1])
  }

  /** The writes of DMA_transferConfig in source order: the addresses, the count, and EN last. */
  function TransferWrites(t: DmaTransferConfig): seq<TransferWrite> {
    [M0arWrite(t.memory), ParWrite(t.peripheral), NdtrWrite(t.length), CrSet(CR_EN)]
  }

  /** Making the writes of DMA_transferConfig one by one ends in the state `Transfer` describes. */
  lemma TransferWritesApply(c: StreamRegs, t: DmaTransferConfig)
    ensures ApplyTransferWrites(c, TransferWrites(t)) == Transfer(c, t)
  {
    var w := TransferWrites(t);
    assert w[..1][..0] == [] && w[..2][..1] == w[..1] && w[..3][..2] == w[..2] && w[..4] == w;
    assert ApplyTransferWrites(c, w[..1]) == c.(m0ar := t.memory);
    assert ApplyTransferWrites(c, w[..2]) == c.(m0ar := t.memory, par := t.peripheral);
    assert ApplyTransferWrites(c, w[..3]) == c.(m0ar := t.memory, par := t.peripheral, ndtr := t.length);
  }

  /** The registers of all streams as values, from the register arrays' contents. */
  function StreamsOf(cr: seq<bv32>, fcr: seq<bv32>, m0ar: seq<bv32>, par: seq<bv32>, ndtr: seq<bv32>): (s: seq<StreamRegs>)
    requires |fcr| == |m0ar| == |par| == |ndtr| == |cr|
    ensures |s| == |cr|
    ensures forall i :: 0 <= i < |cr| ==> s[i] == StreamRegs(cr[i], fcr[i], m0ar[i], par[i], ndtr[i])
  {
    seq(|cr|, i requires 0 <= i < |cr| => StreamRegs(cr[i], fcr[i], m0ar[i], par[i], ndtr[i]))
  }

  /** The memory-mapped registers of the sixteen DMA streams. */
  class DmaRegisters {
    const cr: array<bv32>
    const fcr: array<bv32>
    const m0ar: array<bv32>
    const par: array<bv32>
    const ndtr: array<bv32>

    ghost predicate Valid() {
      cr.Length == DMA_PORTS_NUMBER && fcr.Length == DMA_PORTS_NUMBER
      && m0ar.Length == DMA_PORTS_NUMBER && par.Length == DMA_PORTS_NUMBER
      && ndtr.Length == DMA_PORTS_NUMBER
      && cr != fcr && cr != m0ar && cr != par && cr != ndtr
      && fcr != m0ar && fcr != par && fcr != ndtr
      && m0ar != par && m0ar != ndtr && par != ndtr
    }

    constructor ()
      ensures Valid()
      ensures fresh(cr) && fresh(fcr) && fresh(m0ar) && fresh(par) && fresh(ndtr)
      ensures forall s :: 0 <= s < DMA_PORTS_NUMBER ==> StreamState(s) == StreamRegs(0, 0, 0, 0, 0)
    {
      cr := new bv32[DMA_PORTS_NUMBER](_ => 0);
      fcr := new bv32[DMA_PORTS_NUMBER](_ => 0);
      m0ar := new bv32[DMA_PORTS_NUMBER](_ => 0);
      par := new bv32[DMA_PORTS_NUMBER](_ => 0);
      ndtr := new bv32[DMA_PORTS_NUMBER](_ => 0);
    }

    function StreamState(s: nat): StreamRegs
      requires Valid() && s < DMA_PORTS_NUMBER
      reads cr, fcr, m0ar, par, ndtr
    {
      StreamRegs(cr[s], fcr[s], m0ar[s], par[s], ndtr[s])
    }

    function Streams(): (r: seq<StreamRegs>)
      requires Valid()
      reads cr, fcr, m0ar, par, ndtr
      ensures |r| == DMA_PORTS_NUMBER
      ensures forall s :: 0 <= s < DMA_PORTS_NUMBER ==> r[s] == StreamState(s)
    {
      StreamsOf(cr[..], fcr[..], m0ar[..], par[..], ndtr[..])
    }

    // Each of the following methods is one if/else-if chain of DMA_init's
    // loop body, acting on the registers of stream `s`.

    method SetChannel(s: nat, channel: nat) returns (ok: bool)
      requires Valid() && s < DMA_PORTS_NUMBER
      modifies cr
      ensures ok == ChannelStep(old(StreamState(s)), channel).Configured?
      ensures StreamState(s) == ChannelStep(old(StreamState(s)), channel).regs
      ensures forall q :: 0 <= q < DMA_PORTS_NUMBER && q != s ==> cr[q] == old(cr[q])
    {
      ok := true;
      if channel == DMA_CHANNEL_0 {
        WriteChannel0(s);
      } else if channel == DMA_CHANNEL_1 {
        WriteChannel1(s);
      } else if channel == DMA_CHANNEL_2 {
        WriteChannel2(s);
      } else if channel == DMA_CHANNEL_3 {
        WriteChannel3(s);
      } else if channel == DMA_CHANNEL_4 {
        WriteChannel4(s);
      } else if channel == DMA_CHANNEL_5 {
        WriteChannel5(s);
      } else if channel == DMA_CHANNEL_6 {
        WriteChannel6(s);
      } else if channel == DMA_CHANNEL_7 {
        WriteChannel7(s);
      } else {
        ok := channel < DMA_CHANNEL_MAX;
      }
    }

    // The three writes of each channel branch, CHSEL[0], CHSEL[1] and then
    // CHSEL[2], overwrite the field with the channel number.

    /** CHSEL = 000: channel 0. */
    method WriteChannel0(s: nat)
      requires Valid() && s < DMA_PORTS_NUMBER
      modifies cr
      ensures cr[s] == Overwrite(old(cr[s]), CR_CHSEL, 0)
      ensures forall q :: 0 <= q < DMA_PORTS_NUMBER && q != s ==> cr[q] == old(cr[q])
    {
      ClearBits(cr, s, CR_CHSEL_0);
      ClearBits(cr, s, CR_CHSEL_1);
      ClearBits(cr, s, CR_CHSEL_2);
    }

    /** CHSEL = 001: channel 1. */
    method WriteChannel1(s: nat)
      requires Valid() && s < DMA_PORTS_NUMBER
      modifies cr
      ensures cr[s] == Overwrite(old(cr[s]), CR_CHSEL, CR_CHSEL_0)
      ensures forall q :: 0 <= q < DMA_PORTS_NUMBER && q != s ==> cr[q] == old(cr[q])
    {
      SetBits(cr, s, CR_CHSEL_0);
      ClearBits(cr, s, CR_CHSEL_1);
      ClearBits(cr, s, CR_CHSEL_2);
    }

    /** CHSEL = 010: channel 2. */
    method WriteChannel2(s: nat)
      requires Valid() && s < DMA_PORTS_NUMBER
      modifies cr
      ensures cr[s] == Overwrite(old(cr[s]), CR_CHSEL, CR_CHSEL_1)
      ensures forall q :: 0 <= q < DMA_PORTS_NUMBER && q != s ==> cr[q] == old(cr[q])
    {
      ClearBits(cr, s, CR_CHSEL_0);
      SetBits(cr, s, CR_CHSEL_1);
      ClearBits(cr, s, CR_CHSEL_2);
    }

    /** CHSEL = 011: channel 3. */
    method WriteChannel3(s: nat)
      requires Valid() && s < DMA_PORTS_NUMBER
      modifies cr
      ensures cr[s] == Overwrite(old(cr[s]), CR_CHSEL, CR_CHSEL_0 | CR_CHSEL_1)
      ensures forall q :: 0 <= q < DMA_PORTS_NUMBER && q != s ==> cr[q] == old(cr[q])
    {
      SetBits(cr, s, CR_CHSEL_0);
      SetBits(cr, s, CR_CHSEL_1);
      ClearBits(cr, s, CR_CHSEL_2);
    }

    /** CHSEL = 100: channel 4. */
    method WriteChannel4(s: nat)
      requires Valid() && s < DMA_PORTS_NUMBER
      modifies cr
      ensures cr[s] == Overwrite(old(cr[s]), CR_CHSEL, CR_CHSEL_2)
      ensures forall q :: 0 <= q < DMA_PORTS_NUMBER && q != s ==> cr[q] == old(cr[q])
    {
      ClearBits(cr, s, CR_CHSEL_0);
      ClearBits(cr, s, CR_CHSEL_1);
      SetBits(cr, s, CR_CHSEL_2);
    }

    /** CHSEL = 101: channel 5. */
    method WriteChannel5(s: nat)
      requires Valid() && s < DMA_PORTS_NUMBER
      modifies cr
      ensures cr[s] == Overwrite(old(cr[s]), CR_CHSEL, CR_CHSEL_0 | CR_CHSEL_2)
      ensures forall q :: 0 <= q < DMA_PORTS_NUMBER && q != s ==> cr[q] == old(cr[q])
    {
      SetBits(cr, s, CR_CHSEL_0);
      ClearBits(cr, s, CR_CHSEL_1);
      SetBits(cr, s, CR_CHSEL_2);
    }

    /** CHSEL = 110: channel 6. */
    method WriteChannel6(s: nat)
      requires Valid() && s < DMA_PORTS_NUMBER
      modifies cr
      ensures cr[s] == Overwrite(old(cr[s]), CR_CHSEL, CR_CHSEL_1 | CR_CHSEL_2)
      ensures forall q :: 0 <= q < DMA_PORTS_NUMBER && q != s ==> cr[q] == old(cr[q])
    {
      ClearBits(cr, s, CR_CHSEL_0);
      SetBits(cr, s, CR_CHSEL_1);
      SetBits(cr, s, CR_CHSEL_2);
    }

    /** CHSEL = 111: channel 7. */
    method WriteChannel7(s: nat)
      requires Valid() && s < DMA_PORTS_NUMBER
      modifies cr
      ensures cr[s] == Overwrite(old(cr[s]), CR_CHSEL, CR_CHSEL_0 | CR_CHSEL_1 | CR_CHSEL_2)
      ensures forall q :: 0 <= q < DMA_PORTS_NUMBER && q != s ==> cr[q] == old(cr[q])
    {
      SetBits(cr, s, CR_CHSEL_0);
      SetBits(cr, s, CR_CHSEL_1);
      SetBits(cr, s, CR_CHSEL_2);
    }

    method SetDirection(s: nat, direction: nat) returns (ok: bool)
      requires Valid() && s < DMA_PORTS_NUMBER
      modifies cr
      ensures ok == DirectionStep(old(StreamState(s)), direction).Configured?
      ensures StreamState(s) == DirectionStep(old(StreamState(s)), direction).regs
      ensures forall q :: 0 <= q < DMA_PORTS_NUMBER && q != s ==> cr[q] == old(cr[q])
    {
      ok := true;
      if direction == DMA_PERIPHERAL_TO_MEMORY {
        ClearBits(cr, s, CR_DIR_0);
        ClearBits(cr, s, CR_DIR_1);
      } else if direction == DMA_MEMORY_TO_PERIPHERAL {
        SetBits(cr, s, CR_DIR_0);
        ClearBits(cr, s, CR_DIR_1);
      } else if direction == DMA_MEMORY_TO_MEMORY {
        ClearBits(cr, s, CR_DIR_0);
        SetBits(cr, s, CR_DIR_1);
      } else {
        ok := direction < DMA_DIRECTION_MAX;
      }
    }

    method SetMemorySize(s: nat, memorySize: nat) returns (ok: bool)
      requires Valid() && s < DMA_PORTS_NUMBER
      modifies cr
      ensures ok == MemorySizeStep(old(StreamState(s)), memorySize).Configured?
      ensures StreamState(s) == MemorySizeStep(old(StreamState(s)), memorySize).regs
      ensures forall q :: 0 <= q < DMA_PORTS_NUMBER && q != s ==> cr[q] == old(cr[q])
    {
      ok := true;
      if memorySize == DMA_MEMORY_SIZE_8 {
        ClearBits(cr, s, CR_MSIZE_0);
        ClearBits(cr, s, CR_MSIZE_1);
      } else if memorySize == DMA_MEMORY_SIZE_16 {
        SetBits(cr, s, CR_MSIZE_0);
        ClearBits(cr, s, CR_MSIZE_1);
      } else if memorySize == DMA_MEMORY_SIZE_32 {
        ClearBits(cr, s, CR_MSIZE_0);
        SetBits(cr, s, CR_MSIZE_1);
      } else {
        ok := memorySize < DMA_MEMORY_SIZE_MAX;
      }
    }

    method SetPeripheralSize(s: nat, peripheralSize: nat) returns (ok: bool)
      requires Valid() && s < DMA_PORTS_NUMBER
      modifies cr
      ensures ok == PeripheralSizeStep(old(StreamState(s)), peripheralSize).Configured?
      ensures StreamState(s) == PeripheralSizeStep(old(StreamState(s)), peripheralSize).regs
      ensures forall q :: 0 <= q < DMA_PORTS_NUMBER && q != s ==> cr[q] == old(cr[q])
    {
      ok := true;
      if peripheralSize == DMA_PERIPHERAL_SIZE_8 {
        ClearBits(cr, s, CR_PSIZE_0);
        ClearBits(cr, s, CR_PSIZE_1);
      } else if peripheralSize == DMA_PERIPHERAL_SIZE_16 {
        SetBits(cr, s, CR_PSIZE_0);
        ClearBits(cr, s, CR_PSIZE_1);
      } else if peripheralSize == DMA_PERIPHERAL_SIZE_32 {
        ClearBits(cr, s, CR_PSIZE_0);
        SetBits(cr, s, CR_PSIZE_1);
      } else {
        ok := peripheralSize < DMA_PERIPHERAL_SIZE_MAX;
      }
    }

    method SetMemoryIncrement(s: nat, memoryIncrement: nat) returns (ok: bool)
      requires Valid() && s < DMA_PORTS_NUMBER
      modifies cr
      ensures ok == MemoryIncrementStep(old(StreamState(s)), memoryIncrement).Configured?
      ensures StreamState(s) == MemoryIncrementStep(old(StreamState(s)), memoryIncrement).regs
      ensures forall q :: 0 <= q < DMA_PORTS_NUMBER && q != s ==> cr[q] == old(cr[q])
    {
      ok := true;
      if memoryIncrement == DMA_MEMORY_INCREMENT_DISABLED {
        ClearBits(cr, s, CR_MINC);
      } else if memoryIncrement == DMA_MEMORY_INCREMENT_ENABLED {
        SetBits(cr, s, CR_MINC);
      } else {
        ok := memoryIncrement < DMA_MEMORY_INCREMENT_MAX;
      }
    }

    method SetPeripheralIncrement(s: nat, peripheralIncrement: nat) returns (ok: bool)
      requires Valid() && s < DMA_PORTS_NUMBER
      modifies cr
      ensures ok == PeripheralIncrementStep(old(StreamState(s)), peripheralIncrement).Configured?
      ensures StreamState(s) == PeripheralIncrementStep(old(StreamState(s)), peripheralIncrement).regs
      ensures forall q :: 0 <= q < DMA_PORTS_NUMBER && q != s ==> cr[q] == old(cr[q])
    {
      ok := true;
      if peripheralIncrement == DMA_PERIPHERAL_INCREMENT_DISABLED {
        ClearBits(cr, s, CR_PINC);
      } else if peripheralIncrement == DMA_PERIPHERAL_INCREMENT_ENABLED {
        SetBits(cr, s, CR_PINC);
      } else {
        ok := peripheralIncrement < DMA_PERIPHERAL_INCREMENT_MAX;
      }
    }

    method SetFifoMode(s: nat, fifoMode: nat) returns (ok: bool)
      requires Valid() && s < DMA_PORTS_NUMBER
      modifies fcr
      ensures ok == FifoModeStep(old(StreamState(s)), fifoMode).Configured?
      ensures StreamState(s) == FifoModeStep(old(StreamState(s)), fifoMode).regs
      ensures forall q :: 0 <= q < DMA_PORTS_NUMBER && q != s ==> fcr[q] == old(fcr[q])
    {
      ok := true;
      if fifoMode == DMA_FIFO_DIRECT_MODE_DISABLED {
        SetBits(fcr, s, FCR_DMDIS);
      } else if fifoMode == DMA_FIFO_DIRECT_MODE_ENABLED {
        ClearBits(fcr, s, FCR_DMDIS);
      } else {
        ok := fifoMode < DMA_FIFO_DIRECT_MODE_MAX;
      }
    }

    method SetFifoThreshold(s: nat, fifoThreshold: nat) returns (ok: bool)
      requires Valid() && s < DMA_PORTS_NUMBER
      modifies fcr
      ensures ok == FifoThresholdStep(old(StreamState(s)), fifoThreshold).Configured?
      ensures StreamState(s) == FifoThresholdStep(old(StreamState(s)), fifoThreshold).regs
      ensures forall q :: 0 <= q < DMA_PORTS_NUMBER && q != s ==> fcr[q] == old(fcr[q])
    {
      ok := true;
      if fifoThreshold == DMA_FIFO_THRESHOLD_1_4 {
        ClearBits(fcr, s, FCR_FTH_0);
        ClearBits(fcr, s, FCR_FTH_1);
      } else if fifoThreshold == DMA_FIFO_THRESHOLD_1_2 {
        SetBits(fcr, s, FCR_FTH_0);
        ClearBits(fcr, s, FCR_FTH_1);
      } else if fifoThreshold == DMA_FIFO_THRESHOLD_3_4 {
        ClearBits(fcr, s, FCR_FTH_0);
        SetBits(fcr, s, FCR_FTH_1);
      } else if fifoThreshold == DMA_FIFO_THRESHOLD_FULL {
        SetBits(fcr, s, FCR_FTH_0);
        SetBits(fcr, s, FCR_FTH_1);
      } else {
        ok := fifoThreshold < DMA_FIFO_THRESHOLD_MAX;
      }
    }

    /**
     * The body of DMA_init's loop for one row whose stream passed the
     * assert: the eight chains in source order, stopping at a failed assert.
     */
    method ConfigureStream(row: DmaConfig) returns (ok: bool)
      requires Valid() && row.stream < DMA_PORTS_NUMBER
      modifies cr, fcr
      ensures ok == ApplyRow(old(StreamState(row.stream)), row).Configured?
      ensures StreamState(row.stream) == ApplyRow(old(StreamState(row.stream)), row).regs
      ensures forall q :: 0 <= q < DMA_PORTS_NUMBER && q != row.stream ==> StreamState(q) == old(StreamState(q))
    {
      var s := row.stream;
      ghost var want := ApplyRow(StreamState(s), row);
      assert want == ApplyRow(StreamState(s), row);
      ok := SetChannel(s, row.channel);
      if !ok { return; }
      assert want == FromDirection(StreamState(s), row);
      ok := SetDirection(s, row.direction);
      if !ok { return; }
      assert want == FromMemorySize(StreamState(s), row);
      ok := SetMemorySize(s, row.memorySize);
      if !ok { return; }
      assert want == FromPeripheralSize(StreamState(s), row);
      ok := SetPeripheralSize(s, row.peripheralSize);
      if !ok { return; }
      assert want == FromMemoryIncrement(StreamState(s), row);
      ok := SetMemoryIncrement(s, row.memoryIncrement);
      if !ok { return; }
      assert want == FromPeripheralIncrement(StreamState(s), row);
      ok := SetPeripheralIncrement(s, row.peripheralIncrement);
      if !ok { return; }
      assert want == FromFifoMode(StreamState(s), row);
      ok := SetFifoMode(s, row.fifoMode);
      if !ok { return; }
      assert want == FifoThresholdStep(StreamState(s), row.fifoThreshold);
      ok := SetFifoThreshold(s, row.fifoThreshold);
    }

    /**
     * DMA_init: applies the first `configSize` rows of `config` in order.
     * The result says whether an assert halted it, and on which row.
     */
    method Init(config: seq<DmaConfig>, configSize: nat) returns (status: InitStatus)
      requires Valid()
      requires configSize <= |config| && configSize <= 255
      modifies cr, fcr
      ensures Run(old(Streams()), config[..configSize]) == InitResult(Streams(), status)
    {
      for i := 0 to configSize
        invariant Run(old(Streams()), config[..i]) == InitResult(Streams(), Done)
      {
        assert config[..i + 1][..i] == config[..i];
        var row := config[i];
        if !(row.stream < DMA_PORTS_NUMBER) {
          status := AssertFailed(i);
          assert config[..configSize][..i + 1] == config[..i + 1];
          assert Run(old(Streams()), config[..i + 1]) == InitResult(Streams(), status);
          RunHaltsAtFailure(old(Streams()), config[..configSize], i + 1);
          return;
        }
        ghost var before := Streams();
        var ok := ConfigureStream(row);
        assert Streams() == before[row.stream := ApplyRow(before[row.stream], row).regs];
        if !ok {
          status := AssertFailed(i);
          assert config[..configSize][..i + 1] == config[..i + 1];
          assert Run(old(Streams()), config[..i + 1]) == InitResult(Streams(), status);
          RunHaltsAtFailure(old(Streams()), config[..configSize], i + 1);
          return;
        }
      }
      return Done;
    }

    /**
     * DMA_transferConfig: the memory address, the peripheral address and the
     * item count written to the stream's registers, then the stream enabled.
     * `writes` records the register writes in the order they are made.
     */
    method TransferConfig(t: DmaTransferConfig) returns (writes: seq<TransferWrite>)
      requires Valid() && t.stream < DMA_PORTS_NUMBER
      modifies cr, m0ar, par, ndtr
      ensures writes == TransferWrites(t)
      ensures StreamState(t.stream) == ApplyTransferWrites(old(StreamState(t.stream)), writes)
      ensures StreamState(t.stream) == Transfer(old(StreamState(t.stream)), t)
      ensures forall q :: 0 <= q < DMA_PORTS_NUMBER && q != t.stream ==> StreamState(q) == old(StreamState(q))
    {
      m0ar[t.stream] := t.memory;
      writes := [M0arWrite(t.memory)];
      par[t.stream] := t.peripheral;
      writes := writes + [ParWrite(t.peripheral)];
      ndtr[t.stream] := t.length;
      writes := writes + [NdtrWrite(t.length)];
      SetBits(cr, t.stream, CR_EN);
      writes := writes + [CrSet(CR_EN)];
      TransferWritesApply(old(StreamState(t.stream)), t);
    }
  }
}
