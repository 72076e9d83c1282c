/**
 * The DMA configuration domain and the compiled-in configuration table. As
 * for the USART, every enumerated setting is kept as its C ordinal (a `nat`)
 * next to the MAX sentinel that bounds it, so that a table may hold an
 * out-of-range value and `Dma.DmaRegisters.Init` can meet it.
 */
module DmaCfg {

  /** Number of DMA streams in the register map: eight on DMA1, eight on DMA2. */
  const DMA_PORTS_NUMBER: nat := 16

  /** Number of streams the application's table configures. */
  const DMA_USED_PORTS: nat := 2

  // DmaStream_t: DMA1 streams 0..7, then DMA2 streams 0..7
  const DMA1_STREAM_0: nat := 0
  const DMA1_STREAM_1: nat := 1
  const DMA1_STREAM_2: nat := 2
  const DMA1_STREAM_3: nat := 3
  const DMA1_STREAM_4: nat := 4
  const DMA1_STREAM_5: nat := 5
  const DMA1_STREAM_6: nat := 6
  const DMA1_STREAM_7: nat := 7
  const DMA2_STREAM_0: nat := 8
  const DMA2_STREAM_1: nat := 9
  const DMA2_STREAM_2: nat := 10
  const DMA2_STREAM_3: nat := 11
  const DMA2_STREAM_4: nat := 12
  const DMA2_STREAM_5: nat := 13
  const DMA2_STREAM_6: nat := 14
  const DMA2_STREAM_7: nat := 15
  const DMA_STREAM_MAX: nat := 16

  // DmaChannel_t: the ordinal is the value of the CR.CHSEL field
  const DMA_CHANNEL_0: nat := 0
  const DMA_CHANNEL_1: nat := 1
  const DMA_CHANNEL_2: nat := 2
  const DMA_CHANNEL_3: nat := 3
  const DMA_CHANNEL_4: nat := 4
  const DMA_CHANNEL_5: nat := 5
  const DMA_CHANNEL_6: nat := 6
  const DMA_CHANNEL_7: nat := 7
  const DMA_CHANNEL_MAX: nat := 8

  // DmaDirection_t: the ordinal is the value of the CR.DIR field
  const DMA_PERIPHERAL_TO_MEMORY: nat := 0
  const DMA_MEMORY_TO_PERIPHERAL: nat := 1
  const DMA_MEMORY_TO_MEMORY: nat := 2
  const DMA_DIRECTION_MAX: nat := 3

  // DmaMemorySize_t: the ordinal is the value of the CR.MSIZE field
  const DMA_MEMORY_SIZE_8: nat := 0
  const DMA_MEMORY_SIZE_16: nat := 1
  const DMA_MEMORY_SIZE_32: nat := 2
  const DMA_MEMORY_SIZE_MAX: nat := 3

  // DmaPeripheralSize_t: the ordinal is the value of the CR.PSIZE field
  const DMA_PERIPHERAL_SIZE_8: nat := 0
  const DMA_PERIPHERAL_SIZE_16: nat := 1
  const DMA_PERIPHERAL_SIZE_32: nat := 2
  const DMA_PERIPHERAL_SIZE_MAX: nat := 3

  // DmaMemoryIncrement_t
  const DMA_MEMORY_INCREMENT_DISABLED: nat := 0
  const DMA_MEMORY_INCREMENT_ENABLED: nat := 1
  const DMA_MEMORY_INCREMENT_MAX: nat := 2

  // DmaPeripheralIncrement_t
  const DMA_PERIPHERAL_INCREMENT_DISABLED: nat := 0
  const DMA_PERIPHERAL_INCREMENT_ENABLED: nat := 1
  const DMA_PERIPHERAL_INCREMENT_MAX: nat := 2

  // DmaFifoMode_t: whether the direct mode is disabled (FIFO in use) or enabled
  const DMA_FIFO_DIRECT_MODE_DISABLED: nat := 0
  const DMA_FIFO_DIRECT_MODE_ENABLED: nat := 1
  const DMA_FIFO_DIRECT_MODE_MAX: nat := 2

  // DmaFifoThreshold_t: the ordinal is the value of the FCR.FTH field
  const DMA_FIFO_THRESHOLD_1_4: nat := 0
  const DMA_FIFO_THRESHOLD_1_2: nat := 1
  const DMA_FIFO_THRESHOLD_3_4: nat := 2
  const DMA_FIFO_THRESHOLD_FULL: nat := 3
  const DMA_FIFO_THRESHOLD_MAX: nat := 4

  /** One row of the configuration table (DmaConfig_t), fields in declaration order. */
  datatype DmaConfig = DmaConfig(
    stream: nat,
    channel: nat,
    direction: nat,
    memorySize: nat,
    peripheralSize: nat,
    memoryIncrement: nat,
    peripheralIncrement: nat,
    fifoMode: nat,
    fifoThreshold: nat)

  /** Every setting of a row lies below its MAX sentinel (the asserts of DMA_init after the stream's). */
  predicate SettingsInRange(row: DmaConfig) {
    row.channel < DMA_CHANNEL_MAX && row.direction < DMA_DIRECTION_MAX
    && row.memorySize < DMA_MEMORY_SIZE_MAX && row.peripheralSize < DMA_PERIPHERAL_SIZE_MAX
    && row.memoryIncrement < DMA_MEMORY_INCREMENT_MAX
    && row.peripheralIncrement < DMA_PERIPHERAL_INCREMENT_MAX
    && row.fifoMode < DMA_FIFO_DIRECT_MODE_MAX && row.fifoThreshold < DMA_FIFO_THRESHOLD_MAX
  }

  /** The row names an existing stream and all of its settings are in range. */
  predicate RowInRange(row: DmaConfig) {
    row.stream < DMA_PORTS_NUMBER && SettingsInRange(row)
  }

  /**
   * The application's table: USART2's transmit (DMA1 stream 6) and receive
   * (DMA1 stream 5) requests, both on channel 4, byte-wide, memory address
   * incrementing, direct mode.
   */
  const DmaConfigTable: seq<DmaConfig> := [
    DmaConfig(DMA1_STREAM_6, DMA_CHANNEL_4, DMA_MEMORY_TO_PERIPHERAL, DMA_MEMORY_SIZE_8,
              DMA_PERIPHERAL_SIZE_8, DMA_MEMORY_INCREMENT_ENABLED, DMA_PERIPHERAL_INCREMENT_DISABLED,
              DMA_FIFO_DIRECT_MODE_ENABLED, DMA_FIFO_THRESHOLD_FULL),
    DmaConfig(DMA1_STREAM_5, DMA_CHANNEL_4, DMA_PERIPHERAL_TO_MEMORY, DMA_MEMORY_SIZE_8,
              DMA_PERIPHERAL_SIZE_8, DMA_MEMORY_INCREMENT_ENABLED, DMA_PERIPHERAL_INCREMENT_DISABLED,
              DMA_FIFO_DIRECT_MODE_ENABLED, DMA_FIFO_THRESHOLD_FULL)
  ]

  /**
   * DMA_configGet: the table, from its first row. Its rows name two distinct
   * streams and keep every setting below its sentinel, so DMA_init's asserts hold.
   */
  function ConfigGet(): (table: seq<DmaConfig>)
    ensures |table| == 2 && table[0].stream == DMA1_STREAM_6 && table[1].stream == DMA1_STREAM_5
    ensures forall i :: 0 <= i < |table| ==> RowInRange(table[i])
  {
    DmaConfigTable
  }

  /** DMA_configSizeGet: the number of rows of the table, which is the number of streams in use. */
  function ConfigSizeGet(): (n: nat)
    ensures n == |ConfigGet()|
    ensures n == DMA_USED_PORTS
  {
    |DmaConfigTable|
  }
}
