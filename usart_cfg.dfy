/**
 * The USART configuration domain and the compiled-in configuration table.
 * Every enumerated setting is kept as its C ordinal (a `nat`), together with
 * the MAX sentinel that bounds it, so that a table may hold an out-of-range
 * value and `Usart.Init` can meet it.
 */
module UsartCfg {

  /** Number of USART instances in the register map. */
  const USART_PORTS_NUMBER: nat := 3

  // UsartPort_t
  const PORT_1: nat := 0
  const PORT_2: nat := 1
  const PORT_6: nat := 2
  const PORT_MAX: nat := 3

  // UsartWordLength_t
  const WORD_LENGTH_8: nat := 0
  const WORD_LENGTH_9: nat := 1
  const WORD_LENGTH_MAX: nat := 2

  // UsartStopBits_t: the ordinal is the value of the CR2.STOP field
  const STOP_BITS_1: nat := 0
  const STOP_BITS_0_5: nat := 1
  const STOP_BITS_2: nat := 2
  const STOP_BITS_1_5: nat := 3
  const STOP_BITS_MAX: nat := 4

  // UsartParity_t
  const PARITY_DISABLED: nat := 0
  const PARITY_ENABLED: nat := 1
  const PARITY_MAX: nat := 2

  // UsartRx_t
  const RX_DISABLED: nat := 0
  const RX_ENABLED: nat := 1
  const RX_MAX: nat := 2

  // UsartTx_t
  const TX_DISABLED: nat := 0
  const TX_ENABLED: nat := 1
  const TX_MAX: nat := 2

  // UsartRxDma_t
  const RX_DMA_DISABLED: nat := 0
  const RX_DMA_ENABLED: nat := 1
  const RX_DMA_MAX: nat := 2

  // UsartTxDma_t
  const TX_DMA_DISABLED: nat := 0
  const TX_DMA_ENABLED: nat := 1
  const TX_DMA_MAX: nat := 2

  // UsartEnable_t
  const DISABLED: nat := 0
  const ENABLED: nat := 1
  const UE_MAX: nat := 2

  // UsartBaudRate_t: the enumerators are the rates themselves, so the
  // sentinel is one past the largest and the valid set has gaps.
  const BAUD_RATE_9600: nat := 9600
  const BAUD_RATE_19200: nat := 19200
  const BAUD_RATE_38400: nat := 38400
  const BAUD_RATE_57600: nat := 57600
  const BAUD_RATE_115200: nat := 115200
  const BAUD_RATE_MAX: nat := 115201

  /** One row of the configuration table (UsartConfig_t), fields in declaration order. */
  datatype UsartConfig = UsartConfig(
    port: nat,
    wordLength: nat,
    stopBits: nat,
    parity: nat,
    rx: nat,
    tx: nat,
    rxDma: nat,
    txDma: nat,
    enable: nat,
    baudRate: nat)

  /** A baud rate that names one of the five enumerators. */
  predicate IsNamedBaudRate(baud: nat) {
    baud == BAUD_RATE_9600 || baud == BAUD_RATE_19200 || baud == BAUD_RATE_38400
    || baud == BAUD_RATE_57600 || baud == BAUD_RATE_115200
  }

  /** Every setting of a row lies below its MAX sentinel (the asserts of USART_init). */
  predicate SettingsInRange(row: UsartConfig) {
    row.wordLength < WORD_LENGTH_MAX && row.stopBits < STOP_BITS_MAX
    && row.parity < PARITY_MAX && row.rx < RX_MAX && row.tx < TX_MAX
    && row.rxDma < RX_DMA_MAX && row.txDma < TX_DMA_MAX && row.enable < UE_MAX
    && row.baudRate < BAUD_RATE_MAX
  }

  /** The row names an existing port and all of its settings are in range. */
  predicate RowInRange(row: UsartConfig) {
    row.port < PORT_MAX && SettingsInRange(row)
  }

  /** The application's table: USART2, 8N1, Rx and Tx with DMA, enabled, 9600 baud. */
  const UsartConfigTable: seq<UsartConfig> := [
    UsartConfig(PORT_2, WORD_LENGTH_8, STOP_BITS_1, PARITY_DISABLED,
                RX_ENABLED, TX_ENABLED, RX_DMA_ENABLED,
                TX_DMA_ENABLED, ENABLED, BAUD_RATE_9600)
  ]

  /**
   * USART_configGet: the table, from its first row. Its one row names USART2
   * and keeps every setting below its sentinel, so USART_init's asserts hold.
   */
  function ConfigGet(): (table: seq<UsartConfig>)
    ensures |table| == 1 && table[0].port == PORT_2
    ensures forall i :: 0 <= i < |table| ==> RowInRange(table[i])
  {
    UsartConfigTable
  }

  /** USART_configSizeGet: the number of rows of the table. */
  function ConfigSizeGet(): (n: nat)
    ensures n == |ConfigGet()|
    ensures n == 1
  {
    |UsartConfigTable|
  }
}
