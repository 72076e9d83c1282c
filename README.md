# STM32F4 USART and DMA drivers

This project models the table-driven USART and DMA stream drivers of the
DMA-Driver firmware for the STM32F401 (reference manual RM0368). It also
proves what they do to the peripheral registers.

- **USART driver.**
  - `USART_init` walks a configuration table. For each row it programs the
    word length, stop bits, parity, receiver, transmitter, DMA requests and
    enable bit in CR1, CR2 and CR3, then writes the baud-rate divisor into BRR.
    It checks every setting against its enumeration's MAX sentinel with a C
    `assert`.
  - `USART_transmit` busy-waits on TXE and writes a NUL-terminated string byte
    by byte into DR.
  - `USART_receive` busy-waits on RXNE and reads one byte from DR.
- **DMA driver.**
  - `DMA_init` walks its own table. Per stream it programs CHSEL, DIR, MSIZE,
    PSIZE, MINC and PINC in CR, and DMDIS and FTH in FCR.
  - `DMA_transferConfig` writes the memory address, the peripheral address and
    the item count, then sets EN.
- **Configuration modules.** They hold the two compiled-in tables: USART2 at
  9600 baud, and DMA1 streams 6 (transmit) and 5 (receive) on channel 4.

## How the model is built

- **Register files.** The drivers' register-pointer tables become the classes
  `Usart.UsartRegisters` and `Dma.DmaRegisters`. Each holds one `array<bv32>`
  per register, indexed by port (3) or stream (16). Every driver routine is a
  method on those arrays. It keeps the driver's own `|=` and `&= ~` writes, in
  the same order (`RegisterBits.SetBits`, `RegisterBits.ClearBits`).
- **Specification functions.** Each method is proved against a pure function.
  - `ApplyRow`: one table row applied to one port's or one stream's registers.
    It is a chain of per-field steps joined with `:-`.
  - `Run`: the whole table, one row at a time, stopping at the first failed
    assert.
  - `Transmission`: the transmit loop as a sequence of bus events.
  - `TransferWrites`: the register writes of a DMA transfer set-up, in the
    order they are made.
- **Properties.** They are stated and proved about those functions:
  - a row configures the registers if and only if all of its settings are in
    range;
  - initialisation stops at the first bad row;
  - it touches only the fields it owns;
  - running a table twice changes nothing;
  - each configured field reads back as the value the table asked for;
  - the shipped tables produce concrete register values;
  - transmit sends exactly the string up to its NUL, each byte only after TXE.
- **Failed asserts.** A failed `assert` is an outcome (`InitStatus.AssertFailed(row)`).
  The registers keep whatever writes were made before it.
- **Status register and received data.** SR is not state. The values that
  successive reads of SR return are an input sequence. A finite sequence that
  never shows the awaited flag stands for a busy-wait that does not end. The
  value a DR read returns in `USART_receive` is an input too, since the
  hardware fills it from the line.

## Model

| member | source | states |
|---|---|---|
| UsartCfg.ConfigGet | FirmwareCode/src/usart_cfg.c:38-49 | The USART table has one row, for USART2, and every setting of that row is below its MAX sentinel, so the asserts of `USART_init` hold for it |
| UsartCfg.ConfigSizeGet | FirmwareCode/src/usart_cfg.c:136-139 | The table size is the number of rows of the table returned by `ConfigGet`, which is 1 |
| UsartProofs.BaudNoWrap | FirmwareCode/src/usart.c:507-510 | When neither the 32-bit sum nor the 16-bit return overflows, the divisor is exactly `(clock + baud/2) / baud` |
| UsartProofs.BaudDivisorIsNearest | FirmwareCode/src/usart.c:507-510 | Under the same no-overflow bounds, the divisor is the integer nearest to `clock / baud`: `clock - q*baud` lies in `[-(baud/2), baud - baud/2)` |
| UsartProofs.BaudDivisor16MHz9600 | FirmwareCode/src/usart.c:255-258 | At a 16 MHz clock and 9600 baud, the divisor is 1667 |
| Usart.BaudRateCalculate | FirmwareCode/src/usart.c:507-510 | The divisor never exceeds the rounded quotient `(clock + baud/2) / baud`: the 32-bit wrap of the sum and the 16-bit truncation of the return can only lower it |
| UsartRunProofs.BaudRegister16MHz9600 | FirmwareCode/src/usart.c:255-258 | The BRR value written for 9600 baud at 16 MHz is 1667 |
| Usart.Run | FirmwareCode/src/usart.c:118-281 | Initialisation of the whole table always yields a register state for all 3 ports |
| Usart.RunHaltsAtFailure | FirmwareCode/src/usart.c:122-125 | Once a row's assert fails, the rows after it change neither the registers nor the status |
| Usart.ApplyRow | FirmwareCode/src/usart.c:127-278 | No contract of its own. One pass of the loop body: the nine field chains in source order, stopping at the first failed assert. Its properties are `UsartProofs.ApplyRowConfigures`, `UsartRunProofs.ApplyRowCompletes` and `UsartRunProofs.ApplyRowKeepsOtherBits` |
| Usart.UsartRegisters.constructor | FirmwareCode/src/usart.c:32-65 | The register file has one independent register per port for CR1, CR2, CR3, BRR and DR, all starting at zero |
| Usart.UsartRegisters.Ports | FirmwareCode/src/usart.c:32-65 | The view of the register file as a sequence holds the 3 ports, entry p being port p's registers |
| Usart.UsartRegisters.SetWordLength | FirmwareCode/src/usart.c:129-140 | M is set for 9 bits and cleared for 8. The return says whether the assert held. No other port's CR1 changes |
| Usart.UsartRegisters.SetStopBits | FirmwareCode/src/usart.c:143-166 | The STOP field is set to 0/1/2/3 for 1, 0.5, 2 or 1.5 stop bits; an out-of-range value fails the assert and leaves CR2 as it was. No other port's CR2 changes |
| Usart.UsartRegisters.WriteStopBits1 | FirmwareCode/src/usart.c:145-146 | Clearing both STOP bits leaves the STOP field at 00 and every other bit as it was |
| Usart.UsartRegisters.WriteStopBits0_5 | FirmwareCode/src/usart.c:150-151 | The set and clear sequence leaves the STOP field at 01 and every other bit as it was |
| Usart.UsartRegisters.WriteStopBits2 | FirmwareCode/src/usart.c:155-156 | The set and clear sequence leaves the STOP field at 10 and every other bit as it was |
| Usart.UsartRegisters.WriteStopBits1_5 | FirmwareCode/src/usart.c:160-161 | Setting both STOP bits leaves the STOP field at 11 and every other bit as it was |
| Usart.UsartRegisters.SetParity | FirmwareCode/src/usart.c:169-180 | PCE follows the parity setting; an out-of-range setting fails the assert |
| Usart.UsartRegisters.SetRx | FirmwareCode/src/usart.c:183-194 | RE follows the receiver setting; an out-of-range setting fails the assert |
| Usart.UsartRegisters.SetTx | FirmwareCode/src/usart.c:197-208 | TE follows the transmitter setting; an out-of-range setting fails the assert |
| Usart.UsartRegisters.SetRxDma | FirmwareCode/src/usart.c:212-223 | CR3.DMAR follows the receive-DMA setting; an out-of-range setting fails the assert |
| Usart.UsartRegisters.SetTxDma | FirmwareCode/src/usart.c:226-237 | CR3.DMAT follows the transmit-DMA setting; an out-of-range setting fails the assert |
| Usart.UsartRegisters.SetEnable | FirmwareCode/src/usart.c:240-251 | UE follows the enable setting; an out-of-range setting fails the assert |
| Usart.UsartRegisters.WriteBaudRate | FirmwareCode/src/usart.c:257 | BRR of the port is overwritten whole with the 16-bit divisor, zero-extended |
| Usart.UsartRegisters.SetBaudRate | FirmwareCode/src/usart.c:255-278 | A named rate writes its divisor to BRR. A value below the sentinel that names no rate passes the assert and leaves BRR as it was. A value at or above the sentinel fails the assert |
| Usart.UsartRegisters.ConfigurePort | FirmwareCode/src/usart.c:127-278 | One row applied to its port equals `ApplyRow`, including where an assert stops it part-way. The other ports are unchanged |
| Usart.UsartRegisters.Init | FirmwareCode/src/usart.c:118-281 | The registers and status after the loop are exactly `Run` of the first `configSize` rows from the registers before it |
| Usart.UsartRegisters.Transmit | FirmwareCode/src/usart.c:324-342 | The outcome is `Transmission` of the port, data and SR readings. A bad port aborts before any write. Otherwise DR ends holding the last byte written, and no other port's DR changes |
| Usart.Transmission | FirmwareCode/src/usart.c:324-342 | The transmission aborts if and only if the port is out of range. The assert comes before the loop |
| Usart.TransmitLoop | FirmwareCode/src/usart.c:329-341 | The loop itself never aborts. It either reaches the NUL or is still waiting for TXE |
| Usart.UsartRegisters.Receive | FirmwareCode/src/usart.c:384-394 | A byte is received if and only if some SR reading has RXNE set. That byte is the low 8 bits of the value the DR read returns, which is the receive data register and not what was last transmitted |
| UsartTransmitProofs.CString | FirmwareCode/src/usart.c:329-330 | The string that the loop walks is the longest NUL-free prefix of the data, and a NUL follows it |
| UsartTransmitProofs.TransmitLoopWrites | FirmwareCode/src/usart.c:330-341 | The loop never aborts. It completes if and only if SR shows TXE at least as often as the string has bytes. It writes the string's bytes in order, as many as TXE allowed |
| UsartTransmitProofs.TransmitLoopWritesAfterTxe | FirmwareCode/src/usart.c:333-339 | Every DR write comes right after an SR read with TXE set |
| UsartTransmitProofs.TransmitLoopReads | FirmwareCode/src/usart.c:333-336 | The loop reads SR values in the order they come, and a loop still spinning has consumed all of them |
| UsartTransmitProofs.LastWrittenIsLastWrite | FirmwareCode/src/usart.c:339 | DR holds the last byte written, or its old value when nothing was written |
| UsartTransmitProofs.TransmissionSendsString | FirmwareCode/src/usart.c:324-342 | It aborts if and only if the port is out of range. It completes if and only if the port is valid and TXE came often enough, and then DR received exactly the string up to its NUL and ends with its last byte. A spinning loop has sent a proper prefix. Every write waited for TXE |
| UsartProofs.Cr1IsRowValue | FirmwareCode/src/usart.c:129-251 | The five CR1 field updates of a row together overwrite exactly M, PCE, RE, TE and UE with the row's value |
| UsartProofs.Cr3IsRowValue | FirmwareCode/src/usart.c:212-237 | The two CR3 updates together overwrite exactly DMAR and DMAT with the row's value |
| UsartProofs.ApplyRowConfigures | FirmwareCode/src/usart.c:127-278 | A row whose settings are all in range configures the port to `RowRegs`: each control register's initialised bits take the row's value, and BRR takes the divisor of a named rate |
| UsartRunProofs.ApplyRowCompletes | FirmwareCode/src/usart.c:127-278 | A row passes all of its asserts if and only if every setting is below its sentinel |
| UsartRunProofs.ApplyRowKeepsOtherBits | FirmwareCode/src/usart.c:127-278 | A row, completed or halted, changes no bit of CR1, CR2 or CR3 outside the fields initialisation owns |
| UsartRunProofs.HaltedRowKeepsBrr | FirmwareCode/src/usart.c:253-278 | A row stopped by an assert never reaches BRR |
| UsartRunProofs.RunStatusLastRow | FirmwareCode/src/usart.c:122-278 | The status after a table is the earlier failure, if any; otherwise Done when the last row is in range, and a failure at the last row when it is not |
| UsartRunProofs.AllRowsInRangeLast | FirmwareCode/src/usart.c:122-125 | Every row of a table is in range if and only if every row before the last is and the last row is too |
| UsartRunProofs.RunEmpty | FirmwareCode/src/usart.c:122 | An empty table leaves every register as it was and reports Done |
| UsartRunProofs.RunDoneIff | FirmwareCode/src/usart.c:118-281 | Initialisation completes if and only if every row names a valid port and every setting is in range |
| UsartRunProofs.RunFailsAtFirstBadRow | FirmwareCode/src/usart.c:122-278 | A failure reported at row k means row k is out of range and every row before it is in range |
| UsartRunProofs.RunBadPortWritesNothing | FirmwareCode/src/usart.c:122-125 | A row naming no port, after a prefix that completed, stops initialisation at that row. Every port keeps the registers the prefix left: nothing of the row is written |
| UsartRunProofs.RunKeepsUnnamedPort | FirmwareCode/src/usart.c:118-281 | A port that no row names keeps all its registers |
| UsartRunProofs.RunKeepsOtherBits | FirmwareCode/src/usart.c:118-281 | On every port, the control-register bits outside the initialised fields survive initialisation |
| UsartRunProofs.RunLastRowDone | FirmwareCode/src/usart.c:122-278 | When a table completes, the table without its last row completed, the last row is in range, and the last row's port gets `RowRegs` |
| UsartRunProofs.ApplyThen | FirmwareCode/src/usart.c:127-278 | Applying two row writes in turn is one write of the later values. BRR keeps the earlier divisor when the later row names no rate |
| UsartRunProofs.ApplyAllTwice | FirmwareCode/src/usart.c:127-278 | Applying the same writes a second time changes nothing |
| UsartRunProofs.RunDonePorts | FirmwareCode/src/usart.c:118-281 | After a completed run, each port holds its old registers overwritten by the combined writes of the rows that name it |
| UsartRunProofs.RunIdempotent | FirmwareCode/src/usart.c:118-281 | Running a completed table again on its own result changes nothing |
| UsartRunProofs.LastRowWins | FirmwareCode/src/usart.c:118-281 | The last row that names a port decides that port's registers: it equals `RowRegs` of that row on the state just before it |
| UsartRunProofs.RowRegsReadBack | FirmwareCode/src/usart.c:127-278 | After an in-range row, each flag reads as set if and only if the row enables it, STOP reads as the row's stop-bit ordinal, and BRR holds the row's divisor (or its old value for an unnamed rate) |
| UsartRunProofs.RunReadsBack | FirmwareCode/src/usart.c:118-281 | After a completed run, the registers of the port named by the last row that names it read back that row's settings |
| UsartRunProofs.ShippedRowRegs | FirmwareCode/src/usart_cfg.c:46-48 | The shipped row sets UE, TE and RE, clears M and PCE, sets STOP to 00, sets DMAR and DMAT, and sets BRR to 1667 at 16 MHz |
| UsartRunProofs.ShippedTableConfiguresUsart2 | FirmwareCode/src/usart_cfg.c:38-49 | At 16 MHz the shipped table completes and leaves USART1 and USART6 untouched. USART2 gets 8N1 with Rx, Tx, both DMA requests, enable, and BRR 1667 |
| DmaCfg.ConfigGet | FirmwareCode/src/dma_cfg.c:38-52 | The DMA table has two rows, for DMA1 stream 6 and DMA1 stream 5, with every setting below its sentinel |
| DmaCfg.ConfigSizeGet | FirmwareCode/src/dma_cfg.c:125-128 | The table size is the number of rows of the table, which equals `DMA_USED_PORTS` (2) |
| Dma.Run | FirmwareCode/src/dma.c:137-334 | Initialisation of the whole table always yields a register state for all 16 streams |
| Dma.RunHaltsAtFailure | FirmwareCode/src/dma.c:140-143 | Once a row's assert fails, the rows after it change neither the registers nor the status |
| Dma.ApplyRow | FirmwareCode/src/dma.c:145-330 | No contract of its own. One pass of the loop body: the eight field chains in source order, stopping at the first failed assert. Its properties are `DmaProofs.ApplyRowConfigures`, `DmaProofs.ApplyRowCompletes` and `DmaProofs.ApplyRowKeepsOtherBits` |
| Dma.Transfer | FirmwareCode/src/dma.c:380-393 | After a transfer set-up EN is set and FCR is as it was |
| Dma.TransferWritesApply | FirmwareCode/src/dma.c:380-393 | Making the four writes of a transfer set-up one after another ends in the state `Transfer` describes |
| Dma.StreamsOf | FirmwareCode/src/dma.c:32-93 | Stream i's registers are the i-th entries of the five per-register tables |
| Dma.DmaRegisters.constructor | FirmwareCode/src/dma.c:32-93 | The register file has one independent register per stream for CR, FCR, M0AR, PAR and NDTR, all starting at zero |
| Dma.DmaRegisters.Streams | FirmwareCode/src/dma.c:32-93 | The view of the register file holds the 16 streams, stream by stream |
| Dma.DmaRegisters.SetChannel | FirmwareCode/src/dma.c:147-198 | CHSEL is set to the channel number for channels 0 to 7; any other value fails the assert and leaves CR as it was. No other stream's CR changes |
| Dma.DmaRegisters.WriteChannel0 | FirmwareCode/src/dma.c:149-151 | The three bit writes for channel 0 leave CHSEL at 000 and every other bit as it was |
| Dma.DmaRegisters.WriteChannel1 | FirmwareCode/src/dma.c:155-157 | The writes for channel 1 leave CHSEL at 001 and every other bit as it was |
| Dma.DmaRegisters.WriteChannel2 | FirmwareCode/src/dma.c:161-163 | The writes for channel 2 leave CHSEL at 010 and every other bit as it was |
| Dma.DmaRegisters.WriteChannel3 | FirmwareCode/src/dma.c:167-169 | The writes for channel 3 leave CHSEL at 011 and every other bit as it was |
| Dma.DmaRegisters.WriteChannel4 | FirmwareCode/src/dma.c:173-175 | The writes for channel 4 leave CHSEL at 100 and every other bit as it was |
| Dma.DmaRegisters.WriteChannel5 | FirmwareCode/src/dma.c:179-181 | The writes for channel 5 leave CHSEL at 101 and every other bit as it was |
| Dma.DmaRegisters.WriteChannel6 | FirmwareCode/src/dma.c:185-187 | The writes for channel 6 leave CHSEL at 110 and every other bit as it was |
| Dma.DmaRegisters.WriteChannel7 | FirmwareCode/src/dma.c:191-193 | The writes for channel 7 leave CHSEL at 111 and every other bit as it was |
| Dma.DmaRegisters.SetDirection | FirmwareCode/src/dma.c:201-219 | DIR is set to 00, 01 or 10 for peripheral-to-memory, memory-to-peripheral or memory-to-memory; an out-of-range value fails the assert |
| Dma.DmaRegisters.SetMemorySize | FirmwareCode/src/dma.c:222-240 | MSIZE is set to 00, 01 or 10 for 8, 16 or 32 bits; an out-of-range value fails the assert |
| Dma.DmaRegisters.SetPeripheralSize | FirmwareCode/src/dma.c:243-261 | PSIZE is set to 00, 01 or 10 for 8, 16 or 32 bits; an out-of-range value fails the assert |
| Dma.DmaRegisters.SetMemoryIncrement | FirmwareCode/src/dma.c:264-275 | MINC follows the memory-increment setting; an out-of-range value fails the assert |
| Dma.DmaRegisters.SetPeripheralIncrement | FirmwareCode/src/dma.c:278-289 | PINC follows the peripheral-increment setting; an out-of-range value fails the assert |
| Dma.DmaRegisters.SetFifoMode | FirmwareCode/src/dma.c:293-304 | FCR.DMDIS is set when direct mode is disabled and cleared when it is enabled; an out-of-range value fails the assert |
| Dma.DmaRegisters.SetFifoThreshold | FirmwareCode/src/dma.c:307-330 | FTH is set to the threshold ordinal (1/4, 1/2, 3/4, full); an out-of-range value fails the assert |
| Dma.DmaRegisters.ConfigureStream | FirmwareCode/src/dma.c:145-330 | One row applied to its stream equals `ApplyRow`, including where an assert stops it part-way. The other streams are unchanged |
| Dma.DmaRegisters.Init | FirmwareCode/src/dma.c:137-334 | The registers and status after the loop are exactly `Run` of the first `configSize` rows from the registers before it |
| Dma.DmaRegisters.TransferConfig | FirmwareCode/src/dma.c:380-393 | The writes are made in source order: M0AR, PAR, NDTR, then the OR of EN into CR, and the method returns them in that order. The stream's final state is those writes applied in turn: the three registers take the memory address, the peripheral address and the length, and EN is set in CR. All other streams are unchanged |
| DmaProofs.CrIsRowValue | FirmwareCode/src/dma.c:147-289 | The six CR field updates of a row together overwrite exactly CHSEL, DIR, MSIZE, PSIZE, MINC and PINC with the row's value |
| DmaProofs.FcrIsRowValue | FirmwareCode/src/dma.c:293-330 | The two FCR updates together overwrite exactly DMDIS and FTH with the row's value |
| DmaProofs.ApplyRowConfigures | FirmwareCode/src/dma.c:145-330 | A row whose settings are all in range configures the stream to `RowRegs`: CR's and FCR's initialised fields take the row's values |
| DmaProofs.ApplyRowCompletes | FirmwareCode/src/dma.c:145-330 | A row passes all of its asserts if and only if every setting is below its sentinel |
| DmaProofs.ApplyRowKeepsOtherBits | FirmwareCode/src/dma.c:145-330 | A row, completed or halted, changes no CR or FCR bit outside the initialised fields (EN among them), and never touches M0AR, PAR or NDTR |
| DmaProofs.RowRegsReadBack | FirmwareCode/src/dma.c:145-330 | After an in-range row, CHSEL, DIR, MSIZE, PSIZE and FTH read as the row's ordinals; MINC and PINC are set if and only if enabled; DMDIS is set if and only if direct mode is disabled |
| DmaProofs.ReadsBackNoReservedDirection | FirmwareCode/src/dma.c:201-219 | A stream configured from a row never holds the reserved direction 11 |
| DmaProofs.TransferSetsUp | FirmwareCode/src/dma.c:380-393 | After a transfer set-up, EN is set and no other CR bit changes. FCR is unchanged, and the address and count registers hold the request's values |
| DmaProofs.TransferEnablesLast | FirmwareCode/src/dma.c:380-393 | EN is set by the last of the four writes. Every earlier write leaves CR as it was, and by the time of the last write the addresses and the count already hold the request's values |
| DmaProofs.TransferKeepsReadsBack | FirmwareCode/src/dma.c:380-393 | Setting up a transfer keeps every field that initialisation configured |
| DmaProofs.KeepsOtherBitsKeepsEnable | FirmwareCode/src/dma.c:145-330 | Initialisation of a stream neither sets nor clears EN |
| DmaRunProofs.RunStatusLastRow | FirmwareCode/src/dma.c:140-330 | The status after a table is the earlier failure, if any; otherwise Done when the last row is in range, and a failure at the last row when it is not |
| DmaRunProofs.AllRowsInRangeLast | FirmwareCode/src/dma.c:140-143 | Every row of a table is in range if and only if every row before the last is and the last row is too |
| DmaRunProofs.RunEmpty | FirmwareCode/src/dma.c:140 | An empty table leaves every register as it was and reports Done |
| DmaRunProofs.RunDoneIff | FirmwareCode/src/dma.c:137-334 | Initialisation completes if and only if every row names a valid stream and every setting is in range |
| DmaRunProofs.RunFailsAtFirstBadRow | FirmwareCode/src/dma.c:140-330 | A failure reported at row k means row k is out of range and every row before it is in range |
| DmaRunProofs.RunBadStreamWritesNothing | FirmwareCode/src/dma.c:140-143 | A row naming no stream, after a prefix that completed, stops initialisation at that row. Every stream keeps the registers the prefix left: nothing of the row is written |
| DmaRunProofs.RunKeepsUnnamedStream | FirmwareCode/src/dma.c:137-334 | A stream that no row names keeps all its registers |
| DmaRunProofs.RunKeepsOtherBits | FirmwareCode/src/dma.c:137-334 | On every stream, CR and FCR bits outside the initialised fields, and M0AR, PAR and NDTR, survive initialisation |
| DmaRunProofs.RunKeepsEnable | FirmwareCode/src/dma.c:137-334 | Initialisation never enables or disables a stream |
| DmaRunProofs.RunLastRowDone | FirmwareCode/src/dma.c:140-330 | When every row is in range, the table without its last row completes and the last row's stream gets `RowRegs` |
| DmaRunProofs.ApplyTwice | FirmwareCode/src/dma.c:145-330 | Applying two row writes in turn equals applying only the later one |
| DmaRunProofs.RunDoneStreams | FirmwareCode/src/dma.c:137-334 | After a completed run, each stream holds its old registers overwritten by the last row that names it, if any |
| DmaRunProofs.RunIdempotent | FirmwareCode/src/dma.c:137-334 | Running a completed table again on its own result changes nothing |
| DmaRunProofs.LastRowWins | FirmwareCode/src/dma.c:137-334 | The last row that names a stream decides that stream's registers: it equals `RowRegs` of that row on the state just before it |
| DmaRunProofs.RunReadsBack | FirmwareCode/src/dma.c:137-334 | After a completed run, the stream named by a row that no later row names reads back that row's settings |
| DmaRunProofs.TransmitRowFields | FirmwareCode/src/dma_cfg.c:46-48 | The transmit row reads back as channel 4, memory-to-peripheral, byte sizes, MINC on, PINC off, direct mode, and FTH full |
| DmaRunProofs.ReceiveRowFields | FirmwareCode/src/dma_cfg.c:49-51 | The receive row reads back the same, except that the direction is peripheral-to-memory |
| DmaRunProofs.ShippedTableTransmitStream | FirmwareCode/src/dma_cfg.c:38-52 | The shipped table completes, and DMA1 stream 6 reads back the transmit row |
| DmaRunProofs.ShippedTableReceiveStream | FirmwareCode/src/dma_cfg.c:38-52 | DMA1 stream 5 reads back the receive row |
| DmaRunProofs.ShippedTableKeeps | FirmwareCode/src/dma_cfg.c:38-52 | Streams 5 and 6 keep every bit outside the initialised fields, and the other 14 streams are untouched |
| DmaRunProofs.ShippedTableConfiguresStreams | FirmwareCode/src/dma_cfg.c:38-52 | The shipped table completes. Stream 6 is set to channel 4, memory-to-peripheral, and stream 5 to channel 4, peripheral-to-memory. Both get byte sizes, MINC on, PINC off, direct mode, FTH full and EN as before. The other 14 streams are unchanged |
| RegisterBits.SetBits | FirmwareCode/src/dma.c:155 | `reg |= mask` on one register of a table; the other registers are unchanged |
| RegisterBits.ClearBits | FirmwareCode/src/dma.c:149 | `reg &= ~mask` on one register of a table; the other registers are unchanged |

## Left out

- Memory-mapped I/O. The `volatile` register accesses become array updates. Hardware side effects of a write, such as clearing TXE on a DR write, are not modelled. Neither are the reset values of the registers; the register file starts at zero.
- The status register SR is an input sequence, not state. A finite sequence without the awaited flag stands for a busy-wait that never ends, and the model does not say that it never ends.
- `USART_registerWrite` and `USART_registerRead` (`FirmwareCode/src/usart.c:430-475`) are not part of this model. They write and read a raw address.
- `main.c`, the DIO driver and `stm32f4xx.h` are not part of this model. The register bit positions are taken from RM0368.
- The prototypes in `FirmwareCode/include/usart.h:57-58` and `FirmwareCode/include/dma.h:58` disagree with the definitions. `usart.h` puts `peripheralClock` before `configSize`, and `dma.h` declares `DMA_init` with one parameter. The model follows the `.c` definitions.
- Usart.UsartRegisters.Init and Dma.DmaRegisters.Init require `configSize <= 255`. The C loop counter is a `uint8_t`: with a larger size it wraps at 256 and the loop never ends. Both also require `configSize <= |config|`, because C reads past the table without a check.
- Usart.UsartRegisters.Receive requires a valid port, because `USART_receive` indexes the pointer table without a check. For the same reason, Dma.DmaRegisters.TransferConfig requires a valid stream. An out-of-range index in C is undefined behaviour, not an error path.
- Usart.UsartRegisters.Receive takes the value its read of DR returns as an input (`received`), as SR is. On the part, a DR read returns the receive data register, which the hardware fills from the line, while a DR write goes to the transmit data register. The model's `dr` array is that transmit side only. The store to `*data` is modelled as the returned byte, DR's value truncated to 8 bits; the caller's buffer is not modelled.
- Dma.DmaRegisters.TransferConfig takes the memory and peripheral addresses as 32-bit values. The C pointer-to-`uint32_t` casts and the target's 32-bit address space are assumed. NDTR is modelled as 32 bits, as the driver writes it. The reserved upper half of NDTR, and the transfers the hardware then performs, are not modelled.
- RM0368 requires EN to be clear before a stream is reconfigured. The driver neither clears nor checks EN, and the model does the same: `RunKeepsEnable` shows that initialisation leaves EN as it found it.
- The per-field specification steps (`Usart.WordLengthStep` and the others, `Dma.ChannelStep` and the others) state each field update as an overwrite of the field. The methods carry the driver's actual `|=` and `&= ~` sequences, and each method is proved equal to its step.
- Usart.BaudRateCalculate models the 32-bit wrap of the sum and the truncation to 16 bits explicitly. Its own contract bounds it by the rounded quotient. `BaudDivisorIsNearest` states rounding only where neither wrap nor truncation happens. A zero baud rate cannot reach it, because only the five named rates are passed.
- Usart.UsartRegisters.Transmit requires the data to contain a NUL, and so do `Usart.Transmission`, `Usart.TransmitLoop` and `UsartTransmitProofs.CString`. `USART_transmit` walks the buffer until it finds one. Without a NUL it reads past the end of the buffer, which is undefined behaviour in C, not an error path.
- Usart.Run: its own contract states only the result's size. Its behaviour is stated by the `UsartRunProofs` lemmas `RunDoneIff`, `RunFailsAtFirstBadRow`, `LastRowWins`, `RunIdempotent` and `RunReadsBack`.
- Dma.Run: its own contract states only the result's size. Its behaviour is stated by the `DmaRunProofs` lemmas `RunDoneIff`, `RunFailsAtFirstBadRow`, `LastRowWins`, `RunIdempotent` and `RunReadsBack`.
- C `assert` is modelled as stopping initialisation with `AssertFailed(row)`, keeping the writes made before it. With `NDEBUG`, the asserts would vanish and the loop would go on; that build is not modelled.
