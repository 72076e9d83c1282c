/**
 * What DMA_init promises over a whole configuration table, proved about
 * `Dma.Run`: when it halts and on which row, which bits and streams it leaves
 * alone (EN among them), that the last row naming a stream decides that
 * stream, that running the same table twice is running it once, and what the
 * application's table leaves on DMA1 streams 5 and 6.
 */
module DmaRunProofs {
  import opened RegisterBits
  import opened TableInit
  import opened DmaCfg
  import opened Dma
  import opened DmaProofs

  // ---------------------------------------------------------------------------
  // Status and frame
  // ---------------------------------------------------------------------------

  /** How the status of DMA_init follows from the status before the last row and that row. */
  lemma RunStatusLastRow(streams: seq<StreamRegs>, table: seq<DmaConfig>)
    requires |streams| == DMA_PORTS_NUMBER && table != []
    ensures var prev := Run(streams, table[..|table| - 1]);
            Run(streams, table).status
            == if prev.status.AssertFailed? then prev.status
               else if RowInRange(table[|table| - 1]) then Done
               else AssertFailed(|table| - 1)
  {
    var n := |table| - 1;
    var prev := Run(streams, table[..n]);
    if !prev.status.AssertFailed? && table[n].stream < DMA_PORTS_NUMBER {
      ApplyRowCompletes(prev.streams[table[n].stream], table[n]);
    }
  }

  /** Every row of `table` names a stream and keeps its settings below their sentinels. */
  predicate AllRowsInRange(table: seq<DmaConfig>) {
    forall i :: 0 <= i < |table| ==> RowInRange(table[i])
  }

  lemma AllRowsInRangeLast(table: seq<DmaConfig>)
    requires table != []
    ensures AllRowsInRange(table)
        <==> AllRowsInRange(table[..|table| - 1]) && RowInRange(table[|table| - 1])
  {
    var n := |table| - 1;
    assert forall i :: 0 <= i < n ==> table[..n][i] == table[i];
  }

  lemma RunEmpty(streams: seq<StreamRegs>)
    requires |streams| == DMA_PORTS_NUMBER
    ensures Run(streams, []) == InitResult(streams, Done)
  {
  }

  /** DMA_init goes through the whole table exactly when every row is in range. */
  lemma {:induction false} RunDoneIff(streams: seq<StreamRegs>, table: seq<DmaConfig>)
    requires |streams| == DMA_PORTS_NUMBER
    ensures Run(streams, table).status == Done <==> AllRowsInRange(table)
    decreases |table|
  {
    if table != [] {
      RunDoneIff(streams, table[..|table| - 1]);
      RunStatusLastRow(streams, table);
      AllRowsInRangeLast(table);
    } else {
      RunEmpty(streams);
    }
  }

  /** When an assert halts DMA_init, it does so on the first row out of range. */
  lemma {:induction false} RunFailsAtFirstBadRow(streams: seq<StreamRegs>, table: seq<DmaConfig>, k: nat)
    requires |streams| == DMA_PORTS_NUMBER
    requires Run(streams, table).status == AssertFailed(k)
    ensures k < |table| && !RowInRange(table[k]) && AllRowsInRange(table[..k])
    decreases |table|
  {
    if table == [] {
      RunEmpty(streams);
    } else {
      var n := |table| - 1;
      RunStatusLastRow(streams, table);
      if Run(streams, table[..n]).status.AssertFailed? {
        RunFailsAtFirstBadRow(streams, table[..n], k);
        assert table[..n][..k] == table[..k];
        assert table[..n][k] == table[k];
      } else {
        RunDoneIff(streams, table[..n]);
      }
    }
  }

  /**
   * A row naming no stream halts DMA_init before it writes anything: the run
   * stops on that row with the registers the rows before it left.
   */
  lemma RunBadStreamWritesNothing(streams: seq<StreamRegs>, table: seq<DmaConfig>, row: DmaConfig)
    requires |streams| == DMA_PORTS_NUMBER
    requires Run(streams, table).status == Done && !(row.stream < DMA_PORTS_NUMBER)
    ensures Run(streams, table + [row]) == InitResult(Run(streams, table).streams, AssertFailed(|table|))
  {
    assert (table + [row])[..|table|] == table;
  }

  /** A stream that no row names keeps its registers, whether or not the run halts. */
  lemma {:induction false} RunKeepsUnnamedStream(streams: seq<StreamRegs>, table: seq<DmaConfig>, s: nat)
    requires |streams| == DMA_PORTS_NUMBER && s < DMA_PORTS_NUMBER
    requires forall i :: 0 <= i < |table| ==> table[i].stream != s
    ensures Run(streams, table).streams[s] == streams[s]
    decreases |table|
  {
    if table != [] {
      RunKeepsUnnamedStream(streams, table[..|table| - 1], s);
    }
  }

  /**
   * On every stream, DMA_init changes no bit of CR or FCR outside the
   * configured fields and no address or count register, even when it halts.
   */
  lemma {:induction false} RunKeepsOtherBits(streams: seq<StreamRegs>, table: seq<DmaConfig>, s: nat)
    requires |streams| == DMA_PORTS_NUMBER && s < DMA_PORTS_NUMBER
    ensures KeepsOtherBits(streams[s], Run(streams, table).streams[s])
    decreases |table|
  {
    if table != [] {
      var n := |table| - 1;
      RunKeepsOtherBits(streams, table[..n], s);
      var prev := Run(streams, table[..n]);
      if table[n].stream == s {
        ApplyRowKeepsOtherBits(prev.streams[s], table[n]);
      }
    }
  }

  /** DMA_init never enables or disables a stream: EN is as it was on every stream. */
  lemma RunKeepsEnable(streams: seq<StreamRegs>, table: seq<DmaConfig>, s: nat)
    requires |streams| == DMA_PORTS_NUMBER && s < DMA_PORTS_NUMBER
    ensures IsSet(Run(streams, table).streams[s].cr, CR_EN) <==> IsSet(streams[s].cr, CR_EN)
  {
    RunKeepsOtherBits(streams, table, s);
    KeepsOtherBitsKeepsEnable(streams[s], Run(streams, table).streams[s]);
  }

  /**
   * When every row of the table is in range, the rows before the last one
   * went through, and the last row completed on the registers they left.
   */
  lemma RunLastRowDone(streams: seq<StreamRegs>, table: seq<DmaConfig>)
    requires |streams| == DMA_PORTS_NUMBER && table != []
    requires AllRowsInRange(table)
    ensures var prev := Run(streams, table[..|table| - 1]);
            var row := table[|table| - 1];
            prev.status == Done && RowInRange(row)
            && Run(streams, table).streams == prev.streams[row.stream := RowRegs(prev.streams[row.stream], row)]
  {
    AllRowsInRangeLast(table);
    RunDoneIff(streams, table[..|table| - 1]);
    var prev := Run(streams, table[..|table| - 1]);
    var row := table[|table| - 1];
    ApplyRowConfigures(prev.streams[row.stream], row);
  }

  // ---------------------------------------------------------------------------
  // The rows of one stream, composed
  // ---------------------------------------------------------------------------

  function ApplyAll(c: StreamRegs, o: Option<StreamWrite>): StreamRegs {
    if o.Some? then Apply(c, o.value) else c
  }

  /** The combined effect of the rows of `table` that name stream `s`: that of the last one; None when no row does. */
  function StreamWrites(table: seq<DmaConfig>, s: nat): Option<StreamWrite>
    decreases |table|
  {
    if table == [] then None
    else if table[|table| - 1].stream == s then Some(RowWrite(table[|table| - 1]))
    else StreamWrites(table[..|table| - 1], s)
  }

  // Of two overwrites of a register's initialisation bits, the second wins.

  lemma CrTwice(x: bv32, v1: bv32, v2: bv32)
    ensures Overwrite(Overwrite(x, CR_INIT_BITS, v1), CR_INIT_BITS, v2) == Overwrite(x, CR_INIT_BITS, v2)
  {
  }

  lemma FcrTwice(x: bv32, v1: bv32, v2: bv32)
    ensures Overwrite(Overwrite(x, FCR_INIT_BITS, v1), FCR_INIT_BITS, v2) == Overwrite(x, FCR_INIT_BITS, v2)
  {
  }

  /** Applying two stream writes in turn is applying the second. */
  lemma ApplyTwice(c: StreamRegs, w1: StreamWrite, w2: StreamWrite)
    ensures Apply(Apply(c, w1), w2) == Apply(c, w2)
  {
    CrTwice(c.cr, w1.cr, w2.cr);
    FcrTwice(c.fcr, w1.fcr, w2.fcr);
  }

  /** After a run through the whole table, each stream holds its registers with the last row naming it applied. */
  lemma {:induction false} RunDoneStreams(streams: seq<StreamRegs>, table: seq<DmaConfig>, s: nat)
    requires |streams| == DMA_PORTS_NUMBER && s < DMA_PORTS_NUMBER
    requires Run(streams, table).status == Done
    ensures Run(streams, table).streams[s] == ApplyAll(streams[s], StreamWrites(table, s))
    decreases |table|
  {
    if table == [] {
      RunEmpty(streams);
    } else {
      var n := |table| - 1;
      RunDoneIff(streams, table);
      RunLastRowDone(streams, table);
      RunDoneStreams(streams, table[..n], s);
      var before := StreamWrites(table[..n], s);
      if table[n].stream == s && before.Some? {
        ApplyTwice(streams[s], before.value, RowWrite(table[n]));
      }
    }
  }

  /** Running DMA_init again with the same table, after a run that went through it, changes nothing. */
  lemma RunIdempotent(streams: seq<StreamRegs>, table: seq<DmaConfig>)
    requires |streams| == DMA_PORTS_NUMBER
    requires Run(streams, table).status == Done
    ensures Run(Run(streams, table).streams, table) == Run(streams, table)
  {
    var once := Run(streams, table);
    RunDoneIff(streams, table);
    RunDoneIff(once.streams, table);
    var twice := Run(once.streams, table);
    forall s | 0 <= s < DMA_PORTS_NUMBER
      ensures twice.streams[s] == once.streams[s]
    {
      RunDoneStreams(streams, table, s);
      RunDoneStreams(once.streams, table, s);
      var o := StreamWrites(table, s);
      if o.Some? {
        ApplyTwice(streams[s], o.value, o.value);
      }
    }
  }

  /**
   * When every row is in range, the last row naming a stream decides
   * that stream: it completed on whatever the rows before it left there, and
   * no later row touched the stream.
   */
  lemma {:induction false} LastRowWins(streams: seq<StreamRegs>, table: seq<DmaConfig>, k: nat)
    requires |streams| == DMA_PORTS_NUMBER && k < |table|
    requires AllRowsInRange(table)
    requires forall i :: k < i < |table| ==> table[i].stream != table[k].stream
    ensures table[k].stream < DMA_PORTS_NUMBER
    ensures Run(streams, table).streams[table[k].stream]
         == RowRegs(Run(streams, table[..k]).streams[table[k].stream], table[k])
    decreases |table|
  {
    var n := |table| - 1;
    RunLastRowDone(streams, table);
    if n == k {
      assert table[..n] == table[..k];
    } else {
      AllRowsInRangeLast(table);
      LastRowWins(streams, table[..n], k);
      assert table[..n][..k] == table[..k];
    }
  }

  /**
   * After DMA_init went through the whole table, every stream named by a row
   * reads back the settings of the last row naming it.
   */
  lemma RunReadsBack(streams: seq<StreamRegs>, table: seq<DmaConfig>, k: nat)
    requires |streams| == DMA_PORTS_NUMBER && k < |table|
    requires Run(streams, table).status == Done
    requires forall i :: k < i < |table| ==> table[i].stream != table[k].stream
    ensures table[k].stream < DMA_PORTS_NUMBER
    ensures ReadsBack(Run(streams, table).streams[table[k].stream], table[k])
  {
    RunDoneIff(streams, table);
    LastRowWins(streams, table, k);
    RowRegsReadBack(Run(streams, table[..k]).streams[table[k].stream], table[k]);
  }

  // ---------------------------------------------------------------------------
  // The application's table
  // ---------------------------------------------------------------------------

  /** The transmit row: channel 4, memory to peripheral, bytes, memory increment, direct mode. */
  lemma TransmitRowFields(c: StreamRegs)
    requires ReadsBack(c, DmaConfigTable[0])
    ensures (c.cr & CR_CHSEL) >> 25 == 4 && (c.cr & CR_DIR) >> 6 == 1
    ensures (c.cr & CR_MSIZE) >> 13 == 0 && (c.cr & CR_PSIZE) >> 11 == 0
    ensures IsSet(c.cr, CR_MINC) && !IsSet(c.cr, CR_PINC)
    ensures !IsSet(c.fcr, FCR_DMDIS) && c.fcr & FCR_FTH == 3
  {
  }

  /** The receive row: the same, peripheral to memory. */
  lemma ReceiveRowFields(c: StreamRegs)
    requires ReadsBack(c, DmaConfigTable[1])
    ensures (c.cr & CR_CHSEL) >> 25 == 4 && (c.cr & CR_DIR) >> 6 == 0
    ensures (c.cr & CR_MSIZE) >> 13 == 0 && (c.cr & CR_PSIZE) >> 11 == 0
    ensures IsSet(c.cr, CR_MINC) && !IsSet(c.cr, CR_PINC)
    ensures !IsSet(c.fcr, FCR_DMDIS) && c.fcr & FCR_FTH == 3
  {
  }

  /** DMA_init over the shipped table goes through it, and stream 6 reads back the transmit row. */
  lemma ShippedTableTransmitStream(streams: seq<StreamRegs>)
    requires |streams| == DMA_PORTS_NUMBER
    ensures Run(streams, DmaConfigTable).status == Done
    ensures ReadsBack(Run(streams, DmaConfigTable).streams[DMA1_STREAM_6], DmaConfigTable[0])
  {
    var table := ConfigGet();
    RunDoneIff(streams, table);
    RunReadsBack(streams, table, 0);
  }

  /** Stream 5 reads back the receive row after DMA_init over the shipped table. */
  lemma ShippedTableReceiveStream(streams: seq<StreamRegs>)
    requires |streams| == DMA_PORTS_NUMBER
    ensures ReadsBack(Run(streams, DmaConfigTable).streams[DMA1_STREAM_5], DmaConfigTable[1])
  {
    var table := ConfigGet();
    RunDoneIff(streams, table);
    RunReadsBack(streams, table, 1);
  }

  /** DMA_init over the shipped table touches only the configured fields of streams 6 and 5. */
  lemma ShippedTableKeeps(streams: seq<StreamRegs>)
    requires |streams| == DMA_PORTS_NUMBER
    ensures var r := Run(streams, DmaConfigTable);
            && KeepsOtherBits(streams[DMA1_STREAM_6], r.streams[DMA1_STREAM_6])
            && KeepsOtherBits(streams[DMA1_STREAM_5], r.streams[DMA1_STREAM_5])
            && forall s :: 0 <= s < DMA_PORTS_NUMBER && s != DMA1_STREAM_5 && s != DMA1_STREAM_6
                 ==> r.streams[s] == streams[s]
  {
    var table := ConfigGet();
    RunKeepsOtherBits(streams, table, DMA1_STREAM_6);
    RunKeepsOtherBits(streams, table, DMA1_STREAM_5);
    forall s | 0 <= s < DMA_PORTS_NUMBER && s != DMA1_STREAM_5 && s != DMA1_STREAM_6
      ensures Run(streams, table).streams[s] == streams[s]
    {
      RunKeepsUnnamedStream(streams, table, s);
    }
  }

  /**
   * DMA_init over the shipped table configures DMA1 stream 6 for USART2
   * transmission (channel 4, memory to peripheral) and stream 5 for reception
   * (channel 4, peripheral to memory), both byte-wide with the memory address
   * incrementing, direct mode and FTH = 11; it enables neither and leaves the
   * other fourteen streams alone.
   */
  lemma ShippedTableConfiguresStreams(streams: seq<StreamRegs>)
    requires |streams| == DMA_PORTS_NUMBER
    ensures var r := Run(streams, DmaConfigTable);
            var tx, rx := r.streams[DMA1_STREAM_6], r.streams[DMA1_STREAM_5];
            && r.status == Done
            && (tx.cr & CR_CHSEL) >> 25 == 4 && (tx.cr & CR_DIR) >> 6 == 1
            && (rx.cr & CR_CHSEL) >> 25 == 4 && (rx.cr & CR_DIR) >> 6 == 0
            && (tx.cr & CR_MSIZE) >> 13 == 0 && (tx.cr & CR_PSIZE) >> 11 == 0
            && (rx.cr & CR_MSIZE) >> 13 == 0 && (rx.cr & CR_PSIZE) >> 11 == 0
            && IsSet(tx.cr, CR_MINC) && !IsSet(tx.cr, CR_PINC) && IsSet(rx.cr, CR_MINC) && !IsSet(rx.cr, CR_PINC)
            && !IsSet(tx.fcr, FCR_DMDIS) && tx.fcr & FCR_FTH == 3
            && !IsSet(rx.fcr, FCR_DMDIS) && rx.fcr & FCR_FTH == 3
            && (IsSet(tx.cr, CR_EN) <==> IsSet(streams[DMA1_STREAM_6].cr, CR_EN))
            && (IsSet(rx.cr, CR_EN) <==> IsSet(streams[DMA1_STREAM_5].cr, CR_EN))
            && forall s :: 0 <= s < DMA_PORTS_NUMBER && s != DMA1_STREAM_5 && s != DMA1_STREAM_6
                 ==> r.streams[s] == streams[s]
  {
    var r := Run(streams, DmaConfigTable);
    ShippedTableTransmitStream(streams);
    ShippedTableReceiveStream(streams);
    ShippedTableKeeps(streams);
    TransmitRowFields(r.streams[DMA1_STREAM_6]);
    ReceiveRowFields(r.streams[DMA1_STREAM_5]);
    KeepsOtherBitsKeepsEnable(streams[DMA1_STREAM_6], r.streams[DMA1_STREAM_6]);
    KeepsOtherBitsKeepsEnable(streams[DMA1_STREAM_5], r.streams[DMA1_STREAM_5]);
  }
}
