/**
 * What USART_transmit puts on the wire. `Usart.TransmitLoop` records, for a
 * given sequence of SR values, every read of SR and every write of DR; the
 * lemmas here say which bytes those writes carry (the C string up to its
 * terminator, or a prefix of it when the status values run out) and in what
 * order the reads and writes come.
 */
module UsartTransmitProofs {
  import opened RegisterBits
  import opened TableInit
  import opened UsartCfg
  import opened Usart

  /** The characters of a C string: everything before the first NUL. */
  function CString(data: seq<bv8>): (s: seq<bv8>)
    requires 0 in data
    ensures |s| < |data| && data[|s|] == 0
    ensures s == data[..|s|] && 0 !in s
  {
    if data[0] == 0 then [] else [data[0]] + CString(data[1..])
  }

  /** The number of SR values with TXE set. */
  function CountTxe(status: seq<bv32>): nat {
    if status == [] then 0
    else (if IsSet(status[0], SR_TXE) then 1 else 0) + CountTxe(status[1..])
  }

  function Min(a: nat, b: nat): nat {
    if a <= b then a else b
  }

  /** The SR values read, in order. */
  function Reads(events: seq<TxEvent>): seq<bv32> {
    if events == [] then []
    else if events[0].StatusRead? then [events[0].sr] + Reads(events[1..])
    else Reads(events[1..])
  }

  /** Every write of DR comes straight after a read of SR that found TXE set. */
  predicate WritesAfterTxe(events: seq<TxEvent>) {
    forall i :: 0 <= i < |events| && events[i].DataWrite? ==>
      0 < i && events[i - 1].StatusRead? && IsSet(events[i - 1].sr, SR_TXE)
  }

  lemma {:induction false} WritesAppend(a: seq<TxEvent>, b: seq<TxEvent>)
    ensures Writes(a + b) == Writes(a) + Writes(b)
    decreases |a|
  {
    if a == [] {
      assert a + b == b;
    } else {
      assert (a + b)[1..] == a[1..] + b;
      WritesAppend(a[1..], b);
    }
  }

  lemma {:induction false} ReadsAppend(a: seq<TxEvent>, b: seq<TxEvent>)
    ensures Reads(a + b) == Reads(a) + Reads(b)
    decreases |a|
  {
    if a == [] {
      assert a + b == b;
    } else {
      assert (a + b)[1..] == a[1..] + b;
      ReadsAppend(a[1..], b);
    }
  }

  /**
   * The bytes written to DR are the string's characters, as many as there
   * were reads with TXE set; the string is sent in full exactly when there
   * were enough of them.
   */
  lemma {:induction false} TransmitLoopWrites(data: seq<bv8>, status: seq<bv32>)
    requires 0 in data
    ensures var r := TransmitLoop(data, status);
            && !r.PortAborted?
            && (r.Sent? <==> CountTxe(status) >= |CString(data)|)
            && Writes(r.events) == CString(data)[..Min(|CString(data)|, CountTxe(status))]
    decreases |status|
  {
    if data[0] == 0 {
    } else if status == [] {
    } else if !IsSet(status[0], SR_TXE) {
      TransmitLoopWrites(data, status[1..]);
      WritesAppend([StatusRead(status[0])], TransmitLoop(data, status[1..]).events);
    } else {
      var s, s' := CString(data), CString(data[1..]);
      TransmitLoopWrites(data[1..], status[1..]);
      WritesAppend([StatusRead(status[0]), DataWrite(data[0])], TransmitLoop(data[1..], status[1..]).events);
      assert Writes([StatusRead(status[0]), DataWrite(data[0])]) == [data[0]] by {
        assert [StatusRead(status[0]), DataWrite(data[0])][1..] == [DataWrite(data[0])];
      }
      var n' := Min(|s'|, CountTxe(status[1..]));
      assert s[..1 + n'] == [data[0]] + s'[..n'];
    }
  }

  lemma WritesAfterTxeRead(x: bv32, e: seq<TxEvent>)
    requires WritesAfterTxe(e) && (e == [] || e[0].StatusRead?)
    ensures WritesAfterTxe([StatusRead(x)] + e)
  {
    var ev := [StatusRead(x)] + e;
    forall i | 0 <= i < |ev| && ev[i].DataWrite?
      ensures 0 < i && ev[i - 1].StatusRead? && IsSet(ev[i - 1].sr, SR_TXE)
    {
      assert ev[i] == e[i - 1];
      if i > 1 {
        assert ev[i - 1] == e[i - 2];
      }
    }
  }

  lemma WritesAfterTxeWrite(x: bv32, b: bv8, e: seq<TxEvent>)
    requires IsSet(x, SR_TXE)
    requires WritesAfterTxe(e) && (e == [] || e[0].StatusRead?)
    ensures WritesAfterTxe([StatusRead(x), DataWrite(b)] + e)
  {
    var ev := [StatusRead(x), DataWrite(b)] + e;
    forall i | 0 <= i < |ev| && ev[i].DataWrite?
      ensures 0 < i && ev[i - 1].StatusRead? && IsSet(ev[i - 1].sr, SR_TXE)
    {
      if i > 1 {
        assert ev[i] == e[i - 2];
        if i > 2 {
          assert ev[i - 1] == e[i - 3];
        }
      }
    }
  }

  /** The events of the loop begin with a read of SR and write DR only right after a read that found TXE set. */
  lemma {:induction false} TransmitLoopWritesAfterTxe(data: seq<bv8>, status: seq<bv32>)
    requires 0 in data
    ensures var r := TransmitLoop(data, status);
            && !r.PortAborted?
            && (r.events == [] || r.events[0].StatusRead?)
            && WritesAfterTxe(r.events)
    decreases |status|
  {
    if data[0] == 0 {
    } else if status == [] {
    } else if !IsSet(status[0], SR_TXE) {
      TransmitLoopWritesAfterTxe(data, status[1..]);
      var r := TransmitLoop(data, status[1..]);
      assert TransmitLoop(data, status) == Prepend([StatusRead(status[0])], r);
      WritesAfterTxeRead(status[0], r.events);
    } else {
      TransmitLoopWritesAfterTxe(data[1..], status[1..]);
      var r := TransmitLoop(data[1..], status[1..]);
      assert TransmitLoop(data, status) == Prepend([StatusRead(status[0]), DataWrite(data[0])], r);
      WritesAfterTxeWrite(status[0], data[0], r.events);
    }
  }

  /** Reads that follow `status` in order stay in order behind one more read of the value before them. */
  lemma ReadsPrepend(head: seq<TxEvent>, e: seq<TxEvent>, status: seq<bv32>)
    requires status != [] && Reads(head) == [status[0]]
    requires |Reads(e)| <= |status| - 1 && Reads(e) == status[1..][..|Reads(e)|]
    ensures |Reads(head + e)| <= |status| && Reads(head + e) == status[..|Reads(head + e)|]
    ensures Reads(e) == status[1..] ==> Reads(head + e) == status
  {
    ReadsAppend(head, e);
    assert status[..1 + |Reads(e)|] == [status[0]] + status[1..][..|Reads(e)|];
    assert status == [status[0]] + status[1..];
  }

  /**
   * The loop reads SR in the order of `status`; when it is still waiting, it
   * has read every status value.
   */
  lemma {:induction false} TransmitLoopReads(data: seq<bv8>, status: seq<bv32>)
    requires 0 in data
    ensures var r := TransmitLoop(data, status);
            && !r.PortAborted?
            && |Reads(r.events)| <= |status| && Reads(r.events) == status[..|Reads(r.events)|]
            && (r.Spinning? ==> Reads(r.events) == status)
    decreases |status|
  {
    if data[0] == 0 {
    } else if status == [] {
    } else if !IsSet(status[0], SR_TXE) {
      TransmitLoopReads(data, status[1..]);
      var r := TransmitLoop(data, status[1..]);
      assert TransmitLoop(data, status) == Prepend([StatusRead(status[0])], r);
      assert Reads([StatusRead(status[0])]) == [status[0]];
      ReadsPrepend([StatusRead(status[0])], r.events, status);
    } else {
      TransmitLoopReads(data[1..], status[1..]);
      var r := TransmitLoop(data[1..], status[1..]);
      var head := [StatusRead(status[0]), DataWrite(data[0])];
      assert TransmitLoop(data, status) == Prepend(head, r);
      assert Reads(head) == [status[0]] by {
        assert head[1..] == [DataWrite(data[0])];
        assert head[1..][1..] == [];
      }
      ReadsPrepend(head, r.events, status);
    }
  }

  /** The value DR holds after the events: the last byte written, or what it held before. */
  lemma {:induction false} LastWrittenIsLastWrite(events: seq<TxEvent>, dr: bv32)
    ensures var w := Writes(events);
            LastWritten(events, dr) == if w == [] then dr else w[|w| - 1] as bv32
    decreases |events|
  {
    if events != [] {
      var n := |events| - 1;
      assert events == events[..n] + [events[n]];
      WritesAppend(events[..n], [events[n]]);
      LastWrittenIsLastWrite(events[..n], dr);
      assert Writes([events[n]]) == if events[n].DataWrite? then [events[n].byte] else [] by {
        assert [events[n]][1..] == [];
      }
    }
  }

  /**
   * USART_transmit as a whole: it aborts exactly on a port past the last one;
   * otherwise it writes the string's characters in order, every write after a
   * read that found TXE set, and DR is left holding the last character written.
   */
  lemma TransmissionSendsString(port: nat, data: seq<bv8>, status: seq<bv32>, dr: bv32)
    requires 0 in data
    ensures var r := Transmission(port, data, status);
            && (r.PortAborted? <==> port >= PORT_MAX)
            && (r.Sent? <==> port < PORT_MAX && CountTxe(status) >= |CString(data)|)
            && (r.Sent? ==> Writes(r.events) == CString(data)
                            && LastWritten(r.events, dr) == if CString(data) == [] then dr
                                                          else CString(data)[|CString(data)| - 1] as bv32)
            && (r.Spinning? ==> |Writes(r.events)| < |CString(data)|
                                && Writes(r.events) == CString(data)[..|Writes(r.events)|])
            && (!r.PortAborted? ==> WritesAfterTxe(r.events))
  {
    if port < PORT_MAX {
      TransmitLoopWrites(data, status);
      TransmitLoopWritesAfterTxe(data, status);
      LastWrittenIsLastWrite(TransmitLoop(data, status).events, dr);
    }
  }
}
