/**
  The Gateway's stream object: a bounded queue, a retained terminal tail and the
  buffer in the reader's hand, over three shared budgets.  Each method here is
  one step; `StreamLedger` covers what happens between them.
 */
module GatewayStream {
  import opened Common
  import opened Budgets

  datatype Error = EndOfStream | StreamError(code: int) | ContextDone | WrongMode

  datatype ReadResult = Data(bytes: seq<byte>) | Failed(error: Error) | Blocked

  datatype EnqueueResult = Accepted | Closed | BudgetExhausted | QueueFull

  function Flat(packets: seq<seq<byte>>): seq<byte> {
    if packets == [] then [] else packets[0] + Flat(packets[1..])
  }

  lemma {:induction false} FlatConcat(a: seq<seq<byte>>, b: seq<seq<byte>>)
    ensures Flat(a + b) == Flat(a) + Flat(b)
  {
    if a == [] {
      assert a + b == b;
    } else {
      assert (a + b)[1..] == a[1..] + b;
      FlatConcat(a[1..], b);
    }
  }

  lemma FlatAppend(a: seq<seq<byte>>, p: seq<byte>)
    ensures Flat(a + [p]) == Flat(a) + p
  {
    FlatConcat(a, [p]);
    assert Flat([p]) == p;
  }

  /** Draining the queue into an empty tail moves nothing. */
  lemma DrainedAlike(buffer: seq<byte>, queue: seq<seq<byte>>)
    ensures buffer + [] + Flat(queue) == buffer + Flat(queue) + Flat([]) && [] + queue == queue + []
  {
  }

  class Stream {
    const datagram: bool
    const slots: nat
    const streamBudget: GatewayBudget
    const sessionBudget: GatewayBudget
    const globalBudget: GatewayBudget

    var incoming: seq<seq<byte>>
    var buffer: seq<byte>
    var closed: bool
    var terminalBuffer: seq<byte>
    var terminalPackets: seq<seq<byte>>
    var terminalBytes: int
    var terminalErr: Error
    var terminalReady: bool
    var rejects: nat
    /** Bytes handed back to the Agent as credit so far. */
    var granted: int

    // History.
    ghost var accepted: seq<seq<byte>>
    ghost var returned: seq<byte>
    ghost var packets: seq<seq<byte>>
    ghost var discarded: bool

    /** Bytes this stream still owes to each of its three budgets. */
    function Held(): int
      reads this
    {
      |Flat(incoming)| + terminalBytes
    }

    ghost predicate Valid()
      reads this, streamBudget, sessionBudget, globalBudget
    {
      && streamBudget != sessionBudget && streamBudget != globalBudget && sessionBudget != globalBudget
      && streamBudget.used == Held()
      && Held() <= sessionBudget.used && Held() <= globalBudget.used
      && streamBudget.Within() && sessionBudget.Within() && globalBudget.Within()
      && closed == terminalReady
      && (terminalReady ==> incoming == [])
      && (!terminalReady ==> terminalBuffer == [] && terminalPackets == [] && terminalBytes == 0)
      && (datagram ==> terminalBuffer == [] && buffer == [])
      && (!datagram ==> terminalPackets == [])
      && terminalBytes == |terminalBuffer| + |Flat(terminalPackets)|
      && (!discarded ==> Conserved())
    }

    /** Nothing lost, duplicated or reordered: what was accepted is what the reader had, has, or will get. */
    ghost predicate Conserved()
      reads this
    {
      if datagram then accepted == packets + PendingPackets() else Flat(accepted) == returned + Pending()
    }

    /** The bytes the reader has not been given yet, in order. */
    function Pending(): seq<byte>
      reads this
    {
      buffer + terminalBuffer + Flat(incoming)
    }

    function PendingPackets(): seq<seq<byte>>
      reads this
    {
      terminalPackets + incoming
    }

    /** All three budgets moved by the same amount, and nothing else about them changed. */
    twostate predicate BudgetsMoved(delta: int)
      reads streamBudget, sessionBudget, globalBudget
    {
      && streamBudget.used == old(streamBudget.used) + delta
      && sessionBudget.used == old(sessionBudget.used) + delta
      && globalBudget.used == old(globalBudget.used) + delta
    }

    constructor (datagram: bool, queueFrames: nat, queueBytes: nat, sessionBudget: GatewayBudget, globalBudget: GatewayBudget)
      requires sessionBudget != globalBudget && sessionBudget.Within() && globalBudget.Within()
      ensures Valid() && fresh(this) && fresh(streamBudget) && streamBudget.limit == queueBytes
      ensures this.sessionBudget == sessionBudget && this.globalBudget == globalBudget
      ensures this.datagram == datagram && incoming == [] && !closed && accepted == [] && returned == [] && packets == []
      ensures slots >= queueFrames && slots * 4096 > queueBytes - 4096 && (slots == queueFrames || slots * 4096 <= queueBytes)
      ensures rejects == 0 && granted == 0 && !discarded && Held() == 0 && Pending() == [] && PendingPackets() == []
    {
      this.datagram := datagram;
      this.slots := if queueBytes / 4096 > queueFrames then queueBytes / 4096 else queueFrames;
      var budget := new GatewayBudget(queueBytes);
      this.streamBudget, this.sessionBudget, this.globalBudget := budget, sessionBudget, globalBudget;
      incoming, buffer, closed := [], [], false;
      terminalBuffer, terminalPackets, terminalBytes, terminalReady := [], [], 0, false;
      terminalErr := EndOfStream;
      rejects, granted := 0, 0;
      accepted, returned, packets, discarded := [], [], [], false;
    }

    method Enqueue(data: seq<byte>) returns (r: EnqueueResult)
      requires Valid()
      modifies this, streamBudget, sessionBudget, globalBudget
      ensures Valid()
      ensures r == (
        if old(closed) then Closed
        else if old(streamBudget.used) + |data| > streamBudget.limit
          || old(sessionBudget.used) + |data| > sessionBudget.limit
          || old(globalBudget.used) + |data| > globalBudget.limit then BudgetExhausted
        else if |old(incoming)| >= slots then QueueFull
        else Accepted)
      ensures r.Accepted? ==> incoming == old(incoming) + [data] && accepted == old(accepted) + [data] && BudgetsMoved(|data|)
      ensures !r.Accepted? ==> incoming == old(incoming) && accepted == old(accepted) && BudgetsMoved(0)
      ensures rejects == old(rejects) + (if r.BudgetExhausted? || r.QueueFull? then 1 else 0)
      ensures closed == old(closed) && buffer == old(buffer) && returned == old(returned) && packets == old(packets)
      ensures granted == old(granted) && terminalBuffer == old(terminalBuffer) && terminalPackets == old(terminalPackets)
    {
      if closed {
        return Closed;
      }
      var ok := Reserve(|data|);
      if !ok {
        rejects := rejects + 1;
        return BudgetExhausted;
      }
      if |incoming| < slots {
        Push(data);
        return Accepted;
      }
      ReleaseQueued(|data|);
      rejects := rejects + 1;
      return QueueFull;
    }

    /** The send into the channel. */
    method Push(data: seq<byte>)
      requires !closed && !terminalReady && terminalBuffer == [] && terminalPackets == []
      modifies this`incoming, this`accepted
      ensures incoming == old(incoming) + [data] && accepted == old(accepted) + [data]
      ensures |Flat(incoming)| == |Flat(old(incoming))| + |data| && (old(Conserved()) ==> Conserved())
    {
      FlatAppend(incoming, data);
      FlatAppend(accepted, data);
      ghost var pending, pendingPackets := Pending(), PendingPackets();
      incoming := incoming + [data];
      accepted := accepted + [data];
      assert Pending() == pending + data && PendingPackets() == pendingPackets + [data];
    }

    /** All three budgets or none: a refusal at one level undoes the levels below it. */
    method Reserve(size: nat) returns (ok: bool)
      requires streamBudget != sessionBudget && streamBudget != globalBudget && sessionBudget != globalBudget
      requires streamBudget.Within() && sessionBudget.Within() && globalBudget.Within()
      modifies streamBudget, sessionBudget, globalBudget
      ensures ok == (old(streamBudget.used) + size <= streamBudget.limit
        && old(sessionBudget.used) + size <= sessionBudget.limit && old(globalBudget.used) + size <= globalBudget.limit)
      ensures streamBudget.Within() && sessionBudget.Within() && globalBudget.Within()
      ensures BudgetsMoved(if ok then size else 0)
    {
      ok := streamBudget.TryAcquire(size);
      if !ok {
        return;
      }
      ok := sessionBudget.TryAcquire(size);
      if !ok {
        var _ := streamBudget.Release(size);
        return;
      }
      ok := globalBudget.TryAcquire(size);
      if !ok {
        var _ := sessionBudget.Release(size);
        var _ := streamBudget.Release(size);
      }
    }

    /** Returns `size` bytes to the three budgets; none of them can underflow, so the source's panic is unreachable. */
    method ReleaseQueued(size: int)
      requires streamBudget != sessionBudget && streamBudget != globalBudget && sessionBudget != globalBudget
      requires 0 <= size && size <= streamBudget.used && size <= sessionBudget.used && size <= globalBudget.used
      modifies streamBudget, sessionBudget, globalBudget
      ensures BudgetsMoved(-size)
    {
      var sound := globalBudget.Release(size);
      assert sound;
      sound := sessionBudget.Release(size);
      assert sound;
      sound := streamBudget.Release(size);
      assert sound;
    }

    /** Frames on the reader's side of every read: only the reader's fields and the budgets move. */
    twostate predicate ReaderStep()
      reads this, streamBudget, sessionBudget, globalBudget
    {
      && closed == old(closed) && terminalReady == old(terminalReady) && terminalErr == old(terminalErr)
      && accepted == old(accepted) && discarded == old(discarded) && rejects == old(rejects)
      && Held() <= old(Held()) && BudgetsMoved(Held() - old(Held()))
    }

    /**
      One call of Read into a buffer of `n` bytes; Blocked is the wait in its select.
      Terminal outcomes come only after every accepted byte was returned, and every
      byte that leaves the queue or the tail is credited back.
     */
    method Read(n: nat, contextDone: bool) returns (r: ReadResult)
      requires Valid()
      modifies this, streamBudget, sessionBudget, globalBudget
      ensures Valid() && ReaderStep() && packets == old(packets)
      ensures datagram ==> r == Failed(WrongMode) && unchanged(this)
      ensures !datagram ==> granted - old(granted) == old(Held()) - Held()
      ensures r.Data? ==> returned == old(returned) + r.bytes && old(Pending()) == r.bytes + Pending()
      ensures r.Data? ==> |r.bytes| + |buffer| > 0 && (|r.bytes| == n || (|r.bytes| < n && buffer == []))
      ensures !r.Data? ==> returned == old(returned) && Pending() == old(Pending())
      ensures r.Blocked? ==> !datagram && !contextDone && !closed && Pending() == []
      ensures !datagram && r.Failed? ==> Pending() == [] && (if closed then r.error == terminalErr else r.error == ContextDone && contextDone)
    {
      if datagram {
        return Failed(WrongMode);
      }
      r := FillBuffer(contextDone);
      if !r.Data? {
        return;
      }
      var m := if n < |buffer| then n else |buffer|;
      ghost var pending := Pending();
      r := Data(buffer[..m]);
      returned := returned + buffer[..m];
      buffer := buffer[m..];
      assert pending == r.bytes + Pending();
    }

    /** The loop of Read: it ends with bytes in hand (Data), or with nothing left to give. */
    method FillBuffer(contextDone: bool) returns (r: ReadResult)
      requires Valid() && !datagram
      modifies this, streamBudget, sessionBudget, globalBudget
      ensures Valid() && ReaderStep() && packets == old(packets) && returned == old(returned)
      ensures granted - old(granted) == old(Held()) - Held()
      ensures Pending() == old(Pending())
      ensures r.Data? ==> buffer != []
      ensures !r.Data? ==> Pending() == []
      ensures r.Blocked? ==> !closed && !contextDone
      ensures r.Failed? ==> if closed then r.error == terminalErr else r.error == ContextDone && contextDone
    {
      while buffer == []
        invariant Valid() && ReaderStep() && packets == old(packets) && returned == old(returned)
        invariant granted - old(granted) == old(Held()) - Held()
        invariant Pending() == old(Pending())
        decreases |incoming| + |terminalBuffer| + (if buffer == [] then 1 else 0)
      {
        if incoming != [] {
          TakeChunk();
          continue;
        }
        if terminalReady {
          if |terminalBuffer| > 0 {
            TakeTail();
            continue;
          }
          return Failed(terminalErr);
        }
        if contextDone {
          return Failed(ContextDone);
        }
        return Blocked;
      }
      return Data(buffer);
    }

    /** The receive in Read: the queue head moves to the reader's hand, its bytes back to the budgets and to the Agent. */
    method TakeChunk()
      requires Valid() && !datagram && buffer == [] && incoming != []
      modifies this, streamBudget, sessionBudget, globalBudget
      ensures Valid() && ReaderStep()
      ensures packets == old(packets) && returned == old(returned) && terminalBuffer == old(terminalBuffer)
      ensures buffer == old(incoming)[0] && incoming == old(incoming)[1..]
      ensures granted - old(granted) == old(Held()) - Held()
      ensures Pending() == old(Pending())
    {
      var chunk := incoming[0];
      incoming := incoming[1..];
      ReleaseQueued(|chunk|);
      buffer := chunk;
      granted := granted + |chunk|;
      assert Pending() == old(Pending());
    }

    /** The retained tail moves to the reader's hand as one piece. */
    method TakeTail()
      requires Valid() && !datagram && buffer == [] && terminalReady
      modifies this, streamBudget, sessionBudget, globalBudget
      ensures Valid() && ReaderStep()
      ensures packets == old(packets) && returned == old(returned) && incoming == old(incoming)
      ensures buffer == old(terminalBuffer) && terminalBuffer == []
      ensures granted - old(granted) == old(Held()) - Held()
      ensures Pending() == old(Pending())
    {
      var tail, size := terminalBuffer, terminalBytes;
      terminalBuffer, terminalBytes := [], 0;
      ReleaseQueued(size);
      buffer := tail;
      granted := granted + size;
      assert Pending() == old(Pending());
    }

    method TakePacket() returns (packet: seq<byte>)
      requires Valid() && datagram && incoming != []
      modifies this`incoming, this`packets, streamBudget, sessionBudget, globalBudget
      ensures Valid() && ReaderStep()
      ensures packets == old(packets) + [packet] && old(PendingPackets()) == [packet] + PendingPackets()
    {
      packet := incoming[0];
      incoming := incoming[1..];
      ReleaseQueued(|packet|);
      packets := packets + [packet];
      assert old(PendingPackets()) == [packet] + PendingPackets();
    }

    method TakeRetainedPacket() returns (packet: seq<byte>)
      requires Valid() && datagram && incoming == [] && terminalPackets != []
      modifies this`terminalPackets, this`terminalBytes, this`packets, streamBudget, sessionBudget, globalBudget
      ensures Valid() && ReaderStep()
      ensures packets == old(packets) + [packet] && old(PendingPackets()) == [packet] + PendingPackets()
    {
      packet := terminalPackets[0];
      terminalPackets := terminalPackets[1..];
      terminalBytes := terminalBytes - |packet|;
      ReleaseQueued(|packet|);
      packets := packets + [packet];
      assert old(PendingPackets()) == [packet] + PendingPackets();
    }

    /** One call of ReadDatagram; a packet comes out whole, and terminal outcomes only after every packet. */
    method ReadDatagram(contextDone: bool) returns (r: ReadResult)
      requires Valid()
      modifies this, streamBudget, sessionBudget, globalBudget
      ensures Valid() && ReaderStep()
      ensures returned == old(returned) && buffer == old(buffer) && granted == old(granted)
      ensures !datagram ==> r == Failed(WrongMode) && packets == old(packets)
      ensures r.Data? ==> packets == old(packets) + [r.bytes] && old(PendingPackets()) == [r.bytes] + PendingPackets()
      ensures !r.Data? ==> packets == old(packets)
      ensures r.Blocked? ==> !contextDone && !closed && incoming == []
      ensures datagram && r.Failed? ==> PendingPackets() == []
      ensures datagram && r.Failed? ==> if closed then r.error == terminalErr else r.error == ContextDone && contextDone
    {
      if !datagram {
        return Failed(WrongMode);
      }
      if incoming != [] {
        var packet := TakePacket();
        return Data(packet);
      }
      if terminalReady {
        if |terminalPackets| > 0 {
          var packet := TakeRetainedPacket();
          return Data(packet);
        }
        return Failed(terminalErr);
      }
      if contextDone {
        return Failed(ContextDone);
      }
      return Blocked;
    }

    /** The first finish closes the stream and retains what is queued; later ones change nothing. */
    method Finish(err: Error)
      requires Valid()
      modifies this
      ensures Valid() && closed
      ensures Held() == old(Held()) && accepted == old(accepted) && returned == old(returned) && packets == old(packets)
      ensures buffer == old(buffer) && granted == old(granted) && discarded == old(discarded)
      ensures if datagram then PendingPackets() == old(PendingPackets()) else Pending() == old(Pending())
      ensures if old(closed) then unchanged(this) else terminalErr == err
    {
      if terminalReady {
        return;
      }
      closed := true;
      Retain();
      terminalErr := err;
      terminalReady := true;
    }

    /** What is queued becomes the tail: nothing moves for the reader or for the budgets. */
    method Retain()
      requires terminalBuffer == [] && terminalPackets == [] && terminalBytes == 0
      modifies this`incoming, this`terminalBuffer, this`terminalPackets, this`terminalBytes
      ensures incoming == [] && Held() == old(Held()) && terminalBytes == |terminalBuffer| + |Flat(terminalPackets)|
      ensures if datagram then terminalBuffer == [] else terminalPackets == []
      ensures if datagram then PendingPackets() == old(PendingPackets()) else Pending() == old(Pending())
    {
      DrainedAlike(buffer, incoming);
      var tail := DrainQueue();
      terminalBuffer := tail;
      if !datagram {
        terminalBytes := |tail|;
      }
    }

    /** The drain loop of finish: a byte stream's chunks join into one tail, a datagram flow keeps its packets apart. */
    method DrainQueue() returns (tail: seq<byte>)
      requires terminalPackets == [] && terminalBytes == 0
      modifies this`incoming, this`terminalPackets, this`terminalBytes
      ensures incoming == []
      ensures datagram ==> tail == [] && terminalPackets == old(incoming) && terminalBytes == |Flat(old(incoming))|
      ensures !datagram ==> tail == Flat(old(incoming)) && terminalPackets == [] && terminalBytes == 0
    {
      tail := [];
      ghost var drained: seq<seq<byte>> := [];
      while incoming != []
        invariant drained + incoming == old(incoming)
        invariant datagram ==> terminalPackets == drained && tail == [] && terminalBytes == |Flat(drained)|
        invariant !datagram ==> terminalPackets == [] && tail == Flat(drained) && terminalBytes == 0
        decreases |incoming|
      {
        var chunk := incoming[0];
        assert incoming == [chunk] + incoming[1..];
        FlatAppend(drained, chunk);
        incoming := incoming[1..];
        drained := drained + [chunk];
        if datagram {
          terminalPackets := terminalPackets + [chunk];
          terminalBytes := terminalBytes + |chunk|;
        } else {
          tail := tail + chunk;
        }
      }
      assert drained == old(incoming);
    }

    /** Drops the queue; on a finished stream it finds nothing, so no byte is lost and none released twice. */
    method ReleaseQueuedChunks()
      requires Valid()
      modifies this`incoming, this`discarded, streamBudget, sessionBudget, globalBudget
      ensures Valid() && incoming == []
      ensures BudgetsMoved(-|Flat(old(incoming))|)
      ensures discarded == (old(discarded) || old(incoming) != [])
    {
      discarded := discarded || incoming != [];
      while incoming != []
        invariant Valid() && BudgetsMoved(|Flat(incoming)| - |Flat(old(incoming))|)
        invariant discarded == (old(discarded) || old(incoming) != [])
        decreases |incoming|
      {
        var chunk := incoming[0];
        incoming := incoming[1..];
        ReleaseQueued(|chunk|);
      }
    }

    /** After the reader stopped: every byte the stream still held goes back to all three budgets. */
    method DiscardRetained()
      requires Valid()
      modifies this, streamBudget, sessionBudget, globalBudget
      ensures Valid() && Held() == 0 && streamBudget.used == 0
      ensures BudgetsMoved(-old(Held()))
      ensures accepted == old(accepted) && returned == old(returned) && packets == old(packets) && granted == old(granted)
    {
      ReleaseQueuedChunks();
      var size := terminalBytes;
      terminalBuffer, terminalPackets, terminalBytes := [], [], 0;
      discarded := true;
      if size > 0 {
        ReleaseQueued(size);
      }
    }
  }
}
