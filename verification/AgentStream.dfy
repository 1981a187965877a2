/**
  The Agent's stream object: a bounded queue over a stream and a session budget,
  drained into the local connection, discarded when the stream finishes.  Each
  method is one step; `StreamLedger` covers what happens between them.
 */
module AgentStream {
  import opened Common
  import opened Budgets
  import opened GatewayStream

  /** The local connection: what it took so far, and how much more it takes before failing. */
  class LocalConn {
    var written: seq<byte>
    var appetite: nat

    constructor (appetite: nat)
      ensures written == [] && this.appetite == appetite
    {
      written, this.appetite := [], appetite;
    }

    /** Takes a nonempty part of the payload, or fails. */
    method Write(payload: seq<byte>) returns (n: nat, ok: bool)
      requires payload != []
      modifies this
      ensures ok <==> old(appetite) > 0
      ensures ok ==> 0 < n <= |payload| && written == old(written) + payload[..n] && appetite == old(appetite) - n
      ensures !ok ==> written == old(written) && n == 0 && appetite == old(appetite)
    {
      if appetite == 0 {
        return 0, false;
      }
      n :| 0 < n <= |payload| && n <= appetite;
      written, appetite, ok := written + payload[..n], appetite - n, true;
    }
  }

  class Stream {
    const streamBudget: AgentBudget
    const sessionBudget: AgentBudget
    const slots: nat
    var incoming: seq<seq<byte>>
    var closed: bool
    var credited: nat                    // sent back to the Gateway in window updates

    var broken: bool                     // the local writer has stopped on an error
    ghost var accepted: seq<seq<byte>>   // history

    /** The stream's share of both budgets. */
    function Held(): nat
      reads this
    {
      |Flat(incoming)|
    }

    ghost predicate Valid()
      reads this, streamBudget, sessionBudget
    {
      && streamBudget != sessionBudget && |incoming| <= slots
      && streamBudget.used == Held() && Held() <= sessionBudget.used
      && streamBudget.Within() && sessionBudget.Within()
      && (closed ==> incoming == [])
    }

    /** Until it finishes or a write fails, what was accepted is what was written plus what is queued, in order, and all of it was credited. */
    ghost predicate Delivering(conn: LocalConn)
      reads this, conn
    {
      !closed && !broken ==> Flat(accepted) == conn.written + Flat(incoming) && credited == |conn.written|
    }

    /** Both budgets moved by the same amount and neither was ever clamped. */
    twostate predicate BothMoved(delta: int)
      reads streamBudget, sessionBudget
    {
      && streamBudget.used == old(streamBudget.used) + delta && sessionBudget.used == old(sessionBudget.used) + delta
      && streamBudget.underflows == old(streamBudget.underflows) && sessionBudget.underflows == old(sessionBudget.underflows)
    }

    // Limits.valid demands limits that are not negative.
    constructor (slots: nat, limit: nat, sessionBudget: AgentBudget)
      requires sessionBudget.Within()
      ensures Valid() && fresh(this) && fresh(streamBudget) && streamBudget.limit == limit && streamBudget.underflows == 0 && this.sessionBudget == sessionBudget
      ensures incoming == [] && !closed && !broken && credited == 0 && accepted == [] && this.slots == slots
    {
      var budget := new AgentBudget(limit);
      this.slots, this.streamBudget, this.sessionBudget := slots, budget, sessionBudget;
      incoming, closed, credited, accepted, broken := [], false, 0, [], false;
    }

    /** A refused payload leaves both budgets as they were. */
    method Enqueue(data: seq<byte>) returns (ok: bool)
      requires Valid()
      modifies this`incoming, this`accepted, streamBudget, sessionBudget
      ensures Valid()
      ensures ok == (!closed && |old(incoming)| < slots
        && old(streamBudget.used) + |data| <= streamBudget.limit && old(sessionBudget.used) + |data| <= sessionBudget.limit)
      ensures BothMoved(if ok then |data| else 0)
      ensures incoming == (if ok then old(incoming) + [data] else old(incoming))
      ensures accepted == (if ok then old(accepted) + [data] else old(accepted))
      ensures Flat(incoming) == Flat(old(incoming)) + (if ok then data else []) && Flat(accepted) == Flat(old(accepted)) + (if ok then data else [])
    {
      if closed {
        return false;
      }
      var size := |data|;
      ok := streamBudget.TryAcquire(size);
      if !ok {
        return false;
      }
      ok := sessionBudget.TryAcquire(size);
      if !ok {
        var sound := streamBudget.Release(size);
        return false;
      }
      if |incoming| < slots {
        FlatAppend(incoming, data);
        FlatAppend(accepted, data);
        incoming, accepted := incoming + [data], accepted + [data];
        return true;
      }
      var sessionSound := sessionBudget.Release(size);
      var streamSound := streamBudget.Release(size);
      ok := false;
    }

    method ReleaseQueued(size: nat)
      requires streamBudget != sessionBudget && size <= streamBudget.used && size <= sessionBudget.used
      modifies streamBudget, sessionBudget
      ensures BothMoved(0 - size)
    {
      var sessionSound := sessionBudget.Release(size);
      var streamSound := streamBudget.Release(size);
    }

    /** The head leaves the queue and its bytes leave both budgets. */
    method TakeHead() returns (payload: seq<byte>)
      requires Valid() && incoming != []
      modifies this`incoming, streamBudget, sessionBudget
      ensures Valid() && old(incoming) == [payload] + incoming
      ensures Flat(old(incoming)) == payload + Flat(incoming) && BothMoved(0 - |payload|)
    {
      payload := incoming[0];
      incoming := incoming[1..];
      ReleaseQueued(|payload|);
    }

    /** One turn of writeLocal: take the head, release it, write it, then credit it. */
    method WriteNext(conn: LocalConn) returns (ok: bool, ghost payload: seq<byte>)
      requires Valid() && incoming != [] && Delivering(conn)
      modifies this`incoming, this`credited, this`broken, streamBudget, sessionBudget, conn
      ensures Valid() && Delivering(conn) && old(incoming) == [payload] + incoming && BothMoved(0 - |payload|)
      ensures old(conn.written) <= conn.written <= old(conn.written) + payload
      ensures ok ==> conn.written == old(conn.written) + payload && credited == old(credited) + |payload| && broken == old(broken)
      ensures !ok ==> credited == old(credited) && broken
      ensures ok <==> |payload| <= old(conn.appetite)
    {
      var head := TakeHead();
      payload := head;
      ok := WriteAll(conn, head);
      if !ok {
        broken := true;
        return;
      }
      if |head| > 0 {
        credited := credited + |head|;
      }
      Regroup(old(conn.written), head, Flat(incoming));
    }

    method WriteAll(conn: LocalConn, data: seq<byte>) returns (ok: bool)
      modifies conn
      ensures old(conn.written) <= conn.written <= old(conn.written) + data
      ensures ok ==> conn.written == old(conn.written) + data
      ensures ok <==> |data| <= old(conn.appetite)
      ensures !ok ==> |conn.written| == |old(conn.written)| + old(conn.appetite)
    {
      var payload := data;
      while |payload| > 0
        invariant old(conn.written) + data == conn.written + payload && old(conn.written) <= conn.written
        invariant old(conn.appetite) - conn.appetite == |data| - |payload|
        decreases |payload|
      {
        var n;
        n, ok := conn.Write(payload);
        if !ok {
          assert conn.written == (old(conn.written) + data)[..|conn.written|];
          return;
        }
        assert payload == payload[..n] + payload[n..];
        payload := payload[n..];
      }
      ok := true;
    }

    /** finishStream: everything still queued is discarded and given back; a second call changes nothing. */
    method Finish()
      requires Valid()
      modifies this`incoming, this`closed, streamBudget, sessionBudget
      ensures Valid() && closed && incoming == [] && streamBudget.used == 0
      ensures BothMoved(0 - old(Held()))
    {
      if closed {
        return;
      }
      closed := true;
      while incoming != []
        invariant closed && streamBudget != sessionBudget && |incoming| <= slots && streamBudget.used == Held() <= sessionBudget.used
        invariant streamBudget.Within() && sessionBudget.Within()
        invariant BothMoved(Held() - old(Held()))
        decreases |incoming|
      {
        var queued := incoming[0];
        incoming := incoming[1..];
        ReleaseQueued(|queued|);
      }
    }
  }

  lemma Regroup(a: seq<byte>, b: seq<byte>, c: seq<byte>)
    ensures a + (b + c) == a + b + c
  {
  }

  /** A payload arrives, and the local writer may or may not get a turn. */
  method Turn(stream: Stream, conn: LocalConn, data: seq<byte>)
    requires stream.Valid() && stream.Delivering(conn)
    modifies stream, stream.streamBudget, stream.sessionBudget, conn
    ensures stream.Valid() && stream.Delivering(conn)
    ensures stream.BothMoved(stream.Held() - old(stream.Held()))
  {
    var accepted := stream.Enqueue(data);
    assert stream.BothMoved(stream.Held() - old(stream.Held()));
    var writes: bool := *;
    if writes && stream.incoming != [] && !stream.broken {
      var ok, payload := stream.WriteNext(conn);
    }
  }

  /** One stream's life against shared budgets: any payloads, any local failures, then the end; it leaves the session exactly as it found it. */
  method Lifetime(session: AgentBudget, slots: nat, limit: nat, payloads: seq<seq<byte>>, appetite: nat) returns (conn: LocalConn)
    requires session.Within()
    modifies session
    ensures session.used == old(session.used) && session.underflows == old(session.underflows)
  {
    var stream := new Stream(slots, limit, session);
    conn := new LocalConn(appetite);
    for i := 0 to |payloads|
      invariant stream.Valid() && stream.Delivering(conn) && stream.sessionBudget == session && fresh(stream.streamBudget) && fresh(conn) && fresh(stream)
      invariant session.used == old(session.used) + stream.Held() && session.underflows == old(session.underflows)
    {
      Turn(stream, conn, payloads[i]);
    }
    stream.Finish();
  }
}
