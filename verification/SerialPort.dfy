/** The serial port driver over its two queues. The UART is a parameter of each
    call: whether it can take a byte, and whether it has one to give. */
module SerialPort {
  import opened Common
  import opened RingBuffer
  import opened Network

  class Port {
    const transmitQueue: ByteQueue
    const receiveQueue: ByteQueue

    ghost predicate Valid()
      reads this, transmitQueue, receiveQueue
    {
      && transmitQueue.Valid() && receiveQueue.Valid()
      && transmitQueue.capacity == receiveQueue.capacity == QUEUE_CAPACITY
      && transmitQueue != receiveQueue && transmitQueue.bytes != receiveQueue.bytes
    }

    ghost function Tx(): seq<Byte>
      requires Valid()
      reads this, transmitQueue, transmitQueue.bytes, receiveQueue
    {
      transmitQueue.Contents()
    }

    ghost function Rx(): seq<Byte>
      requires Valid()
      reads this, transmitQueue, receiveQueue, receiveQueue.bytes
    {
      receiveQueue.Contents()
    }

    /** The objects the port owns. */
    ghost function Owned(): set<object>
    {
      {transmitQueue, receiveQueue, transmitQueue.bytes, receiveQueue.bytes}
    }

    /** The queues of sp_subscribe_int. */
    constructor ()
      ensures Valid() && Tx() == [] && Rx() == [] && fresh(Owned())
      ensures transmitQueue.capacity == receiveQueue.capacity == 10
    {
      transmitQueue := new ByteQueue(10);
      receiveQueue := new ByteQueue(10);
    }

    /** sp_write: a byte leaves for the UART when it is ready and there is one. */
    method Write(ready: bool) returns (data: Option<Byte>)
      requires Valid()
      modifies Owned()
      ensures Valid() && Rx() == old(Rx())
      ensures if ready && old(Tx()) != [] then data == Some(old(Tx())[0]) && Tx() == old(Tx())[1..]
              else data == None && Tx() == old(Tx())
    {
      var empty := transmitQueue.IsEmpty();
      if !empty && ready {
        var b := transmitQueue.Remove();
        return Some(b);
      }
      return None;
    }

    /** sp_read: a byte from the UART joins the receive queue, or is dropped
        when the queue is full. */
    method Read(incoming: Option<Byte>)
      requires Valid()
      modifies Owned()
      ensures Valid() && Tx() == old(Tx())
      ensures Rx() == if incoming.Some? then Enqueue(old(Rx()), incoming.value) else old(Rx())
    {
      if incoming.Some? {
        receiveQueue.Add(incoming.value);
      }
    }

    /** readFromQueue: the oldest byte, or 0 when there is none. */
    method ReadFromQueue() returns (data: Byte)
      requires Valid()
      modifies Owned()
      ensures Valid() && Tx() == old(Tx())
      ensures data == (if old(Rx()) == [] then 0 else old(Rx())[0])
      ensures Rx() == if old(Rx()) == [] then [] else old(Rx())[1..]
    {
      data := 0;
      var empty := receiveQueue.IsEmpty();
      if !empty {
        data := receiveQueue.Remove();
      }
    }

    /** addToTransmitQueue. */
    method AddToTransmitQueue(data: Byte)
      requires Valid()
      modifies Owned()
      ensures Valid() && Rx() == old(Rx())
      ensures Tx() == Enqueue(old(Tx()), data)
    {
      var full := transmitQueue.IsFull();
      if !full {
        transmitQueue.Add(data);
      }
    }

    /** sp_clear: what the UART holds is read, then the receive queue is
        emptied. `arrived` is what the UART yields while it is polled. */
    method Clear(arrived: seq<Byte>)
      requires Valid()
      modifies Owned()
      ensures Valid() && Tx() == old(Tx()) && Rx() == []
    {
      hide ByteQueue.Contents, ByteQueue.Valid, Enqueue;
      var i := 0;
      while i < |arrived|
        invariant Valid() && Tx() == old(Tx())
      {
        Read(Some(arrived[i]));
        i := i + 1;
      }
      var empty := receiveQueue.IsEmpty();
      while !empty
        invariant Valid() && Tx() == old(Tx()) && (empty <==> Rx() == [])
        decreases |Rx()|
      {
        var b := receiveQueue.Remove();
        empty := receiveQueue.IsEmpty();
      }
    }

    /** The loop of sp_unsubscribe_int that drains the transmit queue: every
        byte goes out, in order. `ready` says at which polls the UART is ready;
        the loop ends once it has been ready often enough. */
    method Drain(ready: seq<bool>) returns (out: seq<Byte>)
      requires Valid()
      modifies Owned()
      ensures Valid() && Rx() == old(Rx())
      ensures out + Tx() == old(Tx())
      ensures Count(ready) >= |old(Tx())| ==> Tx() == [] && out == old(Tx())
    {
      hide ByteQueue.Contents, ByteQueue.Valid;
      ghost var all := Tx();
      out := [];
      var i := 0;
      var empty := transmitQueue.IsEmpty();
      assert ready[0..] == ready;
      while i < |ready| && !empty
        invariant i <= |ready| && Valid() && Rx() == old(Rx()) && (empty <==> Tx() == [])
        invariant out + Tx() == all
        invariant Count(ready) >= |all| ==> Count(ready[i..]) >= |Tx()|
      {
        CountStep(ready, i);
        NextOut(out, Tx());
        hide Count;
        var b := Write(ready[i]);
        if b.Some? {
          out := out + [b.value];
        }
        empty := transmitQueue.IsEmpty();
        i := i + 1;
      }
    }
  }

  lemma NextOut(out: seq<Byte>, q: seq<Byte>)
    requires q != []
    ensures out + [q[0]] + q[1..] == out + q
  {
  }

  lemma CountStep(ready: seq<bool>, i: nat)
    requires i < |ready|
    ensures Count(ready[i..]) == (if ready[i] then 1 else 0) + Count(ready[i + 1..])
  {
    assert ready[i..][1..] == ready[i + 1..];
  }

  /** How often the UART is ready. */
  function Count(ready: seq<bool>): nat {
    if ready == [] then 0 else (if ready[0] then 1 else 0) + Count(ready[1..])
  }
}
