/**
 * Day 23 of 2019: the network interface of one of fifty Intcode computers,
 * and the switch's routing rule. A computer's first read is its own address;
 * after that a read takes a packet `x, y` from its inbox, returning `x` and
 * keeping `y` for the next read, or returns -1 when nothing arrives. Its
 * writes come in triples, address, `x`, `y`, and each complete triple is
 * sent to the switch.
 *
 * The channels are sequences: the inbox holds the packets not yet received
 * and says whether its sender is still connected; the outbox holds the
 * packets sent and says whether its receiver is still there.
 */
module Day23 {
  import opened Common
  import Intcode

  datatype Message = Message(address: int, x: int, y: int)

  /** The outgoing packet assembled so far. */
  datatype Buffering = NothingBuffered | HaveOne(address: int) | HaveTwo(address: int, x: int)

  datatype Nic = Nic(
    address: int,
    inbox: seq<Message>, inboxConnected: bool,
    outbox: seq<Message>, outboxConnected: bool,
    incomingBuffer: Option<int>,
    partialOutgoingMessage: Buffering)

  /** What `one_computer` starts with: the first read gives the address. */
  function Fresh(address: int, inbox: seq<Message>, inboxConnected: bool, outboxConnected: bool): Nic
  {
    Nic(address, inbox, inboxConnected, [], outboxConnected, Some(address), NothingBuffered)
  }

  /** A read would take a packet addressed to another computer: `assert_eq!` panics. */
  predicate ReadPanics(n: Nic)
  {
    n.incomingBuffer.None? && |n.inbox| > 0 && n.inbox[0].address != n.address
  }

  /**
   * `read_number`: the buffered `y` first; else the next packet's `x`
   * (buffering its `y`); else -1 while the sender is connected, and
   * `UserInitiatedExit` once it is gone.
   */
  function Read(n: Nic): (Result<int, Intcode.Error>, Nic)
    requires !ReadPanics(n)
  {
    if n.incomingBuffer.Some? then (Ok(n.incomingBuffer.value), n.(incomingBuffer := None))
    else if |n.inbox| > 0 then
      var m := n.inbox[0];
      (Ok(m.x), n.(inbox := n.inbox[1..], incomingBuffer := Some(m.y)))
    else if n.inboxConnected then (Ok(-1), n)
    else (Err(Intcode.UserInitiatedExit), n)
  }

  /** `write_number`: the third value completes a packet, which is sent; a failed send ends the program. */
  function Write(n: Nic, num: int): (Result<(), Intcode.Error>, Nic)
  {
    match n.partialOutgoingMessage
    case NothingBuffered => (Ok(()), n.(partialOutgoingMessage := HaveOne(num)))
    case HaveOne(address) => (Ok(()), n.(partialOutgoingMessage := HaveTwo(address, num)))
    case HaveTwo(address, x) =>
      if n.outboxConnected then
        (Ok(()), n.(outbox := n.outbox + [Message(address, x, num)], partialOutgoingMessage := NothingBuffered))
      else (Err(Intcode.UserInitiatedExit), n)
  }

  /** The first read of a fresh computer is its own address, and the inbox is untouched. */
  lemma FirstReadIsAddress(address: int, inbox: seq<Message>, inboxConnected: bool, outboxConnected: bool)
    ensures var n := Fresh(address, inbox, inboxConnected, outboxConnected);
      !ReadPanics(n) && Read(n).0 == Ok(address) && Read(n).1.inbox == inbox
      && Read(n).1.incomingBuffer == None
  {
  }

  /** A read with nothing buffered and nothing queued leaves the device as it was: -1, or the end once the sender is gone. */
  lemma EmptyPoll(n: Nic)
    requires n.incomingBuffer.None? && |n.inbox| == 0
    ensures Read(n).1 == n
    ensures Read(n).0 == (if n.inboxConnected then Ok(-1) else Err(Intcode.UserInitiatedExit))
  {
  }

  /** Two reads deliver a packet addressed to this computer: `x`, then `y`. */
  lemma ReadPacket(n: Nic)
    requires n.incomingBuffer.None? && |n.inbox| > 0 && n.inbox[0].address == n.address
    ensures var (r1, n1) := Read(n);
      !ReadPanics(n1)
      && var (r2, n2) := Read(n1);
      r1 == Ok(n.inbox[0].x) && r2 == Ok(n.inbox[0].y)
      && n2 == n.(inbox := n.inbox[1..])
  {
  }

  /** Three writes from an empty buffer send exactly one packet, when the switch is still listening. */
  lemma WritePacket(n: Nic, address: int, x: int, y: int)
    requires n.partialOutgoingMessage == NothingBuffered
    ensures var (r1, n1) := Write(n, address);
      var (r2, n2) := Write(n1, x);
      var (r3, n3) := Write(n2, y);
      r1 == Ok(()) && r2 == Ok(())
      && (n.outboxConnected ==>
            r3 == Ok(()) && n3 == n.(outbox := n.outbox + [Message(address, x, y)]))
      && (!n.outboxConnected ==> r3 == Err(Intcode.UserInitiatedExit) && n3.outbox == n.outbox)
  {
  }

  // ---------------------------------------------------------------------
  // The switch
  // ---------------------------------------------------------------------

  const Computers: nat := 50
  const NatAddress: int := 255

  /** An address the switch can route; anything else panics. */
  predicate Routable(address: int)
  {
    0 <= address < Computers || address == NatAddress
  }

  /**
   * The routing rule: a packet for computers 0 to 49 joins the end of that
   * computer's inbox; a packet for 255 goes to the NAT slot.
   */
  function Route(inboxes: seq<seq<Message>>, m: Message): (r: (seq<seq<Message>>, Option<Message>))
    requires |inboxes| == Computers && Routable(m.address)
    ensures |r.0| == Computers
    ensures 0 <= m.address < Computers ==>
      r.1 == None && r.0[m.address] == inboxes[m.address] + [m]
      && forall i :: 0 <= i < Computers && i != m.address ==> r.0[i] == inboxes[i]
    ensures m.address == NatAddress ==> r == (inboxes, Some(m))
  {
    if m.address == NatAddress then (inboxes, Some(m))
    else (inboxes[m.address := inboxes[m.address] + [m]], None)
  }

  /** The switch loop with the NAT enabled: packets routed one after another; the inboxes and the NAT slot afterwards. */
  function RouteAll(inboxes: seq<seq<Message>>, natValue: Option<Message>, ms: seq<Message>): (r: (seq<seq<Message>>, Option<Message>))
    requires |inboxes| == Computers && forall k :: 0 <= k < |ms| ==> Routable(ms[k].address)
    ensures |r.0| == Computers
    decreases |ms|
  {
    if |ms| == 0 then (inboxes, natValue)
    else
      var (inboxes', slot) := Route(inboxes, ms[0]);
      RouteAll(inboxes', if slot.Some? then slot else natValue, ms[1..])
  }

  /** The packets of `ms` for address `a`, in the order they were sent. */
  function AddressedTo(ms: seq<Message>, a: int): (r: seq<Message>)
    ensures forall k :: 0 <= k < |r| ==> r[k] in ms && r[k].address == a
  {
    if |ms| == 0 then []
    else (if ms[0].address == a then [ms[0]] else []) + AddressedTo(ms[1..], a)
  }

  /**
   * Routing a run of packets gives each computer exactly the packets
   * addressed to it, after those it already had and in the order they were
   * sent, and leaves in the NAT slot the last packet sent to 255, or the old
   * one when there is none.
   */
  lemma RouteAllDelivers(inboxes: seq<seq<Message>>, natValue: Option<Message>, ms: seq<Message>)
    requires |inboxes| == Computers && forall k :: 0 <= k < |ms| ==> Routable(ms[k].address)
    ensures var r := RouteAll(inboxes, natValue, ms);
      (forall i :: 0 <= i < Computers ==> r.0[i] == inboxes[i] + AddressedTo(ms, i))
      && var forNat := AddressedTo(ms, NatAddress);
      r.1 == if |forNat| == 0 then natValue else Some(forNat[|forNat| - 1])
  {
    forall i | 0 <= i < Computers
      ensures RouteAll(inboxes, natValue, ms).0[i] == inboxes[i] + AddressedTo(ms, i)
    {
      RouteAllInbox(inboxes, natValue, ms, i);
    }
    RouteAllNat(inboxes, natValue, ms);
  }

  /** One routed packet adds itself to its addressee's inbox, and to no other. */
  lemma RouteInbox(inboxes: seq<seq<Message>>, m: Message, i: nat)
    requires |inboxes| == Computers && Routable(m.address) && i < Computers
    ensures Route(inboxes, m).0[i] == inboxes[i] + if m.address == i then [m] else []
  {
  }

  /** Routing a run of packets is routing its first packet, then the rest. */
  lemma RouteAllFirst(inboxes: seq<seq<Message>>, natValue: Option<Message>, ms: seq<Message>)
    requires |inboxes| == Computers && forall k :: 0 <= k < |ms| ==> Routable(ms[k].address)
    requires |ms| > 0
    ensures var (inboxes', slot) := Route(inboxes, ms[0]);
      (forall k :: 0 <= k < |ms[1..]| ==> Routable(ms[1..][k].address))
      && RouteAll(inboxes, natValue, ms) == RouteAll(inboxes', if slot.Some? then slot else natValue, ms[1..])
  {
    assert forall k :: 0 <= k < |ms[1..]| ==> ms[1..][k] == ms[k + 1];
  }

  lemma {:induction false} RouteAllInbox(inboxes: seq<seq<Message>>, natValue: Option<Message>, ms: seq<Message>, i: nat)
    requires |inboxes| == Computers && forall k :: 0 <= k < |ms| ==> Routable(ms[k].address)
    requires i < Computers
    ensures RouteAll(inboxes, natValue, ms).0[i] == inboxes[i] + AddressedTo(ms, i)
    decreases |ms|
  {
    if |ms| > 0 {
      var (inboxes', slot) := Route(inboxes, ms[0]);
      var natValue' := if slot.Some? then slot else natValue;
      RouteAllFirst(inboxes, natValue, ms);
      RouteAllInbox(inboxes', natValue', ms[1..], i);
      var first: seq<Message> := if ms[0].address == i then [ms[0]] else [];
      assert AddressedTo(ms, i) == first + AddressedTo(ms[1..], i);
      RouteInbox(inboxes, ms[0], i);
      assert inboxes[i] + first + AddressedTo(ms[1..], i) == inboxes[i] + (first + AddressedTo(ms[1..], i));
    }
  }

  lemma {:induction false} RouteAllNat(inboxes: seq<seq<Message>>, natValue: Option<Message>, ms: seq<Message>)
    requires |inboxes| == Computers && forall k :: 0 <= k < |ms| ==> Routable(ms[k].address)
    ensures var forNat := AddressedTo(ms, NatAddress);
      RouteAll(inboxes, natValue, ms).1 == if |forNat| == 0 then natValue else Some(forNat[|forNat| - 1])
    decreases |ms|
  {
    if |ms| > 0 {
      var (inboxes', slot) := Route(inboxes, ms[0]);
      var natValue' := if slot.Some? then slot else natValue;
      RouteAllFirst(inboxes, natValue, ms);
      RouteAllNat(inboxes', natValue', ms[1..]);
      var rest := AddressedTo(ms[1..], NatAddress);
      var first: seq<Message> := if ms[0].address == NatAddress then [ms[0]] else [];
      assert AddressedTo(ms, NatAddress) == first + rest;
      if |rest| > 0 {
        assert (first + rest)[|first + rest| - 1] == rest[|rest| - 1];
      }
    }
  }

  /**
   * End to end: a packet written by one computer and routed by the switch is
   * read by its addressee as `x` then `y`, once the packets queued before it
   * have been read.
   */
  lemma DeliveredInOrder(receiver: Nic, inboxes: seq<seq<Message>>, m: Message)
    requires |inboxes| == Computers && 0 <= m.address < Computers
    requires receiver.address == m.address && receiver.inbox == Route(inboxes, m).0[m.address]
    requires receiver.incomingBuffer.None? && inboxes[m.address] == []
    ensures receiver.inbox == [m]
    ensures !ReadPanics(receiver) && !ReadPanics(Read(receiver).1)
    ensures Read(receiver).0 == Ok(m.x) && Read(Read(receiver).1).0 == Ok(m.y)
  {
    ReadPacket(receiver);
  }

  // ---------------------------------------------------------------------
  // The computer's I/O device as an object
  // ---------------------------------------------------------------------

  class ComputerIo {
    var address: int
    var inbox: seq<Message>
    var inboxConnected: bool
    var outbox: seq<Message>
    var outboxConnected: bool
    var incomingBuffer: Option<int>
    var partialOutgoingMessage: Buffering

    function Snapshot(): Nic
      reads this
    {
      Nic(address, inbox, inboxConnected, outbox, outboxConnected, incomingBuffer, partialOutgoingMessage)
    }

    /** The device `one_computer` builds. */
    constructor New(address: int, inbox: seq<Message>, inboxConnected: bool, outboxConnected: bool)
      ensures Snapshot() == Fresh(address, inbox, inboxConnected, outboxConnected)
    {
      this.address := address;
      this.inbox := inbox;
      this.inboxConnected := inboxConnected;
      outbox := [];
      this.outboxConnected := outboxConnected;
      incomingBuffer := Some(address);
      partialOutgoingMessage := NothingBuffered;
    }

    method PromptForNumber() returns (r: Result<(), Intcode.Error>)
      ensures r == Ok(())
    {
      r := Ok(());
    }

    method ReadNumber() returns (r: Result<int, Intcode.Error>)
      requires !ReadPanics(Snapshot())
      modifies this
      ensures (r, Snapshot()) == Read(old(Snapshot()))
    {
      if incomingBuffer.Some? {
        r := Ok(incomingBuffer.value);
        incomingBuffer := None;
      } else if |inbox| > 0 {
        var message := inbox[0];
        inbox := inbox[1..];
        incomingBuffer := Some(message.y);
        r := Ok(message.x);
      } else if inboxConnected {
        r := Ok(-1);
      } else {
        r := Err(Intcode.UserInitiatedExit);
      }
    }

    method WriteNumber(num: int) returns (r: Result<(), Intcode.Error>)
      modifies this
      ensures (r, Snapshot()) == Write(old(Snapshot()), num)
    {
      match partialOutgoingMessage {
        case NothingBuffered =>
          partialOutgoingMessage := HaveOne(num);
        case HaveOne(a) =>
          partialOutgoingMessage := HaveTwo(a, num);
        case HaveTwo(a, x) =>
          if !outboxConnected {
            return Err(Intcode.UserInitiatedExit);
          }
          outbox := outbox + [Message(a, x, num)];
          partialOutgoingMessage := NothingBuffered;
      }
      r := Ok(());
    }
  }
}
