/**
 * The sandbox2::Comms channel between the host and the sandboxee, as far
 * as the core uses it: frames are sent and received in order, a send can
 * fail (the peer is gone or the channel is broken), and a receive fails on
 * an exhausted channel or, for a typed receive, on a frame of another kind.
 * The channel library itself is not part of this model.
 */
module Comms {
  import opened Status
  import opened StatusEncoding
  import opened SandboxAdapter

  /** What travels in one frame. */
  datatype Frame =
    | TagFrame(tag: int)                    // SendTLV with an empty value
    | SpecFrame(spec: BiddingFunctionSpec)  // SendProtoBuf(BiddingFunctionSpec)
    | InputsFrame(inputs: seq<Any>)         // SendProtoBuf(BatchedInvocationInputs)
    | OutputsFrame(outputs: seq<Any>)       // SendProtoBuf(BatchedInvocationOutputs)
    | StatusFrame(status: Status)           // SendStatus

  /**
   * One end of the channel: frames the peer sent that are still unread,
   * frames this end has sent, and how many more sends the channel accepts.
   */
  datatype Channel = Channel(inbox: seq<Frame>, outbox: seq<Frame>, capacity: nat)

  datatype Sent = Sent(ok: bool, channel: Channel)
  datatype Received = Received(frame: Option<Frame>, channel: Channel)

  /** A send succeeds while the channel has capacity; a failed send changes nothing. */
  function Send(ch: Channel, f: Frame): (r: Sent)
    ensures r.ok <==> ch.capacity > 0
    ensures r.ok ==> r.channel == Channel(ch.inbox, ch.outbox + [f], ch.capacity - 1)
    ensures !r.ok ==> r.channel == ch
  {
    if ch.capacity == 0 then Sent(false, ch)
    else Sent(true, ch.(outbox := ch.outbox + [f], capacity := ch.capacity - 1))
  }

  /** A receive takes the oldest unread frame; on an exhausted channel it fails. */
  function Receive(ch: Channel): (r: Received)
    ensures ch.inbox == [] <==> r.frame.None?
    ensures r.frame.Some? ==> [r.frame.value] + r.channel.inbox == ch.inbox
    ensures r.channel.outbox == ch.outbox && r.channel.capacity == ch.capacity
    ensures ch.inbox == [] ==> r.channel == ch
  {
    if ch.inbox == [] then Received(None, ch)
    else Received(Some(ch.inbox[0]), ch.(inbox := ch.inbox[1..]))
  }

  /** The channel object both ends hold. */
  class Comms {
    var inbox: seq<Frame>
    var outbox: seq<Frame>
    var capacity: nat

    function View(): Channel
      reads this
    {
      Channel(inbox, outbox, capacity)
    }

    constructor (ch: Channel)
      ensures View() == ch
    {
      inbox := ch.inbox;
      outbox := ch.outbox;
      capacity := ch.capacity;
    }

    /** SendTLV / SendProtoBuf / SendStatus. */
    method SendFrame(f: Frame) returns (ok: bool)
      modifies this
      ensures Sent(ok, View()) == Send(old(View()), f)
    {
      if capacity == 0 {
        return false;
      }
      outbox := outbox + [f];
      capacity := capacity - 1;
      ok := true;
    }

    /** RecvTLV / RecvProtoBuf / RecvStatus read one frame; the caller checks its kind. */
    method RecvFrame() returns (f: Option<Frame>)
      modifies this
      ensures Received(f, View()) == Receive(old(View()))
    {
      if inbox == [] {
        return None;
      }
      f := Some(inbox[0]);
      inbox := inbox[1..];
    }
  }
}
