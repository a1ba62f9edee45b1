/**
 * Messages, their sequence headers and where the handler sends them.
 *
 * Only the headers the correlating handler reads are modelled: the
 * correlation id, the sequence number, the sequence size and the reply
 * channel. The payload is kept so that distinct messages stay distinct.
 */
module Messages {
  import opened Wrappers

  /** A correlation key: the value of the correlation-id header. */
  type Key = string

  /** The name of a reply channel carried in a message header. */
  type Channel = string

  datatype Message = Message(
    payload: string,
    correlationId: Option<Key>,
    sequenceNumber: Option<int>,
    sequenceSize: Option<int>,
    replyChannel: Option<Channel>)

  /** The value messages are ordered by; a message without a number ranks first. */
  function Rank(m: Message): int {
    m.sequenceNumber.GetOr(0)
  }

  /**
   * Sequence headers that contradict themselves: a number below 1, or
   * above the size the same message announces.
   */
  predicate MalformedSequence(m: Message) {
    m.sequenceNumber.Some? &&
    (m.sequenceNumber.value < 1 ||
     (m.sequenceSize.Some? && m.sequenceNumber.value > m.sequenceSize.value))
  }

  /** The three kinds of destination the handler writes to. */
  datatype Dest = Output | Reply(channel: Channel) | Discard

  /** One send performed by the handler. */
  datatype Emission = Emission(dest: Dest, msg: Message)

  /** A released message goes to its own reply channel when it names one. */
  function RouteOf(m: Message): (d: Dest)
    ensures d != Discard
    ensures d == Output <==> m.replyChannel.None?
  {
    match m.replyChannel
    case Some(c) => Reply(c)
    case None => Output
  }

  /** Sends released messages, in the given order, each to its route. */
  function Send(ms: seq<Message>): (out: seq<Emission>)
    ensures |out| == |ms|
    ensures forall i :: 0 <= i < |out| ==> out[i] == Emission(RouteOf(ms[i]), ms[i])
  {
    seq(|ms|, i requires 0 <= i < |ms| => Emission(RouteOf(ms[i]), ms[i]))
  }

  /** Sends messages to the discard channel, or drops them when none is configured. */
  function DiscardAll(configured: bool, ms: seq<Message>): (out: seq<Emission>)
    ensures configured ==> |out| == |ms|
    ensures configured ==> forall i :: 0 <= i < |out| ==> out[i] == Emission(Discard, ms[i])
    ensures !configured ==> out == []
  {
    if configured then seq(|ms|, i requires 0 <= i < |ms| => Emission(Discard, ms[i])) else []
  }

  /** The sends carry the numbers next, next+1, ... in order, each on its message's own route. */
  ghost predicate SentFrom(out: seq<Emission>, next: int) {
    forall i :: 0 <= i < |out| ==> out[i].msg.sequenceNumber == Some(next + i) && out[i].dest == RouteOf(out[i].msg)
  }

  /** The messages carried by a list of sends, in send order. */
  function Carried(out: seq<Emission>): (ms: seq<Message>)
    ensures |ms| == |out|
    ensures forall i :: 0 <= i < |ms| ==> ms[i] == out[i].msg
  {
    seq(|out|, i requires 0 <= i < |out| => out[i].msg)
  }

  /** The sends of a release carry exactly the released messages, and none is a discard. */
  lemma CarriedSend(ms: seq<Message>)
    ensures Carried(Send(ms)) == ms
    ensures forall e :: e in Send(ms) ==> e.dest != Discard
  {
  }

  /** The sends of a discard carry the discarded messages when there is a discard channel, and all go there. */
  lemma CarriedDiscard(configured: bool, ms: seq<Message>)
    ensures configured ==> Carried(DiscardAll(configured, ms)) == ms
    ensures forall e :: e in DiscardAll(configured, ms) ==> e.dest == Discard
  {
  }
}
