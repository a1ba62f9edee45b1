/**
 * A run of inbound messages handed to the handler one after another.
 */
module Deliveries {
  import opened Wrappers
  import opened Messages
  import opened MessageGroups
  import opened MessageStore
  import opened CorrelatingHandler

  /**
   * Handles the messages in order, threading the store through and
   * collecting every send; stops at the first message without a
   * correlation key.
   */
  function HandleAll(cfg: Config, store: Store, ms: seq<Message>): (r: Result<Step, HandlerError>)
    ensures r.Success? <==> forall i :: 0 <= i < |ms| ==> ms[i].correlationId.Some?
    decreases |ms|
  {
    if ms == [] then Success(Step(store, []))
    else
      match Handle(cfg, store, ms[0])
      case Failure(e) => Failure(e)
      case Success(first) =>
        match HandleAll(cfg, first.store, ms[1..])
        case Failure(e) => Failure(e)
        case Success(rest) => Success(Step(rest.store, first.out + rest.out))
  }

  /** Handling a run one message at a time: the first step, then the rest. */
  lemma HandleAllStep(cfg: Config, store: Store, m: Message, ms: seq<Message>, mid: Step, last: Step)
    requires Handle(cfg, store, m) == Success(mid)
    requires HandleAll(cfg, mid.store, ms) == Success(last)
    ensures HandleAll(cfg, store, [m] + ms) == Success(Step(last.store, mid.out + last.out))
  {
    assert ([m] + ms)[1..] == ms;
  }

  lemma HandleAllOne(cfg: Config, store: Store, m: Message, mid: Step)
    requires Handle(cfg, store, m) == Success(mid)
    ensures HandleAll(cfg, store, [m]) == Success(mid)
  {
    assert [m][1..] == [];
    assert mid.out + [] == mid.out;
  }

  /** The handler on a message it accepts: the new message joins its group, which is then offered for release. */
  lemma HandleAccepted(cfg: Config, store: Store, m: Message)
    requires m.correlationId.Some?
    requires !Rejected(cfg, m)
    requires m.correlationId.value in store ==> !store[m.correlationId.value].completed
    requires m.correlationId.value in store ==> store[m.correlationId.value].sequenceSize == m.sequenceSize
    requires !IsDuplicate(Current(store, m.correlationId.value, m), m)
    ensures var key := m.correlationId.value;
      Handle(cfg, store, m) == Success(ReleaseGroup(cfg, store, key, Add(Current(store, key, m), m)))
  {
  }
}
