/**
 * Properties of the correlating handler over arbitrary stores and messages.
 */
module HandlerProperties {
  import opened Wrappers
  import opened Messages
  import opened MessageGroups
  import opened MessageStore
  import opened ReleaseStrategies
  import opened GroupProcessors
  import opened CorrelatingHandler

  /** A message with malformed sequence headers reaches no channel and changes nothing. */
  lemma MalformedNeverSent(cfg: Config, store: Store, m: Message)
    requires MalformedSequence(m)
    ensures Handle(cfg, store, m).Failure? || Handle(cfg, store, m).value == Step(store, [])
  {
  }

  /** Releasing touches no key but the released one. */
  lemma ReleaseFrame(cfg: Config, store: Store, key: Key, g: Group)
    ensures SameExcept(store, ReleaseGroup(cfg, store, key, g).store, key)
  {
  }

  /** Handling a message leaves the groups of every other key as they were. */
  lemma HandleFrame(cfg: Config, store: Store, m: Message)
    requires m.correlationId.Some?
    ensures SameExcept(store, Handle(cfg, store, m).value.store, m.correlationId.value)
  {
    var key := m.correlationId.value;
    if Classify(cfg, store, key, m) == Accepted {
      ReleaseFrame(cfg, store, key, Add(Current(store, key, m), m));
    }
  }

  /**
   * A message whose sequence size differs from the size its group
   * established goes to the discard channel (or nowhere, when none is set);
   * the group and everything it holds stay as they were.
   */
  lemma SizeConflictDiscarded(cfg: Config, store: Store, m: Message)
    requires m.correlationId.Some? && m.correlationId.value in store
    requires !Rejected(cfg, m)
    requires store[m.correlationId.value].sequenceSize != m.sequenceSize
    ensures Handle(cfg, store, m) == Success(Step(store, DiscardAll(cfg.hasDiscardChannel, [m])))
  {
  }

  /**
   * A message for a group that was already released while its sequence was
   * incomplete goes to the discard channel and never to the output.
   */
  lemma LateArrivalDiscarded(cfg: Config, store: Store, m: Message)
    requires m.correlationId.Some? && m.correlationId.value in store
    requires !Rejected(cfg, m)
    requires store[m.correlationId.value].completed
    ensures Handle(cfg, store, m) == Success(Step(store, DiscardAll(cfg.hasDiscardChannel, [m])))
  {
  }

  /** Delivering a message that is still buffered again changes nothing and sends nothing. */
  lemma ResendIsNoOp(cfg: Config, store: Store, m: Message)
    requires Inv(cfg, store)
    requires m.correlationId.Some? && m in List(store, m.correlationId.value)
    ensures Handle(cfg, store, m) == Success(Step(store, []))
  {
    var key := m.correlationId.value;
    assert Fits(key, store[key], m);
  }

  /**
   * A message whose sequence number its group already holds, or that the
   * resequencer's barrier has already passed, is absorbed: nothing changes
   * and nothing is sent.
   */
  lemma SameNumberAbsorbed(cfg: Config, store: Store, m: Message)
    requires Inv(cfg, store)
    requires m.correlationId.Some? && m.correlationId.value in store
    requires m.sequenceSize == store[m.correlationId.value].sequenceSize
    requires m.sequenceNumber.Some?
    requires m.sequenceNumber.value < store[m.correlationId.value].nextExpected ||
             m.sequenceNumber.value in Numbers(List(store, m.correlationId.value))
    ensures Handle(cfg, store, m) == Success(Step(store, []))
  {
    var key := m.correlationId.value;
    if m.sequenceNumber.value in Numbers(store[key].buffer) {
      assert store[key].buffer != [];
    }
  }

  /** A release sends on or keeps every message of the group, each exactly once. */
  lemma ReleaseConserves(cfg: Config, store: Store, key: Key, g: Group)
    requires Valid(key, g) && !g.completed
    requires cfg.mode.Resequence? ==> AllNumbered(g.buffer)
    ensures var r := ReleaseGroup(cfg, store, key, g);
      multiset(g.buffer) == multiset(Carried(r.out)) + multiset(List(r.store, key))
  {
    match cfg.mode
    case Aggregate(rs) =>
      CarriedSend(g.buffer);
    case Resequence(partial) =>
      if partial || (g.sequenceSize.Some? && AllNumbersPresent(g.buffer, g.sequenceSize.value)) {
        var run := ContiguousRun(g.buffer, g.nextExpected);
        CarriedSend(run.released);
        if Drained(g.(buffer := run.rest, nextExpected := run.next)) {
          DrainedRestEmpty(key, g);
        }
      }
  }

  /**
   * Nothing is lost and nothing is sent twice: an accepted message and the
   * messages its group held before are exactly the messages sent plus the
   * messages the group still holds. Any other message leaves the store as
   * it was, and can at most be discarded itself.
   */
  lemma HandleConserves(cfg: Config, store: Store, m: Message)
    requires Inv(cfg, store)
    requires m.correlationId.Some?
    ensures var key := m.correlationId.value;
      var r := Handle(cfg, store, m).value;
      Classify(cfg, store, key, m) == Accepted ==>
        multiset(List(store, key)) + multiset{m} == multiset(Carried(r.out)) + multiset(List(r.store, key))
    ensures var key := m.correlationId.value;
      var r := Handle(cfg, store, m).value;
      Classify(cfg, store, key, m) != Accepted ==>
        r.store == store && forall e :: e in r.out ==> e == Emission(Discard, m)
  {
    var key := m.correlationId.value;
    if Classify(cfg, store, key, m) == Accepted {
      var r := AcceptedConserves(cfg, store, key, m);
    } else {
      var r := RefusedLeavesStore(cfg, store, key, m);
    }
  }

  /** The accepted half of `HandleConserves`, stated about the step itself. */
  lemma AcceptedConserves(cfg: Config, store: Store, key: Key, m: Message) returns (r: Step)
    requires Inv(cfg, store)
    requires m.correlationId == Some(key) && Classify(cfg, store, key, m) == Accepted
    ensures Handle(cfg, store, m) == Success(r)
    ensures multiset(List(store, key)) + multiset{m} == multiset(Carried(r.out)) + multiset(List(r.store, key))
  {
    var cur := Current(store, key, m);
    var g := Add(cur, m);
    r := ReleaseGroup(cfg, store, key, g);
    assert List(store, key) == cur.buffer;
    AcceptedGroupValid(cfg, store, key, m);
    ReleaseConserves(cfg, store, key, g);
    assert multiset(g.buffer) == multiset(cur.buffer) + multiset{m};
  }

  /** The refused half of `HandleConserves`, stated about the step itself. */
  lemma RefusedLeavesStore(cfg: Config, store: Store, key: Key, m: Message) returns (r: Step)
    requires m.correlationId == Some(key) && Classify(cfg, store, key, m) != Accepted
    ensures Handle(cfg, store, m) == Success(r)
    ensures r.store == store && forall e :: e in r.out ==> e == Emission(Discard, m)
  {
    r := Handle(cfg, store, m).value;
  }

  /**
   * A resequencer release sends messages numbered from the group's next
   * expected number on, in ascending order; a kept group's barrier moves
   * past everything sent, and a group leaves the store only once the
   * barrier has passed the end of its sequence.
   */
  lemma ReleaseInOrder(cfg: Config, store: Store, key: Key, g: Group)
    requires cfg.mode.Resequence?
    ensures var r := ReleaseGroup(cfg, store, key, g);
      && SentFrom(r.out, g.nextExpected)
      && (key in r.store ==> r.store[key].nextExpected == g.nextExpected + |r.out|)
      && (key in r.store ==> r.store[key].sequenceSize == g.sequenceSize)
      && (key !in r.store ==> g.sequenceSize.Some? && g.nextExpected + |r.out| > g.sequenceSize.value)
  {
    var partial := cfg.mode.releasePartialSequences;
    if partial || (g.sequenceSize.Some? && AllNumbersPresent(g.buffer, g.sequenceSize.value)) {
      var run := ContiguousRun(g.buffer, g.nextExpected);
      var out := Send(run.released);
      assert |out| == |run.released|;
      assert forall i :: 0 <= i < |out| ==> out[i].msg == run.released[i];
    }
  }

  /**
   * The resequencer sends released messages in strictly ascending sequence
   * order, continuing exactly where the previous release stopped, and the
   * barrier moves past everything it sent. A group leaves the store only
   * once the barrier has passed the end of its sequence.
   */
  lemma ResequencedInOrder(cfg: Config, store: Store, key: Key, m: Message)
    requires Inv(cfg, store)
    requires cfg.mode.Resequence?
    requires m.correlationId == Some(key)
    requires Classify(cfg, store, key, m) == Accepted
    ensures var r := Handle(cfg, store, m).value;
      var next := Current(store, key, m).nextExpected;
      && SentFrom(r.out, next)
      && (key in r.store ==> r.store[key].nextExpected == next + |r.out|)
      && (key in r.store ==> r.store[key].sequenceSize == m.sequenceSize)
      && (key !in r.store ==> m.sequenceSize.Some? && next + |r.out| > m.sequenceSize.value)
  {
    var g := Add(Current(store, key, m), m);
    assert Handle(cfg, store, m) == Success(ReleaseGroup(cfg, store, key, g));
    assert g.sequenceSize == m.sequenceSize;
    ReleaseInOrder(cfg, store, key, g);
  }

  /** A sized group's next expected number is still part of its sequence. */
  predicate ExpectsWithinSequence(g: Group) {
    g.sequenceSize.Some? ==> g.nextExpected <= g.sequenceSize.value
  }

  /**
   * With partial release, a group whose barrier has moved past the end of
   * its sequence is gone from the store; every group the store keeps still
   * expects a number within its sequence.
   */
  lemma DrainedGroupRemoved(cfg: Config, store: Store, m: Message) returns (r: Step)
    requires Inv(cfg, store)
    requires cfg.mode == Resequence(true)
    requires m.correlationId.Some?
    ensures Handle(cfg, store, m) == Success(r)
    ensures forall k :: k in r.store ==> ExpectsWithinSequence(r.store[k])
  {
    r := Handle(cfg, store, m).value;
    HandleKeepsInv(cfg, store, m);
  }

  /**
   * A complete sequence 1..s leaves the barrier as exactly s messages
   * numbered 1..s, in that order, with nothing left behind.
   */
  lemma CompleteRunReleasesAll(key: Key, g: Group, s: int)
    requires Valid(key, g) && AllNumbered(g.buffer) && g.buffer != []
    requires g.nextExpected == 1 && g.sequenceSize == Some(s)
    requires AllNumbersPresent(g.buffer, s)
    ensures var run := ContiguousRun(g.buffer, 1);
      |run.released| == s && run.rest == [] && run.next == s + 1
  {
    var run := ContiguousRun(g.buffer, 1);
    CompleteRunDrains(key, g);
    DrainedRestEmpty(key, g);
    RunFromBuffer(g.buffer, 1);
    assert g.buffer[0] in g.buffer;
    assert |run.released| >= 1 by {
      RunStopsAtGap(g.buffer, 1);
      assert 1 in Numbers(g.buffer);
    }
    var last := run.released[|run.released| - 1];
    assert last in g.buffer;
  }

  /** Complete-sequence release of one group, before it is tied to the inbound message. */
  lemma CompleteReleaseOfGroup(cfg: Config, store: Store, key: Key, g: Group, s: int)
    requires cfg.mode == Resequence(false)
    requires Valid(key, g) && AllNumbered(g.buffer) && g.buffer != []
    requires g.nextExpected == 1 && g.sequenceSize == Some(s)
    ensures var r := ReleaseGroup(cfg, store, key, g);
      && (r.out != [] <==> AllNumbersPresent(g.buffer, s))
      && (r.out != [] ==>
            |r.out| == s && key !in r.store &&
            forall i :: 0 <= i < s ==> r.out[i].msg.sequenceNumber == Some(i + 1))
      && (r.out == [] ==> List(r.store, key) == g.buffer)
  {
    if AllNumbersPresent(g.buffer, s) {
      CompleteRunReleasesAll(key, g, s);
    }
  }

  /**
   * Complete-sequence resequencing: nothing is sent until the group holds
   * every number 1..s; then all s messages are sent at once, numbered 1..s in
   * that order, and the group leaves the store.
   */
  lemma CompleteSequenceRelease(cfg: Config, store: Store, m: Message)
    requires Inv(cfg, store)
    requires cfg.mode == Resequence(false)
    requires m.correlationId.Some?
    requires Classify(cfg, store, m.correlationId.value, m) == Accepted
    requires m.sequenceSize.Some?
    ensures var key := m.correlationId.value;
      var r := Handle(cfg, store, m).value;
      var held := List(store, key) + [m];
      var s := m.sequenceSize.value;
      && (r.out != [] <==> AllNumbersPresent(held, s))
      && (r.out != [] ==>
            |r.out| == s && key !in r.store &&
            forall i :: 0 <= i < s ==> r.out[i].msg.sequenceNumber == Some(i + 1))
      && (r.out == [] ==> List(r.store, key) == held)
  {
    var key := m.correlationId.value;
    var cur := Current(store, key, m);
    var g := Add(cur, m);
    assert Handle(cfg, store, m) == Success(ReleaseGroup(cfg, store, key, g));
    AcceptedGroupValid(cfg, store, key, m);
    assert List(store, key) == cur.buffer;
    CompleteReleaseOfGroup(cfg, store, key, g, m.sequenceSize.value);
  }

  /**
   * The default release strategy with the pass-through processor: the
   * message that brings the group to its sequence size releases the whole
   * group, in arrival order, and the group leaves the store; before that
   * nothing is sent and the message is held.
   */
  lemma SequenceSizeReleaseAll(cfg: Config, store: Store, m: Message)
    requires Inv(cfg, store)
    requires cfg.mode == Aggregate(SequenceSizeRelease)
    requires m.correlationId.Some?
    requires Classify(cfg, store, m.correlationId.value, m) == Accepted
    ensures var key := m.correlationId.value;
      var r := Handle(cfg, store, m).value;
      var held := List(store, key) + [m];
      && (r.out != [] <==> m.sequenceSize == Some(|held|))
      && (r.out != [] ==> Carried(r.out) == held && key !in r.store)
      && (r.out == [] ==> List(r.store, key) == held)
  {
    var key := m.correlationId.value;
    var g := Add(Current(store, key, m), m);
    assert List(store, key) == Current(store, key, m).buffer;
    CarriedSend(g.buffer);
  }

  /**
   * The message-count release strategy: the message that brings the group
   * to `threshold` messages (or to its sequence size) releases the whole
   * group in arrival order. An unsequenced group then leaves the store, so
   * the next message starts a new group; a sequenced group released before
   * its sequence was complete stays behind as released, so that later
   * messages for it are discarded.
   */
  lemma CountThresholdRelease(cfg: Config, store: Store, m: Message)
    requires Inv(cfg, store)
    requires cfg.mode.Aggregate? && cfg.mode.strategy.MessageCountRelease?
    requires m.correlationId.Some?
    requires Classify(cfg, store, m.correlationId.value, m) == Accepted
    ensures var key := m.correlationId.value;
      var r := Handle(cfg, store, m).value;
      var held := List(store, key) + [m];
      && (r.out != [] <==> |held| >= cfg.mode.strategy.threshold || m.sequenceSize == Some(|held|))
      && (r.out != [] ==> Carried(r.out) == held && List(r.store, key) == [])
      && (r.out != [] && m.sequenceSize.None? ==> key !in r.store)
      && (r.out != [] && m.sequenceSize.Some? && m.sequenceSize != Some(|held|) ==>
            key in r.store && r.store[key].completed)
      && (r.out == [] ==> List(r.store, key) == held)
  {
    var key := m.correlationId.value;
    var g := Add(Current(store, key, m), m);
    assert List(store, key) == Current(store, key, m).buffer;
    CarriedSend(g.buffer);
  }

  /** Forced completion keeps the store invariant. */
  lemma ForceCompleteKeepsInv(cfg: Config, store: Store, key: Key)
    requires Inv(cfg, store)
    ensures Inv(cfg, ForceComplete(cfg, store, key).store)
  {
  }

  /** Forcing completion twice is the same as forcing it once. */
  lemma ForceCompleteIdempotent(cfg: Config, store: Store, key: Key)
    ensures var once := ForceComplete(cfg, store, key);
      ForceComplete(cfg, once.store, key) == Step(once.store, [])
  {
  }
}
