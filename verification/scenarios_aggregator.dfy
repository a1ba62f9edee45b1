/**
 * The aggregating handler's scenarios with the pass-through processor,
 * replayed on the model with concrete messages. None of the messages names a
 * reply channel, so every release goes to the output channel.
 */
module AggregatorScenarios {
  import opened Wrappers
  import opened Messages
  import opened MessageGroups
  import opened MessageStore
  import opened ReleaseStrategies
  import opened CorrelatingHandler
  import opened Deliveries

  /** A message with payload "test" and the given correlation id, sequence size and sequence number. */
  function CorrelatedMessage(correlationId: Key, sequenceSize: int, sequenceNumber: int): (m: Message)
    ensures m.payload == "test" && m.correlationId == Some(correlationId)
    ensures m.sequenceSize == Some(sequenceSize) && m.sequenceNumber == Some(sequenceNumber)
    ensures m.replyChannel.None?
  {
    Message("test", Some(correlationId), Some(sequenceNumber), Some(sequenceSize), None)
  }

  /** The handler with the pass-through processor, the default release strategy and no discard channel. */
  const Default: Config := Config(Aggregate(SequenceSizeRelease), false, false)

  const First1: Message := CorrelatedMessage("1", 2, 1)
  const Second1: Message := CorrelatedMessage("1", 2, 2)
  const First2: Message := CorrelatedMessage("2", 2, 1)
  const Second2: Message := CorrelatedMessage("2", 2, 2)

  /** Messages without a reply channel are sent to the output channel, in order. */
  lemma SendToOutput(a: Message, b: Message)
    requires a.replyChannel.None? && b.replyChannel.None?
    ensures Send([a]) == [Emission(Output, a)]
    ensures Send([a, b]) == [Emission(Output, a), Emission(Output, b)]
  {
    assert Send([a])[0] == Emission(Output, a);
    assert Send([a, b])[0] == Emission(Output, a);
    assert Send([a, b])[1] == Emission(Output, b);
  }

  // ---------------------------------------------------------------------
  // Default release strategy
  // ---------------------------------------------------------------------

  const Lone: Message := CorrelatedMessage("1", 1, 1)

  /** A sequence of one is sent to the output channel as soon as it arrives. */
  lemma CompletesSingleMessage()
    ensures Handle(Default, map[], Lone) == Success(Step(map[], [Emission(Output, Lone)]))
  {
    HandleAccepted(Default, map[], Lone);
    assert Add(Current(map[], "1", Lone), Lone) == Group(Some(1), [Lone], 1, false);
    assert map["1" := Group(Some(1), [Lone], 1, false)] - {"1"} == map[];
    SendToOutput(Lone, Lone);
  }

  const Held1: Store := map["1" := Group(Some(2), [First1], 1, false)]
  const Held12: Store := map["1" := Group(Some(2), [First1], 1, false), "2" := Group(Some(2), [First2], 1, false)]
  const Held2: Store := map["2" := Group(Some(2), [First2], 1, false)]

  lemma HoldFirst1()
    ensures Handle(Default, map[], First1) == Success(Step(Held1, []))
  {
    HandleAccepted(Default, map[], First1);
    assert Add(Current(map[], "1", First1), First1) == Held1["1"];
  }

  lemma HoldFirst2()
    ensures Handle(Default, Held1, First2) == Success(Step(Held12, []))
  {
    HandleAccepted(Default, Held1, First2);
    assert Add(Current(Held1, "2", First2), First2) == Held12["2"];
    assert Held1["2" := Held12["2"]] == Held12;
  }

  lemma ReleaseSecond1()
    ensures Handle(Default, Held12, Second1) == Success(Step(Held2, [Emission(Output, First1), Emission(Output, Second1)]))
  {
    assert 2 !in Numbers([First1]);
    HandleAccepted(Default, Held12, Second1);
    assert Add(Current(Held12, "1", Second1), Second1) == Group(Some(2), [First1, Second1], 1, false);
    assert Held12 - {"1"} == Held2;
    SendToOutput(First1, Second1);
  }

  lemma ReleaseSecond2()
    ensures Handle(Default, Held2, Second2) == Success(Step(map[], [Emission(Output, First2), Emission(Output, Second2)]))
  {
    assert 2 !in Numbers([First2]);
    HandleAccepted(Default, Held2, Second2);
    assert Add(Current(Held2, "2", Second2), Second2) == Group(Some(2), [First2, Second2], 1, false);
    assert Held2 - {"2"} == map[];
    SendToOutput(First2, Second2);
  }

  /**
   * Two sequences of two interleaved: completing the first sends exactly its
   * two messages and leaves the second held; completing the second sends it.
   */
  lemma CompletesWithoutReleasingIncompleteCorrelations()
    ensures HandleAll(Default, map[], [First1, First2]) == Success(Step(Held12, []))
    ensures Handle(Default, Held12, Second1) == Success(Step(Held2, [Emission(Output, First1), Emission(Output, Second1)]))
    ensures Handle(Default, Held2, Second2) == Success(Step(map[], [Emission(Output, First2), Emission(Output, Second2)]))
  {
    HoldFirst1();
    HoldFirst2();
    ReleaseSecond1();
    ReleaseSecond2();
    HandleAllOne(Default, Held1, First2, Step(Held12, []));
    HandleAllStep(Default, map[], First1, [First2], Step(Held1, []), Step(Held12, []));
    assert [First1] + [First2] == [First1, First2];
  }

  /** The first of a sequence of two is held; the second sends both. */
  lemma CompletesAfterSequenceComplete()
    ensures Handle(Default, map[], First1) == Success(Step(Held1, []))
    ensures Handle(Default, Held1, Second1) == Success(Step(map[], [Emission(Output, First1), Emission(Output, Second1)]))
  {
    HoldFirst1();
    assert 2 !in Numbers([First1]);
    HandleAccepted(Default, Held1, Second1);
    assert Add(Current(Held1, "1", Second1), Second1) == Group(Some(2), [First1, Second1], 1, false);
    assert Held1 - {"1"} == map[];
    SendToOutput(First1, Second1);
  }

  // ---------------------------------------------------------------------
  // Message-count release strategy
  // ---------------------------------------------------------------------

  /** Releases on the first message and discards to a discard channel. */
  const EveryMessage: Config := Config(Aggregate(MessageCountRelease(1)), true, false)

  const Completed1: Store := map["1" := Group(Some(2), [], 1, true)]

  /**
   * With a threshold of one the first message is sent at once and its group
   * is kept as completed; the rest of its sequence goes to the discard
   * channel and never to the output channel.
   */
  lemma CompletesAfterThreshold()
    ensures Handle(EveryMessage, map[], First1) == Success(Step(Completed1, [Emission(Output, First1)]))
    ensures Handle(EveryMessage, Completed1, Second1) == Success(Step(Completed1, [Emission(Discard, Second1)]))
  {
    HandleAccepted(EveryMessage, map[], First1);
    var g := Group(Some(2), [First1], 1, false);
    assert Add(Current(map[], "1", First1), First1) == g;
    assert CanRelease(MessageCountRelease(1), g) && !SequenceSizeReached(g);
    assert map[]["1" := g.(buffer := [], completed := true)] == Completed1;
    SendToOutput(First1, First1);
    assert Classify(EveryMessage, Completed1, "1", Second1) == Late;
    assert DiscardAll(true, [Second1]) == [Emission(Discard, Second1)];
  }

  /**
   * A completed group forgets what it released: delivering the first
   * message again finds the group completed and sends it to the discard
   * channel rather than absorbing it as a duplicate.
   */
  lemma RedeliveryAfterEarlyRelease()
    ensures Classify(EveryMessage, Completed1, "1", First1) == Late
    ensures Handle(EveryMessage, Completed1, First1) == Success(Step(Completed1, [Emission(Discard, First1)]))
  {
    assert DiscardAll(true, [First1]) == [Emission(Discard, First1)];
  }

  /** Releases every two messages, with no discard channel. */
  const EveryTwo: Config := Config(Aggregate(MessageCountRelease(2)), false, false)

  const Plain1: Message := Message("1", Some("foo"), None, None, None)
  const Plain2: Message := Message("2", Some("foo"), None, None, None)
  const Plain3: Message := Message("3", Some("foo"), None, None, None)

  const Pending1: Store := map["foo" := Group(None, [Plain1], 1, false)]
  const Pending3: Store := map["foo" := Group(None, [Plain3], 1, false)]

  lemma PlainHold(m: Message)
    requires m == Plain1 || m == Plain3
    ensures Handle(EveryTwo, map[], m) == Success(Step(map["foo" := Group(None, [m], 1, false)], []))
  {
    HandleAccepted(EveryTwo, map[], m);
    assert Add(Current(map[], "foo", m), m) == Group(None, [m], 1, false);
  }

  /**
   * Messages without sequence details are released two at a time: the
   * second sends both and clears the group, so the third starts a new group
   * and is not sent.
   */
  lemma CompletesIfNoSequence()
    ensures Handle(EveryTwo, map[], Plain1) == Success(Step(Pending1, []))
    ensures Handle(EveryTwo, Pending1, Plain2) == Success(Step(map[], [Emission(Output, Plain1), Emission(Output, Plain2)]))
    ensures Handle(EveryTwo, map[], Plain3) == Success(Step(Pending3, []))
  {
    PlainHold(Plain1);
    PlainHold(Plain3);
    assert Plain2 !in [Plain1];
    HandleAccepted(EveryTwo, Pending1, Plain2);
    assert Add(Current(Pending1, "foo", Plain2), Plain2) == Group(None, [Plain1, Plain2], 1, false);
    assert Pending1 - {"foo"} == map[];
    SendToOutput(Plain1, Plain2);
  }

  /**
   * A group opened by a message without sequence headers keeps an absent
   * sequence size, so a later sequenced message for it is a size conflict.
   */
  lemma SequencedAfterUnsequenced()
    ensures Classify(EveryTwo, Pending1, "foo", CorrelatedMessage("foo", 2, 1)) == SizeConflict
    ensures Handle(EveryTwo, Pending1, CorrelatedMessage("foo", 2, 1)) == Success(Step(Pending1, []))
  {
  }
}
