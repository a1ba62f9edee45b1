/**
 * The resequencer scenarios, replayed on the model with concrete messages.
 * Every message carries correlation id "ABC"; unless a scenario says
 * otherwise they name the same reply channel.
 */
module ResequencerScenarios {
  import opened Wrappers
  import opened Messages
  import opened MessageGroups
  import opened MessageStore
  import opened ReleaseStrategies
  import opened GroupProcessors
  import opened CorrelatingHandler
  import opened Deliveries

  /** A message with payload, correlation id, sequence size, sequence number and reply channel. */
  function CreateMessage(payload: string, correlationId: Key, sequenceSize: int, sequenceNumber: int,
                         replyChannel: Option<Channel>): (m: Message)
    ensures m.correlationId == Some(correlationId)
    ensures m.sequenceSize == Some(sequenceSize) && m.sequenceNumber == Some(sequenceNumber)
    ensures m.replyChannel == replyChannel
  {
    Message(payload, Some(correlationId), Some(sequenceNumber), Some(sequenceSize), replyChannel)
  }

  /** The resequencer with the given partial-release setting and discard channel. */
  function Resequencer(releasePartial: bool, discard: bool): Config {
    Config(Resequence(releasePartial), discard, false)
  }

  const ReplyTo: Option<Channel> := Some("replyChannel")

  /** One step of a run: the buffered message numbered `next` leads the release. */
  lemma RunTakes(ms: seq<Message>, next: int, k: nat, tail: Run)
    requires IndexOfNumber(ms, next) == Some(k)
    requires ContiguousRun(RemoveAt(ms, k), next + 1) == tail
    ensures ContiguousRun(ms, next) == Run([ms[k]] + tail.released, tail.rest, tail.next)
  {
  }

  /** A resequencer whose run drains the group removes it. */
  lemma ReleaseDrains(partial: bool, store: Store, key: Key, g: Group, run: Run, after: Store)
    requires g.sequenceSize.Some?
    requires partial || AllNumbersPresent(g.buffer, g.sequenceSize.value)
    requires ContiguousRun(g.buffer, g.nextExpected) == run
    requires run.next > g.sequenceSize.value
    requires store - {key} == after
    ensures ReleaseGroup(Resequencer(partial, false), store, key, g) == Step(after, Send(run.released))
  {
  }

  // ---------------------------------------------------------------------
  // A sequence of three, delivered 3, 2, 1 (once with 2 twice)
  // ---------------------------------------------------------------------
  // BasicStep3, BasicStep2 and BasicStep1 are the three arrivals, each as
  // one Handle step from the store the previous one left. The last arrival
  // completes the sequence: BasicFirst, BasicRunTail and BasicRun compute
  // its contiguous run, BasicAllPresent its completeness test, BasicRemoved
  // the store it leaves, and BasicRelease puts them together.

  const A3: Message := CreateMessage("123", "ABC", 3, 3, ReplyTo)
  const A1: Message := CreateMessage("456", "ABC", 3, 1, ReplyTo)
  const A2: Message := CreateMessage("789", "ABC", 3, 2, ReplyTo)

  const BasicAfter3: Store := map["ABC" := Group(Some(3), [A3], 1, false)]
  const BasicAfter32: Store := map["ABC" := Group(Some(3), [A3, A2], 1, false)]

  lemma BasicStep3()
    ensures Handle(Resequencer(false, false), map[], A3) == Success(Step(BasicAfter3, []))
  {
    var cfg := Resequencer(false, false);
    assert !AllNumbersPresent([A3], 3) by {
      assert 1 !in Numbers([A3]);
    }
    HandleAccepted(cfg, map[], A3);
    assert Add(Current(map[], "ABC", A3), A3) == BasicAfter3["ABC"];
    assert ReleaseGroup(cfg, map[], "ABC", BasicAfter3["ABC"]) == Step(BasicAfter3, []);
  }

  lemma BasicStep2()
    ensures Handle(Resequencer(false, false), BasicAfter3, A2) == Success(Step(BasicAfter32, []))
  {
    assert 2 !in Numbers([A3]);
    assert !AllNumbersPresent([A3, A2], 3) by {
      assert 1 !in Numbers([A3, A2]);
    }
    HandleAccepted(Resequencer(false, false), BasicAfter3, A2);
    assert Add(Current(BasicAfter3, "ABC", A2), A2) == BasicAfter32["ABC"];
    assert BasicAfter3["ABC" := BasicAfter32["ABC"]] == BasicAfter32;
    assert ReleaseGroup(Resequencer(false, false), BasicAfter3, "ABC", BasicAfter32["ABC"]) == Step(BasicAfter32, []);
  }

  lemma BasicFirst()
    ensures IndexOfNumber([A3, A2, A1], 1) == Some(2)
    ensures RemoveAt([A3, A2, A1], 2) == [A3, A2]
  {
    assert IndexOfNumber([A1], 1) == Some(0);
    assert IndexOfNumber([A2, A1], 1) == Some(1) by {
      assert [A2, A1][1..] == [A1];
    }
    assert [A3, A2, A1][1..] == [A2, A1];
  }

  lemma BasicRunTail()
    ensures ContiguousRun([A3, A2], 2) == Run([A2, A3], [], 4)
  {
    assert IndexOfNumber([A3, A2], 2) == Some(1) by {
      assert IndexOfNumber([A2], 2) == Some(0);
      assert [A3, A2][1..] == [A2];
    }
    assert RemoveAt([A3, A2], 1) == [A3];
    assert IndexOfNumber([A3], 3) == Some(0);
    assert RemoveAt([A3], 0) == [];
    assert ContiguousRun([], 4) == Run([], [], 4);
    assert ContiguousRun([A3], 3) == Run([A3], [], 4);
  }

  lemma BasicRun()
    ensures ContiguousRun([A3, A2, A1], 1) == Run([A1, A2, A3], [], 4)
  {
    BasicFirst();
    BasicRunTail();
    RunTakes([A3, A2, A1], 1, 2, Run([A2, A3], [], 4));
    SeqThree(A1, A2, A3);
  }

  lemma BasicAllPresent()
    ensures AllNumbersPresent([A3, A2, A1], 3)
  {
    var ms := [A3, A2, A1];
    assert ms[2] == A1 && ms[1] == A2 && ms[0] == A3;
    assert A1 in ms && A2 in ms && A3 in ms;
  }

  lemma BasicRemoved()
    ensures BasicAfter32 - {"ABC"} == map[]
  {
    assert "ABC" !in BasicAfter32 - {"ABC"};
  }

  lemma BasicRelease()
    ensures ReleaseGroup(Resequencer(false, false), BasicAfter32, "ABC", Group(Some(3), [A3, A2, A1], 1, false))
      == Step(map[], Send([A1, A2, A3]))
  {
    BasicAllPresent();
    BasicRun();
    BasicRemoved();
    ReleaseDrains(false, BasicAfter32, "ABC", Group(Some(3), [A3, A2, A1], 1, false), Run([A1, A2, A3], [], 4), map[]);
  }

  lemma BasicStep1()
    ensures Handle(Resequencer(false, false), BasicAfter32, A1) == Success(Step(map[], Send([A1, A2, A3])))
  {
    assert 1 !in Numbers([A3, A2]);
    HandleAccepted(Resequencer(false, false), BasicAfter32, A1);
    assert Add(Current(BasicAfter32, "ABC", A1), A1) == Group(Some(3), [A3, A2, A1], 1, false);
    BasicRelease();
  }

  /** Complete-sequence resequencing of 3, 2, 1 sends 1, 2, 3 on the reply channel. */
  lemma BasicResequencing()
    ensures HandleAll(Resequencer(false, false), map[], [A3, A2, A1]) == Success(Step(map[], Send([A1, A2, A3])))
  {
    var cfg := Resequencer(false, false);
    BasicStep3();
    BasicStep2();
    BasicStep1();
    HandleAllOne(cfg, BasicAfter32, A1, Step(map[], Send([A1, A2, A3])));
    HandleAllStep(cfg, BasicAfter3, A2, [A1], Step(BasicAfter32, []), Step(map[], Send([A1, A2, A3])));
    assert [A2] + [A1] == [A2, A1];
    assert [] + Send([A1, A2, A3]) == Send([A1, A2, A3]);
    HandleAllStep(cfg, map[], A3, [A2, A1], Step(BasicAfter3, []), Step(map[], Send([A1, A2, A3])));
    assert [A3] + [A2, A1] == [A3, A2, A1];
  }

  /** The second delivery of 2 finds it buffered and is absorbed. */
  lemma DuplicateStep()
    ensures Handle(Resequencer(false, false), BasicAfter32, A2) == Success(Step(BasicAfter32, []))
  {
    assert A2 in BasicAfter32["ABC"].buffer;
  }

  /** After the absorbed duplicate, 1 completes the sequence as in the basic case. */
  lemma DuplicateTail()
    ensures HandleAll(Resequencer(false, false), BasicAfter32, [A2, A1]) == Success(Step(map[], Send([A1, A2, A3])))
  {
    var cfg := Resequencer(false, false);
    BasicStep1();
    DuplicateStep();
    HandleAllOne(cfg, BasicAfter32, A1, Step(map[], Send([A1, A2, A3])));
    assert [] + Send([A1, A2, A3]) == Send([A1, A2, A3]);
    HandleAllStep(cfg, BasicAfter32, A2, [A1], Step(BasicAfter32, []), Step(map[], Send([A1, A2, A3])));
    assert [A2] + [A1] == [A2, A1];
  }

  /** Delivering 2 a second time while it is buffered changes nothing: the replies are still 1, 2, 3. */
  lemma ResequencingWithDuplicateMessages()
    ensures HandleAll(Resequencer(false, false), map[], [A3, A2, A2, A1]) == Success(Step(map[], Send([A1, A2, A3])))
  {
    var cfg := Resequencer(false, false);
    BasicStep3();
    BasicStep2();
    var out := Send([A1, A2, A3]);
    assert [] + out == out;
    assert HandleAll(cfg, BasicAfter3, [A2, A2, A1]) == Success(Step(map[], out)) by {
      DuplicateTail();
      HandleAllStep(cfg, BasicAfter3, A2, [A2, A1], Step(BasicAfter32, []), Step(map[], out));
      assert [A2] + [A2, A1] == [A2, A2, A1];
    }
    HandleAllStep(cfg, map[], A3, [A2, A2, A1], Step(BasicAfter3, []), Step(map[], out));
    assert [A3] + [A2, A2, A1] == [A3, A2, A2, A1];
  }

  // ---------------------------------------------------------------------
  // A sequence of four, delivered 2, 1, 4, 3
  // ---------------------------------------------------------------------
  // With partial release: PartialStep2 holds 2; PartialStep1 releases the
  // run 1, 2 (PartialRun1, PartialRelease1) and moves the barrier to 3;
  // PartialStep4 holds 4 behind it; PartialStep3 releases 3, 4 and
  // PartialRemoved shows the drained group leaves the store.

  const B2: Message := CreateMessage("123", "ABC", 4, 2, ReplyTo)
  const B1: Message := CreateMessage("456", "ABC", 4, 1, ReplyTo)
  const B4: Message := CreateMessage("789", "ABC", 4, 4, ReplyTo)
  const B3: Message := CreateMessage("XYZ", "ABC", 4, 3, ReplyTo)

  const PartialAfter2: Store := map["ABC" := Group(Some(4), [B2], 1, false)]
  const PartialAfter21: Store := map["ABC" := Group(Some(4), [], 3, false)]
  const PartialAfter214: Store := map["ABC" := Group(Some(4), [B4], 3, false)]

  lemma PartialStep2()
    ensures Handle(Resequencer(true, false), map[], B2) == Success(Step(PartialAfter2, []))
  {
    var cfg := Resequencer(true, false);
    HandleAccepted(cfg, map[], B2);
    var g := PartialAfter2["ABC"];
    assert Add(Current(map[], "ABC", B2), B2) == g;
    assert IndexOfNumber([B2], 1) == None;
    assert ContiguousRun([B2], 1) == Run([], [B2], 1);
    assert Send([]) == [];
    assert ReleaseGroup(cfg, map[], "ABC", g) == Step(PartialAfter2, []);
  }

  lemma PartialRun1()
    ensures ContiguousRun([B2, B1], 1) == Run([B1, B2], [], 3)
  {
    assert IndexOfNumber([B2, B1], 1) == Some(1) by {
      assert [B2, B1][1..] == [B1];
    }
    assert RemoveAt([B2, B1], 1) == [B2];
    assert IndexOfNumber([B2], 2) == Some(0);
    assert RemoveAt([B2], 0) == [];
    assert ContiguousRun([], 3) == Run([], [], 3);
    assert ContiguousRun([B2], 2) == Run([B2], [], 3);
  }

  lemma PartialRelease1()
    ensures ReleaseGroup(Resequencer(true, false), PartialAfter2, "ABC", Group(Some(4), [B2, B1], 1, false))
      == Step(PartialAfter21, Send([B1, B2]))
  {
    PartialRun1();
    assert PartialAfter2["ABC" := PartialAfter21["ABC"]] == PartialAfter21;
  }

  lemma PartialStep1()
    ensures Handle(Resequencer(true, false), PartialAfter2, B1) == Success(Step(PartialAfter21, Send([B1, B2])))
  {
    assert 1 !in Numbers([B2]);
    HandleAccepted(Resequencer(true, false), PartialAfter2, B1);
    assert Add(Current(PartialAfter2, "ABC", B1), B1) == Group(Some(4), [B2, B1], 1, false);
    PartialRelease1();
  }

  lemma PartialStep4()
    ensures Handle(Resequencer(true, false), PartialAfter21, B4) == Success(Step(PartialAfter214, []))
  {
    var cfg := Resequencer(true, false);
    HandleAccepted(cfg, PartialAfter21, B4);
    var g := PartialAfter214["ABC"];
    assert Add(Current(PartialAfter21, "ABC", B4), B4) == g;
    assert IndexOfNumber([B4], 3) == None;
    assert ContiguousRun([B4], 3) == Run([], [B4], 3);
    assert Send([]) == [];
    assert PartialAfter21["ABC" := g] == PartialAfter214;
    assert ReleaseGroup(cfg, PartialAfter21, "ABC", g) == Step(PartialAfter214, []);
  }

  lemma PartialStep3()
    ensures Handle(Resequencer(true, false), PartialAfter214, B3) == Success(Step(map[], Send([B3, B4])))
  {
    var cfg := Resequencer(true, false);
    assert 3 !in Numbers([B4]);
    HandleAccepted(cfg, PartialAfter214, B3);
    var g := Group(Some(4), [B4, B3], 3, false);
    assert Add(Current(PartialAfter214, "ABC", B3), B3) == g;
    WholeRunTail();
    PartialRemoved();
    ReleaseDrains(true, PartialAfter214, "ABC", g, Run([B3, B4], [], 5), map[]);
  }

  lemma PartialRemoved()
    ensures PartialAfter214 - {"ABC"} == map[]
  {
    assert "ABC" !in PartialAfter214 - {"ABC"};
  }

  /**
   * Partial release: after 2, 1, 4 exactly 1 and 2 have been sent and 4 is
   * held; 3 then sends 3 and 4, and the drained group leaves the store.
   */
  lemma ResequencingWithIncompleteSequenceRelease()
    ensures HandleAll(Resequencer(true, false), map[], [B2, B1, B4]) == Success(Step(PartialAfter214, Send([B1, B2])))
    ensures Handle(Resequencer(true, false), PartialAfter214, B3) == Success(Step(map[], Send([B3, B4])))
  {
    var cfg := Resequencer(true, false);
    PartialStep2();
    PartialStep1();
    PartialStep4();
    PartialStep3();
    HandleAllOne(cfg, PartialAfter21, B4, Step(PartialAfter214, []));
    HandleAllStep(cfg, PartialAfter2, B1, [B4], Step(PartialAfter21, Send([B1, B2])), Step(PartialAfter214, []));
    assert [B1] + [B4] == [B1, B4];
    assert Send([B1, B2]) + [] == Send([B1, B2]);
    HandleAllStep(cfg, map[], B2, [B1, B4], Step(PartialAfter2, []), Step(PartialAfter214, Send([B1, B2])));
    assert [B2] + [B1, B4] == [B2, B1, B4];
    assert [] + Send([B1, B2]) == Send([B1, B2]);
  }

  // ---------------------------------------------------------------------
  // The same sequence of four with complete release
  // ---------------------------------------------------------------------
  // WholeStep2, WholeStep1 and WholeStep4 only buffer. WholeStep3 completes
  // the sequence: WholeFirst, WholeRunMid, WholeRunTail and WholeRun compute
  // the run 1, 2, 3, 4, WholeAllPresent the completeness test, WholeRemoved
  // the emptied store, and WholeRelease puts them together.

  const WholeAfter2: Store := map["ABC" := Group(Some(4), [B2], 1, false)]
  const WholeAfter21: Store := map["ABC" := Group(Some(4), [B2, B1], 1, false)]
  const WholeAfter214: Store := map["ABC" := Group(Some(4), [B2, B1, B4], 1, false)]

  lemma WholeStep2()
    ensures Handle(Resequencer(false, false), map[], B2) == Success(Step(WholeAfter2, []))
  {
    var cfg := Resequencer(false, false);
    assert !AllNumbersPresent([B2], 4) by {
      assert 1 !in Numbers([B2]);
    }
    HandleAccepted(cfg, map[], B2);
    assert Add(Current(map[], "ABC", B2), B2) == WholeAfter2["ABC"];
    assert ReleaseGroup(cfg, map[], "ABC", WholeAfter2["ABC"]) == Step(WholeAfter2, []);
  }

  lemma WholeStep1()
    ensures Handle(Resequencer(false, false), WholeAfter2, B1) == Success(Step(WholeAfter21, []))
  {
    var cfg := Resequencer(false, false);
    assert 1 !in Numbers([B2]);
    assert !AllNumbersPresent([B2, B1], 4) by {
      assert 3 !in Numbers([B2, B1]);
    }
    HandleAccepted(cfg, WholeAfter2, B1);
    assert Add(Current(WholeAfter2, "ABC", B1), B1) == WholeAfter21["ABC"];
    assert WholeAfter2["ABC" := WholeAfter21["ABC"]] == WholeAfter21;
    assert ReleaseGroup(cfg, WholeAfter2, "ABC", WholeAfter21["ABC"]) == Step(WholeAfter21, []);
  }

  lemma WholeStep4()
    ensures Handle(Resequencer(false, false), WholeAfter21, B4) == Success(Step(WholeAfter214, []))
  {
    var cfg := Resequencer(false, false);
    assert 4 !in Numbers([B2, B1]);
    assert !AllNumbersPresent([B2, B1, B4], 4) by {
      assert 3 !in Numbers([B2, B1, B4]);
    }
    HandleAccepted(cfg, WholeAfter21, B4);
    assert Add(Current(WholeAfter21, "ABC", B4), B4) == WholeAfter214["ABC"];
    assert WholeAfter21["ABC" := WholeAfter214["ABC"]] == WholeAfter214;
    assert ReleaseGroup(cfg, WholeAfter21, "ABC", WholeAfter214["ABC"]) == Step(WholeAfter214, []);
  }

  lemma WholeRunTail()
    ensures ContiguousRun([B4, B3], 3) == Run([B3, B4], [], 5)
  {
    assert IndexOfNumber([B4, B3], 3) == Some(1) by {
      assert [B4, B3][1..] == [B3];
    }
    assert RemoveAt([B4, B3], 1) == [B4];
    assert IndexOfNumber([B4], 4) == Some(0);
    assert RemoveAt([B4], 0) == [];
    assert ContiguousRun([], 5) == Run([], [], 5);
    assert ContiguousRun([B4], 4) == Run([B4], [], 5);
  }

  lemma WholeRun()
    ensures ContiguousRun([B2, B1, B4, B3], 1) == Run([B1, B2, B3, B4], [], 5)
  {
    WholeFirst();
    WholeRunMid();
    RunTakes([B2, B1, B4, B3], 1, 1, Run([B2, B3, B4], [], 5));
    SeqFour(B1, B2, B3, B4);
  }

  /** Prepending one message to a run of two, as the run's cons step does. */
  lemma SeqThree(a: Message, b: Message, c: Message)
    ensures [a] + [b, c] == [a, b, c]
  {
  }

  /** Prepending one message to a run of three. */
  lemma SeqFour(a: Message, b: Message, c: Message, d: Message)
    ensures [a] + [b, c, d] == [a, b, c, d]
  {
  }

  lemma WholeFirst()
    ensures IndexOfNumber([B2, B1, B4, B3], 1) == Some(1)
    ensures RemoveAt([B2, B1, B4, B3], 1) == [B2, B4, B3]
  {
    assert IndexOfNumber([B1, B4, B3], 1) == Some(0);
    assert [B2, B1, B4, B3][1..] == [B1, B4, B3];
  }

  lemma WholeRunMid()
    ensures ContiguousRun([B2, B4, B3], 2) == Run([B2, B3, B4], [], 5)
  {
    assert IndexOfNumber([B2, B4, B3], 2) == Some(0);
    assert RemoveAt([B2, B4, B3], 0) == [B4, B3];
    WholeRunTail();
  }

  lemma WholeAllPresent()
    ensures AllNumbersPresent([B2, B1, B4, B3], 4)
  {
    var ms := [B2, B1, B4, B3];
    assert ms[1] == B1 && ms[0] == B2 && ms[3] == B3 && ms[2] == B4;
    assert B1 in ms && B2 in ms && B3 in ms && B4 in ms;
  }

  lemma WholeRemoved()
    ensures WholeAfter214 - {"ABC"} == map[]
  {
    assert "ABC" !in WholeAfter214 - {"ABC"};
  }

  lemma WholeRelease()
    ensures ReleaseGroup(Resequencer(false, false), WholeAfter214, "ABC", Group(Some(4), [B2, B1, B4, B3], 1, false))
      == Step(map[], Send([B1, B2, B3, B4]))
  {
    WholeAllPresent();
    WholeRun();
    WholeRemoved();
    ReleaseDrains(false, WholeAfter214, "ABC", Group(Some(4), [B2, B1, B4, B3], 1, false), Run([B1, B2, B3, B4], [], 5), map[]);
  }

  lemma WholeStep3()
    ensures Handle(Resequencer(false, false), WholeAfter214, B3) == Success(Step(map[], Send([B1, B2, B3, B4])))
  {
    assert 3 !in Numbers([B2, B1, B4]);
    HandleAccepted(Resequencer(false, false), WholeAfter214, B3);
    assert Add(Current(WholeAfter214, "ABC", B3), B3) == Group(Some(4), [B2, B1, B4, B3], 1, false);
    WholeRelease();
  }

  /**
   * Complete release: nothing is sent while any of 1..4 is missing; the
   * last arrival sends all four, in ascending order.
   */
  lemma ResequencingWithCompleteSequenceRelease()
    ensures HandleAll(Resequencer(false, false), map[], [B2, B1, B4]) == Success(Step(WholeAfter214, []))
    ensures Handle(Resequencer(false, false), WholeAfter214, B3) == Success(Step(map[], Send([B1, B2, B3, B4])))
  {
    var cfg := Resequencer(false, false);
    WholeStep2();
    WholeStep1();
    WholeStep4();
    WholeStep3();
    HandleAllOne(cfg, WholeAfter21, B4, Step(WholeAfter214, []));
    HandleAllStep(cfg, WholeAfter2, B1, [B4], Step(WholeAfter21, []), Step(WholeAfter214, []));
    assert [B1] + [B4] == [B1, B4];
    HandleAllStep(cfg, map[], B2, [B1, B4], Step(WholeAfter2, []), Step(WholeAfter214, []));
    assert [B2] + [B1, B4] == [B2, B1, B4];
  }

  // ---------------------------------------------------------------------
  // Discard channel: forced completion, size conflict, malformed number
  // ---------------------------------------------------------------------
  // DiscardStep2 and DiscardStep1 buffer 2 and 1 without release; after
  // forced completion, DiscardStep4 shows 4 opening a fresh group.

  const D2: Message := CreateMessage("123", "ABC", 4, 2, None)
  const D1: Message := CreateMessage("456", "ABC", 4, 1, None)
  const D4: Message := CreateMessage("789", "ABC", 4, 4, None)
  const D5: Message := CreateMessage("456", "ABC", 5, 1, None)
  const Wrong: Message := CreateMessage("123", "ABC", 2, 4, None)

  const DiscardAfter2: Store := map["ABC" := Group(Some(4), [D2], 1, false)]
  const DiscardAfter21: Store := map["ABC" := Group(Some(4), [D2, D1], 1, false)]
  const DiscardAfter4: Store := map["ABC" := Group(Some(4), [D4], 1, false)]

  lemma DiscardStep2()
    ensures Handle(Resequencer(false, true), map[], D2) == Success(Step(DiscardAfter2, []))
  {
    var cfg := Resequencer(false, true);
    assert !AllNumbersPresent([D2], 4) by {
      assert 1 !in Numbers([D2]);
    }
    HandleAccepted(cfg, map[], D2);
    assert Add(Current(map[], "ABC", D2), D2) == DiscardAfter2["ABC"];
    assert ReleaseGroup(cfg, map[], "ABC", DiscardAfter2["ABC"]) == Step(DiscardAfter2, []);
  }

  lemma DiscardStep1()
    ensures Handle(Resequencer(false, true), DiscardAfter2, D1) == Success(Step(DiscardAfter21, []))
  {
    var cfg := Resequencer(false, true);
    assert 1 !in Numbers([D2]);
    assert !AllNumbersPresent([D2, D1], 4) by {
      assert 3 !in Numbers([D2, D1]);
    }
    HandleAccepted(cfg, DiscardAfter2, D1);
    assert Add(Current(DiscardAfter2, "ABC", D1), D1) == DiscardAfter21["ABC"];
    assert DiscardAfter2["ABC" := DiscardAfter21["ABC"]] == DiscardAfter21;
    assert ReleaseGroup(cfg, DiscardAfter2, "ABC", DiscardAfter21["ABC"]) == Step(DiscardAfter21, []);
  }

  lemma DiscardStep4()
    ensures Handle(Resequencer(false, true), map[], D4) == Success(Step(DiscardAfter4, []))
  {
    var cfg := Resequencer(false, true);
    assert !AllNumbersPresent([D4], 4) by {
      assert 1 !in Numbers([D4]);
    }
    HandleAccepted(cfg, map[], D4);
    assert Add(Current(map[], "ABC", D4), D4) == DiscardAfter4["ABC"];
    assert ReleaseGroup(cfg, map[], "ABC", DiscardAfter4["ABC"]) == Step(DiscardAfter4, []);
  }

  /**
   * Forced completion without partial results sends the two buffered
   * messages, and only them, to the discard channel and drops the group; a
   * later 4 starts a new group and sends nothing.
   */
  lemma ResequencingWithDiscard()
    ensures HandleAll(Resequencer(false, true), map[], [D2, D1]) == Success(Step(DiscardAfter21, []))
    ensures ForceComplete(Resequencer(false, true), DiscardAfter21, "ABC") ==
      Step(map[], [Emission(Discard, D2), Emission(Discard, D1)])
    ensures Handle(Resequencer(false, true), map[], D4) == Success(Step(DiscardAfter4, []))
  {
    var cfg := Resequencer(false, true);
    DiscardStep2();
    DiscardStep1();
    DiscardStep4();
    HandleAllOne(cfg, DiscardAfter2, D1, Step(DiscardAfter21, []));
    HandleAllStep(cfg, map[], D2, [D1], Step(DiscardAfter2, []), Step(DiscardAfter21, []));
    assert [D2] + [D1] == [D2, D1];
    assert DiscardAfter21 - {"ABC"} == map[];
  }

  /**
   * A message whose sequence size (5) differs from the group's (4) is the
   * one discarded; the group keeps its message.
   */
  lemma ResequencingWithDifferentSequenceSizes()
    ensures Handle(Resequencer(false, true), map[], D2) == Success(Step(DiscardAfter2, []))
    ensures Handle(Resequencer(false, true), DiscardAfter2, D5) == Success(Step(DiscardAfter2, [Emission(Discard, D5)]))
  {
    DiscardStep2();
    assert Classify(Resequencer(false, true), DiscardAfter2, "ABC", D5) == SizeConflict;
    assert DiscardAll(true, [D5]) == [Emission(Discard, D5)];
  }

  /** Number 4 of a sequence of 2 is dropped before it reaches any group or channel. */
  lemma ResequencingWithWrongSequenceSizeAndNumber()
    ensures Handle(Resequencer(false, true), map[], Wrong) == Success(Step(map[], []))
  {
  }

  // ---------------------------------------------------------------------
  // A sequence of one
  // ---------------------------------------------------------------------

  const Single: Message := CreateMessage("123", "ABC", 1, 1, ReplyTo)

  /** The last message of a sequence of one is released at once and the store lists nothing for its key. */
  lemma RemovalOfBarrierWhenLastMessageOfSequenceArrives(releasePartial: bool)
    ensures Handle(Resequencer(releasePartial, false), map[], Single) == Success(Step(map[], Send([Single])))
    ensures List(Handle(Resequencer(releasePartial, false), map[], Single).value.store, "ABC") == []
  {
    var cfg := Resequencer(releasePartial, false);
    HandleAccepted(cfg, map[], Single);
    var g := Group(Some(1), [Single], 1, false);
    assert Add(Current(map[], "ABC", Single), Single) == g;
    assert AllNumbersPresent([Single], 1) by {
      assert Single in [Single];
    }
    SingleRun();
    assert map["ABC" := g] - {"ABC"} == map[];
    ReleaseDrains(releasePartial, map[], "ABC", g, Run([Single], [], 2), map[]);
  }

  /** The run of a group holding only the single message releases it and passes 1. */
  lemma SingleRun()
    ensures ContiguousRun([Single], 1) == Run([Single], [], 2)
  {
    assert IndexOfNumber([Single], 1) == Some(0);
    assert RemoveAt([Single], 0) == [];
    assert ContiguousRun([], 2) == Run([], [], 2);
  }
}
