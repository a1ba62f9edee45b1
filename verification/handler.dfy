/**
 * The correlating message handler: correlates each inbound message to a
 * group, guards the group against malformed, conflicting, late and
 * duplicate messages, asks the release strategy whether the group is
 * ready, and sends what the group processor produces.
 *
 * The handler is modelled as a pure step function over the message store:
 * every call returns the new store and the list of sends it performed, in
 * order. Per-key locking is not modelled; calls are taken one at a time.
 */
module CorrelatingHandler {
  import opened Wrappers
  import opened Messages
  import opened MessageGroups
  import opened MessageStore
  import opened ReleaseStrategies
  import opened GroupProcessors

  /**
   * How released groups are processed: aggregation with the pass-through
   * processor under a release strategy, or resequencing, releasing either
   * partial runs or only complete sequences.
   */
  datatype Mode =
    | Aggregate(strategy: ReleaseStrategy)
    | Resequence(releasePartialSequences: bool)

  /**
   * The handler's configuration: processing mode, whether a discard channel
   * is configured, and whether forced completion sends the partial group on
   * instead of discarding it.
   */
  datatype Config = Config(mode: Mode, hasDiscardChannel: bool, sendPartialResultOnTimeout: bool)

  datatype HandlerError = MissingCorrelationKey

  /** The store after a call, and the sends the call performed in order. */
  datatype Step = Step(store: Store, out: seq<Emission>)

  /** What the handler decides about an inbound message before touching its group. */
  datatype Verdict = Malformed | Late | SizeConflict | Duplicate | Accepted

  /**
   * Messages dropped without trace: malformed sequence headers, and for the
   * resequencer a message that has no sequence number to be placed by.
   */
  predicate Rejected(cfg: Config, m: Message) {
    MalformedSequence(m) || (cfg.mode.Resequence? && m.sequenceNumber.None?)
  }

  /** The group the message joins: the stored one, or a fresh one sized by the message. */
  function Current(store: Store, key: Key, m: Message): (g: Group)
    ensures key !in store ==> g == NewGroup(m.sequenceSize)
  {
    if key in store then store[key] else NewGroup(m.sequenceSize)
  }

  /**
   * The handler's verdict on a message for `key`: a message whose headers
   * contradict each other is always malformed, whatever the store holds.
   */
  function Classify(cfg: Config, store: Store, key: Key, m: Message): (v: Verdict)
    ensures MalformedSequence(m) ==> v == Malformed
  {
    if Rejected(cfg, m) then Malformed
    else if key in store && store[key].completed then Late
    else if key in store && store[key].sequenceSize != m.sequenceSize then SizeConflict
    else if IsDuplicate(Current(store, key, m), m) then Duplicate
    else Accepted
  }

  /** A resequenced group past the end of its sequence. */
  predicate Drained(g: Group) {
    g.sequenceSize.Some? && g.nextExpected > g.sequenceSize.value
  }

  /**
   * Asks the release strategy about the group `g` (which already holds the
   * new message) and releases what is ready.
   */
  function ReleaseGroup(cfg: Config, store: Store, key: Key, g: Group): (r: Step)
    ensures key in r.store ==> r.store[key].sequenceSize == g.sequenceSize
  {
    match cfg.mode
    case Aggregate(rs) =>
      if !CanRelease(rs, g) then
        Step(store[key := g], [])
      else if g.sequenceSize.None? || SequenceSizeReached(g) then
        Step(store - {key}, Send(g.buffer))
      else
        Step(store[key := g.(buffer := [], completed := true)], Send(g.buffer))
    case Resequence(partial) =>
      if partial || (g.sequenceSize.Some? && AllNumbersPresent(g.buffer, g.sequenceSize.value)) then
        var run := ContiguousRun(g.buffer, g.nextExpected);
        var g' := g.(buffer := run.rest, nextExpected := run.next);
        if Drained(g') then Step(store - {key}, Send(run.released))
        else Step(store[key := g'], Send(run.released))
      else
        Step(store[key := g], [])
  }

  /** The handler's entry point for one inbound message. */
  function Handle(cfg: Config, store: Store, m: Message): (r: Result<Step, HandlerError>)
    ensures r.Failure? <==> m.correlationId.None?
  {
    match m.correlationId
    case None => Failure(MissingCorrelationKey)
    case Some(key) =>
      match Classify(cfg, store, key, m)
      case Malformed => Success(Step(store, []))
      case Duplicate => Success(Step(store, []))
      case Late => Success(Step(store, DiscardAll(cfg.hasDiscardChannel, [m])))
      case SizeConflict => Success(Step(store, DiscardAll(cfg.hasDiscardChannel, [m])))
      case Accepted => Success(ReleaseGroup(cfg, store, key, Add(Current(store, key, m), m)))
  }

  /** What forced completion sends on when partial results are wanted. */
  function PartialResult(cfg: Config, ms: seq<Message>): (r: seq<Message>)
    ensures multiset(r) == multiset(ms)
    ensures cfg.mode.Aggregate? ==> r == ms
    ensures cfg.mode.Resequence? ==> Ascending(r)
  {
    if cfg.mode.Aggregate? then ms else Sort(ms)
  }

  /**
   * Forced completion of the group under `key`, whatever its release state:
   * its remaining messages are sent on (partial result) or discarded, and
   * the group leaves the store.
   */
  function ForceComplete(cfg: Config, store: Store, key: Key): (r: Step)
    ensures key !in r.store
    ensures SameExcept(store, r.store, key)
    ensures key !in store ==> r == Step(store, [])
    ensures cfg.sendPartialResultOnTimeout || cfg.hasDiscardChannel ==>
      multiset(Carried(r.out)) == multiset(List(store, key))
    ensures !cfg.sendPartialResultOnTimeout && !cfg.hasDiscardChannel ==> r.out == []
    ensures cfg.sendPartialResultOnTimeout ==> forall e :: e in r.out ==> e.dest == RouteOf(e.msg)
    ensures !cfg.sendPartialResultOnTimeout ==> forall e :: e in r.out ==> e.dest == Discard
    ensures cfg.sendPartialResultOnTimeout && cfg.mode.Aggregate? ==> Carried(r.out) == List(store, key)
    ensures cfg.sendPartialResultOnTimeout && cfg.mode.Resequence? ==> Ascending(Carried(r.out))
  {
    if key !in store then Step(store, [])
    else
      var g := store[key];
      var out :=
        if cfg.sendPartialResultOnTimeout then Send(PartialResult(cfg, g.buffer))
        else DiscardAll(cfg.hasDiscardChannel, g.buffer);
      CarriedSend(PartialResult(cfg, g.buffer));
      CarriedDiscard(cfg.hasDiscardChannel, g.buffer);
      Step(store - {key}, out)
  }

  // ---------------------------------------------------------------------
  // The store invariant
  // ---------------------------------------------------------------------

  /**
   * Nothing a stored group holds is ready for release: an aggregated group
   * does not satisfy its release strategy (or has been released already and
   * only waits to discard late arrivals); a resequenced group holds only
   * numbered messages, and its next expected number is missing (partial
   * release) or some number of its sequence is missing (complete release).
   */
  ghost predicate Settled(cfg: Config, g: Group) {
    match cfg.mode
    case Aggregate(rs) =>
      && g.nextExpected == 1
      && (g.completed ==> g.sequenceSize.Some?)
      && (!g.completed ==> !CanRelease(rs, g))
    case Resequence(partial) =>
      && !g.completed
      && AllNumbered(g.buffer)
      && (if partial then g.nextExpected !in Numbers(g.buffer) && !Drained(g)
          else g.nextExpected == 1 && !(g.sequenceSize.Some? && AllNumbersPresent(g.buffer, g.sequenceSize.value)))
  }

  ghost predicate GroupInv(cfg: Config, key: Key, g: Group) {
    Valid(key, g) && Settled(cfg, g)
  }

  /** The invariant of the whole store. */
  ghost predicate Inv(cfg: Config, store: Store) {
    forall k :: k in store ==> GroupInv(cfg, k, store[k])
  }

  lemma EmptyStoreInv(cfg: Config)
    ensures Inv(cfg, map[])
  {
  }

  /** The group an accepted message produces is valid and not yet released. */
  lemma AcceptedGroupValid(cfg: Config, store: Store, key: Key, m: Message)
    requires Inv(cfg, store)
    requires m.correlationId == Some(key)
    requires Classify(cfg, store, key, m) == Accepted
    ensures Valid(key, Add(Current(store, key, m), m))
    ensures !Add(Current(store, key, m), m).completed
    ensures cfg.mode.Resequence? ==> AllNumbered(Add(Current(store, key, m), m).buffer)
    ensures cfg.mode.Aggregate? || !cfg.mode.releasePartialSequences ==>
      Add(Current(store, key, m), m).nextExpected == 1
  {
    var cur := Current(store, key, m);
    var g := Add(cur, m);
    assert Distinct(cur.buffer);
    AddKeepsDistinct(cur, m);
    forall x | x in g.buffer ensures Fits(key, g, x) {
      if x != m {
        assert x in cur.buffer;
      }
    }
  }

  /** After a run over a drained barrier nothing stays buffered. */
  lemma DrainedRestEmpty(key: Key, g: Group)
    requires Valid(key, g) && AllNumbered(g.buffer)
    requires Drained(g.(nextExpected := ContiguousRun(g.buffer, g.nextExpected).next))
    ensures ContiguousRun(g.buffer, g.nextExpected).rest == []
  {
    var run := ContiguousRun(g.buffer, g.nextExpected);
    RunRestAboveNext(g.buffer, g.nextExpected);
    RunFromBuffer(g.buffer, g.nextExpected);
    RunKeepsDistinct(g.buffer, g.nextExpected);
    assert AllNumbered(run.rest);
    NumbersSize(run.rest);
    assert Numbers(run.rest) == {};
  }

  /**
   * A complete sequence is released as a whole: the run from 1 reaches past
   * the sequence size.
   */
  lemma CompleteRunDrains(key: Key, g: Group)
    requires Valid(key, g) && AllNumbered(g.buffer)
    requires g.nextExpected == 1 && g.sequenceSize.Some?
    requires AllNumbersPresent(g.buffer, g.sequenceSize.value)
    ensures Drained(g.(nextExpected := ContiguousRun(g.buffer, g.nextExpected).next))
  {
    var s := g.sequenceSize.value;
    var run := ContiguousRun(g.buffer, 1);
    RunStopsAtGap(g.buffer, 1);
  }

  /** Releasing keeps the invariant at the released key and leaves other keys alone. */
  lemma ReleaseKeepsInv(cfg: Config, store: Store, key: Key, g: Group)
    requires Valid(key, g) && !g.completed
    requires cfg.mode.Resequence? ==> AllNumbered(g.buffer)
    requires cfg.mode.Aggregate? || !cfg.mode.releasePartialSequences ==> g.nextExpected == 1
    ensures SameExcept(store, ReleaseGroup(cfg, store, key, g).store, key)
    ensures key in ReleaseGroup(cfg, store, key, g).store ==>
      GroupInv(cfg, key, ReleaseGroup(cfg, store, key, g).store[key])
  {
    match cfg.mode
    case Aggregate(rs) =>
    case Resequence(partial) =>
      if partial || (g.sequenceSize.Some? && AllNumbersPresent(g.buffer, g.sequenceSize.value)) {
        var run := ContiguousRun(g.buffer, g.nextExpected);
        var g' := g.(buffer := run.rest, nextExpected := run.next);
        if !partial {
          CompleteRunDrains(key, g);
        }
        if !Drained(g') {
          RunRestAboveNext(g.buffer, g.nextExpected);
          RunKeepsDistinct(g.buffer, g.nextExpected);
          RunFromBuffer(g.buffer, g.nextExpected);
          assert Valid(key, g');
        }
      }
  }

  /** Handling a message keeps the store invariant. */
  lemma HandleKeepsInv(cfg: Config, store: Store, m: Message)
    requires Inv(cfg, store)
    ensures Handle(cfg, store, m).Success? ==> Inv(cfg, Handle(cfg, store, m).value.store)
  {
    if m.correlationId.Some? {
      var key := m.correlationId.value;
      if Classify(cfg, store, key, m) == Accepted {
        var g := Add(Current(store, key, m), m);
        AcceptedGroupValid(cfg, store, key, m);
        ReleaseKeepsInv(cfg, store, key, g);
      }
    }
  }
}
