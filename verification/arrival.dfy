/**
 * The resequencer over a whole delivery: whatever order the messages of one
 * complete sequence arrive in, the resequencer sends each of them exactly
 * once, numbered 1..n in ascending order, and keeps nothing for the key.
 */
module ArrivalOrder {
  import opened Wrappers
  import opened Messages
  import opened MessageGroups
  import opened MessageStore
  import opened ReleaseStrategies
  import opened CorrelatingHandler
  import opened HandlerProperties
  import opened Deliveries

  /** Messages of one sequence of size `n` under `key`, each numbered within 1..n. */
  ghost predicate OfSequence(ms: seq<Message>, key: Key, n: int) {
    forall m :: m in ms ==>
      && m.correlationId == Some(key)
      && m.sequenceSize == Some(n)
      && m.sequenceNumber.Some?
      && 1 <= m.sequenceNumber.value <= n
  }

  /** No two messages of the list carry the same sequence number. */
  ghost predicate UniqueNumbers(ms: seq<Message>) {
    forall i, j :: 0 <= i < j < |ms| ==> ms[i].sequenceNumber != ms[j].sequenceNumber
  }

  /** The number the resequencer waits for under `key`: a fresh group waits for 1. */
  ghost function NextOf(store: Store, key: Key): int {
    if key in store then store[key].nextExpected else 1
  }

  /**
   * The messages `ms` still to arrive complete the sequence the store
   * waits for under `key`: none of their numbers is held or already sent, and
   * together with the held messages they cover every number from the next
   * expected one to n.
   */
  ghost predicate Pending(store: Store, key: Key, n: int, ms: seq<Message>) {
    && (key in store ==> store[key].sequenceSize == Some(n))
    && OfSequence(ms, key, n)
    && UniqueNumbers(ms)
    && (forall j :: j in Numbers(ms) ==> j !in Numbers(List(store, key)) && NextOf(store, key) <= j)
    && (forall j :: NextOf(store, key) <= j <= n ==> j in Numbers(List(store, key)) || j in Numbers(ms))
  }

  lemma UniqueDistinct(ms: seq<Message>)
    requires AllNumbered(ms) && UniqueNumbers(ms)
    ensures Distinct(ms)
  {
    forall i, j | 0 <= i < j < |ms| ensures !Clash(ms[i], ms[j]) {
      assert ms[i] in ms;
    }
  }

  lemma CarriedConcat(a: seq<Emission>, b: seq<Emission>)
    ensures Carried(a + b) == Carried(a) + Carried(b)
  {
  }

  /** Two runs of ascending sends, the second continuing the first, make one. */
  lemma JoinRuns(a: seq<Emission>, b: seq<Emission>, next: int, next2: int)
    requires SentFrom(a, next) && next2 == next + |a| && SentFrom(b, next2)
    ensures SentFrom(a + b, next)
    ensures multiset(Carried(a + b)) == multiset(Carried(a)) + multiset(Carried(b))
  {
    forall i | 0 <= i < |a + b|
      ensures (a + b)[i].msg.sequenceNumber == Some(next + i) && (a + b)[i].dest == RouteOf((a + b)[i].msg)
    {
      if i >= |a| {
        assert (a + b)[i] == b[i - |a|];
      }
    }
    CarriedConcat(a, b);
  }

  /** A step followed by the delivery of the rest: the sends join up and every message is accounted for. */
  lemma JoinSteps(store: Store, key: Key, n: int, m: Message, rest: seq<Message>, first: Step, last: Step)
    requires key in first.store
    requires SentFrom(first.out, NextOf(store, key))
    requires NextOf(first.store, key) == NextOf(store, key) + |first.out|
    requires multiset(List(store, key)) + multiset{m} == multiset(Carried(first.out)) + multiset(List(first.store, key))
    requires SameExcept(store, first.store, key)
    requires |last.out| == n + 1 - NextOf(first.store, key)
    requires SentFrom(last.out, NextOf(first.store, key))
    requires multiset(Carried(last.out)) == multiset(List(first.store, key)) + multiset(rest)
    requires key !in last.store && SameExcept(first.store, last.store, key)
    ensures var out := first.out + last.out;
      && |out| == n + 1 - NextOf(store, key)
      && SentFrom(out, NextOf(store, key))
      && multiset(Carried(out)) == multiset(List(store, key)) + multiset([m] + rest)
      && SameExcept(store, last.store, key)
  {
    JoinRuns(first.out, last.out, NextOf(store, key), NextOf(first.store, key));
    SameExceptTrans(store, first.store, last.store, key);
    var sent := multiset(Carried(first.out));
    var kept := multiset(List(first.store, key));
    assert multiset(Carried(first.out + last.out)) == sent + (kept + multiset(rest));
    assert sent + (kept + multiset(rest)) == (sent + kept) + multiset(rest);
    assert multiset([m] + rest) == multiset{m} + multiset(rest);
  }

  lemma SameExceptTrans(s1: Store, s2: Store, s3: Store, key: Key)
    requires SameExcept(s1, s2, key) && SameExcept(s2, s3, key)
    ensures SameExcept(s1, s3, key)
  {
  }

  /** A group the resequencer keeps still misses some number of its sequence. */
  lemma StoredGroupIncomplete(cfg: Config, store: Store, key: Key, n: int)
    requires cfg.mode.Resequence? && Inv(cfg, store)
    requires key in store && store[key].sequenceSize == Some(n)
    ensures exists j :: NextOf(store, key) <= j <= n && j !in Numbers(List(store, key))
  {
    var g := store[key];
    assert GroupInv(cfg, key, g);
    if cfg.mode.releasePartialSequences {
      assert g.nextExpected !in Numbers(List(store, key));
    } else {
      var j :| 1 <= j <= n && j !in Numbers(g.buffer);
      assert j !in Numbers(List(store, key));
    }
  }

  /** Facts about the held messages and the next message of a pending delivery. */
  lemma PendingFirst(cfg: Config, store: Store, key: Key, n: int, m: Message, rest: seq<Message>)
    requires cfg.mode.Resequence? && Inv(cfg, store)
    requires Pending(store, key, n, [m] + rest)
    ensures Classify(cfg, store, key, m) == Accepted
    ensures forall x :: x in List(store, key) || x == m ==>
      && x.sequenceNumber.Some?
      && NextOf(store, key) <= x.sequenceNumber.value <= n
      && x.sequenceNumber.value !in Numbers(rest)
    ensures forall k :: 0 <= k < |rest| ==> rest[k].sequenceNumber != m.sequenceNumber
    ensures OfSequence(rest, key, n) && UniqueNumbers(rest)
    ensures Numbers([m] + rest) == Numbers(rest) + {m.sequenceNumber.value}
  {
    var ms := [m] + rest;
    var held := List(store, key);
    assert ms[0] == m && m in ms;
    assert m.sequenceNumber.value in Numbers(ms);
    forall k | 0 <= k < |rest| ensures rest[k].sequenceNumber != m.sequenceNumber {
      assert ms[k + 1] == rest[k];
    }
    forall i, j | 0 <= i < j < |rest| ensures rest[i].sequenceNumber != rest[j].sequenceNumber {
      assert ms[i + 1] == rest[i] && ms[j + 1] == rest[j];
    }
    forall x | x in rest ensures x in ms {
    }
    assert Numbers(rest) <= Numbers(ms);
    if key in store {
      assert GroupInv(cfg, key, store[key]);
    }
  }

  /** Where the messages of one step come from: the held ones and the new one. */
  lemma StepSources(cfg: Config, store: Store, key: Key, m: Message)
    requires cfg.mode.Resequence? && Inv(cfg, store)
    requires m.correlationId == Some(key)
    requires Classify(cfg, store, key, m) == Accepted
    ensures var r := Handle(cfg, store, m).value;
      forall x :: x in Carried(r.out) || x in List(r.store, key) ==> x in List(store, key) || x == m
  {
    var r := Handle(cfg, store, m).value;
    var held := List(store, key);
    HandleConserves(cfg, store, m);
    assert multiset(held) + multiset{m} == multiset(Carried(r.out)) + multiset(List(r.store, key));
    forall x | x in Carried(r.out) || x in List(r.store, key) ensures x in held || x == m {
      assert x in multiset(Carried(r.out)) + multiset(List(r.store, key));
      assert x in multiset(held) + multiset{m};
    }
  }

  /** The numbers a release of `out` sends, starting at `next`, are gone from the rest of the delivery. */
  lemma SentNotPending(held: seq<Message>, m: Message, rest: seq<Message>, out: seq<Emission>, next: int, n: int)
    requires forall i :: 0 <= i < |out| ==> out[i].msg.sequenceNumber == Some(next + i)
    requires forall x :: x in Carried(out) ==> x in held || x == m
    requires forall x :: x in held || x == m ==>
      && x.sequenceNumber.Some?
      && next <= x.sequenceNumber.value <= n
      && x.sequenceNumber.value !in Numbers(rest)
    requires forall j :: j in Numbers(rest) ==> next <= j <= n
    ensures forall j :: j in Numbers(rest) ==> next + |out| <= j <= n
    ensures next + |out| <= n + 1 || out == []
  {
    forall j | next <= j < next + |out| ensures j !in Numbers(rest) {
      var x := out[j - next].msg;
      assert x in Carried(out);
    }
    if |out| > 0 {
      assert out[|out| - 1].msg in Carried(out);
    }
  }

  /** When the group stays, the rest of the delivery is pending on the group as the step left it. */
  lemma KeptPending(store1: Store, key: Key, n: int, held: seq<Message>, m: Message, rest: seq<Message>,
                    out: seq<Emission>, next: int)
    requires key in store1 && store1[key].sequenceSize == Some(n)
    requires NextOf(store1, key) == next + |out|
    requires forall i :: 0 <= i < |out| ==> out[i].msg.sequenceNumber == Some(next + i)
    requires multiset(held) + multiset{m} == multiset(Carried(out)) + multiset(List(store1, key))
    requires forall x :: x in held || x == m ==>
      && x.sequenceNumber.Some?
      && next <= x.sequenceNumber.value <= n
      && x.sequenceNumber.value !in Numbers(rest)
    requires forall j :: next <= j <= n ==> j in Numbers(held) || j in Numbers(rest) + {m.sequenceNumber.value}
    requires forall j :: j in Numbers(rest) ==> next + |out| <= j
    requires OfSequence(rest, key, n) && UniqueNumbers(rest)
    ensures Pending(store1, key, n, rest)
  {
    var held1 := List(store1, key);
    var next1 := next + |out|;
    forall x | x in held1 ensures x in held || x == m {
      assert x in multiset(Carried(out)) + multiset(held1);
    }
    forall x | (x in held || x == m) && x.sequenceNumber.value >= next1 ensures x in held1 {
      assert x !in Carried(out);
      assert x in multiset(held) + multiset{m};
      assert x in multiset(held1);
    }
    forall j | next1 <= j <= n ensures j in Numbers(held1) || j in Numbers(rest) {
      if j !in Numbers(rest) {
        if j in Numbers(held) {
          var x :| x in held && x.sequenceNumber == Some(j);
          assert x in held1;
        } else {
          assert m in held1;
        }
      }
    }
  }

  /** The resequencer's guarantees for one accepted message, stated for the key of a delivery. */
  lemma ResequencedStep(cfg: Config, store: Store, key: Key, m: Message)
    requires cfg.mode.Resequence? && Inv(cfg, store)
    requires m.correlationId == Some(key)
    requires Classify(cfg, store, key, m) == Accepted
    ensures var r := Handle(cfg, store, m).value;
      var next := NextOf(store, key);
      && SentFrom(r.out, next)
      && (key in r.store ==> r.store[key].nextExpected == next + |r.out|)
      && (key in r.store ==> r.store[key].sequenceSize == m.sequenceSize)
      && (key !in r.store ==> m.sequenceSize.Some? && next + |r.out| > m.sequenceSize.value)
  {
    assert Current(store, key, m).nextExpected == NextOf(store, key);
    ResequencedInOrder(cfg, store, key, m);
  }

  /**
   * What follows from a step that sent numbers from the next expected one
   * on, drawn from the held messages and the new one: either the group
   * waits for the rest of the delivery, or the sequence is through.
   */
  lemma StepOutcome(cfg: Config, store: Store, key: Key, n: int, m: Message, rest: seq<Message>, r: Step)
    requires cfg.mode.Resequence? && Inv(cfg, store) && n >= 0
    requires Pending(store, key, n, [m] + rest)
    requires SentFrom(r.out, NextOf(store, key))
    requires key in r.store ==> r.store[key].nextExpected == NextOf(store, key) + |r.out|
    requires key in r.store ==> r.store[key].sequenceSize == m.sequenceSize
    requires key !in r.store ==> NextOf(store, key) + |r.out| > n
    requires multiset(List(store, key)) + multiset{m} == multiset(Carried(r.out)) + multiset(List(r.store, key))
    requires forall x :: x in Carried(r.out) ==> x in List(store, key) || x == m
    ensures key in r.store ==> Pending(r.store, key, n, rest)
    ensures key !in r.store ==> |r.out| == n + 1 - NextOf(store, key) && rest == []
  {
    var held := List(store, key);
    var next := NextOf(store, key);
    assert m in [m] + rest;
    PendingFirst(cfg, store, key, n, m, rest);
    assert next <= n + 1 by {
      if key in store {
        assert GroupInv(cfg, key, store[key]);
      }
    }
    assert forall j :: j in Numbers(rest) ==> next <= j <= n by {
      forall j | j in Numbers(rest) ensures next <= j <= n {
        assert j in Numbers([m] + rest);
      }
    }
    SentNotPending(held, m, rest, r.out, next, n);
    if key in r.store {
      KeptPending(r.store, key, n, held, m, rest, r.out, next);
    } else {
      assert Numbers(rest) == {};
      assert AllNumbered(rest);
      UniqueDistinct(rest);
      NumbersSize(rest);
    }
  }

  /**
   * One arrival of a pending delivery: the message is accepted, the
   * resequencer sends the next numbers in order, and either the group
   * waits for the rest of the delivery or the whole sequence is through.
   */
  lemma AfterFirst(cfg: Config, store: Store, key: Key, n: int, m: Message, rest: seq<Message>) returns (r: Step)
    requires cfg.mode.Resequence? && Inv(cfg, store) && n >= 0
    requires Pending(store, key, n, [m] + rest)
    ensures Handle(cfg, store, m) == Success(r)
    ensures var next := NextOf(store, key);
      && Inv(cfg, r.store) && SameExcept(store, r.store, key)
      && SentFrom(r.out, next)
      && multiset(List(store, key)) + multiset{m} == multiset(Carried(r.out)) + multiset(List(r.store, key))
      && (key in r.store ==> NextOf(r.store, key) == next + |r.out| && Pending(r.store, key, n, rest))
      && (key !in r.store ==> |r.out| == n + 1 - next && rest == [])
  {
    assert m in [m] + rest;
    assert Classify(cfg, store, key, m) == Accepted by {
      PendingFirst(cfg, store, key, n, m, rest);
    }
    r := Handle(cfg, store, m).value;
    var next := NextOf(store, key);
    assert Inv(cfg, r.store) by {
      HandleKeepsInv(cfg, store, m);
    }
    assert SameExcept(store, r.store, key) by {
      HandleFrame(cfg, store, m);
    }
    ResequencedStep(cfg, store, key, m);
    assert multiset(List(store, key)) + multiset{m} == multiset(Carried(r.out)) + multiset(List(r.store, key)) by {
      HandleConserves(cfg, store, m);
    }
    assert forall x :: x in Carried(r.out) ==> x in List(store, key) || x == m by {
      StepSources(cfg, store, key, m);
    }
    StepOutcome(cfg, store, key, n, m, rest, r);
  }

  /**
   * Handling the pending rest of a sequence sends every remaining number
   * from the next expected one to n, in order, each message exactly once,
   * and leaves nothing under the key.
   */
  lemma {:induction false} DeliverRest(cfg: Config, store: Store, key: Key, n: int, ms: seq<Message>)
    returns (r: Step)
    requires cfg.mode.Resequence? && Inv(cfg, store) && n >= 0
    requires Pending(store, key, n, ms)
    ensures HandleAll(cfg, store, ms) == Success(r)
    ensures |r.out| == n + 1 - NextOf(store, key)
    ensures SentFrom(r.out, NextOf(store, key))
    ensures multiset(Carried(r.out)) == multiset(List(store, key)) + multiset(ms)
    ensures key !in r.store && SameExcept(store, r.store, key)
    decreases |ms|
  {
    if ms == [] {
      assert key !in store by {
        if key in store {
          StoredGroupIncomplete(cfg, store, key, n);
        }
      }
      assert 1 !in Numbers(ms);
      r := Step(store, []);
    } else {
      var m := ms[0];
      var rest := ms[1..];
      assert ms == [m] + rest;
      var first := AfterFirst(cfg, store, key, n, m, rest);
      if key in first.store {
        var last := DeliverRest(cfg, first.store, key, n, rest);
        HandleAllStep(cfg, store, m, rest, first, last);
        r := Step(last.store, first.out + last.out);
        JoinSteps(store, key, n, m, rest, first, last);
      } else {
        assert ms == [m];
        HandleAllOne(cfg, store, m, first);
        assert multiset(ms) == multiset{m};
        r := first;
      }
    }
  }

  /**
   * Whatever order the n messages of a complete sequence arrive in, in
   * either release mode, the resequencer sends exactly those messages,
   * numbered 1..n in ascending order, each on its reply channel (or the
   * output channel), and no group remains.
   */
  lemma ResequencingIgnoresArrivalOrder(cfg: Config, key: Key, n: int, ms: seq<Message>)
    requires cfg.mode.Resequence?
    requires |ms| == n && OfSequence(ms, key, n) && UniqueNumbers(ms)
    ensures HandleAll(cfg, map[], ms).Success?
    ensures var r := HandleAll(cfg, map[], ms).value;
      && |r.out| == n
      && (forall i :: 0 <= i < n ==>
            r.out[i].msg.sequenceNumber == Some(i + 1) && r.out[i].dest == RouteOf(r.out[i].msg))
      && multiset(Carried(r.out)) == multiset(ms)
      && r.store == map[]
  {
    var r := FromEmpty(cfg, key, n, ms);
  }

  /** The arrival theorem stated about the final step itself. */
  lemma FromEmpty(cfg: Config, key: Key, n: int, ms: seq<Message>) returns (r: Step)
    requires cfg.mode.Resequence?
    requires |ms| == n && OfSequence(ms, key, n) && UniqueNumbers(ms)
    ensures HandleAll(cfg, map[], ms) == Success(r)
    ensures |r.out| == n && SentFrom(r.out, 1)
    ensures multiset(Carried(r.out)) == multiset(ms)
    ensures r.store == map[]
  {
    EmptyStoreInv(cfg);
    InitiallyPending(key, n, ms);
    r := DeliverRest(cfg, map[], key, n, ms);
    assert NextOf(map[], key) == 1 && List(map[], key) == [];
    assert r.store == map[] by {
      assert forall k :: k !in r.store;
    }
  }

  /** Before the first arrival, a complete sequence is all still to come. */
  lemma InitiallyPending(key: Key, n: int, ms: seq<Message>)
    requires |ms| == n && OfSequence(ms, key, n) && UniqueNumbers(ms)
    ensures n >= 0 && Pending(map[], key, n, ms)
  {
    assert AllNumbered(ms);
    UniqueDistinct(ms);
    SizeReachedIffAllPresent(ms, n);
    assert List(map[], key) == [];
  }
}
