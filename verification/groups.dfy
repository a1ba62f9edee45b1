/**
 * Message groups: the messages collected under one correlation key,
 * together with the resequencer's barrier state.
 */
module MessageGroups {
  import opened Wrappers
  import opened Messages

  /**
   * A group. `sequenceSize` is fixed by the first message the group
   * accepted; `buffer` holds the accepted, not yet released messages in
   * arrival order; `nextExpected` is the resequencer's next number to
   * release; `completed` marks a group that has been released while its
   * sequence was still incomplete, so that late arrivals are discarded.
   */
  datatype Group = Group(
    sequenceSize: Option<int>,
    buffer: seq<Message>,
    nextExpected: int,
    completed: bool)

  /** The group a key gets when its first message is accepted. */
  function NewGroup(size: Option<int>): (g: Group)
    ensures g.sequenceSize == size && g.buffer == []
    ensures g.nextExpected == 1 && !g.completed
  {
    Group(size, [], 1, false)
  }

  /** The number a message carries, as a set of at most one element. */
  function NumberOf(m: Message): set<int> {
    if m.sequenceNumber.Some? then {m.sequenceNumber.value} else {}
  }

  /** The sequence numbers present among the given messages. */
  function Numbers(ms: seq<Message>): set<int> {
    set m | m in ms && m.sequenceNumber.Some? :: m.sequenceNumber.value
  }

  /** Two messages that cannot both belong to a group: equal, or the same sequence number. */
  predicate Clash(a: Message, b: Message) {
    a == b || (a.sequenceNumber.Some? && a.sequenceNumber == b.sequenceNumber)
  }

  /** No two messages of the list clash. */
  ghost predicate Distinct(ms: seq<Message>) {
    forall i, j :: 0 <= i < j < |ms| ==> !Clash(ms[i], ms[j])
  }

  /**
   * A message the group has already seen: buffered, or carrying a number
   * that is buffered or already released.
   */
  predicate IsDuplicate(g: Group, m: Message) {
    m in g.buffer ||
    (m.sequenceNumber.Some? &&
     (m.sequenceNumber.value < g.nextExpected || m.sequenceNumber.value in Numbers(g.buffer)))
  }

  /** The message may sit in the buffer of group `g` stored under `key`. */
  ghost predicate Fits(key: Key, g: Group, m: Message) {
    && m.correlationId == Some(key)
    && m.sequenceSize == g.sequenceSize
    && !MalformedSequence(m)
    && (m.sequenceNumber.Some? ==> m.sequenceNumber.value >= g.nextExpected)
  }

  /** The invariant of every group the store holds under `key`. */
  ghost predicate Valid(key: Key, g: Group) {
    && g.nextExpected >= 1
    && (g.completed ==> g.buffer == [])
    && (forall m :: m in g.buffer ==> Fits(key, g, m))
    && Distinct(g.buffer)
  }

  /** Adds a message at the end of the buffer. */
  function Add(g: Group, m: Message): (g': Group)
    ensures g'.buffer == g.buffer + [m]
    ensures g'.sequenceSize == g.sequenceSize && g'.nextExpected == g.nextExpected
    ensures g'.completed == g.completed
  {
    g.(buffer := g.buffer + [m])
  }

  /** A message that is not a duplicate keeps the buffer free of clashes. */
  lemma AddKeepsDistinct(g: Group, m: Message)
    requires Distinct(g.buffer)
    requires !IsDuplicate(g, m)
    ensures Distinct(Add(g, m).buffer)
  {
    var b := Add(g, m).buffer;
    forall i, j | 0 <= i < j < |b|
      ensures !Clash(b[i], b[j])
    {
      if j == |b| - 1 {
        assert b[i] in g.buffer;
        if b[i].sequenceNumber.Some? {
          assert b[i].sequenceNumber.value in Numbers(g.buffer);
        }
      }
    }
  }

  /** The list without its `k`-th message. */
  function RemoveAt(ms: seq<Message>, k: nat): (r: seq<Message>)
    requires k < |ms|
    ensures |r| == |ms| - 1
  {
    ms[..k] + ms[k + 1..]
  }

  /** Removing the `k`-th message takes exactly that message out of the multiset. */
  lemma RemoveAtMultiset(ms: seq<Message>, k: nat)
    requires k < |ms|
    ensures multiset(ms) == multiset(RemoveAt(ms, k)) + multiset{ms[k]}
  {
    assert ms == ms[..k] + [ms[k]] + ms[k + 1..];
  }

  lemma RemoveAtNumbers(ms: seq<Message>, k: nat)
    requires k < |ms|
    ensures Numbers(ms) <= Numbers(RemoveAt(ms, k)) + NumberOf(ms[k])
  {
    assert ms == ms[..k] + [ms[k]] + ms[k + 1..];
    assert forall x :: x in ms <==> x in RemoveAt(ms, k) || x == ms[k];
  }

  /** Removing one message keeps the buffer free of clashes. */
  lemma RemoveAtKeepsDistinct(ms: seq<Message>, k: nat)
    requires k < |ms|
    requires Distinct(ms)
    ensures Distinct(RemoveAt(ms, k))
  {
    var r := RemoveAt(ms, k);
    forall i, j | 0 <= i < j < |r|
      ensures !Clash(r[i], r[j])
    {
      var i' := if i < k then i else i + 1;
      var j' := if j < k then j else j + 1;
      assert r[i] == ms[i'] && r[j] == ms[j'];
    }
  }

  /** In a clash-free list, no other message clashes with the `k`-th one. */
  lemma RemoveAtNoClash(ms: seq<Message>, k: nat)
    requires k < |ms|
    requires Distinct(ms)
    ensures forall m :: m in RemoveAt(ms, k) ==> m in ms && !Clash(m, ms[k])
  {
    var r := RemoveAt(ms, k);
    forall j | 0 <= j < |r| ensures r[j] in ms && !Clash(r[j], ms[k]) {
      if j < k {
        assert r[j] == ms[j];
        assert !Clash(ms[j], ms[k]);
      } else {
        assert r[j] == ms[j + 1];
        assert !Clash(ms[k], ms[j + 1]);
      }
    }
  }

  /** Membership in `Numbers` through a witness message. */
  lemma NumbersMember(ms: seq<Message>, n: int)
    ensures n in Numbers(ms) <==> exists i :: 0 <= i < |ms| && ms[i].sequenceNumber == Some(n)
  {
    if n in Numbers(ms) {
      var m :| m in ms && m.sequenceNumber == Some(n);
      var i :| 0 <= i < |ms| && ms[i] == m;
    }
    if exists i :: 0 <= i < |ms| && ms[i].sequenceNumber == Some(n) {
      var i :| 0 <= i < |ms| && ms[i].sequenceNumber == Some(n);
      assert ms[i] in ms;
    }
  }

  /** The integers lo..hi. */
  ghost function Range(lo: int, hi: int): set<int>
    decreases hi - lo
  {
    if lo > hi then {} else Range(lo, hi - 1) + {hi}
  }

  /** The size and the members of lo..hi. */
  lemma {:induction false} RangeFacts(lo: int, hi: int)
    ensures |Range(lo, hi)| == if lo <= hi then hi - lo + 1 else 0
    ensures forall n :: n in Range(lo, hi) <==> lo <= n <= hi
    decreases hi - lo
  {
    if lo <= hi {
      RangeFacts(lo, hi - 1);
    }
  }

  /** Every buffered message carries a number. */
  ghost predicate AllNumbered(ms: seq<Message>) {
    forall m :: m in ms ==> m.sequenceNumber.Some?
  }

  /** Clash-free numbered messages carry as many numbers as there are messages. */
  lemma {:induction false} NumbersSize(ms: seq<Message>)
    requires AllNumbered(ms) && Distinct(ms)
    ensures |Numbers(ms)| == |ms|
  {
    if ms != [] {
      var rest := ms[1..];
      DistinctTail(ms);
      NumbersSize(rest);
      HeadNumberFresh(ms);
      NumbersCons(ms);
    }
  }

  /** Dropping the head keeps a list clash-free. */
  lemma DistinctTail(ms: seq<Message>)
    requires ms != [] && Distinct(ms)
    ensures Distinct(ms[1..])
  {
    var rest := ms[1..];
    forall i, j | 0 <= i < j < |rest| ensures !Clash(rest[i], rest[j]) {
      assert rest[i] == ms[i + 1] && rest[j] == ms[j + 1];
    }
  }

  /** In a clash-free list, the head's number is not carried by the tail. */
  lemma HeadNumberFresh(ms: seq<Message>)
    requires ms != [] && Distinct(ms) && ms[0].sequenceNumber.Some?
    ensures ms[0].sequenceNumber.value !in Numbers(ms[1..])
  {
    var rest := ms[1..];
    var n := ms[0].sequenceNumber.value;
    forall j | 0 <= j < |rest| ensures rest[j].sequenceNumber != Some(n) {
      assert !Clash(ms[0], ms[j + 1]);
    }
    NumbersMember(rest, n);
  }

  /** The numbers of a list are the head's number plus the tail's. */
  lemma NumbersCons(ms: seq<Message>)
    requires ms != []
    ensures Numbers(ms) == NumberOf(ms[0]) + Numbers(ms[1..])
  {
    assert ms == [ms[0]] + ms[1..];
    assert forall x :: x in ms <==> x == ms[0] || x in ms[1..];
  }
}
