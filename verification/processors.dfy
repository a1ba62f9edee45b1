/**
 * Group processors: what a released group turns into.
 *
 * The pass-through processor hands the group's messages on unchanged, in
 * arrival order. The resequencer hands them on in ascending sequence
 * number: either the contiguous run that starts at the group's next
 * expected number, or, for a partial result on forced completion, all
 * remaining messages sorted.
 */
module GroupProcessors {
  import opened Wrappers
  import opened Messages
  import opened MessageGroups

  /** Non-decreasing by sequence number, each message against its successor. */
  ghost predicate Ascending(ms: seq<Message>) {
    forall i :: 0 < i < |ms| ==> Rank(ms[i - 1]) <= Rank(ms[i])
  }

  /** Inserts a message into an ascending list. */
  function Insert(m: Message, ms: seq<Message>): (r: seq<Message>)
    requires Ascending(ms)
    ensures Ascending(r)
    ensures multiset(r) == multiset(ms) + multiset{m}
    ensures r[0] == m || (ms != [] && r[0] == ms[0])
  {
    if ms == [] || Rank(m) <= Rank(ms[0]) then
      AscendingCons(m, ms);
      [m] + ms
    else
      AscendingTail(ms);
      var tail := Insert(m, ms[1..]);
      AscendingCons(ms[0], tail);
      assert ms == [ms[0]] + ms[1..];
      [ms[0]] + tail
  }

  /** The tail of an ascending list is ascending. */
  lemma AscendingTail(ms: seq<Message>)
    requires ms != [] && Ascending(ms)
    ensures Ascending(ms[1..])
  {
    forall i | 0 < i < |ms| - 1 ensures Rank(ms[1..][i - 1]) <= Rank(ms[1..][i]) {
      assert ms[1..][i - 1] == ms[i] && ms[1..][i] == ms[i + 1];
    }
  }

  /** A message no higher than the head of an ascending list extends it. */
  lemma AscendingCons(x: Message, ms: seq<Message>)
    requires Ascending(ms)
    requires ms != [] ==> Rank(x) <= Rank(ms[0])
    ensures Ascending([x] + ms)
  {
    var r := [x] + ms;
    forall i | 0 < i < |r| ensures Rank(r[i - 1]) <= Rank(r[i]) {
      assert r[i] == ms[i - 1];
      if i > 1 {
        assert r[i - 1] == ms[i - 2];
      }
    }
  }

  /** The resequencer's sort: ascending by sequence number, a permutation of the input. */
  function Sort(ms: seq<Message>): (r: seq<Message>)
    ensures Ascending(r)
    ensures multiset(r) == multiset(ms)
  {
    if ms == [] then []
    else
      assert ms == [ms[0]] + ms[1..];
      Insert(ms[0], Sort(ms[1..]))
  }

  /** The position of a message carrying number `n`, if any. */
  function IndexOfNumber(ms: seq<Message>, n: int): (r: Option<nat>)
    ensures r.Some? ==> r.value < |ms| && ms[r.value].sequenceNumber == Some(n)
    ensures r.None? ==> n !in Numbers(ms)
  {
    if ms == [] then None
    else if ms[0].sequenceNumber == Some(n) then Some(0)
    else
      var r := IndexOfNumber(ms[1..], n);
      assert ms == [ms[0]] + ms[1..];
      if r.Some? then Some(r.value + 1) else None
  }

  /**
   * The outcome of a release from the barrier: the released messages, the
   * messages still buffered, and the new next expected number.
   */
  datatype Run = Run(released: seq<Message>, rest: seq<Message>, next: int)

  /**
   * Releases the messages numbered next, next+1, ... for as long as the
   * next one is buffered.
   */
  function ContiguousRun(ms: seq<Message>, next: int): (r: Run)
    ensures r.next == next + |r.released|
    ensures forall i :: 0 <= i < |r.released| ==> r.released[i].sequenceNumber == Some(next + i)
    ensures multiset(ms) == multiset(r.released) + multiset(r.rest)
    ensures r.next !in Numbers(r.rest)
    decreases |ms|
  {
    match IndexOfNumber(ms, next)
    case None => Run([], ms, next)
    case Some(k) =>
      var others := RemoveAt(ms, k);
      var tail := ContiguousRun(others, next + 1);
      RemoveAtMultiset(ms, k);
      PrependNumbered(ms[k], tail.released, next);
      Run([ms[k]] + tail.released, tail.rest, tail.next)
  }

  /** Numbered next followed by a list numbered next+1, next+2, ... is numbered from next. */
  lemma PrependNumbered(x: Message, tail: seq<Message>, next: int)
    requires x.sequenceNumber == Some(next)
    requires forall i :: 0 <= i < |tail| ==> tail[i].sequenceNumber == Some(next + 1 + i)
    ensures forall i :: 0 <= i < |[x] + tail| ==> ([x] + tail)[i].sequenceNumber == Some(next + i)
  {
    forall i | 0 <= i < |[x] + tail| ensures ([x] + tail)[i].sequenceNumber == Some(next + i) {
      if i > 0 {
        assert ([x] + tail)[i] == tail[i - 1];
      }
    }
  }

  /** A run only releases and keeps buffered messages. */
  lemma RunFromBuffer(ms: seq<Message>, next: int)
    ensures forall x :: x in ContiguousRun(ms, next).rest ==> x in ms
    ensures forall x :: x in ContiguousRun(ms, next).released ==> x in ms
  {
    var r := ContiguousRun(ms, next);
    forall x | x in r.rest ensures x in ms {
      assert x in multiset(r.rest);
      assert x in multiset(ms);
    }
    forall x | x in r.released ensures x in ms {
      assert x in multiset(r.released);
      assert x in multiset(ms);
    }
  }

  /** A run stops exactly at the first number missing from the buffer. */
  lemma {:induction false} RunStopsAtGap(ms: seq<Message>, next: int)
    ensures ContiguousRun(ms, next).next !in Numbers(ms)
    decreases |ms|
  {
    match IndexOfNumber(ms, next)
    case None =>
    case Some(k) =>
      RunStopsAtGap(RemoveAt(ms, k), next + 1);
      RemoveAtNumbers(ms, k);
  }

  /** What remains after a run keeps the buffer free of clashes. */
  lemma {:induction false} RunKeepsDistinct(ms: seq<Message>, next: int)
    requires Distinct(ms)
    ensures Distinct(ContiguousRun(ms, next).rest)
    decreases |ms|
  {
    match IndexOfNumber(ms, next)
    case None =>
    case Some(k) =>
      RemoveAtKeepsDistinct(ms, k);
      RunKeepsDistinct(RemoveAt(ms, k), next + 1);
  }

  /**
   * When every buffered number is at least `next` and no two messages share a
   * number, every number that remains is at least the new next expected one:
   * nothing below the barrier stays behind.
   */
  lemma {:induction false} RunRestAboveNext(ms: seq<Message>, next: int)
    requires Distinct(ms)
    requires forall m :: m in ms && m.sequenceNumber.Some? ==> m.sequenceNumber.value >= next
    ensures forall m :: m in ContiguousRun(ms, next).rest && m.sequenceNumber.Some? ==>
      m.sequenceNumber.value >= ContiguousRun(ms, next).next
    decreases |ms|
  {
    match IndexOfNumber(ms, next)
    case None =>
    case Some(k) =>
      var others := RemoveAt(ms, k);
      RemoveAtNoClash(ms, k);
      RemoveAtKeepsDistinct(ms, k);
      RunRestAboveNext(others, next + 1);
  }
}
