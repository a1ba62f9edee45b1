/**
 * Release strategies: when a group is ready to be handed to its group
 * processor.
 */
module ReleaseStrategies {
  import opened Messages
  import opened MessageGroups

  /**
   * The strategies of the aggregating handler: the default one releases a
   * group once it holds as many messages as its sequence size; the
   * message-count one also releases as soon as the group holds `threshold`
   * messages (the no-argument form uses a threshold of 1).
   */
  datatype ReleaseStrategy = SequenceSizeRelease | MessageCountRelease(threshold: int)

  /** The group holds as many messages as the size its sequence announces. */
  predicate SequenceSizeReached(g: Group) {
    g.sequenceSize.Some? && |g.buffer| == g.sequenceSize.value
  }

  /** The decision of a release strategy about a group. */
  function CanRelease(rs: ReleaseStrategy, g: Group): (ready: bool)
    ensures SequenceSizeReached(g) ==> ready
    ensures rs.SequenceSizeRelease? && ready ==> g.sequenceSize.Some?
    ensures rs.MessageCountRelease? && |g.buffer| >= rs.threshold ==> ready
    ensures rs.MessageCountRelease? && g.sequenceSize.None? ==> (ready <==> |g.buffer| >= rs.threshold)
  {
    match rs
    case SequenceSizeRelease => SequenceSizeReached(g)
    case MessageCountRelease(n) => |g.buffer| >= n || SequenceSizeReached(g)
  }

  /** The resequencer's completeness test: every number 1..s is buffered. */
  predicate AllNumbersPresent(ms: seq<Message>, s: int) {
    forall n :: 1 <= n <= s ==> n in Numbers(ms)
  }

  /**
   * For clash-free numbered messages within 1..s, holding s messages is the
   * same as holding every number 1..s: the count test of the aggregating
   * handler and the resequencer's completeness test agree.
   */
  lemma SizeReachedIffAllPresent(ms: seq<Message>, s: int)
    requires AllNumbered(ms) && Distinct(ms)
    requires s >= 0
    requires forall m :: m in ms ==> 1 <= m.sequenceNumber.value <= s
    ensures |ms| == s <==> AllNumbersPresent(ms, s)
  {
    NumbersSize(ms);
    RangeFacts(1, s);
    assert Numbers(ms) <= Range(1, s);
    if |ms| == s {
      assert |Range(1, s) - Numbers(ms)| == |Range(1, s)| - |Numbers(ms)| == 0;
      assert Range(1, s) == Numbers(ms);
      forall n | 1 <= n <= s ensures n in Numbers(ms) {
        assert n in Range(1, s);
      }
    }
    if AllNumbersPresent(ms, s) {
      assert Range(1, s) <= Numbers(ms) by {
        forall n | n in Range(1, s) ensures n in Numbers(ms) {
        }
      }
      assert Range(1, s) == Numbers(ms);
    }
  }
}
