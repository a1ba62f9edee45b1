/**
 * The message store: a finite map from correlation key to group, as the
 * in-memory store keeps it.
 */
module MessageStore {
  import opened Messages
  import opened MessageGroups

  type Store = map<Key, Group>

  /** The messages the store lists for a key: empty once the group is gone. */
  function List(s: Store, k: Key): (ms: seq<Message>)
    ensures k !in s ==> ms == []
  {
    if k in s then s[k].buffer else []
  }

  /** `s'` differs from `s` at most at key `k`. */
  ghost predicate SameExcept(s: Store, s': Store, k: Key) {
    forall k' :: k' != k ==> (k' in s <==> k' in s') && (k' in s ==> s[k'] == s'[k'])
  }
}
