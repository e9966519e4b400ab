/**
 * What a set of receivers has been handed so far, keyed by receiver: the
 * chunks a server stream has accepted, the updates a listener was called
 * with. Both the relay and the client deliver one value to every member of
 * a set of receivers, and this is the state that such a delivery changes.
 */
module Inboxes {

  type Inbox<K, V> = map<K, seq<V>>

  /** The receivers listed in `s`. */
  function Elements<K>(s: seq<K>): set<K> {
    set k | k in s
  }

  /** No receiver is listed twice, as in a JavaScript `Set` kept in insertion order. */
  ghost predicate Distinct<K>(s: seq<K>) {
    forall i, j :: 0 <= i < j < |s| ==> s[i] != s[j]
  }

  /** Walking a list without repeats meets each receiver for the first time. */
  lemma ElementsPrefixStep<K>(s: seq<K>, i: nat)
    requires Distinct(s) && i < |s|
    ensures s[i] !in Elements(s[..i])
    ensures Elements(s[..i + 1]) == Elements(s[..i]) + {s[i]}
  {
    assert forall j :: 0 <= j < i ==> s[..i][j] == s[j] != s[i];
    assert s[..i + 1] == s[..i] + [s[i]];
  }

  /** What `k` has received so far. */
  function Received<K, V>(q: Inbox<K, V>, k: K): seq<V> {
    if k in q then q[k] else []
  }

  /** The inboxes after `v` was handed to every receiver in `targets`. */
  function Appended<K, V>(q: Inbox<K, V>, targets: set<K>, v: V): Inbox<K, V> {
    map k | k in q.Keys + targets :: if k in targets then Received(q, k) + [v] else q[k]
  }

  /** Every target gains exactly `v` at the end; every other receiver is left as it was. */
  lemma AppendedReceived<K, V>(q: Inbox<K, V>, targets: set<K>, v: V, k: K)
    ensures Received(Appended(q, targets, v), k)
            == if k in targets then Received(q, k) + [v] else Received(q, k)
  {
  }

  lemma AppendedNone<K, V>(q: Inbox<K, V>, v: V)
    ensures Appended(q, {}, v) == q
  {
    assert Appended(q, {}, v).Keys == q.Keys;
  }

  /** Handing `v` to one more receiver, one at a time, as a delivery loop does. */
  lemma AppendedStep<K, V>(q: Inbox<K, V>, done: set<K>, k: K, v: V)
    requires k !in done
    ensures
      var d := Appended(q, done, v);
      Appended(q, done + {k}, v) == d[k := Received(d, k) + [v]]
  {
    var d := Appended(q, done, v);
    assert Appended(q, done + {k}, v).Keys == d[k := Received(d, k) + [v]].Keys;
  }
}
