/** The message deduplicator of the server: a cache of message IDs that
    accepts an ID the first time it is offered and rejects it afterwards.
    The cache maps every ID it holds to `true`, so it is modelled by the set
    of its keys; the capacity bound and time to live it is built with are
    kept, but eviction is outside the model. */
module Deduplication {
  import opened Base

  type MessageId = uint128

  /** The outcome of `try_insert` on a cache holding `ids`: whether `id` was
      accepted, and the IDs held afterwards. */
  function TryInsertStep(ids: set<MessageId>, id: MessageId): (r: (bool, set<MessageId>))
    ensures r.0 <==> id !in ids
    ensures id in r.1
    ensures forall other :: other != id ==> (other in r.1 <==> other in ids)
    ensures !r.0 ==> r.1 == ids
  {
    if id in ids then (false, ids) else (true, ids + {id})
  }

  /** Offering an ID a second time is rejected and changes nothing. */
  lemma TryInsertTwice(ids: set<MessageId>, id: MessageId)
    ensures TryInsertStep(TryInsertStep(ids, id).1, id) == (false, TryInsertStep(ids, id).1)
  {
  }

  /** The outcomes of offering `s` in order, starting from a cache holding
      `ids`, and the IDs held at the end. */
  function Replay(ids: set<MessageId>, s: seq<MessageId>): (seq<bool>, set<MessageId>)
    decreases |s|
  {
    if s == [] then ([], ids)
    else
      var (accepted, next) := TryInsertStep(ids, s[0]);
      var (rest, last) := Replay(next, s[1..]);
      ([accepted] + rest, last)
  }

  /** The i-th ID offered is accepted exactly when it was neither held at the
      start nor offered earlier; at the end the cache holds the starting IDs
      and every ID offered. */
  lemma {:induction false} ReplayOutcomes(ids: set<MessageId>, s: seq<MessageId>)
    ensures |Replay(ids, s).0| == |s|
    ensures forall i :: 0 <= i < |s| ==>
      (Replay(ids, s).0[i] <==> s[i] !in ids && s[i] !in s[..i])
    ensures Replay(ids, s).1 == ids + set x | x in s
    decreases |s|
  {
    if s != [] {
      var (accepted, next) := TryInsertStep(ids, s[0]);
      var tail := s[1..];
      ReplayOutcomes(next, tail);
      var (rest, last) := Replay(next, tail);
      forall i | 0 <= i < |s|
        ensures Replay(ids, s).0[i] <==> s[i] !in ids && s[i] !in s[..i]
      {
        if i > 0 {
          assert Replay(ids, s).0[i] == rest[i - 1];
          assert tail[i - 1] == s[i];
          assert s[..i] == [s[0]] + tail[..i - 1];
        }
      }
      assert (set x | x in s) == {s[0]} + set x | x in tail by {
        assert s == [s[0]] + tail;
      }
    }
  }

  /** No ID occurs twice in `s`. */
  ghost predicate Distinct(s: seq<MessageId>)
  {
    forall i, j :: 0 <= i < j < |s| ==> s[i] != s[j]
  }

  /** Offering distinct new IDs accepts every one of them, and offering the
      same IDs again rejects every one. */
  lemma DistinctAcceptedOnce(ids: set<MessageId>, s: seq<MessageId>)
    requires Distinct(s)
    requires forall i :: 0 <= i < |s| ==> s[i] !in ids
    ensures |Replay(ids, s).0| == |s| && |Replay(Replay(ids, s).1, s).0| == |s|
    ensures forall i :: 0 <= i < |Replay(ids, s).0| ==> Replay(ids, s).0[i]
    ensures forall i :: 0 <= i < |Replay(Replay(ids, s).1, s).0| ==> !Replay(Replay(ids, s).1, s).0[i]
  {
    ReplayOutcomes(ids, s);
    ReplayOutcomes(Replay(ids, s).1, s);
  }

  class MessageDeduplicator {
    /** The IDs the cache holds. */
    var cache: set<MessageId>
    /** The capacity bound the cache was built with, if any. */
    const maxCapacity: Option<uint64>
    /** The time to live of each ID the cache was built with, if any. */
    const timeToLive: Option<Duration>

    /** An empty cache with the given bound and time to live. */
    constructor (maxEntries: Option<uint64>, ttl: Option<Duration>)
      ensures cache == {}
      ensures maxCapacity == maxEntries && timeToLive == ttl
    {
      cache := {};
      maxCapacity := maxEntries;
      timeToLive := ttl;
    }

    /** Whether `id` is held; reads the cache and changes nothing. */
    function Exists(id: MessageId): (b: bool)
      reads this
      ensures b <==> id in cache
    {
      id in cache
    }

    /** Adds `id`; every other ID keeps its membership, and inserting an ID
        already held changes nothing. */
    method Insert(id: MessageId)
      modifies this
      ensures Exists(id)
      ensures cache == old(cache) + {id}
      ensures old(Exists(id)) ==> cache == old(cache)
    {
      cache := cache + {id};
    }

    /** Adds `id` unless it is already held; returns whether it was added. */
    method TryInsert(id: MessageId) returns (inserted: bool)
      modifies this
      ensures inserted == !old(Exists(id))
      ensures Exists(id)
      ensures (inserted, cache) == TryInsertStep(old(cache), id)
    {
      if Exists(id) {
        inserted := false;
      } else {
        Insert(id);
        inserted := true;
      }
    }
  }

  /** The unique-identifier scenario: IDs 0 .. maxEntries-1 are each offered
      to a fresh deduplicator; each is accepted, then found, then rejected
      when offered again. */
  method InsertOnlyUniqueIdentifiers(maxEntries: uint64, ttl: Duration) returns (deduplicator: MessageDeduplicator)
    ensures fresh(deduplicator)
    ensures forall id: MessageId :: id in deduplicator.cache <==> id < maxEntries
  {
    deduplicator := new MessageDeduplicator(Some(maxEntries), Some(ttl));
    var i: uint64 := 0;
    while i < maxEntries
      invariant i <= maxEntries
      invariant forall id: MessageId :: id in deduplicator.cache <==> id < i
    {
      var id: MessageId := i;
      var first := deduplicator.TryInsert(id);
      assert first;
      assert deduplicator.Exists(id);
      var second := deduplicator.TryInsert(id);
      assert !second;
      i := i + 1;
    }
  }
}
