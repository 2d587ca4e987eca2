/**
 * The progress store as a value: a map from (userId, problemId) to the one
 * record for that pair, with the upserts the service performs and the
 * per-user reads (all of a user's records, the bookmarked ones, those of
 * one topic).
 */
module ProgressStore {
  import opened Wrappers
  import opened Schema
  import opened ProgressEngine
  import Catalog

  type Store = map<ProgressKey, ProgressRecord>

  /** The stored record for (userId, problemId), if any. */
  function Lookup(store: Store, userId: Id, problemId: Id): Option<ProgressRecord> {
    if (userId, problemId) in store then Some(store[(userId, problemId)]) else None
  }

  /** The store after a single progress update of (userId, problemId) at `now`. */
  function UpdateStore(store: Store, userId: Id, problemId: Id, dto: ProgressUpdate, now: int): (after: Store)
    ensures after.Keys == store.Keys + {(userId, problemId)}
    ensures forall k :: k in store && k != (userId, problemId) ==> after[k] == store[k]
    ensures after[(userId, problemId)] == Updated(Lookup(store, userId, problemId), userId, problemId, dto, now)
    ensures after[(userId, problemId)].lastAttemptedAt == Some(now)
  {
    store[(userId, problemId) := Updated(Lookup(store, userId, problemId), userId, problemId, dto, now)]
  }

  /** One item of a bulk update: a problem id and the fields to merge. */
  datatype BulkItem = BulkItem(problemId: Id, updateData: ProgressUpdate)

  /** The store after one bulk item. */
  function BulkStep(store: Store, userId: Id, item: BulkItem, now: int): (after: Store)
    ensures after.Keys == store.Keys + {(userId, item.problemId)}
    ensures forall k :: k in store && k != (userId, item.problemId) ==> after[k] == store[k]
    ensures after[(userId, item.problemId)] ==
            BulkMerged(Lookup(store, userId, item.problemId), userId, item.problemId, item.updateData, now)
    ensures after[(userId, item.problemId)].attempts == AttemptsOf(Lookup(store, userId, item.problemId))
  {
    store[(userId, item.problemId) :=
      BulkMerged(Lookup(store, userId, item.problemId), userId, item.problemId, item.updateData, now)]
  }

  /** One bulk item keeps the unique index and adds its key, which is new exactly when it was absent. */
  lemma BulkStepKeys(store: Store, userId: Id, item: BulkItem, now: int, before: set<ProgressKey>)
    requires Keyed(store) && before <= store.Keys
    ensures var after := BulkStep(store, userId, item, now);
            && Keyed(after)
            && after.Keys == store.Keys + {(userId, item.problemId)}
            && |after.Keys - before| == |store.Keys - before| + (if (userId, item.problemId) in store then 0 else 1)
  {
    BulkStepKeyed(store, userId, item, now);
    AddKeyCount(store.Keys, before, (userId, item.problemId));
  }

  /** One bulk item keeps the unique index. */
  lemma BulkStepKeyed(store: Store, userId: Id, item: BulkItem, now: int)
    requires Keyed(store)
    ensures Keyed(BulkStep(store, userId, item, now))
  {
    var r := BulkMerged(Lookup(store, userId, item.problemId), userId, item.problemId, item.updateData, now);
    assert KeyOf(r) == (userId, item.problemId);
  }

  /** Adding one key to a set grows its part outside `before` by one exactly when the key is new. */
  lemma AddKeyCount<K>(keys: set<K>, before: set<K>, key: K)
    requires before <= keys
    ensures |(keys + {key}) - before| == |keys - before| + (if key in keys then 0 else 1)
  {
    if key in keys {
      assert (keys + {key}) - before == keys - before;
    } else {
      assert (keys + {key}) - before == (keys - before) + {key};
    }
  }

  /** The store after the bulk items, applied in order: every pair they name is present and stamped. */
  function BulkApply(store: Store, userId: Id, items: seq<BulkItem>, now: int): (after: Store)
    ensures store.Keys <= after.Keys
    ensures forall k :: k in after && k !in store ==> k.0 == userId
    ensures forall i :: i in items ==> (userId, i.problemId) in after && after[(userId, i.problemId)].lastAttemptedAt == Some(now)
    decreases |items|
  {
    if items == [] then store
    else
      assert items == items[..|items| - 1] + [items[|items| - 1]];
      BulkStep(BulkApply(store, userId, items[..|items| - 1], now), userId, items[|items| - 1], now)
  }

  /** The bulk update of a prefix one item longer is one more bulk step. */
  lemma BulkApplySnoc(store: Store, userId: Id, items: seq<BulkItem>, i: nat, now: int)
    requires i < |items|
    ensures BulkApply(store, userId, items[..i + 1], now) == BulkStep(BulkApply(store, userId, items[..i], now), userId, items[i], now)
  {
    assert items[..i + 1][..i] == items[..i];
  }

  /**
   * The last item naming a problem decides its record: it is that item's
   * update merged over whatever the items before it left for the pair.
   */
  lemma {:induction false} BulkApplyLastWins(store: Store, userId: Id, items: seq<BulkItem>, j: nat, now: int)
    requires j < |items|
    requires forall k :: j < k < |items| ==> items[k].problemId != items[j].problemId
    ensures var after := BulkApply(store, userId, items, now);
            var key := (userId, items[j].problemId);
            && key in after
            && after[key] == BulkMerged(Lookup(BulkApply(store, userId, items[..j], now), userId, items[j].problemId),
                                        userId, items[j].problemId, items[j].updateData, now)
    decreases |items|
  {
    var init := items[..|items| - 1];
    if j == |items| - 1 {
      assert init == items[..j];
    } else {
      BulkApplyLastWins(store, userId, init, j, now);
      assert init[..j] == items[..j];
    }
  }

  /**
   * The state of a bulk update after its first `n` items: the store they
   * produce, keyed, holding every key of `start`, with `created` keys that
   * `start` did not have.
   */
  ghost predicate BulkPrefix(start: Store, store: Store, userId: Id, items: seq<BulkItem>, n: nat, now: int, created: nat) {
    && n <= |items|
    && Keyed(store)
    && store == BulkApply(start, userId, items[..n], now)
    && start.Keys <= store.Keys
    && created == |store.Keys - start.Keys|
  }

  /** Before any item the store is the starting one and nothing is created. */
  lemma BulkPrefixStart(start: Store, userId: Id, items: seq<BulkItem>, now: int)
    requires Keyed(start)
    ensures BulkPrefix(start, start, userId, items, 0, now, 0)
  {
    assert items[..0] == [];
  }

  /** After every item the prefix is the whole bulk update. */
  lemma BulkPrefixDone(start: Store, store: Store, userId: Id, items: seq<BulkItem>, now: int, created: nat)
    requires BulkPrefix(start, store, userId, items, |items|, now, created)
    ensures Keyed(store) && store == BulkApply(start, userId, items, now)
    ensures created == |store.Keys - start.Keys|
  {
    assert items[..|items|] == items;
  }

  /** One more bulk item extends the prefix, creating a key exactly when its pair was absent. */
  lemma BulkPrefixStep(start: Store, store: Store, userId: Id, items: seq<BulkItem>, n: nat, now: int, created: nat)
    requires n < |items| && BulkPrefix(start, store, userId, items, n, now, created)
    ensures var created' := if (userId, items[n].problemId) in store then created else created + 1;
            BulkPrefix(start, BulkStep(store, userId, items[n], now), userId, items, n + 1, now, created')
  {
    BulkStepKeys(store, userId, items[n], now, start.Keys);
    BulkApplySnoc(start, userId, items, n, now);
  }

  /**
   * Applies the bulk items in order, counting the items that found a record
   * and the items that created one.
   */
  method ApplyBulk(start: Store, userId: Id, items: seq<BulkItem>, now: int) returns (store: Store, matched: nat, upserted: nat)
    requires Keyed(start)
    ensures Keyed(store) && store == BulkApply(start, userId, items, now)
    ensures matched + upserted == |items|
    ensures upserted == |store.Keys - start.Keys|
  {
    matched, upserted := 0, 0;
    store := start;
    BulkPrefixStart(start, userId, items, now);
    for i := 0 to |items|
      invariant BulkPrefix(start, store, userId, items, i, now, upserted)
      invariant matched + upserted == i
    {
      BulkPrefixStep(start, store, userId, items, i, now, upserted);
      var found := (userId, items[i].problemId) in store;
      matched, upserted := if found then matched + 1 else matched, if found then upserted else upserted + 1;
      store := BulkStep(store, userId, items[i], now);
    }
    BulkPrefixDone(start, store, userId, items, now, upserted);
  }

  /**
   * A single update leaves exactly one record for its pair, created from
   * the defaults when absent, keeps the unique index, and touches no other
   * pair.
   */
  lemma UpdateStoreUpserts(store: Store, userId: Id, problemId: Id, dto: ProgressUpdate, now: int)
    requires Keyed(store)
    ensures var after := UpdateStore(store, userId, problemId, dto, now);
            && Keyed(after)
            && after.Keys == store.Keys + {(userId, problemId)}
            && after[(userId, problemId)] == Updated(Lookup(store, userId, problemId), userId, problemId, dto, now)
            && ((userId, problemId) !in store ==>
                  after[(userId, problemId)] == Updated(None, userId, problemId, dto, now))
            && forall k :: k in store && k != (userId, problemId) ==> after[k] == store[k]
  {
    var r := Updated(Lookup(store, userId, problemId), userId, problemId, dto, now);
    SuppliedFieldsMerged(Lookup(store, userId, problemId), userId, problemId, dto, now);
    assert KeyOf(r) == (userId, problemId);
  }

  /** No record's attempt counter decreases under a single update. */
  lemma UpdateStoreAttemptsMonotone(store: Store, userId: Id, problemId: Id, dto: ProgressUpdate, now: int)
    ensures var after := UpdateStore(store, userId, problemId, dto, now);
            forall k :: k in store ==> k in after && store[k].attempts <= after[k].attempts
  {
    AttemptsRule(Lookup(store, userId, problemId), userId, problemId, dto, now);
  }

  /** Some bulk item names the problem. */
  predicate Names(items: seq<BulkItem>, problemId: Id) {
    exists i :: i in items && i.problemId == problemId
  }

  /**
   * A bulk update keeps the unique index, creates exactly the pairs of the
   * user that it names and did not exist, and leaves every pair it does not
   * name untouched.
   */
  lemma BulkApplyUpserts(store: Store, userId: Id, items: seq<BulkItem>, now: int)
    requires Keyed(store)
    ensures var after := BulkApply(store, userId, items, now);
            && Keyed(after)
            && after.Keys == store.Keys + (set i | i in items :: (userId, i.problemId))
            && forall k :: k in store && (k.0 != userId || !Names(items, k.1)) ==> after[k] == store[k]
  {
    BulkApplyKeyed(store, userId, items, now);
    BulkApplyKeys(store, userId, items, now);
    NamedKeysAre(userId, items);
    BulkApplyFrame(store, userId, items, now);
  }

  /** A bulk update keeps the unique index. */
  lemma {:induction false} BulkApplyKeyed(store: Store, userId: Id, items: seq<BulkItem>, now: int)
    requires Keyed(store)
    ensures Keyed(BulkApply(store, userId, items, now))
    decreases |items|
  {
    if items != [] {
      var init := items[..|items| - 1];
      BulkApplyKeyed(store, userId, init, now);
      BulkStepKeyed(BulkApply(store, userId, init, now), userId, items[|items| - 1], now);
    }
  }

  /** The (userId, problemId) pairs the bulk items name. */
  function NamedKeys(userId: Id, items: seq<BulkItem>): (keys: set<ProgressKey>)
    ensures forall k :: k in keys ==> k.0 == userId
    decreases |items|
  {
    if items == [] then {} else NamedKeys(userId, items[..|items| - 1]) + {(userId, items[|items| - 1].problemId)}
  }

  /** The pairs named are those of the items' problem ids. */
  lemma {:induction false} NamedKeysAre(userId: Id, items: seq<BulkItem>)
    ensures NamedKeys(userId, items) == set i | i in items :: (userId, i.problemId)
    decreases |items|
  {
    if items != [] {
      var init := items[..|items| - 1];
      var last := items[|items| - 1];
      NamedKeysAre(userId, init);
      var named := set i | i in items :: (userId, i.problemId);
      var namedBefore := set i | i in init :: (userId, i.problemId);
      forall k | k in named ensures k in namedBefore + {(userId, last.problemId)} {
        var i :| i in items && k == (userId, i.problemId);
        assert i in init || i == last by { assert items == init + [last]; }
      }
      forall k | k in namedBefore ensures k in named {
        var i :| i in init && k == (userId, i.problemId);
        assert i in items;
      }
      assert last in items;
    }
  }

  /** A bulk update adds exactly the pairs its items name. */
  lemma {:induction false} BulkApplyKeys(store: Store, userId: Id, items: seq<BulkItem>, now: int)
    ensures BulkApply(store, userId, items, now).Keys == store.Keys + NamedKeys(userId, items)
    decreases |items|
  {
    if items != [] {
      BulkApplyKeys(store, userId, items[..|items| - 1], now);
    }
  }

  /** A bulk update leaves every pair it does not name as it was. */
  lemma {:induction false} BulkApplyFrame(store: Store, userId: Id, items: seq<BulkItem>, now: int)
    ensures var after := BulkApply(store, userId, items, now);
            forall k :: k in store && (k.0 != userId || !Names(items, k.1)) ==> after[k] == store[k]
    decreases |items|
  {
    if items != [] {
      var init := items[..|items| - 1];
      var last := items[|items| - 1];
      BulkApplyFrame(store, userId, init, now);
      var after := BulkApply(store, userId, items, now);
      forall k | k in store && (k.0 != userId || !Names(items, k.1))
        ensures after[k] == store[k]
      {
        if k.0 == userId {
          assert k.1 != last.problemId by { assert last in items; }
          assert !Names(init, k.1) by { assert forall i :: i in init ==> i in items; }
        }
      }
    }
  }

  /** A bulk update never changes an attempt counter: existing ones are kept, created records have none. */
  lemma {:induction false} BulkApplyKeepsAttempts(store: Store, userId: Id, items: seq<BulkItem>, now: int)
    ensures var after := BulkApply(store, userId, items, now);
            && store.Keys <= after.Keys
            && forall k :: k in after ==> after[k].attempts == (if k in store then store[k].attempts else 0)
    decreases |items|
  {
    if items != [] {
      var init := items[..|items| - 1];
      var last := items[|items| - 1];
      BulkApplyKeepsAttempts(store, userId, init, now);
      var mid := BulkApply(store, userId, init, now);
      BulkDerivesNothing(Lookup(mid, userId, last.problemId), userId, last.problemId, last.updateData, now);
    }
  }

  /** A bulk update creates records even for problem ids that resolve to no problem. */
  lemma BulkCreatesUncheckedRecords(problems: seq<Problem>, userId: Id, problemId: Id, dto: ProgressUpdate, now: int)
    requires !Catalog.HasProblem(problems, problemId)
    ensures var after := BulkApply(map[], userId, [BulkItem(problemId, dto)], now);
            (userId, problemId) in after && !Catalog.HasProblem(problems, after[(userId, problemId)].problemId)
  {
    var items := [BulkItem(problemId, dto)];
    assert items[..|items| - 1] == [];
  }

  // ---------------------------------------------------------------------
  // Reads

  /** All of one user's records. */
  function UserProgress(store: Store, userId: Id): (rs: set<ProgressRecord>)
    ensures forall r :: r in rs <==> exists k :: k in store && k.0 == userId && store[k] == r
  {
    set k | k in store && k.0 == userId :: store[k]
  }

  /** The user's bookmarked records. */
  function Bookmarked(store: Store, userId: Id): (rs: set<ProgressRecord>)
    ensures forall r :: r in rs <==> r in UserProgress(store, userId) && r.isBookmarked
  {
    set k | k in store && k.0 == userId && store[k].isBookmarked :: store[k]
  }

  /** The user's records for the active problems of one topic. */
  function UserProgressForTopic(store: Store, problems: seq<Problem>, userId: Id, topicId: Id): (rs: set<ProgressRecord>)
    requires Keyed(store)
    ensures forall r :: r in rs <==>
      r in UserProgress(store, userId) && exists p :: p in Catalog.FindProblemsByTopic(problems, topicId) && p.id == r.problemId
  {
    var ids := set p | p in Catalog.FindProblemsByTopic(problems, topicId) :: p.id;
    set k | k in store && k.0 == userId && k.1 in ids :: store[k]
  }

  /** A record the user has just bookmarked is among the bookmarks; one just unbookmarked is not. */
  lemma BookmarkUpdateIsVisible(store: Store, userId: Id, problemId: Id, dto: ProgressUpdate, now: int)
    requires dto.isBookmarked.Some?
    ensures var after := UpdateStore(store, userId, problemId, dto, now);
            var r := after[(userId, problemId)];
            (r in Bookmarked(after, userId)) == dto.isBookmarked.value
  {
    var after := UpdateStore(store, userId, problemId, dto, now);
    var r := after[(userId, problemId)];
    SuppliedFieldsMerged(Lookup(store, userId, problemId), userId, problemId, dto, now);
    assert r in UserProgress(after, userId) by {
      assert (userId, problemId) in after && after[(userId, problemId)] == r;
    }
  }
}
