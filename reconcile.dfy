/**
 * Reconciliation of a persisted table against a runtime listing, shared by the container, image,
 * volume and network tables: stored rows whose key the listing no longer has are deleted, then the
 * listing is walked in order and each entry either updates the row with its key or inserts a new one.
 * A table is a map from key to row; `key`, `insert` and `update` say how a listing entry becomes a row.
 */
module Reconcile {

  /** The keys the listing mentions. */
  function Ids<K, V>(runtime: seq<V>, key: V -> K): set<K> {
    set i | 0 <= i < |runtime| :: key(runtime[i])
  }

  /** The rows whose key is in `ids`. */
  function Restricted<K, R>(table: map<K, R>, ids: set<K>): (t: map<K, R>)
    ensures t.Keys == table.Keys * ids
    ensures forall k :: k in t ==> t[k] == table[k]
  {
    map k | k in table && k in ids :: table[k]
  }

  /** The listing walked left to right: an entry updates the row with its key, or inserts one. */
  function Upserted<K, R, V>(table: map<K, R>, runtime: seq<V>, key: V -> K, insert: V -> R, update: (R, V) -> R): map<K, R>
    decreases |runtime|
  {
    if runtime == [] then table
    else
      var v := runtime[0];
      var k := key(v);
      Upserted(table[k := if k in table then update(table[k], v) else insert(v)], runtime[1..], key, insert, update)
  }

  /** The table after reconciliation: delete what the listing lacks, then upsert the listing. */
  function Reconciled<K, R, V>(table: map<K, R>, runtime: seq<V>, key: V -> K, insert: V -> R, update: (R, V) -> R): map<K, R> {
    Upserted(Restricted(table, Ids(runtime, key)), runtime, key, insert, update)
  }

  lemma IdsCons<K, V>(runtime: seq<V>, key: V -> K)
    requires runtime != []
    ensures Ids(runtime, key) == {key(runtime[0])} + Ids(runtime[1..], key)
  {
    forall k | k in Ids(runtime, key) ensures k in {key(runtime[0])} + Ids(runtime[1..], key) {
      var i :| 0 <= i < |runtime| && key(runtime[i]) == k;
      if i > 0 {
        assert runtime[1..][i - 1] == runtime[i];
      }
    }
    forall k | k in Ids(runtime[1..], key) ensures k in Ids(runtime, key) {
      var j :| 0 <= j < |runtime[1..]| && key(runtime[1..][j]) == k;
      assert runtime[j + 1] == runtime[1..][j];
    }
  }

  /** Upserting adds exactly the listed keys, and the rows of unlisted keys are untouched. */
  lemma {:induction false} UpsertedKeys<K, R, V>(table: map<K, R>, runtime: seq<V>, key: V -> K, insert: V -> R, update: (R, V) -> R)
    ensures Upserted(table, runtime, key, insert, update).Keys == table.Keys + Ids(runtime, key)
    ensures forall k :: k in table && k !in Ids(runtime, key) ==> Upserted(table, runtime, key, insert, update)[k] == table[k]
    decreases |runtime|
  {
    if runtime != [] {
      var v := runtime[0];
      var k := key(v);
      var t' := table[k := if k in table then update(table[k], v) else insert(v)];
      UpsertedKeys(t', runtime[1..], key, insert, update);
      IdsCons(runtime, key);
    }
  }

  /**
   * A part `proj` of the row that an update keeps and an insert sets to `d`: after upserting it
   * is the stored one for rows that existed and `d` for new rows.
   */
  lemma {:induction false} UpsertedKeeps<K, R, V, P>(table: map<K, R>, runtime: seq<V>, key: V -> K, insert: V -> R,
                                                     update: (R, V) -> R, proj: R -> P, d: P)
    requires forall r, v :: proj(update(r, v)) == proj(r)
    requires forall v :: proj(insert(v)) == d
    ensures forall k :: k in Upserted(table, runtime, key, insert, update) ==>
              proj(Upserted(table, runtime, key, insert, update)[k]) == if k in table then proj(table[k]) else d
    decreases |runtime|
  {
    if runtime != [] {
      var v := runtime[0];
      var k := key(v);
      var t' := table[k := if k in table then update(table[k], v) else insert(v)];
      UpsertedKeeps(t', runtime[1..], key, insert, update, proj, d);
    }
  }

  /** Every row is stored under the key its `id` part names. */
  predicate KeyedBy<K, R>(table: map<K, R>, id: R -> K) {
    forall k :: k in table ==> id(table[k]) == k
  }

  /**
   * Upserting keeps a table keyed by `id` when inserts take the entry's key and an update of the row
   * stored under an entry's key keeps that key.
   */
  lemma {:induction false} UpsertedKeyed<K, R, V>(table: map<K, R>, runtime: seq<V>, key: V -> K, insert: V -> R,
                                                 update: (R, V) -> R, id: R -> K)
    requires KeyedBy(table, id)
    requires forall v :: id(insert(v)) == key(v)
    requires forall r, v :: id(r) == key(v) ==> id(update(r, v)) == id(r)
    ensures KeyedBy(Upserted(table, runtime, key, insert, update), id)
    decreases |runtime|
  {
    if runtime != [] {
      var v := runtime[0];
      var k := key(v);
      var t' := table[k := if k in table then update(table[k], v) else insert(v)];
      assert KeyedBy(t', id);
      UpsertedKeyed(t', runtime[1..], key, insert, update, id);
    }
  }

  /**
   * The last entry with a given key decides the `data` part of that key's row, when both insert and
   * update copy `view` of the entry into `data`.
   */
  lemma {:induction false} UpsertedLast<K, R, V, D>(table: map<K, R>, runtime: seq<V>, key: V -> K, insert: V -> R,
                                                   update: (R, V) -> R, data: R -> D, view: V -> D, i: nat)
    requires i < |runtime| && key(runtime[i]) !in Ids(runtime[i + 1..], key)
    requires forall r, v :: data(update(r, v)) == view(v)
    requires forall v :: data(insert(v)) == view(v)
    ensures key(runtime[i]) in Upserted(table, runtime, key, insert, update)
    ensures data(Upserted(table, runtime, key, insert, update)[key(runtime[i])]) == view(runtime[i])
    decreases |runtime|
  {
    var v := runtime[0];
    var k := key(v);
    var t' := table[k := if k in table then update(table[k], v) else insert(v)];
    if i == 0 {
      UpsertedKeys(t', runtime[1..], key, insert, update);
    } else {
      assert runtime[1..][i - 1] == runtime[i];
      assert runtime[1..][i - 1 + 1..] == runtime[i + 1..];
      UpsertedLast(t', runtime[1..], key, insert, update, data, view, i - 1);
    }
  }

  /**
   * An entry whose key no other entry has decides that key's row alone: the stored row updated
   * by it, or the row it inserts.
   */
  lemma {:induction false} UpsertedOnly<K, R, V>(table: map<K, R>, runtime: seq<V>, key: V -> K, insert: V -> R,
                                                update: (R, V) -> R, i: nat)
    requires i < |runtime|
    requires forall j :: 0 <= j < |runtime| && j != i ==> key(runtime[j]) != key(runtime[i])
    ensures key(runtime[i]) in Upserted(table, runtime, key, insert, update)
    ensures Upserted(table, runtime, key, insert, update)[key(runtime[i])] ==
            if key(runtime[i]) in table then update(table[key(runtime[i])], runtime[i]) else insert(runtime[i])
    decreases |runtime|
  {
    var v := runtime[0];
    var k := key(v);
    var t' := table[k := if k in table then update(table[k], v) else insert(v)];
    if i == 0 {
      forall j | 0 <= j < |runtime[1..]| ensures key(runtime[1..][j]) != k {
        assert runtime[1..][j] == runtime[j + 1];
      }
      UpsertedKeys(t', runtime[1..], key, insert, update);
    } else {
      assert runtime[1..][i - 1] == runtime[i];
      forall j | 0 <= j < |runtime[1..]| && j != i - 1 ensures key(runtime[1..][j]) != key(runtime[i]) {
        assert runtime[1..][j] == runtime[j + 1];
      }
      UpsertedOnly(t', runtime[1..], key, insert, update, i - 1);
    }
  }

  /** After reconciliation the stored keys are exactly the listed ones. */
  lemma ReconciledKeys<K, R, V>(table: map<K, R>, runtime: seq<V>, key: V -> K, insert: V -> R, update: (R, V) -> R)
    ensures Reconciled(table, runtime, key, insert, update).Keys == Ids(runtime, key)
    ensures forall k :: k in table && k !in Ids(runtime, key) ==> k !in Reconciled(table, runtime, key, insert, update)
  {
    UpsertedKeys(Restricted(table, Ids(runtime, key)), runtime, key, insert, update);
  }

  /**
   * A second reconciliation with the same listing deletes nothing and inserts nothing: every stored
   * key is listed, every listed key is stored, and the key set stays the same.
   */
  lemma ReconcileTwice<K, R, V>(table: map<K, R>, runtime: seq<V>, key: V -> K, insert: V -> R, update: (R, V) -> R)
    ensures var once := Reconciled(table, runtime, key, insert, update);
            Restricted(once, Ids(runtime, key)) == once &&
            (forall i :: 0 <= i < |runtime| ==> key(runtime[i]) in once) &&
            Reconciled(once, runtime, key, insert, update).Keys == once.Keys
  {
    var once := Reconciled(table, runtime, key, insert, update);
    ReconciledKeys(table, runtime, key, insert, update);
    ReconciledKeys(once, runtime, key, insert, update);
  }

  /** `update_all_*_info`: the delete pass over the stored keys, then the upsert pass over the listing. */
  method ReconcileTable<K(==), R, V>(table: map<K, R>, runtime: seq<V>, key: V -> K, insert: V -> R, update: (R, V) -> R)
    returns (t: map<K, R>)
    ensures t == Reconciled(table, runtime, key, insert, update)
  {
    var ids := set i | 0 <= i < |runtime| :: key(runtime[i]);
    t := table;
    var pending := table.Keys;
    while pending != {}
      invariant pending <= table.Keys
      invariant t == map k | k in table && (k in pending || k in ids) :: table[k]
      decreases pending
    {
      var k :| k in pending;
      if k !in ids {
        t := t - {k};
      }
      pending := pending - {k};
    }
    assert t == Restricted(table, ids);
    var i := 0;
    while i < |runtime|
      invariant i <= |runtime|
      invariant Upserted(t, runtime[i..], key, insert, update) == Reconciled(table, runtime, key, insert, update)
    {
      var v := runtime[i];
      var k := key(v);
      assert runtime[i..][1..] == runtime[i + 1..];
      if k in t {
        t := t[k := update(t[k], v)];
      } else {
        t := t[k := insert(v)];
      }
      i := i + 1;
    }
  }
}
