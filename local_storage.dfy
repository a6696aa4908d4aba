/**
 * The browser's key-value store as the student view sees it: entries in key
 * order, each holding a decoded list of classrooms or of activities.
 */
module LocalStorage {
  import opened Wrappers
  import opened Records

  datatype Value = ClassroomList(classrooms: seq<Classroom>) | ActivityList(activities: seq<Activity>)

  datatype Entry = Entry(key: string, value: Value)

  type Store = seq<Entry>

  /** The classrooms a stored value decodes to; a value of the other shape holds none. */
  function ClassroomsIn(v: Value): seq<Classroom>
  {
    if v.ClassroomList? then v.classrooms else []
  }

  /** The activities a stored value decodes to; a value of the other shape holds none. */
  function ActivitiesIn(v: Value): seq<Activity>
  {
    if v.ActivityList? then v.activities else []
  }

  /** `getItem(key)`: the value of the first entry under `key`, if any. */
  function GetItem(store: Store, key: string): (r: Option<Value>)
    ensures r.None? <==> forall i :: 0 <= i < |store| ==> store[i].key != key
    ensures r.Some? ==> exists i :: 0 <= i < |store| && store[i] == Entry(key, r.value) &&
                          forall j :: 0 <= j < i ==> store[j].key != key
  {
    if store == [] then None
    else if store[0].key == key then Some(store[0].value)
    else
      var r := GetItem(store[1..], key);
      assert r.Some? ==> exists i :: 0 <= i < |store| && store[i] == Entry(key, r.value) &&
                          forall j :: 0 <= j < i ==> store[j].key != key by {
        if r.Some? {
          var i :| 0 <= i < |store[1..]| && store[1..][i] == Entry(key, r.value) &&
                   forall j :: 0 <= j < i ==> store[1..][j].key != key;
          assert store[i + 1] == Entry(key, r.value);
          forall j | 0 <= j < i + 1 ensures store[j].key != key {
            if j > 0 { assert store[j] == store[1..][j - 1]; }
          }
        }
      }
      r
  }

  /** A browser store holds each key once. */
  ghost predicate DistinctKeys(store: Store)
  {
    forall i, j :: 0 <= i < j < |store| ==> store[i].key != store[j].key
  }

  /** In a store with distinct keys, `getItem` of an entry's key reads that entry's value. */
  lemma EntryIsGetItem(store: Store, i: int)
    requires DistinctKeys(store)
    requires 0 <= i < |store|
    ensures GetItem(store, store[i].key) == Some(store[i].value)
  {
    var r := GetItem(store, store[i].key);
    var k :| 0 <= k < |store| && store[k] == Entry(store[i].key, r.value) &&
             forall j :: 0 <= j < k ==> store[j].key != store[i].key;
  }

  /** `setItem(key, value)`: overwrite the first entry under `key`, or add one at the end. */
  function SetItem(store: Store, key: string, v: Value): (r: Store)
    ensures |r| == |store| || |r| == |store| + 1
  {
    if store == [] then [Entry(key, v)]
    else if store[0].key == key then [Entry(key, v)] + store[1..]
    else [store[0]] + SetItem(store[1..], key, v)
  }

  /** After `setItem`, reading the key gives the new value and every other key reads as before. */
  lemma {:induction false} SetItemThenGet(store: Store, key: string, v: Value, other: string)
    ensures GetItem(SetItem(store, key, v), key) == Some(v)
    ensures other != key ==> GetItem(SetItem(store, key, v), other) == GetItem(store, other)
  {
    if store != [] && store[0].key != key {
      SetItemThenGet(store[1..], key, v, other);
      var r := SetItem(store, key, v);
      assert r[1..] == SetItem(store[1..], key, v);
    } else if store != [] {
      var r := SetItem(store, key, v);
      assert r[1..] == store[1..];
    }
  }

  /** `setItem` keeps the keys of a store distinct. */
  lemma {:induction false} SetItemKeepsKeysDistinct(store: Store, key: string, v: Value)
    requires DistinctKeys(store)
    ensures DistinctKeys(SetItem(store, key, v))
  {
    if store != [] && store[0].key != key {
      SetItemKeepsKeysDistinct(store[1..], key, v);
      var r := SetItem(store, key, v);
      assert r == [store[0]] + SetItem(store[1..], key, v);
      SetItemKeepsOtherEntries(store[1..], key, v);
      forall j | 0 < j < |r|
        ensures r[0].key != r[j].key
      {
        var rest := SetItem(store[1..], key, v);
        assert r[j] == rest[j - 1];
        if rest[j - 1].key != key {
          assert rest[j - 1] == store[1..][j - 1];
        }
      }
    } else if store != [] {
      var r := SetItem(store, key, v);
      assert r[1..] == store[1..];
      assert forall j :: 0 < j < |r| ==> r[j] == store[j];
    }
  }

  /** `setItem` only touches the entry under its key: every other entry is kept, in order. */
  lemma {:induction false} SetItemKeepsOtherEntries(store: Store, key: string, v: Value)
    ensures var r := SetItem(store, key, v);
            forall i :: 0 <= i < |store| && store[i].key != key ==> r[i] == store[i]
    ensures var r := SetItem(store, key, v);
            forall i :: 0 <= i < |r| && r[i].key != key ==> i < |store| && r[i] == store[i]
  {
    if store != [] && store[0].key != key {
      SetItemKeepsOtherEntries(store[1..], key, v);
    }
  }
}
