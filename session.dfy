/**
 * `context.user_data`, the per-user dictionary the bot handlers read and
 * write (bot/handlers/search.py, download.py, callback.py). It is a Python
 * dict, so it remembers insertion order, and the callback handler's key
 * scans depend on that order: it is kept as a list of slots with distinct keys.
 */
module Session {
  import opened Wrappers
  import Tracks
  import Media

  /** The values the handlers store. */
  datatype Value =
    | TrackList(tracks: seq<Tracks.Track>)   // 'results'
    | PageNumber(n: int)                     // 'page'
    | Text(s: string)                        // 'url_{h}', 'platform_{h}', 'video_id_{h}'
    | InfoDict(info: Media.MediaInfo)        // 'info_{h}'

  datatype Slot = Slot(key: string, value: Value)

  /** The keys, in insertion order: `list(d.keys())`. */
  function Keys(slots: seq<Slot>): (ks: seq<string>)
    ensures |ks| == |slots| && forall i :: 0 <= i < |slots| ==> ks[i] == slots[i].key
  {
    if slots == [] then [] else [slots[0].key] + Keys(slots[1..])
  }

  predicate DistinctKeys(slots: seq<Slot>)
  {
    forall i, j :: 0 <= i < j < |slots| ==> slots[i].key != slots[j].key
  }

  /** `d.get(key)`. */
  function Get(slots: seq<Slot>, key: string): (r: Option<Value>)
    ensures r.None? <==> key !in Keys(slots)
    ensures r.Some? ==> exists i :: 0 <= i < |slots| && slots[i] == Slot(key, r.value)
  {
    if slots == [] then None
    else if slots[0].key == key then Some(slots[0].value)
    else
      var r := Get(slots[1..], key);
      assert Keys(slots) == [slots[0].key] + Keys(slots[1..]);
      assert r.Some? ==> exists i :: 0 <= i < |slots[1..]| && slots[1..][i] == Slot(key, r.value);
      r
  }

  /** `d[key] = v`: an existing key keeps its place, a new one goes last. */
  function Put(slots: seq<Slot>, key: string, v: Value): seq<Slot>
  {
    if slots == [] then [Slot(key, v)]
    else if slots[0].key == key then [Slot(key, v)] + slots[1..]
    else [slots[0]] + Put(slots[1..], key, v)
  }

  /** `d.pop(key, None)`. */
  function Remove(slots: seq<Slot>, key: string): seq<Slot>
  {
    if slots == [] then []
    else if slots[0].key == key then slots[1..]
    else [slots[0]] + Remove(slots[1..], key)
  }

  /** The key a slot sits at in a list with distinct keys determines its value. */
  lemma GetAt(slots: seq<Slot>, i: nat)
    requires DistinctKeys(slots) && i < |slots|
    ensures Get(slots, slots[i].key) == Some(slots[i].value)
  {
    var r := Get(slots, slots[i].key);
    var j :| 0 <= j < |slots| && slots[j] == Slot(slots[i].key, r.value);
  }

  /** After `d[key] = v` the key reads `v` and every other key reads as before. */
  lemma {:induction false} GetPut(slots: seq<Slot>, key: string, v: Value, k: string)
    ensures Get(Put(slots, key, v), k) == if k == key then Some(v) else Get(slots, k)
  {
    if slots != [] && slots[0].key != key {
      GetPut(slots[1..], key, v, k);
    }
  }

  /** `d[key] = v` keeps the key order, appending a key that was not there. */
  lemma {:induction false} KeysPut(slots: seq<Slot>, key: string, v: Value)
    ensures Keys(Put(slots, key, v)) == if key in Keys(slots) then Keys(slots) else Keys(slots) + [key]
  {
    if slots != [] {
      assert Keys(slots) == [slots[0].key] + Keys(slots[1..]);
      if slots[0].key == key {
        assert Keys([Slot(key, v)] + slots[1..]) == [key] + Keys(slots[1..]);
      } else {
        KeysPut(slots[1..], key, v);
        assert Keys([slots[0]] + Put(slots[1..], key, v)) == [slots[0].key] + Keys(Put(slots[1..], key, v));
      }
    }
  }

  /** After `d.pop(key)` the key is gone and every other key reads as before. */
  lemma {:induction false} GetRemove(slots: seq<Slot>, key: string, k: string)
    requires DistinctKeys(slots)
    ensures Get(Remove(slots, key), k) == if k == key then None else Get(slots, k)
  {
    if slots != [] {
      if slots[0].key == key {
        if k == key {
          assert key !in Keys(slots[1..]);
        }
      } else {
        GetRemove(slots[1..], key, k);
      }
    }
  }

  /** `d.pop(key)` removes that key and keeps the others in order. */
  lemma {:induction false} KeysRemove(slots: seq<Slot>, key: string)
    requires DistinctKeys(slots)
    ensures forall k :: k in Keys(Remove(slots, key)) <==> k in Keys(slots) && k != key
    ensures DistinctKeys(Remove(slots, key))
  {
    if slots != [] {
      assert Keys(slots) == [slots[0].key] + Keys(slots[1..]);
      if slots[0].key == key {
        assert key !in Keys(slots[1..]);
      } else {
        KeysRemove(slots[1..], key);
        var r := Remove(slots[1..], key);
        assert Keys([slots[0]] + r) == [slots[0].key] + Keys(r);
        assert slots[0].key !in Keys(slots[1..]);
      }
    }
  }

  /** `d[key] = v` of a new key appends its slot. */
  lemma {:induction false} PutAbsent(slots: seq<Slot>, key: string, v: Value)
    requires key !in Keys(slots)
    ensures Put(slots, key, v) == slots + [Slot(key, v)]
  {
    if slots != [] {
      assert Keys(slots) == [slots[0].key] + Keys(slots[1..]);
      PutAbsent(slots[1..], key, v);
      assert [slots[0]] + (slots[1..] + [Slot(key, v)]) == slots + [Slot(key, v)];
    }
  }

  /** `d[key] = v` keeps the keys distinct. */
  lemma {:induction false} PutDistinct(slots: seq<Slot>, key: string, v: Value)
    requires DistinctKeys(slots)
    ensures DistinctKeys(Put(slots, key, v))
  {
    if slots != [] && slots[0].key != key {
      PutDistinct(slots[1..], key, v);
      KeysPut(slots[1..], key, v);
      var r := Put(slots[1..], key, v);
      assert Keys(slots) == [slots[0].key] + Keys(slots[1..]);
      assert slots[0].key !in Keys(r);
      forall j | 0 < j < |[slots[0]] + r| ensures ([slots[0]] + r)[j].key != slots[0].key {
        assert r[j - 1].key in Keys(r);
      }
    }
  }

  /** `context.user_data` of one user. */
  class UserData {
    var slots: seq<Slot>

    ghost predicate Valid()
      reads this
    {
      DistinctKeys(slots)
    }

    constructor()
      ensures slots == [] && Valid()
    {
      slots := [];
    }

    /** `user_data.get(key)`. */
    function Lookup(key: string): Option<Value>
      reads this
    {
      Get(slots, key)
    }

    /** `user_data[key] = v`. */
    method Set(key: string, v: Value)
      requires Valid()
      modifies this
      ensures Valid()
      ensures slots == Put(old(slots), key, v)
      ensures forall k :: Lookup(k) == if k == key then Some(v) else old(Lookup(k))
    {
      PutDistinct(slots, key, v);
      forall k ensures Get(Put(slots, key, v), k) == if k == key then Some(v) else Get(slots, k) {
        GetPut(slots, key, v, k);
      }
      slots := Put(slots, key, v);
    }

    /** `user_data.pop(key, None)`. */
    method Pop(key: string)
      requires Valid()
      modifies this
      ensures Valid()
      ensures slots == Remove(old(slots), key)
      ensures forall k :: Lookup(k) == if k == key then None else old(Lookup(k))
    {
      KeysRemove(slots, key);
      forall k ensures Get(Remove(slots, key), k) == if k == key then None else Get(slots, k) {
        GetRemove(slots, key, k);
      }
      slots := Remove(slots, key);
    }
  }
}
