/**
 * SerializableDictionary (Assets/_Project/Tracks/SerializableDictionary.cs,
 * and the identical copy embedded in Assets/_Project/Tracks/MouseInputRecorder.cs):
 * a list of key/value pairs that serializes where a Dictionary cannot.
 * Add appends without checking for duplicates; ToDictionary replays the
 * list into a Dictionary, so for a repeated key the last value wins.
 *
 * A .NET Dictionary that is only ever added to enumerates its keys in the
 * order they were first added, and overwriting a key keeps its place; the
 * model returns that enumeration as a sequence of distinct-key entries.
 */
module KeyValueStore {
  import opened Base

  datatype Pair = Pair(key: string, value: string)

  function Keys(pairs: seq<Pair>): set<string>
  {
    set p | p in pairs :: p.key
  }

  predicate DistinctKeys(entries: seq<Pair>)
  {
    forall i, j :: 0 <= i < j < |entries| ==> entries[i].key != entries[j].key
  }

  /** The value of the last pair with this key, if any: what the dictionary holds for it. */
  function LastValue(pairs: seq<Pair>, key: string): (v: Option<string>)
    ensures v.None? <==> key !in Keys(pairs)
    ensures v.Some? ==> Pair(key, v.value) in pairs
    decreases |pairs|
  {
    if pairs == [] then None
    else if pairs[|pairs| - 1].key == key then Some(pairs[|pairs| - 1].value)
    else
      var front := pairs[..|pairs| - 1];
      assert Keys(pairs) == Keys(front) + {pairs[|pairs| - 1].key};
      LastValue(front, key)
  }

  /** Dictionary lookup (TryGetValue) in an entry sequence with distinct keys. */
  function Find(entries: seq<Pair>, key: string): Option<string>
    decreases |entries|
  {
    if entries == [] then None
    else if entries[0].key == key then Some(entries[0].value)
    else Find(entries[1..], key)
  }

  /** Index of the entry with this key, or |entries| when there is none. */
  function IndexOfKey(entries: seq<Pair>, key: string): (i: nat)
    ensures i <= |entries|
    ensures i < |entries| ==> entries[i].key == key
    ensures forall j :: 0 <= j < i ==> entries[j].key != key
    decreases |entries|
  {
    if entries == [] then 0
    else if entries[0].key == key then 0
    else 1 + IndexOfKey(entries[1..], key)
  }

  /** dictionary[key] = value: overwrite in place if present, else add at the end. */
  function Put(entries: seq<Pair>, p: Pair): (r: seq<Pair>)
  {
    var i := IndexOfKey(entries, p.key);
    if i < |entries| then entries[i := p] else entries + [p]
  }

  /** The dictionary ToDictionary builds, in enumeration order. */
  function Collapse(pairs: seq<Pair>): seq<Pair>
    decreases |pairs|
  {
    if pairs == [] then [] else Put(Collapse(pairs[..|pairs| - 1]), pairs[|pairs| - 1])
  }

  lemma PutKeys(entries: seq<Pair>, p: Pair)
    ensures Keys(Put(entries, p)) == Keys(entries) + {p.key}
    ensures DistinctKeys(entries) ==> DistinctKeys(Put(entries, p))
  {
    var i := IndexOfKey(entries, p.key);
    if i < |entries| {
      var r := entries[i := p];
      forall k | k in Keys(r) ensures k in Keys(entries) + {p.key}
      {
        var q :| q in r && q.key == k;
        var j :| 0 <= j < |r| && r[j] == q;
        if j != i { assert entries[j] == q; }
      }
      forall k | k in Keys(entries) + {p.key} ensures k in Keys(r)
      {
        if k == p.key {
          assert r[i] == p;
        } else {
          var q :| q in entries && q.key == k;
          var j :| 0 <= j < |entries| && entries[j] == q;
          assert r[j] == q;
        }
      }
    } else {
      assert Keys(entries + [p]) == Keys(entries) + {p.key};
      if DistinctKeys(entries) {
        forall j | 0 <= j < |entries| ensures entries[j].key != p.key
        {
        }
      }
    }
  }

  /** ToDictionary has exactly the keys that occur in the list, each once. */
  lemma {:induction false} CollapseKeys(pairs: seq<Pair>)
    ensures Keys(Collapse(pairs)) == Keys(pairs)
    ensures DistinctKeys(Collapse(pairs))
    decreases |pairs|
  {
    if pairs != [] {
      var front := pairs[..|pairs| - 1];
      CollapseKeys(front);
      PutKeys(Collapse(front), pairs[|pairs| - 1]);
      assert pairs == front + [pairs[|pairs| - 1]];
      assert Keys(pairs) == Keys(front) + {pairs[|pairs| - 1].key};
    }
  }

  lemma FindIndex(entries: seq<Pair>, key: string)
    requires DistinctKeys(entries)
    ensures var i := IndexOfKey(entries, key);
      Find(entries, key) == if i < |entries| then Some(entries[i].value) else None
    decreases |entries|
  {
    if entries != [] && entries[0].key != key {
      FindIndex(entries[1..], key);
    }
  }

  lemma FindPut(entries: seq<Pair>, p: Pair, key: string)
    requires DistinctKeys(entries)
    ensures Find(Put(entries, p), key) == if key == p.key then Some(p.value) else Find(entries, key)
  {
    PutKeys(entries, p);
    var r := Put(entries, p);
    FindIndex(entries, key);
    FindIndex(r, key);
    var i := IndexOfKey(entries, p.key);
    var k := IndexOfKey(entries, key);
    var kr := IndexOfKey(r, key);
    if i < |entries| {
      assert r == entries[i := p];
      if key == p.key {
        assert kr == i;
      } else if k < |entries| {
        assert r[k] == entries[k];
        assert kr == k;
      } else {
        assert kr == |r|;
      }
    } else {
      assert r == entries + [p];
      if key == p.key {
        assert kr == |entries|;
      } else if k < |entries| {
        assert r[k] == entries[k];
        assert forall j :: 0 <= j < k ==> r[j] == entries[j];
        assert kr == k;
      } else {
        assert kr == |r|;
      }
    }
  }

  /** Looking a key up in ToDictionary gives the value of the last pair with that key. */
  lemma {:induction false} CollapseLastWins(pairs: seq<Pair>, key: string)
    ensures Find(Collapse(pairs), key) == LastValue(pairs, key)
    decreases |pairs|
  {
    if pairs != [] {
      var front := pairs[..|pairs| - 1];
      CollapseLastWins(front, key);
      CollapseKeys(front);
      FindPut(Collapse(front), pairs[|pairs| - 1], key);
    }
  }

  class SerializableDictionary {
    var keyValuePairs: seq<Pair>

    constructor ()
      ensures keyValuePairs == []
    {
      keyValuePairs := [];
    }

    /** Add: one pair at the end, earlier pairs untouched, duplicates allowed; `value` is value.ToString(). */
    method Add(key: string, value: string)
      modifies this
      ensures keyValuePairs == old(keyValuePairs) + [Pair(key, value)]
    {
      keyValuePairs := keyValuePairs + [Pair(key, value)];
    }

    /** ToDictionary: replay the list; a later pair overwrites an earlier one with the same key. */
    method ToDictionary() returns (dictionary: seq<Pair>)
      ensures dictionary == Collapse(keyValuePairs)
      ensures DistinctKeys(dictionary) && Keys(dictionary) == Keys(keyValuePairs)
      ensures forall key :: Find(dictionary, key) == LastValue(keyValuePairs, key)
    {
      dictionary := [];
      var i := 0;
      while i < |keyValuePairs|
        invariant 0 <= i <= |keyValuePairs|
        invariant dictionary == Collapse(keyValuePairs[..i])
      {
        var kvp := keyValuePairs[i];
        assert keyValuePairs[..i + 1][..i] == keyValuePairs[..i];
        var j := IndexOfKey(dictionary, kvp.key);
        if j < |dictionary| {
          dictionary := dictionary[j := kvp];
        } else {
          dictionary := dictionary + [kvp];
        }
        i := i + 1;
      }
      assert keyValuePairs[..i] == keyValuePairs;
      CollapseKeys(keyValuePairs);
      forall key ensures Find(dictionary, key) == LastValue(keyValuePairs, key)
      {
        CollapseLastWins(keyValuePairs, key);
      }
    }
  }
}
