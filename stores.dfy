/** The in-memory repositories keep a Python `dict` from id to record. A dict remembers
    insertion order: a new key goes to the end, overwriting a key keeps its place, and
    deleting a key removes it. `Store` is that dictionary as a value: the keys in
    iteration order beside the entries. */
module Stores {
  import opened Errors

  datatype Store<V> = Store(order: seq<int>, entries: map<int, V>)

  ghost predicate NoDuplicates(order: seq<int>)
    decreases |order|
  {
    order == [] || (order[0] !in order[1..] && NoDuplicates(order[1..]))
  }

  /** The key sequence lists the keys of the dictionary and nothing else. */
  ghost predicate Listed<V>(s: Store<V>)
  {
    && (forall i :: 0 <= i < |s.order| ==> s.order[i] in s.entries)
    && (forall k :: k in s.entries ==> k in s.order)
  }

  /** The key sequence lists every key of the dictionary exactly once. */
  ghost predicate Valid<V>(s: Store<V>)
  {
    Listed(s) && NoDuplicates(s.order)
  }

  function Empty<V>(): (s: Store<V>)
    ensures Valid(s) && s.entries == map[]
  {
    Store([], map[])
  }

  /** `dict.get(key)`. */
  /** `dict.get(key)`: the value stored under the key, or `None` exactly when it is absent. */
  function Get<V>(s: Store<V>, key: int): (r: Option<V>)
    ensures r.Some? <==> key in s.entries
    ensures r.Some? ==> r.value == s.entries[key]
  {
    if key in s.entries then Some(s.entries[key]) else None
  }

  function ValuesOf<V>(order: seq<int>, entries: map<int, V>): seq<V>
    decreases |order|
  {
    if order == [] then []
    else (if order[0] in entries then [entries[order[0]]] else []) + ValuesOf(order[1..], entries)
  }

  /** `list(dict.values())`: the entries in iteration order. */
  function Values<V>(s: Store<V>): seq<V>
  {
    ValuesOf(s.order, s.entries)
  }

  /** `dict[key] = value`. */
  function Put<V>(s: Store<V>, key: int, value: V): (r: Store<V>)
    ensures Listed(s) ==> Listed(r)
    ensures Valid(s) ==> Valid(r)
    ensures r.entries == s.entries[key := value]
  {
    AppendNoDuplicates(s.order, key);
    Store(if key in s.entries then s.order else s.order + [key], s.entries[key := value])
  }

  /** A key not listed yet can be appended. */
  lemma {:induction false} AppendNoDuplicates(order: seq<int>, key: int)
    ensures NoDuplicates(order) && key !in order ==> NoDuplicates(order + [key])
    decreases |order|
  {
    if order != [] && NoDuplicates(order) && key !in order {
      AppendNoDuplicates(order[1..], key);
      assert (order + [key])[1..] == order[1..] + [key];
    }
  }

  function RemoveKey(order: seq<int>, key: int): (r: seq<int>)
    ensures forall x :: x in r <==> x in order && x != key
    decreases |order|
  {
    if order == [] then []
    else if order[0] == key then RemoveKey(order[1..], key)
    else [order[0]] + RemoveKey(order[1..], key)
  }

  /** `del dict[key]` when the key is present; the dictionary is left as it is otherwise. */
  function Remove<V>(s: Store<V>, key: int): (r: Store<V>)
    ensures r.entries == s.entries - {key}
  {
    if key in s.entries then Store(RemoveKey(s.order, key), s.entries - {key}) else s
  }

  lemma {:induction false} RemoveKeyNoDuplicates(order: seq<int>, key: int)
    requires NoDuplicates(order)
    ensures NoDuplicates(RemoveKey(order, key))
    decreases |order|
  {
    if order != [] {
      RemoveKeyNoDuplicates(order[1..], key);
      if order[0] != key {
        var r := [order[0]] + RemoveKey(order[1..], key);
        assert r[1..] == RemoveKey(order[1..], key);
      }
    }
  }

  /** Deleting a key keeps every remaining key listed exactly once. */
  lemma RemoveKeepsValid<V>(s: Store<V>, key: int)
    requires Listed(s)
    ensures Listed(Remove(s, key))
    ensures Valid(s) ==> Valid(Remove(s, key))
  {
    if key in s.entries {
      if NoDuplicates(s.order) {
        RemoveKeyNoDuplicates(s.order, key);
      }
      var r := Remove(s, key);
      forall i | 0 <= i < |r.order| ensures r.order[i] in r.entries {
        assert r.order[i] in s.order;
      }
    }
  }

  lemma {:induction false} ValuesOfAllPresent<V>(order: seq<int>, entries: map<int, V>)
    requires forall i :: 0 <= i < |order| ==> order[i] in entries
    ensures |ValuesOf(order, entries)| == |order|
    ensures forall i :: 0 <= i < |order| ==> ValuesOf(order, entries)[i] == entries[order[i]]
    decreases |order|
  {
    if order != [] {
      ValuesOfAllPresent(order[1..], entries);
    }
  }

  lemma {:induction false} DistinctCardinality(order: seq<int>)
    requires NoDuplicates(order)
    ensures |set k | k in order| == |order|
    decreases |order|
  {
    if order != [] {
      DistinctCardinality(order[1..]);
      assert (set k | k in order) == {order[0]} + (set k | k in order[1..]);
      assert order[0] !in (set k | k in order[1..]);
    }
  }

  /** `len(list(dict.values())) == len(dict)`. */
  lemma ValuesLength<V>(s: Store<V>)
    requires Valid(s)
    ensures |Values(s)| == |s.entries|
  {
    ValuesOfAllPresent(s.order, s.entries);
    DistinctCardinality(s.order);
    forall k | k in s.order ensures k in s.entries {
      var i :| 0 <= i < |s.order| && s.order[i] == k;
    }
    var keys := set k | k in s.order;
    forall k ensures k in keys <==> k in s.entries.Keys {
      if k in s.entries.Keys {
        assert k in s.entries;
      }
    }
    assert keys == s.entries.Keys;
  }

  /** Every value listed is stored under some key, and every stored value is listed. */
  lemma ValuesMembership<V>(s: Store<V>, v: V)
    requires Listed(s)
    ensures v in Values(s) <==> exists k :: k in s.entries && s.entries[k] == v
  {
    ValuesOfAllPresent(s.order, s.entries);
    if v in Values(s) {
      var i :| 0 <= i < |Values(s)| && Values(s)[i] == v;
      assert s.order[i] in s.entries && s.entries[s.order[i]] == v;
    }
    if exists k :: k in s.entries && s.entries[k] == v {
      var k :| k in s.entries && s.entries[k] == v;
      var i :| 0 <= i < |s.order| && s.order[i] == k;
      assert Values(s)[i] == v;
    }
  }

  lemma {:induction false} ValuesOfIgnoresAbsent<V>(order: seq<int>, entries: map<int, V>, key: int, value: V)
    requires key !in order
    ensures ValuesOf(order, entries[key := value]) == ValuesOf(order, entries)
    decreases |order|
  {
    if order != [] {
      ValuesOfIgnoresAbsent(order[1..], entries, key, value);
    }
  }

  lemma {:induction false} ValuesOfAppend<V>(order: seq<int>, key: int, entries: map<int, V>)
    requires key in entries
    ensures ValuesOf(order + [key], entries) == ValuesOf(order, entries) + [entries[key]]
    decreases |order|
  {
    if order == [] {
      assert order + [key] == [key];
    } else {
      var longer := order + [key];
      var head := if order[0] in entries then [entries[order[0]]] else [];
      assert longer[0] == order[0] && longer[1..] == order[1..] + [key];
      ValuesOfAppend(order[1..], key, entries);
      calc {
        ValuesOf(longer, entries);
        head + ValuesOf(order[1..] + [key], entries);
        head + (ValuesOf(order[1..], entries) + [entries[key]]);
        (head + ValuesOf(order[1..], entries)) + [entries[key]];
      }
    }
  }

  /** A new key's value is listed last and every earlier value keeps its place. */
  lemma PutNewKeyAppends<V>(s: Store<V>, key: int, value: V)
    requires Listed(s) && key !in s.entries
    ensures Values(Put(s, key, value)) == Values(s) + [value]
  {
    ValuesOfAppend(s.order, key, s.entries[key := value]);
    ValuesOfIgnoresAbsent(s.order, s.entries, key, value);
  }

  /** Overwriting a present key keeps the iteration order of the keys. */
  lemma PutPresentKeyKeepsOrder<V>(s: Store<V>, key: int, value: V)
    requires key in s.entries
    ensures Put(s, key, value).order == s.order
  {
  }

  /** The first element, in iteration order, that satisfies `p`: what a loop over
      `dict.values()` with an early `return` finds. */
  function First<V>(vs: seq<V>, p: V -> bool): (r: Option<V>)
    ensures r.None? <==> forall i :: 0 <= i < |vs| ==> !p(vs[i])
    ensures r.Some? ==> exists i :: 0 <= i < |vs| && vs[i] == r.value && p(vs[i]) &&
                                    forall j :: 0 <= j < i ==> !p(vs[j])
    decreases |vs|
  {
    if vs == [] then None
    else if p(vs[0]) then Some(vs[0])
    else
      var r := First(vs[1..], p);
      assert forall j :: 1 <= j < |vs| ==> vs[j] == vs[1..][j - 1];
      r
  }

  /** One step of such a loop over the keys: the value under the current key is looked at
      first, then the values under the later keys. */
  lemma ValuesOfStep<V>(order: seq<int>, entries: map<int, V>, i: nat)
    requires i < |order| && order[i] in entries
    ensures ValuesOf(order[i..], entries) == [entries[order[i]]] + ValuesOf(order[i + 1..], entries)
  {
    assert order[i..][1..] == order[i + 1..];
  }

  /** Which stored values a first-match search can find: exactly the stored ones that
      satisfy `p`, whatever their place in the iteration order. */
  lemma FirstInStore<V>(s: Store<V>, p: V -> bool)
    requires Listed(s)
    ensures First(Values(s), p).Some? <==> exists k :: k in s.entries && p(s.entries[k])
    ensures First(Values(s), p).Some? ==>
              exists k :: k in s.entries && s.entries[k] == First(Values(s), p).value
  {
    var vs := Values(s);
    var r := First(vs, p);
    if r.Some? {
      var i :| 0 <= i < |vs| && vs[i] == r.value && p(vs[i]);
      ValuesMembership(s, vs[i]);
    } else {
      forall k | k in s.entries ensures !p(s.entries[k]) {
        ValuesMembership(s, s.entries[k]);
      }
    }
  }
}
