/** Python dictionaries with string keys: they keep their insertion order,
    so they are sequences of key/value pairs with distinct keys. */
module PyDict {
  import opened Util

  function Keys<V>(d: seq<(string, V)>): (r: seq<string>)
    ensures |r| == |d| && forall i :: 0 <= i < |d| ==> r[i] == d[i].0
  {
    seq(|d|, i requires 0 <= i < |d| => d[i].0)
  }

  /** The position of `key`. */
  function Find<V>(d: seq<(string, V)>, key: string): (r: Option<nat>)
    ensures r.None? <==> key !in Keys(d)
    ensures r.Some? ==> r.value < |d| && d[r.value].0 == key
    ensures r.Some? ==> forall j :: 0 <= j < r.value ==> d[j].0 != key
  {
    if d == [] then None
    else if d[0].0 == key then Some(0)
    else
      assert Keys(d) == [d[0].0] + Keys(d[1..]);
      match Find(d[1..], key)
      case None => None
      case Some(k) => Some(k + 1)
  }

  /** `d.get(key)`. */
  function Entry<V>(d: seq<(string, V)>, key: string): (r: Option<V>)
    ensures r.None? <==> key !in Keys(d)
  {
    match Find(d, key)
    case None => None
    case Some(k) => Some(d[k].1)
  }

  /** With distinct keys, the entry at a position is the one `get` finds. */
  lemma EntryAt<V>(d: seq<(string, V)>, k: nat)
    requires NoDuplicates(Keys(d)) && k < |d|
    ensures Entry(d, d[k].0) == Some(d[k].1)
  {
    var f := Find(d, d[k].0).value;
    DistinctAt(Keys(d), f, k);
    assert Find(d, d[k].0) == Some(k);
  }

  lemma DistinctAt<T>(s: seq<T>, i: nat, j: nat)
    requires NoDuplicates(s) && i < |s| && j < |s| && s[i] == s[j]
    ensures i == j
  {
  }

  /** `if key not in d: d[key] = init`. */
  function Ensure<V>(d: seq<(string, V)>, key: string, init: V): (r: seq<(string, V)>)
    ensures Keys(r) == (if key in Keys(d) then Keys(d) else Keys(d) + [key])
    ensures r[..|d|] == d
  {
    if key in Keys(d) then d
    else
      assert Keys(d + [(key, init)]) == Keys(d) + [key];
      d + [(key, init)]
  }

  /** `if key not in d: d[key] = init`, then `d[key] = step(d[key])`. */
  lemma UpsertFacts<V>(d: seq<(string, V)>, key: string, init: V, v: V, other: string)
    requires NoDuplicates(Keys(d))
    ensures var d1 := Ensure(d, key, init);
      var k := Find(d1, key).value;
      var d2 := d1[k := (key, v)];
      NoDuplicates(Keys(d2)) &&
      Keys(d2) == (if key in Keys(d) then Keys(d) else Keys(d) + [key]) &&
      Entry(d2, key) == Some(v) &&
      (other != key ==> Entry(d2, other) == Entry(d, other))
  {
    var d1 := Ensure(d, key, init);
    var k := Find(d1, key).value;
    UpsertAt(d, key, init, v, other, d1, k, d1[k := (key, v)]);
  }

  /** The same, with the intermediate dictionaries named. */
  lemma UpsertAt<V>(d: seq<(string, V)>, key: string, init: V, v: V, other: string,
                    d1: seq<(string, V)>, k: nat, d2: seq<(string, V)>)
    requires NoDuplicates(Keys(d))
    requires d1 == Ensure(d, key, init) && k < |d1| && d1[k].0 == key && d2 == d1[k := (key, v)]
    ensures NoDuplicates(Keys(d2))
    ensures Keys(d2) == (if key in Keys(d) then Keys(d) else Keys(d) + [key])
    ensures Entry(d2, key) == Some(v)
    ensures other != key ==> Entry(d2, other) == Entry(d, other)
  {
    EnsureDistinct(d, key, init, d1);
    KeysKept(d1, k, (key, v), d2);
    EntryAt(d2, k);
    if other != key {
      if other in Keys(d) {
        var j := Find(d, other).value;
        assert d1[..|d|][j] == d[j];
        OtherKept(d, d2, j);
      } else {
        assert other !in Keys(d2);
      }
    }
  }

  /** After `Ensure`, the key holds its old value, or `init` if it was missing. */
  lemma EnsuredAt<V>(d: seq<(string, V)>, key: string, init: V, d1: seq<(string, V)>, k: nat)
    requires NoDuplicates(Keys(d)) && d1 == Ensure(d, key, init) && k < |d1| && d1[k].0 == key
    ensures d1[k].1 == Entry(d, key).GetOr(init)
  {
    if key in Keys(d) {
      EntryAt(d, k);
    } else {
      assert forall i :: 0 <= i < |d| ==> Keys(d)[i] != key;
      assert d1 == d + [(key, init)];
    }
  }

  /** Adding a missing key keeps the keys distinct. */
  lemma EnsureDistinct<V>(d: seq<(string, V)>, key: string, init: V, d1: seq<(string, V)>)
    requires NoDuplicates(Keys(d)) && d1 == Ensure(d, key, init)
    ensures NoDuplicates(Keys(d1))
  {
    if key !in Keys(d) {
      var ks := Keys(d) + [key];
      forall i, j | 0 <= i < j < |ks| ensures ks[i] != ks[j] {
        assert ks[i] == Keys(d)[i];
        if j < |Keys(d)| { assert ks[j] == Keys(d)[j]; }
      }
    }
  }

  /** Overwriting a value under the same key keeps the keys. */
  lemma KeysKept<V>(d: seq<(string, V)>, k: nat, p: (string, V), d2: seq<(string, V)>)
    requires k < |d| && p.0 == d[k].0 && d2 == d[k := p]
    ensures Keys(d2) == Keys(d)
  {
  }

  /** An entry that the update did not touch is found as before. */
  lemma OtherKept<V>(d: seq<(string, V)>, d2: seq<(string, V)>, j: nat)
    requires NoDuplicates(Keys(d)) && NoDuplicates(Keys(d2))
    requires j < |d| && j < |d2| && d2[j] == d[j]
    ensures Entry(d2, d[j].0) == Entry(d, d[j].0)
  {
    EntryAt(d2, j);
    EntryAt(d, j);
  }
}
