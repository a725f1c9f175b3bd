/**
 * A JavaScript object used as a string-keyed table: lookups, assignment
 * (which keeps an existing key in place and appends a new one at the end)
 * and `delete`. The mock backend keeps its sessions, keyed by invite token,
 * in such an object and searches it in insertion order.
 */
module KeyedTable {
  import opened JsCore

  datatype Row<T> = Row(key: string, value: T)

  predicate HasKey<T>(t: seq<Row<T>>, key: string) {
    exists i :: 0 <= i < |t| && t[i].key == key
  }

  predicate UniqueKeys<T>(t: seq<Row<T>>) {
    forall i, j :: 0 <= i < j < |t| ==> t[i].key != t[j].key
  }

  /** `obj[key]`, with `undefined` as None. */
  function Get<T>(t: seq<Row<T>>, key: string): (r: Option<T>)
    ensures r.Some? <==> HasKey(t, key)
    ensures r.Some? ==> exists i :: 0 <= i < |t| && t[i] == Row(key, r.value)
  {
    if t == [] then None
    else if t[0].key == key then Some(t[0].value)
    else
      var r := Get(t[1..], key);
      assert HasKey(t, key) ==> HasKey(t[1..], key) by {
        if HasKey(t, key) {
          var i :| 0 <= i < |t| && t[i].key == key;
          assert t[1..][i - 1].key == key;
        }
      }
      assert r.Some? ==> exists i :: 0 <= i < |t| && t[i] == Row(key, r.value) by {
        if r.Some? {
          var i :| 0 <= i < |t[1..]| && t[1..][i] == Row(key, r.value);
          assert t[i + 1] == Row(key, r.value);
        }
      }
      r
  }

  /** `obj[key] = value`: an existing key keeps its place, a new one goes last. */
  function Set<T>(t: seq<Row<T>>, key: string, value: T): (r: seq<Row<T>>)
    ensures HasKey(t, key) ==> |r| == |t| && forall i :: 0 <= i < |t| ==> r[i].key == t[i].key
    ensures !HasKey(t, key) ==> r == t + [Row(key, value)]
    ensures forall x :: x in r ==> x in t || x == Row(key, value)
  {
    if t == [] then [Row(key, value)]
    else if t[0].key == key then [Row(key, value)] + t[1..]
    else
      HasKeyTail(t, key);
      assert !HasKey(t, key) ==> [t[0]] + (t[1..] + [Row(key, value)]) == t + [Row(key, value)];
      [t[0]] + Set(t[1..], key, value)
  }

  /** Past a first row with another key, the key is present iff it is in the tail. */
  lemma HasKeyTail<T>(t: seq<Row<T>>, key: string)
    requires t != [] && t[0].key != key
    ensures HasKey(t, key) <==> HasKey(t[1..], key)
  {
    if HasKey(t, key) {
      var i :| 0 <= i < |t| && t[i].key == key;
      assert t[1..][i - 1].key == key;
    }
    if HasKey(t[1..], key) {
      var i :| 0 <= i < |t[1..]| && t[1..][i].key == key;
      assert t[i + 1].key == key;
    }
  }

  lemma GetCons<T>(x: Row<T>, t: seq<Row<T>>, k: string)
    ensures Get([x] + t, k) == if x.key == k then Some(x.value) else Get(t, k)
  {
    assert ([x] + t)[1..] == t;
  }

  /** After an assignment the key reads back the value and every other key reads
      what it read before. */
  lemma {:induction false} SetThenGet<T>(t: seq<Row<T>>, key: string, value: T, k: string)
    ensures Get(Set(t, key, value), k) == if k == key then Some(value) else Get(t, k)
    decreases |t|
  {
    if t == [] {
    } else if t[0].key == key {
      GetCons(Row(key, value), t[1..], k);
      assert t == [t[0]] + t[1..];
      GetCons(t[0], t[1..], k);
    } else {
      SetThenGet(t[1..], key, value, k);
      GetCons(t[0], Set(t[1..], key, value), k);
      assert t == [t[0]] + t[1..];
      GetCons(t[0], t[1..], k);
    }
  }

  /** `delete obj[key]`. */
  function Delete<T>(t: seq<Row<T>>, key: string): (r: seq<Row<T>>)
    ensures !HasKey(r, key)
    ensures forall k :: k != key ==> Get(r, k) == Get(t, k)
    ensures forall x :: x in r ==> x in t
  {
    if t == [] then []
    else if t[0].key == key then Delete(t[1..], key)
    else [t[0]] + Delete(t[1..], key)
  }

  /** Assignment keeps the keys unique. */
  lemma SetKeepsUnique<T>(t: seq<Row<T>>, key: string, value: T)
    requires UniqueKeys(t)
    ensures UniqueKeys(Set(t, key, value))
  {
    var r := Set(t, key, value);
    if !HasKey(t, key) {
      forall i, j | 0 <= i < j < |r|
        ensures r[i].key != r[j].key
      {
        if j == |t| {
          assert r[i] == t[i];
        }
      }
    }
  }

  /** Deleting keeps the keys unique. */
  lemma {:induction false} DeleteKeepsUnique<T>(t: seq<Row<T>>, key: string)
    requires UniqueKeys(t)
    ensures UniqueKeys(Delete(t, key))
    decreases |t|
  {
    if t != [] {
      DeleteKeepsUnique(t[1..], key);
      if t[0].key != key {
        var rest := Delete(t[1..], key);
        forall x | x in rest
          ensures x.key != t[0].key
        {
          assert x in t[1..];
        }
      }
    }
  }

  /** Deleting a key that is not there changes nothing. */
  lemma {:induction false} DeleteAbsent<T>(t: seq<Row<T>>, key: string)
    requires !HasKey(t, key)
    ensures Delete(t, key) == t
    decreases |t|
  {
    if t != [] {
      HasKeyTail(t, key);
      DeleteAbsent(t[1..], key);
    }
  }

  /** Deleting the key just appended gives back the table it was appended to. */
  lemma {:induction false} DeleteAppended<T>(t: seq<Row<T>>, key: string, value: T)
    requires !HasKey(t, key)
    ensures Delete(t + [Row(key, value)], key) == t
    decreases |t|
  {
    if t == [] {
      assert [Row(key, value)][1..] == [];
    } else {
      HasKeyTail(t, key);
      assert (t + [Row(key, value)])[1..] == t[1..] + [Row(key, value)];
      DeleteAppended(t[1..], key, value);
      assert [t[0]] + t[1..] == t;
    }
  }
}
