/**
 * JavaScript object literals with string keys, as insertion-ordered lists
 * of (key, value) pairs: property access, property assignment and the
 * object spread `{...a, ...b}`. For non-numeric keys this order is the one
 * `Object.keys` and `Object.values` report.
 */
module ObjectTables {
  import opened Wrappers

  type Table<V> = seq<(string, V)>

  /** `Object.keys(t)`. */
  function Keys<V>(t: Table<V>): (ks: seq<string>)
    ensures |ks| == |t|
  {
    seq(|t|, i requires 0 <= i < |t| => t[i].0)
  }

  /** `Object.values(t)`. */
  function Values<V>(t: Table<V>): (vs: seq<V>)
    ensures |vs| == |t|
  {
    seq(|t|, i requires 0 <= i < |t| => t[i].1)
  }

  lemma KeysCons<V>(t: Table<V>)
    requires t != []
    ensures Keys(t) == [t[0].0] + Keys(t[1..])
  {
  }

  lemma KeysConcat<V>(a: Table<V>, b: Table<V>)
    ensures Keys(a + b) == Keys(a) + Keys(b)
  {
  }

  lemma ValuesConcat<V>(a: Table<V>, b: Table<V>)
    ensures Values(a + b) == Values(a) + Values(b)
  {
  }

  /** No key occurs twice. */
  predicate Distinct(ks: seq<string>)
  {
    forall i, j :: 0 <= i < j < |ks| ==> ks[i] != ks[j]
  }

  /** Two key lists with no key in common. */
  predicate Disjoint(ks: seq<string>, ls: seq<string>)
  {
    forall k :: k in ks ==> k !in ls
  }

  lemma DistinctConcat(ks: seq<string>, ls: seq<string>)
    requires Distinct(ks) && Distinct(ls) && Disjoint(ls, ks)
    ensures Distinct(ks + ls)
  {
    forall i, j | 0 <= i < j < |ks + ls|
      ensures (ks + ls)[i] != (ks + ls)[j]
    {
      if i < |ks| <= j {
        assert (ks + ls)[j] == ls[j - |ks|];
        assert ls[j - |ks|] in ls;
      }
    }
  }

  /** Property access `t[key]`: the value stored under `key`, if any. */
  function Lookup<V(==)>(t: Table<V>, key: string): (r: Option<V>)
    ensures r.None? <==> key !in Keys(t)
    ensures r.Some? ==> (key, r.value) in t
  {
    if t == [] then None
    else if t[0].0 == key then assert Keys(t)[0] == key; Some(t[0].1)
    else KeysCons(t); Lookup(t[1..], key)
  }

  /** Looking a key up in `a + b` finds `a`'s entry first. */
  lemma {:induction false} LookupConcat<V>(a: Table<V>, b: Table<V>, key: string)
    ensures Lookup(a + b, key) == if key in Keys(a) then Lookup(a, key) else Lookup(b, key)
  {
    if a == [] {
      assert a + b == b;
    } else {
      assert (a + b)[1..] == a[1..] + b;
      KeysCons(a);
      LookupConcat(a[1..], b, key);
    }
  }

  /** A value found by lookup is one of the table's values. */
  lemma LookupIsValue<V>(t: Table<V>, key: string)
    requires Lookup(t, key).Some?
    ensures Lookup(t, key).value in Values(t)
  {
    var i :| 0 <= i < |t| && t[i] == (key, Lookup(t, key).value);
    assert Values(t)[i] == Lookup(t, key).value;
  }

  lemma DistinctKeysTail<V>(t: Table<V>)
    requires t != [] && Distinct(Keys(t))
    ensures Distinct(Keys(t[1..]))
  {
    forall a, b | 0 <= a < b < |t| - 1
      ensures Keys(t[1..])[a] != Keys(t[1..])[b]
    {
      assert Keys(t)[a + 1] != Keys(t)[b + 1];
    }
  }

  /** With distinct keys, looking up the key at position `j` finds the value at position `j`. */
  lemma {:induction false} LookupDistinctAt<V>(t: Table<V>, j: int)
    requires Distinct(Keys(t)) && 0 <= j < |t|
    ensures Lookup(t, t[j].0) == Some(t[j].1)
  {
    KeysCons(t);
    if j > 0 {
      assert Keys(t)[0] != Keys(t)[j];
      DistinctKeysTail(t);
      LookupDistinctAt(t[1..], j - 1);
    }
  }

  /** Assignment `t[key] = v`: an existing key keeps its position, a new key goes last. */
  function Assign<V>(t: Table<V>, key: string, v: V): Table<V>
  {
    if t == [] then [(key, v)]
    else if t[0].0 == key then [(key, v)] + t[1..]
    else [t[0]] + Assign(t[1..], key, v)
  }

  /** Assignment keeps the key order and adds a key only when it is new, at the end. */
  lemma {:induction false} AssignKeys<V>(t: Table<V>, key: string, v: V)
    ensures Keys(Assign(t, key, v)) == if key in Keys(t) then Keys(t) else Keys(t) + [key]
  {
    if t != [] {
      KeysCons(t);
      if t[0].0 != key {
        AssignKeys(t[1..], key, v);
        KeysConcat([t[0]], Assign(t[1..], key, v));
      } else {
        assert Keys(t)[0] == key;
      }
    }
  }

  /** With distinct keys, assigning to the key at position `j` replaces that entry and nothing else. */
  lemma {:induction false} AssignDistinctAt<V>(t: Table<V>, j: int, v: V)
    requires Distinct(Keys(t)) && 0 <= j < |t|
    ensures Assign(t, t[j].0, v) == t[j := (t[j].0, v)]
  {
    if j > 0 {
      assert Keys(t)[0] != Keys(t)[j];
      DistinctKeysTail(t);
      AssignDistinctAt(t[1..], j - 1, v);
      assert t[j := (t[j].0, v)] == [t[0]] + t[1..][j - 1 := (t[j].0, v)];
    } else {
      assert t[0 := (t[0].0, v)] == [(t[0].0, v)] + t[1..];
    }
  }

  /** The object spread `{...a, ...b}`: `b`'s properties assigned one by one onto a copy of `a`. */
  function Spread<V>(a: Table<V>, b: Table<V>): Table<V>
    decreases b
  {
    if b == [] then a else Spread(Assign(a, b[0].0, b[0].1), b[1..])
  }

  lemma {:induction false} AssignNewKeyAppends<V>(t: Table<V>, key: string, v: V)
    requires key !in Keys(t)
    ensures Assign(t, key, v) == t + [(key, v)]
  {
    if t != [] {
      KeysCons(t);
      AssignNewKeyAppends(t[1..], key, v);
      assert t == [t[0]] + t[1..];
    }
  }

  /** Spreading a table with distinct keys, none already present, appends it. */
  lemma {:induction false} SpreadDisjointAppends<V>(a: Table<V>, b: Table<V>)
    requires Distinct(Keys(b)) && Disjoint(Keys(b), Keys(a))
    ensures Spread(a, b) == a + b
    decreases b
  {
    if b != [] {
      var k0 := b[0].0;
      KeysCons(b);
      AssignNewKeyAppends(a, k0, b[0].1);
      var a' := a + [b[0]];
      KeysConcat(a, [b[0]]);
      assert Keys(a') == Keys(a) + [k0];
      assert Distinct(Keys(b[1..])) && Disjoint(Keys(b[1..]), Keys(a')) by {
        forall i, j | 0 <= i < j < |Keys(b[1..])|
          ensures Keys(b[1..])[i] != Keys(b[1..])[j]
        {
          assert Keys(b)[i + 1] != Keys(b)[j + 1];
        }
        forall k | k in Keys(b[1..])
          ensures k !in Keys(a')
        {
          var j :| 0 <= j < |Keys(b[1..])| && Keys(b[1..])[j] == k;
          assert Keys(b)[0] != Keys(b)[j + 1];
        }
      }
      SpreadDisjointAppends(a', b[1..]);
      assert a' + b[1..] == a + b;
    }
  }

  /** Properties every plain JavaScript object inherits; all of them are truthy. */
  function InheritedProperties(): set<string>
  {
    {"constructor", "hasOwnProperty", "isPrototypeOf", "propertyIsEnumerable", "toLocaleString",
     "toString", "valueOf", "__proto__", "__defineGetter__", "__defineSetter__",
     "__lookupGetter__", "__lookupSetter__"}
  }
}
