/** `undefined`-or-a-value, as JavaScript expressions of an optional type yield. */
module Wrappers {
  datatype Option<+T> = None | Some(value: T)
}

/**
 * The part of ECMAScript ordinary objects the view host relies on: an object
 * literal whose string-keyed data properties are created one after another
 * (section 13.2.5.4 of ECMA-262, PropertyDefinitionEvaluation), `Object.keys`
 * reporting string keys in creation order (section 10.1.11.1,
 * OrdinaryOwnPropertyKeys, for keys that are not array indices), and the
 * computed member access `o[key]` on an own property.
 */
module JsObject {
  import opened Wrappers

  /** Own data properties, in the order they were created. */
  datatype Obj<V> = Obj(props: seq<(string, V)>)

  /** The keys of a property list, in order. */
  function KeysOf<V>(ps: seq<(string, V)>): (ks: seq<string>) {
    seq(|ps|, i requires 0 <= i < |ps| => ps[i].0)
  }

  /** `Object.keys(o)`. */
  function Keys<V>(o: Obj<V>): (ks: seq<string>) {
    KeysOf(o.props)
  }

  /** The value stored under `key`, or None when `key` is not an own property. */
  function Lookup<V>(ps: seq<(string, V)>, key: string): (r: Option<V>)
    ensures r.None? <==> key !in KeysOf(ps)
    ensures r.Some? ==> exists i :: 0 <= i < |ps| && ps[i] == (key, r.value)
    decreases |ps|
  {
    if ps == [] then None
    else if ps[0].0 == key then
      assert KeysOf(ps)[0] == key;
      Some(ps[0].1)
    else
      assert KeysOf(ps) == [ps[0].0] + KeysOf(ps[1..]);
      var r := Lookup(ps[1..], key);
      assert r.Some? ==> exists i :: 0 <= i < |ps[1..]| && ps[1..][i] == (key, r.value);
      r
  }

  /** `o[key]` for an own property (prototype lookups are not modelled). */
  function Get<V>(o: Obj<V>, key: string): (r: Option<V>) {
    Lookup(o.props, key)
  }

  /**
   * Creating a data property: an existing key keeps its position and takes
   * the new value, a new key goes after all existing ones.
   */
  function Put<V>(ps: seq<(string, V)>, key: string, v: V): (r: seq<(string, V)>)
    decreases |ps|
  {
    if ps == [] then [(key, v)]
    else if ps[0].0 == key then [(key, v)] + ps[1..]
    else [ps[0]] + Put(ps[1..], key, v)
  }

  /** Creating a property leaves the key order alone, or appends a new key. */
  lemma {:induction false} PutKeys<V>(ps: seq<(string, V)>, key: string, v: V)
    ensures KeysOf(Put(ps, key, v)) == if key in KeysOf(ps) then KeysOf(ps) else KeysOf(ps) + [key]
    decreases |ps|
  {
    if ps == [] {
    } else if ps[0].0 == key {
      assert KeysOf(ps)[0] == key;
      assert KeysOf([(key, v)] + ps[1..]) == KeysOf(ps);
    } else {
      var rest := Put(ps[1..], key, v);
      PutKeys(ps[1..], key, v);
      assert KeysOf(ps) == [ps[0].0] + KeysOf(ps[1..]);
      assert KeysOf([ps[0]] + rest) == [ps[0].0] + KeysOf(rest);
    }
  }

  /** After creating `key`, it reads back `v`; every other key reads as before. */
  lemma {:induction false} PutLookup<V>(ps: seq<(string, V)>, key: string, v: V, k: string)
    ensures Lookup(Put(ps, key, v), k) == if k == key then Some(v) else Lookup(ps, k)
    decreases |ps|
  {
    if ps != [] && ps[0].0 != key {
      var rest := Put(ps[1..], key, v);
      assert ([ps[0]] + rest)[1..] == rest;
      if ps[0].0 != k {
        PutLookup(ps[1..], key, v, k);
      }
    }
  }

  /** Defines property `key` of `o` with value `v`. */
  function Define<V>(o: Obj<V>, key: string, v: V): (r: Obj<V>) {
    Obj(Put(o.props, key, v))
  }

  /** The object an object literal `{k0: v0, k1: v1, ...}` evaluates to. */
  function Literal<V>(entries: seq<(string, V)>): (o: Obj<V>)
    decreases |entries|
  {
    if entries == [] then Obj([])
    else
      var n := |entries| - 1;
      Define(Literal(entries[..n]), entries[n].0, entries[n].1)
  }

  /** No key is written twice in the literal. */
  predicate DistinctKeys<V>(entries: seq<(string, V)>) {
    forall i, j :: 0 <= i < j < |entries| ==> entries[i].0 != entries[j].0
  }

  /** `Object.keys` of a literal with distinct keys lists them as written. */
  lemma {:induction false} LiteralKeys<V>(entries: seq<(string, V)>)
    requires DistinctKeys(entries)
    ensures Keys(Literal(entries)) == KeysOf(entries)
    decreases |entries|
  {
    if entries != [] {
      var n := |entries| - 1;
      var init := entries[..n];
      assert DistinctKeys(init);
      LiteralKeys(init);
      PutKeys(Literal(init).props, entries[n].0, entries[n].1);
      assert KeysOf(init) + [entries[n].0] == KeysOf(entries);
      assert entries[n].0 !in KeysOf(init) by {
        forall i | 0 <= i < |init| ensures KeysOf(init)[i] != entries[n].0 {
          assert init[i] == entries[i];
        }
      }
    }
  }

  /** A key the literal never writes is not a property of the object. */
  lemma {:induction false} LiteralMiss<V>(entries: seq<(string, V)>, key: string)
    requires key !in KeysOf(entries)
    ensures Get(Literal(entries), key) == None
    decreases |entries|
  {
    if entries != [] {
      var n := |entries| - 1;
      var init := entries[..n];
      assert key != entries[n].0 by {
        assert KeysOf(entries)[n] == entries[n].0;
      }
      assert key !in KeysOf(init) by {
        forall i | 0 <= i < |init| ensures KeysOf(init)[i] != key {
          assert KeysOf(entries)[i] == KeysOf(init)[i];
        }
      }
      LiteralMiss(init, key);
      PutLookup(Literal(init).props, entries[n].0, entries[n].1, key);
    }
  }

  /** In a literal with distinct keys, each key reads back the value written with it. */
  lemma {:induction false} LiteralHit<V>(entries: seq<(string, V)>, i: nat)
    requires DistinctKeys(entries)
    requires i < |entries|
    ensures Get(Literal(entries), entries[i].0) == Some(entries[i].1)
    decreases |entries|
  {
    var n := |entries| - 1;
    var init := entries[..n];
    PutLookup(Literal(init).props, entries[n].0, entries[n].1, entries[i].0);
    if i < n {
      assert DistinctKeys(init);
      assert init[i] == entries[i];
      LiteralHit(init, i);
      assert entries[i].0 != entries[n].0;
    }
  }
}

/** React's `useState` setter argument. */
module React {
  /** `SetStateAction<S>`: the next value itself, or a function of the previous value. */
  datatype SetStateAction<!S> = Value(next: S) | Updater(f: S -> S)

  /** The value a state holds after its setter was called with `a`. */
  function Next<S>(a: SetStateAction<S>, prev: S): (r: S) {
    match a
    case Value(next) => next
    case Updater(f) => f(prev)
  }
}
