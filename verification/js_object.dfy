/**
 Plain JavaScript objects as the screens use them: the form draft, the error
 map, the rows of a list response. An object is its own-property list in
 `Object.keys` order (insertion order), each key at most once.
 */
module JsObject {
  import opened Js

  datatype Prop = Prop(key: string, value: Value)

  function KeySet(o: seq<Prop>): set<string>
  {
    set p | p in o :: p.key
  }

  /** No key occurs twice. */
  predicate UniqueKeys(o: seq<Prop>)
  {
    forall i, j :: 0 <= i < j < |o| ==> o[i].key != o[j].key
  }

  /** A JavaScript object: properties in insertion order, keys unique. */
  type Obj = o: seq<Prop> | UniqueKeys(o)

  /** `Object.keys(o)`: the keys in insertion order. */
  function Keys(o: seq<Prop>): (ks: seq<string>)
    ensures |ks| == |o|
    ensures forall i :: 0 <= i < |o| ==> ks[i] == o[i].key
  {
    if |o| == 0 then [] else [o[0].key] + Keys(o[1..])
  }

  /** Property access `o[k]`: the value stored under `k`, `undefined` when absent. */
  function Get(o: seq<Prop>, k: string): (v: Value)
    ensures k !in KeySet(o) ==> v == Undefined
    ensures v != Undefined ==> Prop(k, v) in o
  {
    if |o| == 0 then Undefined
    else if o[0].key == k then o[0].value
    else Get(o[1..], k)
  }

  /** `{...o, [k]: v}`: a key already present keeps its place and takes the new
      value; a new key is appended at the end. */
  function Put(o: Obj, k: string, v: Value): (r: Obj)
    ensures KeySet(r) == KeySet(o) + {k}
    ensures Get(r, k) == v
    ensures forall j :: j != k ==> Get(r, j) == Get(o, j)
  {
    if |o| == 0 then [Prop(k, v)]
    else
      assert [o[0]] + o[1..] == o;
      ConsFacts(o[0], o[1..]);
      if o[0].key == k then
        ConsFacts(Prop(k, v), o[1..]);
        [Prop(k, v)] + o[1..]
      else
        var rest := Put(o[1..], k, v);
        ConsFacts(o[0], rest);
        [o[0]] + rest
  }

  /** How the key set, key uniqueness and lookup of `[p] + t` follow from `t`. */
  lemma ConsFacts(p: Prop, t: seq<Prop>)
    ensures KeySet([p] + t) == {p.key} + KeySet(t)
    ensures UniqueKeys([p] + t) <==> p.key !in KeySet(t) && UniqueKeys(t)
    ensures forall j :: Get([p] + t, j) == if j == p.key then p.value else Get(t, j)
  {
    assert ([p] + t)[1..] == t;
  }

  /** Where a present key sits. */
  lemma {:induction false} KeyPosition(o: seq<Prop>, k: string) returns (i: int)
    requires k in KeySet(o)
    ensures 0 <= i < |o| && o[i].key == k
  {
    if o[0].key == k {
      i := 0;
    } else {
      assert [o[0]] + o[1..] == o;
      ConsFacts(o[0], o[1..]);
      var j := KeyPosition(o[1..], k);
      i := j + 1;
    }
  }

  /** The object as a finite map from keys to values, forgetting the order. */
  function ToMap(o: seq<Prop>): map<string, Value>
  {
    map k | k in KeySet(o) :: Get(o, k)
  }

  lemma {:induction false} GetAt(o: Obj, i: int)
    requires 0 <= i < |o|
    ensures Get(o, o[i].key) == o[i].value
  {
    if i > 0 {
      assert o[i] in o[1..];
      GetAt(o[1..], i - 1);
    }
  }

  /** Spreading one new property over an object is a map update of its map view:
      exactly key `k` changes. */
  lemma PutIsMapUpdate(o: Obj, k: string, v: Value)
    ensures ToMap(Put(o, k, v)) == ToMap(o)[k := v]
  {
  }

  /** Spreading keeps the key order: a present key stays where it was, a new key
      comes last. */
  lemma {:induction false} PutKeyOrder(o: Obj, k: string, v: Value)
    ensures Keys(Put(o, k, v)) == if k in KeySet(o) then Keys(o) else Keys(o) + [k]
  {
    if |o| == 0 {
      assert Keys([Prop(k, v)]) == [k];
    } else {
      assert [o[0]] + o[1..] == o;
      ConsFacts(o[0], o[1..]);
      if o[0].key == k {
        var r := [Prop(k, v)] + o[1..];
        assert r[1..] == o[1..];
        assert Keys(r) == [k] + Keys(o[1..]);
      } else {
        var rest := Put(o[1..], k, v);
        PutKeyOrder(o[1..], k, v);
        assert ([o[0]] + rest)[1..] == rest;
        assert Keys([o[0]] + rest) == [o[0].key] + Keys(rest);
      }
    }
  }

}
