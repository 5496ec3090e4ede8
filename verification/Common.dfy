/** Shared vocabulary: failure-compatible results, filters, and counting over finite maps. */
module Common {

  datatype Option<+T> = None | Some(value: T)

  datatype Result<+T, +E> = Ok(value: T) | Err(error: E)

  function Min(a: nat, b: nat): nat {
    if a < b then a else b
  }

  /** The elements of `s` that satisfy `p`, in their order. */
  function Filter<T>(p: T -> bool, s: seq<T>): seq<T> {
    if s == [] then []
    else if p(s[0]) then [s[0]] + Filter(p, s[1..])
    else Filter(p, s[1..])
  }

  lemma {:induction false} FilterAppend<T>(p: T -> bool, a: seq<T>, b: seq<T>)
    ensures Filter(p, a + b) == Filter(p, a) + Filter(p, b)
  {
    if a == [] {
      assert a + b == b;
    } else {
      var rest := a[1..] + b;
      assert (a + b)[0] == a[0] && (a + b)[1..] == rest;
      FilterAppend(p, a[1..], b);
      assert Filter(p, rest) == Filter(p, a[1..]) + Filter(p, b);
    }
  }

  lemma FilterSnoc<T>(p: T -> bool, s: seq<T>, x: T)
    ensures Filter(p, s + [x]) == Filter(p, s) + if p(x) then [x] else []
  {
    FilterAppend(p, s, [x]);
    assert [x][1..] == [];
  }

  /** A filter that every element passes, or none does, is the identity or empty. */
  lemma {:induction false} FilterUniform<T>(p: T -> bool, s: seq<T>)
    ensures (forall x :: x in s ==> p(x)) ==> Filter(p, s) == s
    ensures (forall x :: x in s ==> !p(x)) ==> Filter(p, s) == []
  {
    if s != [] {
      FilterUniform(p, s[1..]);
      assert s == [s[0]] + s[1..];
    }
  }

  /** A name for each number; no two are the same. */
  function Numbered(i: nat): (name: string)
    ensures |name| == i
  {
    if i == 0 then "" else "a" + Numbered(i - 1)
  }

  /** The concatenation of a sequence of sequences. */
  function Flatten<T>(parts: seq<seq<T>>): seq<T> {
    if parts == [] then [] else parts[0] + Flatten(parts[1..])
  }

  lemma FlattenCons<T>(part: seq<T>, parts: seq<seq<T>>)
    ensures Flatten([part] + parts) == part + Flatten(parts)
  {
    assert ([part] + parts)[1..] == parts;
  }

  /** The keys of `m` whose value satisfies `p`, and how many they are. */
  ghost function Where<K, V>(m: map<K, V>, p: V -> bool): set<K> {
    set k | k in m && p(m[k])
  }

  ghost function Holding<K, V>(m: map<K, V>, p: V -> bool): nat {
    |Where(m, p)|
  }

  lemma CardinalityWithout<K>(s: set<K>, k: K)
    ensures |s| == |s - {k}| + if k in s then 1 else 0
  {
    if k !in s {
      assert s - {k} == s;
    }
  }

  lemma WhereUpdate<K, V>(m: map<K, V>, k: K, v: V, p: V -> bool)
    ensures Where(m[k := v], p) == if p(v) then Where(m, p) + {k} else Where(m, p) - {k}
  {
  }

  /** Writing one key moves the count by that key alone. */
  lemma HoldingUpdate<K, V>(m: map<K, V>, k: K, v: V, p: V -> bool)
    ensures Holding(m[k := v], p)
         == Holding(m, p) - (if k in m && p(m[k]) then 1 else 0) + (if p(v) then 1 else 0)
  {
    var before := Where(m, p);
    WhereUpdate(m, k, v, p);
    CardinalityWithout(before, k);
    CardinalityWithout(before + {k}, k);
    assert before + {k} - {k} == before - {k};
  }

  /** Removing one key moves the count by that key alone. */
  lemma HoldingRemove<K, V>(m: map<K, V>, k: K, p: V -> bool)
    requires k in m
    ensures Holding(m - {k}, p) == Holding(m, p) - (if p(m[k]) then 1 else 0)
  {
    assert Where(m - {k}, p) == Where(m, p) - {k};
    CardinalityWithout(Where(m, p), k);
  }

  /** A property that is one of two exclusive ones is counted by their sum. */
  lemma HoldingSplit<K, V(!new)>(m: map<K, V>, both: V -> bool, p: V -> bool, q: V -> bool)
    requires forall v :: both(v) <==> p(v) || q(v)
    requires forall v :: !(p(v) && q(v))
    ensures Holding(m, both) == Holding(m, p) + Holding(m, q)
  {
    assert Where(m, both) == Where(m, p) + Where(m, q);
  }

  /** `m` maps each of the keys to its value under `f`, and nothing else. */
  ghost predicate IsMapOf<K(!new), V>(m: map<K, V>, keys: set<K>, f: K -> V) {
    m.Keys == keys && forall k :: k in keys ==> m[k] == f(k)
  }

  lemma MapOfExists<K(!new), V(!new)>(keys: set<K>, f: K -> V)
    ensures exists m: map<K, V> :: IsMapOf(m, keys, f)
    decreases |keys|
  {
    if keys == {} {
      assert IsMapOf(map[], keys, f);
    } else {
      var k :| k in keys;
      MapOfExists(keys - {k}, f);
      var m: map<K, V> :| IsMapOf(m, keys - {k}, f);
      assert IsMapOf(m[k := f(k)], keys, f);
    }
  }

  ghost function MapOf<K(!new), V(!new)>(keys: set<K>, f: K -> V): (m: map<K, V>)
    ensures IsMapOf(m, keys, f)
  {
    MapOfExists(keys, f);
    var m: map<K, V> :| IsMapOf(m, keys, f);
    m
  }
}
