/** Definitions shared by every model: optional values, keys with an expiry, and finite sums. */
module Common {

  datatype Option<+T> = None | Some(value: T) {
    function GetOr(default: T): T {
      if Some? then value else default
    }
  }

  /** A Redis value stored with `PX ttl` at time t carries expiresAt == t + ttl. */
  datatype Entry<+T> = Entry(value: T, expiresAt: int)

  /** A stored key is readable strictly before its expiry instant. */
  predicate Live<K, T>(keys: map<K, Entry<T>>, key: K, now: int) {
    key in keys && now < keys[key].expiresAt
  }

  function Lookup<K, V>(m: map<K, V>, key: K, default: V): V {
    if key in m then m[key] else default
  }

  function Min(a: int, b: int): (r: int)
    ensures r <= a && r <= b && (r == a || r == b)
  {
    if a <= b then a else b
  }

  function Abs(a: int): (r: int)
    ensures r >= 0 && (r == a || r == -a)
  {
    if a < 0 then -a else a
  }

  /** The sum of f over a finite set, in whatever order the set is visited. */
  ghost function Sum<K(!new)>(keys: set<K>, f: K -> int): int {
    if keys == {} then 0
    else
      var k :| k in keys;
      f(k) + Sum(keys - {k}, f)
  }

  /** Any element may be taken out first. */
  lemma {:induction false} SumRemove<K(!new)>(keys: set<K>, k: K, f: K -> int)
    requires k in keys
    ensures Sum(keys, f) == f(k) + Sum(keys - {k}, f)
    decreases keys
  {
    var first :| first in keys && Sum(keys, f) == f(first) + Sum(keys - {first}, f);
    if first != k {
      SumRemove(keys - {first}, k, f);
      SumRemove(keys - {k}, first, f);
      assert keys - {first} - {k} == keys - {k} - {first};
    }
  }

  lemma {:induction false} SumEqual<K(!new)>(keys: set<K>, f: K -> int, g: K -> int)
    requires forall k <- keys :: f(k) == g(k)
    ensures Sum(keys, f) == Sum(keys, g)
    decreases keys
  {
    if keys != {} {
      var k :| k in keys;
      SumRemove(keys, k, f);
      SumRemove(keys, k, g);
      SumEqual(keys - {k}, f, g);
    }
  }

  lemma {:induction false} SumPlus<K(!new)>(keys: set<K>, f: K -> int, g: K -> int, h: K -> int)
    requires forall k <- keys :: h(k) == f(k) + g(k)
    ensures Sum(keys, h) == Sum(keys, f) + Sum(keys, g)
    decreases keys
  {
    if keys != {} {
      var k :| k in keys;
      SumRemove(keys, k, f);
      SumRemove(keys, k, g);
      SumRemove(keys, k, h);
      SumPlus(keys - {k}, f, g, h);
    }
  }

  lemma {:induction false} SumMonotone<K(!new)>(keys: set<K>, f: K -> int, g: K -> int)
    requires forall k <- keys :: f(k) <= g(k)
    ensures Sum(keys, f) <= Sum(keys, g)
    decreases keys
  {
    if keys != {} {
      var k :| k in keys;
      SumRemove(keys, k, f);
      SumRemove(keys, k, g);
      SumMonotone(keys - {k}, f, g);
    }
  }

  lemma {:induction false} SumConstant<K(!new)>(keys: set<K>, f: K -> int, c: int)
    requires forall k <- keys :: f(k) == c
    ensures Sum(keys, f) == |keys| * c
    decreases keys
  {
    if keys != {} {
      var k :| k in keys;
      SumRemove(keys, k, f);
      SumConstant(keys - {k}, f, c);
      calc {
        Sum(keys, f);
        c + |keys - {k}| * c;
        (|keys - {k}| + 1) * c;
        { assert |keys| == |keys - {k}| + 1; }
        |keys| * c;
      }
    }
  }

  lemma {:induction false} SumUnion<K(!new)>(left: set<K>, right: set<K>, f: K -> int)
    requires left !! right
    ensures Sum(left + right, f) == Sum(left, f) + Sum(right, f)
    decreases left
  {
    if left == {} {
      assert left + right == right;
    } else {
      var k :| k in left;
      SumRemove(left, k, f);
      SumRemove(left + right, k, f);
      assert left + right - {k} == (left - {k}) + right;
      SumUnion(left - {k}, right, f);
    }
  }
}
