/** Sums over the rows of a table, which SQL aggregates and the invariants speak of. */
module Sums {
  /** The sum of f over a finite set of keys. */
  ghost function Sum<K(!new)>(keys: set<K>, f: K -> int): int {
    if keys == {} then 0
    else
      var k :| k in keys;
      f(k) + Sum(keys - {k}, f)
  }

  /** Any key can be taken out first. */
  lemma {:induction false} SumAt<K(!new)>(keys: set<K>, f: K -> int, x: K)
    requires x in keys
    ensures Sum(keys, f) == f(x) + Sum(keys - {x}, f)
    decreases keys
  {
    var k :| k in keys && Sum(keys, f) == f(k) + Sum(keys - {k}, f);
    if k != x {
      SumAt(keys - {k}, f, x);
      SumAt(keys - {x}, f, k);
      assert keys - {k} - {x} == keys - {x} - {k};
    }
  }

  /** Two functions that agree on the keys have the same sum. */
  lemma {:induction false} SumSame<K(!new)>(keys: set<K>, f: K -> int, g: K -> int)
    requires forall k | k in keys :: f(k) == g(k)
    ensures Sum(keys, f) == Sum(keys, g)
    decreases keys
  {
    if keys != {} {
      var k :| k in keys;
      SumAt(keys, f, k);
      SumAt(keys, g, k);
      SumSame(keys - {k}, f, g);
    }
  }

  /** Changing the value at one key shifts the sum by that change. */
  lemma SumUpdate<K(!new)>(keys: set<K>, f: K -> int, g: K -> int, x: K)
    requires x in keys
    requires forall k | k in keys && k != x :: f(k) == g(k)
    ensures Sum(keys, g) == Sum(keys, f) - f(x) + g(x)
  {
    SumAt(keys, f, x);
    SumAt(keys, g, x);
    SumSame(keys - {x}, f, g);
  }

  /** Adding a new key adds its value. */
  lemma SumInsert<K(!new)>(keys: set<K>, f: K -> int, g: K -> int, x: K)
    requires x !in keys
    requires forall k | k in keys :: f(k) == g(k)
    ensures Sum(keys + {x}, g) == Sum(keys, f) + g(x)
  {
    SumAt(keys + {x}, g, x);
    assert keys + {x} - {x} == keys;
    SumSame(keys, f, g);
  }

  /** Writing one key, old or new, shifts the sum by the change there. */
  lemma SumSet<K(!new)>(keys: set<K>, f: K -> int, g: K -> int, x: K)
    requires forall k | k in keys && k != x :: f(k) == g(k)
    requires x !in keys ==> f(x) == 0
    ensures Sum(keys + {x}, g) == Sum(keys, f) - f(x) + g(x)
  {
    if x in keys {
      assert keys + {x} == keys;
      SumUpdate(keys, f, g, x);
    } else {
      SumInsert(keys, f, g, x);
    }
  }

  lemma {:induction false} SumZero<K(!new)>(keys: set<K>, f: K -> int)
    requires forall k | k in keys :: f(k) == 0
    ensures Sum(keys, f) == 0
    decreases keys
  {
    if keys != {} {
      var k :| k in keys;
      SumAt(keys, f, k);
      SumZero(keys - {k}, f);
    }
  }

  lemma {:induction false} SumNonNegative<K(!new)>(keys: set<K>, f: K -> int)
    requires forall k | k in keys :: f(k) >= 0
    ensures Sum(keys, f) >= 0
    decreases keys
  {
    if keys != {} {
      var k :| k in keys;
      SumAt(keys, f, k);
      SumNonNegative(keys - {k}, f);
    }
  }

  /** A sum of nonnegative values bounds each of them. */
  lemma SumBounds<K(!new)>(keys: set<K>, f: K -> int, x: K)
    requires x in keys
    requires forall k | k in keys :: f(k) >= 0
    ensures f(x) <= Sum(keys, f)
  {
    SumAt(keys, f, x);
    SumNonNegative(keys - {x}, f);
  }

  /** Keys of value zero may be dropped. */
  lemma {:induction false} SumRestrict<K(!new)>(keys: set<K>, part: set<K>, f: K -> int)
    requires part <= keys
    requires forall k | k in keys - part :: f(k) == 0
    ensures Sum(keys, f) == Sum(part, f)
    decreases keys - part
  {
    if keys - part == {} {
      assert part == keys;
    } else {
      var k :| k in keys - part;
      SumAt(part + {k}, f, k);
      assert part + {k} - {k} == part;
      SumRestrict(keys, part + {k}, f);
    }
  }

  /** The sum of pointwise sums. */
  lemma {:induction false} SumPlus<K(!new)>(keys: set<K>, f: K -> int, g: K -> int, h: K -> int)
    requires forall k | k in keys :: h(k) == f(k) + g(k)
    ensures Sum(keys, h) == Sum(keys, f) + Sum(keys, g)
    decreases keys
  {
    if k :| k in keys {
      SumAt(keys, f, k);
      SumAt(keys, g, k);
      SumAt(keys, h, k);
      SumPlus(keys - {k}, f, g, h);
    }
  }

  /** More keys and larger values make no smaller sum. */
  lemma {:induction false} SumAtLeast<K(!new)>(part: set<K>, f: K -> int, keys: set<K>, g: K -> int)
    requires part <= keys
    requires forall k | k in part :: f(k) <= g(k)
    requires forall k | k in keys - part :: 0 <= g(k)
    ensures Sum(part, f) <= Sum(keys, g)
    decreases keys
  {
    if k :| k in part {
      SumAt(part, f, k);
      SumAt(keys, g, k);
      SumAtLeast(part - {k}, f, keys - {k}, g);
    } else {
      SumNonNegative(keys, g);
    }
  }

  /** Renaming the keys one to one keeps the sum. */
  lemma {:induction false} SumRename<K(!new), L(!new)>(keys: set<K>, f: K -> int, images: set<L>, g: L -> int, name: K -> L)
    requires images == set k | k in keys :: name(k)
    requires forall k, l | k in keys && l in keys && k != l :: name(k) != name(l)
    requires forall k | k in keys :: f(k) == g(name(k))
    ensures Sum(keys, f) == Sum(images, g)
    decreases keys
  {
    if keys != {} {
      var k :| k in keys;
      SumAt(keys, f, k);
      SumAt(images, g, name(k));
      assert images - {name(k)} == set l | l in keys - {k} :: name(l);
      SumRename(keys - {k}, f, images - {name(k)}, g, name);
    }
  }

  /** Pigeonhole: distinct indices drawn from 1..n are at most n. */
  lemma {:induction false} Pigeonhole<K(!new)>(keys: set<K>, index: K -> int, n: nat)
    requires forall k | k in keys :: 1 <= index(k) <= n
    requires forall k, l | k in keys && l in keys && k != l :: index(k) != index(l)
    ensures |keys| <= n
    decreases n
  {
    if n > 0 {
      if k :| k in keys && index(k) == n {
        Pigeonhole(keys - {k}, index, n - 1);
      } else {
        Pigeonhole(keys, index, n - 1);
      }
    } else if k :| k in keys {
      assert false;
    }
  }
}
