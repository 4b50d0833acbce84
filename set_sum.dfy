/** Summing a weight over a finite set of keys, in no particular order. The pricer adds up
    one subtotal per distinct item; which item comes first cannot matter, and the lemmas
    here say so. */
module SetSums {

  /** The sum of `f(k)` over every `k` in `keys`. */
  ghost function SetSum<T>(keys: set<T>, f: T -> nat): nat
    decreases keys
  {
    if keys == {} then 0
    else
      var k :| k in keys;
      f(k) + SetSum(keys - {k}, f)
  }

  /** Any key may be taken out first. */
  lemma {:induction false} SetSumRemove<T>(keys: set<T>, f: T -> nat, k: T)
    requires k in keys
    ensures SetSum(keys, f) == f(k) + SetSum(keys - {k}, f)
    decreases keys
  {
    var j :| j in keys && SetSum(keys, f) == f(j) + SetSum(keys - {j}, f);
    if j != k {
      SetSumRemove(keys - {j}, f, k);
      SetSumRemove(keys - {k}, f, j);
      assert keys - {j} - {k} == keys - {k} - {j};
    }
  }

  /** Adding key `k` and changing its weight from `f` to `g` changes the sum only by
      `k`'s own term. */
  lemma SetSumInsert<T>(keys: set<T>, f: T -> nat, g: T -> nat, k: T)
    requires forall x :: x in keys && x != k ==> f(x) == g(x)
    ensures SetSum(keys + {k}, g) == g(k) + SetSum(keys - {k}, f)
  {
    SetSumRemove(keys + {k}, g, k);
    assert (keys + {k}) - {k} == keys - {k};
    SetSumExt(keys - {k}, g, f);
  }

  /** A set of one key sums to that key's weight. */
  lemma SetSumSingleton<T>(k: T, f: T -> nat)
    ensures SetSum({k}, f) == f(k)
  {
    SetSumRemove({k}, f, k);
    assert {k} - {k} == {};
  }

  /** Only the weights of the keys in the set matter. */
  lemma {:induction false} SetSumExt<T>(keys: set<T>, f: T -> nat, g: T -> nat)
    requires forall k :: k in keys ==> f(k) == g(k)
    ensures SetSum(keys, f) == SetSum(keys, g)
    decreases keys
  {
    if keys != {} {
      var k :| k in keys;
      SetSumRemove(keys, f, k);
      SetSumRemove(keys, g, k);
      SetSumExt(keys - {k}, f, g);
    }
  }

  /** The sum over two disjoint sets is the sum of their sums. */
  lemma {:induction false} SetSumUnion<T>(a: set<T>, b: set<T>, f: T -> nat)
    requires a !! b
    ensures SetSum(a + b, f) == SetSum(a, f) + SetSum(b, f)
    decreases a
  {
    if a == {} {
      assert a + b == b;
    } else {
      var k :| k in a;
      SetSumRemove(a + b, f, k);
      SetSumRemove(a, f, k);
      assert (a + b) - {k} == (a - {k}) + b;
      SetSumUnion(a - {k}, b, f);
    }
  }
}
