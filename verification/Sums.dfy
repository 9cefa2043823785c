// Sums of a real-valued function over a finite set of symbols.  The source
// ranges over Go maps, whose order is unspecified; these lemmas make the order
// irrelevant.
module Sums {
  import opened Lots

  ghost function Sum(keys: set<string>, f: string -> real): real {
    if keys == {} then 0.0
    else
      var k :| k in keys;
      f(k) + Sum(keys - {k}, f)
  }

  // Any key may be taken out first.
  lemma {:induction false} SumTake(keys: set<string>, f: string -> real, x: string)
    requires x in keys
    ensures Sum(keys, f) == f(x) + Sum(keys - {x}, f)
    decreases keys
  {
    var k :| k in keys && Sum(keys, f) == f(k) + Sum(keys - {k}, f);
    if k != x {
      SumTake(keys - {k}, f, x);
      SumTake(keys - {x}, f, k);
      assert keys - {k} - {x} == keys - {x} - {k};
    }
  }

  lemma {:induction false} SumPut(keys: set<string>, f: string -> real, x: string)
    requires x !in keys
    ensures Sum(keys + {x}, f) == Sum(keys, f) + f(x)
  {
    SumTake(keys + {x}, f, x);
    assert keys + {x} - {x} == keys;
  }

  lemma {:induction false} SumSame(keys: set<string>, f: string -> real, g: string -> real)
    requires forall k | k in keys :: f(k) == g(k)
    ensures Sum(keys, f) == Sum(keys, g)
    decreases keys
  {
    if keys != {} {
      var k :| k in keys;
      SumTake(keys, f, k);
      SumTake(keys, g, k);
      SumSame(keys - {k}, f, g);
    }
  }

  // Keys outside the domain of interest contribute nothing.
  lemma {:induction false} SumWiden(keys: set<string>, wide: set<string>, f: string -> real)
    requires keys <= wide
    requires forall k | k in wide - keys :: f(k) == 0.0
    ensures Sum(wide, f) == Sum(keys, f)
    decreases wide - keys
  {
    if wide - keys == {} {
      assert forall k | k in wide && k !in keys :: k in wide - keys;
      assert wide == keys;
    } else {
      var k :| k in wide - keys;
      SumTake(wide, f, k);
      SumWiden(keys, wide - {k}, f);
    }
  }

  // A change at one key moves the sum by that change.
  lemma SumChange(keys: set<string>, f: string -> real, g: string -> real, x: string)
    requires x in keys
    requires forall k | k in keys && k != x :: f(k) == g(k)
    ensures Sum(keys, g) == Sum(keys, f) + g(x) - f(x)
  {
    SumTake(keys, f, x);
    SumTake(keys, g, x);
    SumSame(keys - {x}, f, g);
  }

  lemma {:induction false} SumScale(keys: set<string>, f: string -> real, g: string -> real, c: real)
    requires forall k | k in keys :: g(k) == Times(c, f(k))
    ensures Sum(keys, g) == Times(c, Sum(keys, f))
    decreases keys
  {
    if keys != {} {
      var k :| k in keys;
      SumTake(keys, f, k);
      SumTake(keys, g, k);
      SumScale(keys - {k}, f, g, c);
    }
  }

  lemma {:induction false} SumAdd(keys: set<string>, f: string -> real, g: string -> real, h: string -> real)
    requires forall k | k in keys :: h(k) == f(k) + g(k)
    ensures Sum(keys, h) == Sum(keys, f) + Sum(keys, g)
    decreases keys
  {
    if keys != {} {
      var k :| k in keys;
      SumTake(keys, f, k);
      SumTake(keys, g, k);
      SumTake(keys, h, k);
      SumAdd(keys - {k}, f, g, h);
    }
  }
}
