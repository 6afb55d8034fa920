/** Sums of integers over finite sets, and their sizes. */
module Sums {
  ghost function Pick<T>(s: set<T>): (x: T)
    requires s != {}
    ensures x in s
  {
    var x :| x in s;
    x
  }

  ghost function Sum<T>(s: set<T>, f: T -> int): int {
    if s == {} then 0 else f(Pick(s)) + Sum(s - {Pick(s)}, f)
  }

  lemma {:induction false} SumInsert<T>(s: set<T>, x: T, f: T -> int)
    requires x !in s
    ensures Sum(s + {x}, f) == Sum(s, f) + f(x)
    decreases |s|
  {
    var y := Pick(s + {x});
    if y == x {
      assert s + {x} - {x} == s;
    } else {
      assert s + {x} - {y} == (s - {y}) + {x};
      SumInsert(s - {y}, x, f);
      SumInsert(s - {y}, y, f);
      assert s - {y} + {y} == s;
    }
  }

  lemma {:induction false} SumUnion<T>(a: set<T>, b: set<T>, f: T -> int)
    requires a !! b
    ensures Sum(a + b, f) == Sum(a, f) + Sum(b, f)
    decreases |b|
  {
    if b == {} {
      assert a + b == a;
    } else {
      hide Sum;
      var x :| x in b;
      var rest := b - {x};
      assert b == rest + {x} && a + b == (a + rest) + {x};
      SumUnion(a, rest, f);
      SumInsert(a + rest, x, f);
      SumInsert(rest, x, f);
    }
  }

  lemma {:induction false} SumAtLeastZero<T>(s: set<T>, f: T -> int)
    requires forall x :: x in s ==> f(x) >= 0
    ensures Sum(s, f) >= 0
    decreases |s|
  {
    if s != {} {
      var x := Pick(s);
      SumAtLeastZero(s - {x}, f);
    }
  }

  lemma {:induction false} SumSame<T>(s: set<T>, f: T -> int, g: T -> int)
    requires forall x :: x in s ==> f(x) == g(x)
    ensures Sum(s, f) == Sum(s, g)
    decreases |s|
  {
    if s != {} {
      var x :| x in s;
      SumSame(s - {x}, f, g);
      SumInsert(s - {x}, x, f);
      SumInsert(s - {x}, x, g);
      assert s - {x} + {x} == s;
    }
  }

  /** h maps s one-to-one onto t. */
  ghost predicate Relabels<A, B>(s: set<A>, h: A -> B, t: set<B>) {
    && (forall x :: x in s ==> h(x) in t)
    && (forall y :: y in t ==> exists x :: x in s && h(x) == y)
    && (forall x, y :: x in s && y in s && h(x) == h(y) ==> x == y)
  }

  lemma RelabelsRest<A, B>(s: set<A>, h: A -> B, t: set<B>, x: A)
    requires Relabels(s, h, t) && x in s
    ensures h(x) in t && Relabels(s - {x}, h, t - {h(x)})
  {
    forall y | y in t - {h(x)} ensures exists x' :: x' in s - {x} && h(x') == y {
      var x' :| x' in s && h(x') == y;
      assert x' in s - {x};
    }
  }

  lemma {:induction false} SumRelabelled<A, B>(s: set<A>, h: A -> B, t: set<B>, f: A -> int, g: B -> int)
    requires Relabels(s, h, t)
    requires forall x :: x in s ==> f(x) == g(h(x))
    ensures Sum(s, f) == Sum(t, g)
    decreases |s|
  {
    if s == {} {
      assert t == {};
    } else {
      hide Sum;
      var x := Pick(s);
      RelabelsRest(s, h, t, x);
      hide Relabels;
      SumRelabelled(s - {x}, h, t - {h(x)}, f, g);
      SumInsert(s - {x}, x, f);
      SumInsert(t - {h(x)}, h(x), g);
      assert s - {x} + {x} == s && t - {h(x)} + {h(x)} == t;
    }
  }

  lemma {:induction false} SubsetIsSmaller<T>(a: set<T>, b: set<T>)
    requires a <= b
    ensures |a| <= |b|
    decreases |a|
  {
    if a != {} {
      var x :| x in a;
      SubsetIsSmaller(a - {x}, b - {x});
    }
  }
}
