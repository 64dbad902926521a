/** Finite sums over sets, used to compare what the chain moved with what the
    records say. */
module Sums {

  ghost function Sum<T(!new)>(s: set<T>, f: T -> int): int
  {
    if s == {} then 0 else
      var x :| x in s;
      f(x) + Sum(s - {x}, f)
  }

  /** The order in which elements are taken does not matter. */
  lemma {:induction false} SumTake<T(!new)>(s: set<T>, x: T, f: T -> int)
    requires x in s
    ensures Sum(s, f) == f(x) + Sum(s - {x}, f)
    decreases s
  {
    var y :| y in s && Sum(s, f) == f(y) + Sum(s - {y}, f);
    if y != x {
      SumTake(s - {y}, x, f);
      SumTake(s - {x}, y, f);
      assert s - {y} - {x} == s - {x} - {y};
    }
  }

  lemma SumAdd<T(!new)>(s: set<T>, x: T, f: T -> int)
    requires x !in s
    ensures Sum(s + {x}, f) == f(x) + Sum(s, f)
  {
    SumTake(s + {x}, x, f);
    assert s + {x} - {x} == s;
  }

  lemma {:induction false} SumUnion<T(!new)>(s: set<T>, t: set<T>, f: T -> int)
    requires s !! t
    ensures Sum(s + t, f) == Sum(s, f) + Sum(t, f)
    decreases t
  {
    if t == {} {
      assert s + t == s;
    } else {
      var x :| x in t;
      SumTake(s + t, x, f);
      SumTake(t, x, f);
      assert s + t - {x} == s + (t - {x});
      SumUnion(s, t - {x}, f);
    }
  }

  /** Sums depend only on the values the function takes on the set. */
  lemma {:induction false} SumSame<T(!new)>(s: set<T>, f: T -> int, g: T -> int)
    requires forall x :: x in s ==> f(x) == g(x)
    ensures Sum(s, f) == Sum(s, g)
    decreases s
  {
    if s != {} {
      var x :| x in s;
      SumTake(s, x, f);
      SumTake(s, x, g);
      SumSame(s - {x}, f, g);
    }
  }

  lemma {:induction false} SumMinus<T(!new)>(s: set<T>, f: T -> int, g: T -> int, h: T -> int)
    requires forall x :: x in s ==> h(x) == f(x) - g(x)
    ensures Sum(s, h) == Sum(s, f) - Sum(s, g)
    decreases s
  {
    if s != {} {
      var x :| x in s;
      SumTake(s, x, f);
      SumTake(s, x, g);
      SumTake(s, x, h);
      SumMinus(s - {x}, f, g, h);
    }
  }

  /** A sum of values that are never negative is zero exactly when every value is. */
  lemma {:induction false} SumZero<T(!new)>(s: set<T>, f: T -> int)
    requires forall x :: x in s ==> f(x) >= 0
    ensures Sum(s, f) >= 0
    ensures Sum(s, f) == 0 <==> forall x :: x in s ==> f(x) == 0
    decreases s
  {
    if s != {} {
      var x :| x in s;
      SumTake(s, x, f);
      SumZero(s - {x}, f);
    }
  }

  /** If the elements that count on one side are matched one to one, with equal
      values, by the elements that count on the other, the two sums agree. */
  lemma {:induction false} SumMatch<A(!new), B(!new)>(s: set<A>, t: set<B>, f: A -> int, g: B -> int, m: A -> B)
    requires forall a :: a in s && f(a) != 0 ==> m(a) in t && g(m(a)) == f(a)
    requires forall a, a' :: a in s && a' in s && f(a) != 0 && f(a') != 0 && m(a) == m(a') ==> a == a'
    requires forall b :: b in t && g(b) != 0 ==> exists a :: a in s && f(a) != 0 && m(a) == b
    ensures Sum(s, f) == Sum(t, g)
    decreases s
  {
    if s == {} {
      SumZero(t, g);
    } else {
      var a :| a in s;
      SumTake(s, a, f);
      if f(a) == 0 {
        forall b | b in t && g(b) != 0
          ensures exists x :: x in s - {a} && f(x) != 0 && m(x) == b
        {
          var x :| x in s && f(x) != 0 && m(x) == b;
          assert x in s - {a};
        }
        SumMatch(s - {a}, t, f, g, m);
      } else {
        SumTake(t, m(a), g);
        forall b | b in t - {m(a)} && g(b) != 0
          ensures exists x :: x in s - {a} && f(x) != 0 && m(x) == b
        {
          var x :| x in s && f(x) != 0 && m(x) == b;
          assert x in s - {a};
        }
        SumMatch(s - {a}, t - {m(a)}, f, g, m);
      }
    }
  }
}
