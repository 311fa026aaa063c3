/** Sums over finite sets. */
module Sums {

  ghost function Sum<T(!new)>(s: set<T>, f: T -> nat): nat {
    if s == {} then 0 else var x :| x in s; f(x) + Sum(s - {x}, f)
  }

  lemma {:induction false} SumPick<T(!new)>(s: set<T>, f: T -> nat, x: T)
    requires x in s
    ensures Sum(s, f) == f(x) + Sum(s - {x}, f)
  {
    var y :| y in s && Sum(s, f) == f(y) + Sum(s - {y}, f);
    if x != y {
      SumPick(s - {y}, f, x);
      SumPick(s - {x}, f, y);
      assert s - {y} - {x} == s - {x} - {y};
    }
  }

  lemma {:induction false} SumSame<T(!new)>(s: set<T>, f: T -> nat, g: T -> nat)
    requires forall x :: x in s ==> f(x) == g(x)
    ensures Sum(s, f) == Sum(s, g)
  {
    if s != {} {
      var x :| x in s;
      SumPick(s, f, x);
      SumPick(s, g, x);
      SumSame(s - {x}, f, g);
    }
  }

  /** One summand falls and the others stay. */
  lemma SumFalls<T(!new)>(s: set<T>, f: T -> nat, g: T -> nat, x: T)
    requires x in s && g(x) < f(x) && forall y :: y in s && y != x ==> f(y) == g(y)
    ensures Sum(s, g) < Sum(s, f)
  {
    SumPick(s, f, x);
    SumPick(s, g, x);
    SumSame(s - {x}, f, g);
  }
}
