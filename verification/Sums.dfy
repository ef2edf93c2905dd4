/** Finite sums over sets, used to state conservation laws over tables. */
module Sums {

  ghost function Sum<T(!new)>(s: set<T>, f: T -> int): int
  {
    if s == {} then 0 else
    var x :| x in s;
    f(x) + Sum(s - {x}, f)
  }

  /** The element taken out first does not matter. */
  lemma {:induction false} SumPick<T(!new)>(s: set<T>, f: T -> int, y: T)
    requires y in s
    ensures Sum(s, f) == f(y) + Sum(s - {y}, f)
    decreases s
  {
    var x :| x in s && Sum(s, f) == f(x) + Sum(s - {x}, f);
    if x != y {
      SumPick(s - {x}, f, y);
      SumPick(s - {y}, f, x);
      assert s - {x} - {y} == s - {y} - {x};
    }
  }

  lemma {:induction false} SumAgree<T(!new)>(s: set<T>, f: T -> int, g: T -> int)
    requires forall x :: x in s ==> f(x) == g(x)
    ensures Sum(s, f) == Sum(s, g)
    decreases s
  {
    if s != {} {
      var x :| x in s;
      SumPick(s, f, x);
      SumPick(s, g, x);
      SumAgree(s - {x}, f, g);
    }
  }

  lemma {:induction false} SumZero<T(!new)>(s: set<T>, f: T -> int)
    requires forall x :: x in s ==> f(x) == 0
    ensures Sum(s, f) == 0
    decreases s
  {
    if s != {} {
      var x :| x in s;
      SumPick(s, f, x);
      SumZero(s - {x}, f);
    }
  }

  /** Raising f at one element of s by d raises the sum by d. */
  lemma SumBump<T(!new)>(s: set<T>, f: T -> int, g: T -> int, y: T, d: int)
    requires y in s && g(y) == f(y) + d
    requires forall x :: x in s && x != y ==> g(x) == f(x)
    ensures Sum(s, g) == Sum(s, f) + d
  {
    SumPick(s, f, y);
    SumPick(s, g, y);
    SumAgree(s - {y}, f, g);
  }
}
