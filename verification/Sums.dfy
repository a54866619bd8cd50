/** Sums over a finite set of ids, in no particular order. */
module Sums {

  ghost function Sum(ps: set<nat>, f: nat -> int): int
    decreases |ps|
  {
    if ps == {} then 0 else
      var p :| p in ps;
      f(p) + Sum(ps - {p}, f)
  }

  /** Any element may be taken out first. */
  lemma {:induction false} SumTake(ps: set<nat>, f: nat -> int, p: nat)
    requires p in ps
    ensures Sum(ps, f) == f(p) + Sum(ps - {p}, f)
    decreases |ps|
  {
    var q :| q in ps && Sum(ps, f) == f(q) + Sum(ps - {q}, f);
    if q != p {
      SumTake(ps - {q}, f, p);
      SumTake(ps - {p}, f, q);
      assert ps - {q} - {p} == ps - {p} - {q};
    }
  }

  lemma SumOfOne(p: nat, f: nat -> int)
    ensures Sum({p}, f) == f(p)
  {
    SumTake({p}, f, p);
    assert {p} - {p} == {};
  }

  lemma {:induction false} SumAgree(ps: set<nat>, f: nat -> int, g: nat -> int)
    requires forall p | p in ps :: f(p) == g(p)
    ensures Sum(ps, f) == Sum(ps, g)
    decreases |ps|
  {
    if ps != {} {
      var p :| p in ps;
      SumTake(ps, f, p);
      SumTake(ps, g, p);
      SumAgree(ps - {p}, f, g);
    }
  }

  lemma {:induction false} SumBelow(ps: set<nat>, f: nat -> int, g: nat -> int)
    requires forall p | p in ps :: f(p) <= g(p)
    ensures Sum(ps, f) <= Sum(ps, g)
    decreases |ps|
  {
    if ps != {} {
      var p :| p in ps;
      SumTake(ps, f, p);
      SumTake(ps, g, p);
      SumBelow(ps - {p}, f, g);
    }
  }

  /** If only p's summand differs, the sums differ by exactly that much. */
  lemma SumChange(ps: set<nat>, f: nat -> int, g: nat -> int, p: nat)
    requires p in ps
    requires forall q | q in ps && q != p :: f(q) == g(q)
    ensures Sum(ps, g) - Sum(ps, f) == g(p) - f(p)
  {
    SumTake(ps, f, p);
    SumTake(ps, g, p);
    SumAgree(ps - {p}, f, g);
  }

  /** If at most one summand is not zero, and that one is one, so is the sum at most. */
  lemma {:induction false} SumAtMostOne(ps: set<nat>, f: nat -> int)
    requires forall p | p in ps :: 0 <= f(p) <= 1
    requires forall p, q | p in ps && q in ps && f(p) == 1 && f(q) == 1 :: p == q
    ensures 0 <= Sum(ps, f) <= 1
    decreases |ps|
  {
    if ps != {} {
      var p :| p in ps;
      SumTake(ps, f, p);
      SumAtMostOne(ps - {p}, f);
      if f(p) == 1 {
        SumAgree(ps - {p}, f, q => 0);
        SumZero(ps - {p});
      }
    }
  }

  lemma {:induction false} SumZero(ps: set<nat>)
    ensures Sum(ps, q => 0) == 0
    decreases |ps|
  {
    if ps != {} {
      var p :| p in ps;
      SumTake(ps, q => 0, p);
      SumZero(ps - {p});
    }
  }
}
