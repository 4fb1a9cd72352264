/** Counting the elements of a sequence that satisfy a predicate, and how one update moves the count. */
module Counting {

  function One(b: bool): nat {
    if b then 1 else 0
  }

  function Count<T>(xs: seq<T>, f: T -> bool): (n: nat)
    ensures n <= |xs|
  {
    if |xs| == 0 then 0 else Count(xs[..|xs| - 1], f) + One(f(xs[|xs| - 1]))
  }

  lemma CountAppend<T>(xs: seq<T>, x: T, f: T -> bool)
    ensures Count(xs + [x], f) == Count(xs, f) + One(f(x))
  {
    assert (xs + [x])[..|xs|] == xs;
  }

  lemma {:induction false} CountUpdate<T>(xs: seq<T>, i: nat, x: T, f: T -> bool)
    requires i < |xs|
    ensures Count(xs[i := x], f) + One(f(xs[i])) == Count(xs, f) + One(f(x))
  {
    var n := |xs| - 1;
    if i == n {
      assert xs[i := x][..n] == xs[..n];
    } else {
      assert xs[i := x][..n] == xs[..n][i := x];
      CountUpdate(xs[..n], i, x, f);
    }
  }

  lemma {:induction false} CountMono<T>(xs: seq<T>, f: T -> bool, g: T -> bool)
    requires forall i :: 0 <= i < |xs| && f(xs[i]) ==> g(xs[i])
    ensures Count(xs, f) <= Count(xs, g)
  {
    if |xs| == 0 {
    } else {
      CountMono(xs[..|xs| - 1], f, g);
    }
  }

  lemma {:induction false} CountMonoStrict<T>(xs: seq<T>, f: T -> bool, g: T -> bool, k: nat)
    requires forall i :: 0 <= i < |xs| && f(xs[i]) ==> g(xs[i])
    requires k < |xs| && g(xs[k]) && !f(xs[k])
    ensures Count(xs, f) < Count(xs, g)
  {
    var n := |xs| - 1;
    if k == n {
      CountMono(xs[..n], f, g);
    } else {
      CountMonoStrict(xs[..n], f, g, k);
    }
  }

  /** The count of `f` splits into those that also satisfy `g` and those that do not. */
  lemma {:induction false} CountSplit<T>(xs: seq<T>, f: T -> bool, fg: T -> bool, fn: T -> bool)
    requires forall i :: 0 <= i < |xs| ==> One(f(xs[i])) == One(fg(xs[i])) + One(fn(xs[i]))
    ensures Count(xs, f) == Count(xs, fg) + Count(xs, fn)
  {
    if |xs| == 0 {
    } else {
      CountSplit(xs[..|xs| - 1], f, fg, fn);
    }
  }

  lemma {:induction false} CountZero<T>(xs: seq<T>, f: T -> bool)
    ensures Count(xs, f) == 0 <==> forall i :: 0 <= i < |xs| ==> !f(xs[i])
  {
    if |xs| == 0 {
    } else {
      var n := |xs| - 1;
      CountZero(xs[..n], f);
      if forall i :: 0 <= i < |xs| ==> !f(xs[i]) {
        assert forall i :: 0 <= i < n ==> xs[..n][i] == xs[i];
      }
      if Count(xs, f) == 0 {
        forall i | 0 <= i < |xs| ensures !f(xs[i]) {
          if i < n { assert xs[..n][i] == xs[i]; }
        }
      }
    }
  }

  /** A log and a list of processes counted alike keep agreeing when one process moves and the
      log grows by what it did. */
  lemma Tally<T, P>(log: seq<T>, x: T, grew: bool, f: T -> bool, ps: seq<P>, i: nat, p: P, g: P -> bool)
    requires i < |ps|
    requires Count(log, f) == Count(ps, g)
    requires One(g(p)) == One(g(ps[i])) + One(grew && f(x))
    ensures Count(if grew then log + [x] else log, f) == Count(ps[i := p], g)
  {
    CountAppend(log, x, f);
    CountUpdate(ps, i, p, g);
  }

  /** When one process moves and the log grows by what it did, the sum of those that `g` counts and the
      entries that `f` counts does not grow if the process itself makes up for its entry. */
  lemma NeverMore<T, P>(log: seq<T>, x: T, grew: bool, f: T -> bool, ps: seq<P>, i: nat, p: P, g: P -> bool)
    requires i < |ps| && One(g(p)) + One(f(x)) <= One(g(ps[i]))
    ensures Count(ps[i := p], g) + Count(if grew then log + [x] else log, f) <= Count(ps, g) + Count(log, f)
  {
    CountUpdate(ps, i, p, g);
    CountAppend(log, x, f);
  }
}
