/** Vocabulary shared by every other module: optional values, clock time, names of rows. */
module Base {

  datatype Option<+T> = None | Some(value: T)

  /** Nanoseconds since the epoch, as in Go's time.Duration arithmetic. */
  type Time = int

  const SECOND: Time := 1_000_000_000
  const MINUTE: Time := 60 * SECOND
  const HOUR: Time := 60 * MINUTE
  const DAY: Time := 24 * HOUR

  /** The calendar date of an instant (CURRENT_DATE on a server running in UTC). */
  function DateOf(t: Time): int { t / DAY }

  lemma DateIsMonotone(t: Time, u: Time)
    requires t <= u
    ensures DateOf(t) <= DateOf(u)
  {
  }

  /** A date lasts 86400 seconds, and date 0 begins with the epoch. */
  lemma DateExactly(t: Time, date: int)
    ensures DateOf(t) == date <==> date * 86_400_000_000_000 <= t < (date + 1) * 86_400_000_000_000
  {
  }

  /** Messages and stream entries are numbered in the order they come into being. */
  type MessageId = nat
  type EntryId = nat
  type CustomerId = string
  type Email = string
  type Provider = string
}

/** Counting the elements of a sequence that satisfy a predicate, and summing a sequence. */
module Counting {

  function Count<T>(xs: seq<T>, p: T -> bool): nat {
    if xs == [] then 0
    else Count(xs[..|xs| - 1], p) + (if p(xs[|xs| - 1]) then 1 else 0)
  }

  lemma CountAppend<T>(xs: seq<T>, x: T, p: T -> bool)
    ensures Count(xs + [x], p) == Count(xs, p) + (if p(x) then 1 else 0)
  {
    assert (xs + [x])[..|xs|] == xs;
  }

  lemma {:induction false} CountUpdate<T>(xs: seq<T>, i: nat, x: T, p: T -> bool)
    requires i < |xs|
    ensures Count(xs[i := x], p) ==
            Count(xs, p) - (if p(xs[i]) then 1 else 0) + (if p(x) then 1 else 0)
  {
    var last := |xs| - 1;
    if i == last {
      assert xs[i := x][..last] == xs[..last];
    } else {
      assert xs[i := x][..last] == xs[..last][i := x];
      CountUpdate(xs[..last], i, x, p);
    }
  }

  lemma {:induction false} CountAtMostLength<T>(xs: seq<T>, p: T -> bool)
    ensures Count(xs, p) <= |xs|
  {
    if xs != [] { CountAtMostLength(xs[..|xs| - 1], p); }
  }

  lemma {:induction false} CountNone<T>(xs: seq<T>, p: T -> bool)
    requires forall i :: 0 <= i < |xs| ==> !p(xs[i])
    ensures Count(xs, p) == 0
  {
    if xs != [] { CountNone(xs[..|xs| - 1], p); }
  }

  /** An element that does not satisfy p leaves one place fewer for those that do. */
  lemma {:induction false} CountBelowLength<T>(xs: seq<T>, i: nat, p: T -> bool)
    requires i < |xs| && !p(xs[i])
    ensures Count(xs, p) < |xs|
  {
    var last := |xs| - 1;
    if i == last { CountAtMostLength(xs[..last], p); }
    else { CountBelowLength(xs[..last], i, p); }
  }

  lemma {:induction false} CountImplies<T>(xs: seq<T>, p: T -> bool, q: T -> bool)
    requires forall i :: 0 <= i < |xs| && p(xs[i]) ==> q(xs[i])
    ensures Count(xs, p) <= Count(xs, q)
  {
    if xs != [] { CountImplies(xs[..|xs| - 1], p, q); }
  }

  lemma CountSame<T>(xs: seq<T>, p: T -> bool, q: T -> bool)
    requires forall i :: 0 <= i < |xs| ==> p(xs[i]) == q(xs[i])
    ensures Count(xs, p) == Count(xs, q)
  {
    CountImplies(xs, p, q);
    CountImplies(xs, q, p);
  }

  lemma {:induction false} CountAgree<T>(xs: seq<T>, ys: seq<T>, p: T -> bool)
    requires |xs| == |ys| && forall i :: 0 <= i < |xs| ==> p(xs[i]) == p(ys[i])
    ensures Count(xs, p) == Count(ys, p)
  {
    if xs != [] { CountAgree(xs[..|xs| - 1], ys[..|ys| - 1], p); }
  }

  lemma {:induction false} CountPositive<T>(xs: seq<T>, i: nat, p: T -> bool)
    requires i < |xs| && p(xs[i])
    ensures Count(xs, p) >= 1
  {
    if i < |xs| - 1 { CountPositive(xs[..|xs| - 1], i, p); }
  }

  lemma {:induction false} CountEither<T>(xs: seq<T>, p: T -> bool, q: T -> bool, either: T -> bool)
    requires forall i :: 0 <= i < |xs| && either(xs[i]) ==> p(xs[i]) || q(xs[i])
    ensures Count(xs, either) <= Count(xs, p) + Count(xs, q)
  {
    if xs != [] { CountEither(xs[..|xs| - 1], p, q, either); }
  }

  /** The sum of f over the elements. */
  function Total<T>(xs: seq<T>, f: T -> nat): nat {
    if xs == [] then 0 else Total(xs[..|xs| - 1], f) + f(xs[|xs| - 1])
  }

  lemma TotalAppend<T>(xs: seq<T>, x: T, f: T -> nat)
    ensures Total(xs + [x], f) == Total(xs, f) + f(x)
  {
    assert (xs + [x])[..|xs|] == xs;
  }

  lemma {:induction false} TotalUpdate<T>(xs: seq<T>, i: nat, x: T, f: T -> nat)
    requires i < |xs|
    ensures Total(xs[i := x], f) == Total(xs, f) - f(xs[i]) + f(x)
  {
    var last := |xs| - 1;
    if i == last {
      assert xs[i := x][..last] == xs[..last];
    } else {
      assert xs[i := x][..last] == xs[..last][i := x];
      TotalUpdate(xs[..last], i, x, f);
    }
  }

  lemma {:induction false} TotalZero<T>(xs: seq<T>, f: T -> nat)
    requires forall i :: 0 <= i < |xs| ==> f(xs[i]) == 0
    ensures Total(xs, f) == 0
  {
    if xs != [] { TotalZero(xs[..|xs| - 1], f); }
  }

  /** If f is at least k wherever p holds, the total is at least k times the count. */
  lemma {:induction false} TotalCoversCount<T>(xs: seq<T>, f: T -> nat, p: T -> bool, k: nat)
    requires forall i :: 0 <= i < |xs| && p(xs[i]) ==> f(xs[i]) >= k
    ensures k * Count(xs, p) <= Total(xs, f)
  {
    if xs != [] {
      TotalCoversCount(xs[..|xs| - 1], f, p, k);
      assert k * (Count(xs[..|xs| - 1], p) + 1) == k * Count(xs[..|xs| - 1], p) + k;
    }
  }

  function Sum(xs: seq<int>): int {
    if xs == [] then 0 else Sum(xs[..|xs| - 1]) + xs[|xs| - 1]
  }

  lemma SumAppend(xs: seq<int>, x: int)
    ensures Sum(xs + [x]) == Sum(xs) + x
  {
    assert (xs + [x])[..|xs|] == xs;
  }

  lemma {:induction false} SumUpdate(xs: seq<int>, i: nat, x: int)
    requires i < |xs|
    ensures Sum(xs[i := x]) == Sum(xs) - xs[i] + x
  {
    var last := |xs| - 1;
    if i == last {
      assert xs[i := x][..last] == xs[..last];
    } else {
      assert xs[i := x][..last] == xs[..last][i := x];
      SumUpdate(xs[..last], i, x);
    }
  }
}
