/** The "first success" search that location resolution performs: try the
    items of a sequence in order and stop at the first one that yields a
    value. Generic in the attempt, so that its lemmas do not depend on what
    an attempt does. */
module Search {
  import opened Wrappers

  /** No item of `xs` succeeds. */
  ghost predicate NoneOf<T, U>(attempt: T -> Option<U>, xs: seq<T>)
  {
    forall j :: 0 <= j < |xs| ==> attempt(xs[j]).None?
  }

  /** The position and result of the first item of `xs` that succeeds. */
  function FirstSome<T, U>(attempt: T -> Option<U>, xs: seq<T>): (r: Option<(nat, U)>)
    ensures r.Some? ==>
      && r.value.0 < |xs|
      && attempt(xs[r.value.0]) == Some(r.value.1)
      && NoneOf(attempt, xs[..r.value.0])
    ensures r.None? <==> NoneOf(attempt, xs)
  {
    if xs == [] then None
    else
      match attempt(xs[0])
      case Some(u) => Some((0, u))
      case None =>
        var r' := FirstSome(attempt, xs[1..]);
        assert forall j :: 1 <= j <= |xs| ==> xs[1..][..j - 1] == xs[1..j];
        match r'
        case None => None
        case Some((i, u)) =>
          assert xs[..i + 1] == [xs[0]] + xs[1..][..i];
          Some((i + 1, u))
  }

  /** A success preceded only by failures is the first success, whatever
      follows it. */
  lemma {:induction false} FirstSomeAt<T, U>(attempt: T -> Option<U>, misses: seq<T>, x: T, rest: seq<T>, u: U)
    requires NoneOf(attempt, misses)
    requires attempt(x) == Some(u)
    ensures FirstSome(attempt, misses + [x] + rest) == Some((|misses|, u))
  {
    var xs := misses + [x] + rest;
    assert xs[|misses|] == x;
    assert xs[..|misses|] == misses;
  }

  /** A search that succeeds within `xs` ends at the same item whatever
      is appended after `xs`. */
  lemma {:induction false} FirstSomeExtend<T, U>(attempt: T -> Option<U>, xs: seq<T>, ys: seq<T>, n: nat, u: U)
    requires FirstSome(attempt, xs) == Some((n, u))
    ensures FirstSome(attempt, xs + ys) == Some((n, u))
    ensures n < |xs| && (xs + ys)[..n + 1] == xs[..n + 1]
  {
    var pre, rest := xs[..n], xs[n + 1..] + ys;
    assert xs + ys == pre + [xs[n]] + rest;
    FirstSomeAt(attempt, pre, xs[n], rest, u);
  }

  /** One more failure keeps the whole prefix failing. */
  lemma {:induction false} NoneOfSnoc<T, U>(attempt: T -> Option<U>, xs: seq<T>, x: T)
    requires NoneOf(attempt, xs) && attempt(x).None?
    ensures NoneOf(attempt, xs + [x])
  {
  }

  /** The prefixes of `a + [x] + rest` used when a search stops at `x`. */
  lemma {:induction false} PrefixOfAppend<T>(a: seq<T>, x: T, rest: seq<T>)
    ensures |a + [x]| <= |a + [x] + rest|
    ensures (a + [x] + rest)[..|a + [x]|] == a + [x]
    ensures (a + [x])[..|a|] == a
  {
  }


  lemma AppendAssoc<T>(a: seq<T>, b: seq<T>, c: seq<T>)
    ensures a + b + c == a + (b + c)
  {
  }
}
