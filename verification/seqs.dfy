/** Generic facts about sequences used by several components: removing one
    element from a permutation, and the two searches the scripts perform
    with Python built-ins (`next(...)` over a generator, and `max`). */
module Seqs {
  import opened Wrappers

  /** Splitting a sequence around position `j`. */
  lemma SplitAt<T>(s: seq<T>, j: int)
    requires 0 <= j < |s|
    ensures s == s[..j] + [s[j]] + s[j+1..]
    ensures multiset(s) == multiset(s[..j] + s[j+1..]) + multiset{s[j]}
  {
    assert s == s[..j] + [s[j]] + s[j+1..];
    assert s[..j] + s[j+1..] == s[..j] + s[j+1..];
  }

  /** If `a` and `b` are permutations of each other, so are the rest of `a`
      and `b` with one occurrence of `a[0]` removed. */
  lemma PermutationTail<T>(a: seq<T>, b: seq<T>) returns (j: nat)
    requires |a| > 0 && multiset(a) == multiset(b)
    ensures j < |b| && b[j] == a[0]
    ensures b == b[..j] + [a[0]] + b[j+1..]
    ensures multiset(a[1..]) == multiset(b[..j] + b[j+1..])
  {
    assert a[0] in multiset(b);
    j :| 0 <= j < |b| && b[j] == a[0];
    SplitAt(b, j);
    assert a == [a[0]] + a[1..];
    assert multiset(a) == multiset(a[1..]) + multiset{a[0]};
    assert multiset(a[1..]) == multiset(a[1..]) + multiset{a[0]} - multiset{a[0]};
    var rest := b[..j] + b[j+1..];
    assert multiset(rest) == multiset(rest) + multiset{a[0]} - multiset{a[0]};
  }

  /** `next((x for x in xs if p(x)), None)`: the position of the first
      element satisfying `p`, or None. */
  function FirstWhere<T>(xs: seq<T>, p: T -> bool): (r: Option<nat>)
    ensures r.None? <==> forall i :: 0 <= i < |xs| ==> !p(xs[i])
    ensures r.Some? ==> r.value < |xs| && p(xs[r.value])
    ensures r.Some? ==> forall j :: 0 <= j < r.value ==> !p(xs[j])
    decreases |xs|
  {
    if |xs| == 0 then None
    else if p(xs[0]) then Some(0)
    else
      match FirstWhere(xs[1..], p)
      case None => None
      case Some(k) =>
        assert forall j :: 1 <= j < k + 1 ==> xs[j] == xs[1..][j - 1];
        Some(k + 1)
  }

  /** The position that Python's `max` settles on: it keeps the first
      element and replaces it only by a strictly greater one, so the result
      is the FIRST position holding a maximal key. */
  function FirstMaxIndex(keys: seq<real>): (i: nat)
    requires |keys| > 0
    ensures i < |keys|
    ensures forall j :: 0 <= j < |keys| ==> keys[j] <= keys[i]
    ensures forall j :: 0 <= j < i ==> keys[j] < keys[i]
    decreases |keys|
  {
    if |keys| == 1 then 0
    else
      var k := FirstMaxIndex(keys[..|keys| - 1]);
      assert forall j :: 0 <= j < |keys| - 1 ==> keys[..|keys| - 1][j] == keys[j];
      if keys[|keys| - 1] > keys[k] then |keys| - 1 else k
  }

  /** The loop shape both provider normalisers use: `for x in xs`, convert
      `x` (the conversion may raise), append the result when it is kept. The
      first exception aborts the whole loop. */
  function CollectKept<T, U, E>(xs: seq<T>, f: T -> Result<Option<U>, E>): (r: Result<seq<U>, E>)
    ensures r.Success? ==> |r.value| <= |xs|
    ensures |xs| > 0 && f(xs[0]).Failure? ==> r == Failure(f(xs[0]).error)
    decreases |xs|
  {
    if |xs| == 0 then Success([])
    else
      match f(xs[0])
      case Failure(e) => Failure(e)
      case Success(y) =>
        var rest := CollectKept(xs[1..], f);
        if rest.Failure? then Failure(rest.error)
        else if y.Some? then Success([y.value] + rest.value)
        else Success(rest.value)
  }

  /** The loop fails exactly when some element's conversion raises, and then
      with the error of the first one that does. */
  lemma {:induction false} CollectKeptFailure<T, U, E>(xs: seq<T>, f: T -> Result<Option<U>, E>)
    ensures CollectKept(xs, f).Failure? <==> exists i :: 0 <= i < |xs| && f(xs[i]).Failure?
    ensures CollectKept(xs, f).Failure? ==>
      exists i :: 0 <= i < |xs| && f(xs[i]) == Failure(CollectKept(xs, f).error) &&
        forall j :: 0 <= j < i ==> f(xs[j]).Success?
    decreases |xs|
  {
    if |xs| > 0 {
      CollectKeptFailure(xs[1..], f);
      assert forall i :: 1 <= i < |xs| ==> xs[i] == xs[1..][i - 1];
      if f(xs[0]).Success? && CollectKept(xs, f).Failure? {
        var i :| 0 <= i < |xs[1..]| && f(xs[1..][i]) == Failure(CollectKept(xs, f).error) &&
          forall j :: 0 <= j < i ==> f(xs[1..][j]).Success?;
        assert f(xs[i + 1]) == Failure(CollectKept(xs, f).error);
        assert forall j :: 1 <= j < i + 1 ==> f(xs[j]).Success? by {
          forall j | 1 <= j < i + 1 ensures f(xs[j]).Success? {
            assert xs[j] == xs[1..][j - 1];
          }
        }
      }
    }
  }

  /** Everything the loop returns is the kept conversion of some input, and
      the result is empty exactly when nothing was kept. */
  lemma {:induction false} CollectKeptMembers<T, U, E>(xs: seq<T>, f: T -> Result<Option<U>, E>)
    requires CollectKept(xs, f).Success?
    ensures forall k :: 0 <= k < |CollectKept(xs, f).value| ==>
      exists i :: 0 <= i < |xs| && f(xs[i]) == Success(Some(CollectKept(xs, f).value[k]))
    ensures |CollectKept(xs, f).value| == 0 <==> forall i :: 0 <= i < |xs| ==> f(xs[i]) == Success(None)
    decreases |xs|
  {
    if |xs| > 0 {
      CollectKeptMembers(xs[1..], f);
      assert forall i :: 1 <= i < |xs| ==> xs[i] == xs[1..][i - 1];
      var r, rest := CollectKept(xs, f).value, CollectKept(xs[1..], f).value;
      if f(xs[0]).value.Some? {
        assert r == [f(xs[0]).value.value] + rest;
        forall k | 0 <= k < |r|
          ensures exists i :: 0 <= i < |xs| && f(xs[i]) == Success(Some(r[k]))
        {
          if k == 0 {
            assert f(xs[0]) == Success(Some(r[0]));
          } else {
            assert r[k] == rest[k - 1];
            var i :| 0 <= i < |xs[1..]| && f(xs[1..][i]) == Success(Some(rest[k - 1]));
            assert f(xs[i + 1]) == Success(Some(r[k]));
          }
        }
      } else {
        assert r == rest;
        forall k | 0 <= k < |r|
          ensures exists i :: 0 <= i < |xs| && f(xs[i]) == Success(Some(r[k]))
        {
          var i :| 0 <= i < |xs[1..]| && f(xs[1..][i]) == Success(Some(rest[k]));
          assert f(xs[i + 1]) == Success(Some(r[k]));
        }
      }
    }
  }

  /** The loop processes its input front to back: the result for `a + b` is
      the result for `a` followed by the result for `b`. */
  lemma {:induction false} CollectKeptAppend<T, U, E>(a: seq<T>, b: seq<T>, f: T -> Result<Option<U>, E>)
    ensures CollectKept(a + b, f).Success? <==> CollectKept(a, f).Success? && CollectKept(b, f).Success?
    ensures CollectKept(a + b, f).Success? ==>
      CollectKept(a + b, f).value == CollectKept(a, f).value + CollectKept(b, f).value
    decreases |a|
  {
    if |a| == 0 {
      assert a + b == b;
    } else {
      var ab := a + b;
      assert ab[1..] == a[1..] + b;
      assert ab[0] == a[0];
      CollectKeptAppend(a[1..], b, f);
    }
  }

  /** The loop over one element: that element's error, or its kept result
      (nothing when the conversion drops it). */
  lemma CollectKeptSingle<T, U, E>(x: T, f: T -> Result<Option<U>, E>)
    ensures f(x).Failure? ==> CollectKept([x], f) == Failure(f(x).error)
    ensures f(x).Success? ==> CollectKept([x], f) == Success(if f(x).value.Some? then [f(x).value.value] else [])
  {
    assert [x][1..] == [];
    assert CollectKept([x][1..], f) == Success([]);
    if f(x).Success? && f(x).value.Some? {
      assert [f(x).value.value] + [] == [f(x).value.value];
    }
  }

  /** Nothing kept is lost: when the loop succeeds, every element's kept
      conversion appears in its result. */
  lemma {:induction false} CollectKeptComplete<T, U, E>(xs: seq<T>, f: T -> Result<Option<U>, E>)
    requires CollectKept(xs, f).Success?
    ensures forall i :: 0 <= i < |xs| && f(xs[i]).Success? && f(xs[i]).value.Some? ==>
      f(xs[i]).value.value in CollectKept(xs, f).value
    decreases |xs|
  {
    if |xs| > 0 {
      CollectKeptComplete(xs[1..], f);
      forall i | 1 <= i < |xs| && f(xs[i]).Success? && f(xs[i]).value.Some?
        ensures f(xs[i]).value.value in CollectKept(xs, f).value
      {
        assert xs[i] == xs[1..][i - 1];
      }
    }
  }

  /** When the conversion keeps everything it does not reject, the loop is
      a one-to-one, order-preserving map. */
  lemma {:induction false} CollectAll<T, U, E>(xs: seq<T>, f: T -> Result<Option<U>, E>)
    requires forall i :: 0 <= i < |xs| ==> f(xs[i]).Failure? || f(xs[i]).value.Some?
    ensures CollectKept(xs, f).Success? ==>
      |CollectKept(xs, f).value| == |xs| &&
      forall i :: 0 <= i < |xs| ==> f(xs[i]) == Success(Some(CollectKept(xs, f).value[i]))
    decreases |xs|
  {
    if |xs| > 0 {
      assert forall i :: 1 <= i < |xs| ==> xs[i] == xs[1..][i - 1];
      CollectAll(xs[1..], f);
    }
  }
}
