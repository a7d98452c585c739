/**
 * Absent-or-present values, success-or-error outcomes, and the values a
 * loop keeps from a sequence of outcomes.
 */
module Wrappers {

  /** A value that may be absent: the Python analyzers return `None` for "no result". */
  datatype Option<+T> = None | Some(value: T)

  /** The outcome of an operation that can fail with an error value. */
  datatype Result<+T, +E> = Success(value: T) | Failure(error: E)

  /** The values of the present results of `xs`, in order: the list a loop builds by appending each success. */
  function Present<U>(xs: seq<Option<U>>): (r: seq<U>)
    ensures |r| <= |xs|
  {
    if xs == [] then []
    else
      Present(xs[..|xs| - 1])
        + match xs[|xs| - 1]
          case None => []
          case Some(u) => [u]
  }

  /** One more result appends its value when present. */
  lemma PresentStep<U>(xs: seq<Option<U>>, x: Option<U>)
    ensures Present(xs + [x]) == Present(xs) + match x case None => [] case Some(u) => [u]
  {
    assert (xs + [x])[..|xs|] == xs;
  }

  /** Each value kept is the value of some present result. */
  lemma {:induction false} PresentAreResults<U>(xs: seq<Option<U>>)
    ensures forall j :: 0 <= j < |Present(xs)| ==> exists i :: 0 <= i < |xs| && xs[i] == Some(Present(xs)[j])
  {
    if xs != [] {
      var n := |xs|;
      var prefix := xs[..n - 1];
      var r, rp := Present(xs), Present(prefix);
      PresentAreResults(prefix);
      assert r[..|rp|] == rp;
      forall j | 0 <= j < |r|
        ensures exists i :: 0 <= i < n && xs[i] == Some(r[j])
      {
        if j < |rp| {
          assert r[j] == rp[j];
          var i :| 0 <= i < n - 1 && prefix[i] == Some(rp[j]);
          assert prefix[i] == xs[i];
        } else {
          assert xs[n - 1] == Some(r[j]);
        }
      }
    } else {
      assert Present(xs) == [];
    }
  }

  /** Every present result is kept. */
  lemma {:induction false} PresentResultsKept<U>(xs: seq<Option<U>>)
    ensures forall i :: 0 <= i < |xs| && xs[i].Some? ==> xs[i].value in Present(xs)
  {
    if xs != [] {
      var n := |xs|;
      var prefix := xs[..n - 1];
      var r, rp := Present(xs), Present(prefix);
      PresentResultsKept(prefix);
      assert r[..|rp|] == rp;
      forall i | 0 <= i < n && xs[i].Some?
        ensures xs[i].value in r
      {
        if i < n - 1 {
          assert prefix[i] == xs[i];
          assert prefix[i].value in rp;
        }
      }
    }
  }

  /** Nothing is dropped exactly when every result is present. */
  lemma {:induction false} PresentDropsNothing<U>(xs: seq<Option<U>>)
    ensures |Present(xs)| == |xs| <==> forall i :: 0 <= i < |xs| ==> xs[i].Some?
  {
    if xs != [] {
      var n := |xs|;
      var prefix := xs[..n - 1];
      PresentDropsNothing(prefix);
      assert forall i :: 0 <= i < n - 1 ==> prefix[i] == xs[i];
    }
  }

  /** Nothing is kept exactly when no result is present. */
  lemma {:induction false} PresentNothing<U>(xs: seq<Option<U>>)
    ensures Present(xs) == [] <==> forall i :: 0 <= i < |xs| ==> xs[i].None?
  {
    if xs != [] {
      var n := |xs|;
      var prefix := xs[..n - 1];
      PresentNothing(prefix);
      if Present(xs) == [] {
        assert Present(prefix) == [] && xs[n - 1].None?;
        forall i | 0 <= i < n ensures xs[i].None? {
          if i < n - 1 {
            assert prefix[i] == xs[i];
          }
        }
      }
      if forall i :: 0 <= i < n ==> xs[i].None? {
        assert forall i :: 0 <= i < n - 1 ==> prefix[i] == xs[i];
      }
    }
  }

  /** The values kept from a concatenation are those kept from its parts, one after the other. */
  lemma {:induction false} PresentOfConcatenation<U>(a: seq<Option<U>>, b: seq<Option<U>>)
    ensures Present(a + b) == Present(a) + Present(b)
  {
    if b == [] {
      assert a + b == a;
    } else {
      var n := |b|;
      assert a + b == (a + b[..n - 1]) + [b[n - 1]];
      assert b == b[..n - 1] + [b[n - 1]];
      PresentOfConcatenation(a, b[..n - 1]);
      PresentStep(a + b[..n - 1], b[n - 1]);
      PresentStep(b[..n - 1], b[n - 1]);
    }
  }
}
