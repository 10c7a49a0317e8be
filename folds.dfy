/**
 * Comprehensions whose element expressions may raise: the record-shaping
 * code builds its lists as `[y for x in xs for y in f(x)]`, stopping at the
 * first exception.
 */
module Folds {
  import opened Wrappers

  /** The parts `f(x)` for the `x` in `xs`, concatenated in order; the first error otherwise. */
  function FoldConcat<A, B>(xs: seq<A>, f: A -> Result<seq<B>>): Result<seq<B>>
    decreases |xs|
  {
    if xs == [] then Ok([])
    else
      var init :- FoldConcat(xs[..|xs| - 1], f);
      var last :- f(xs[|xs| - 1]);
      Ok(init + last)
  }

  /** One more element: its part is appended, or its error (or an earlier one) is the outcome. */
  lemma FoldConcatStep<A, B>(xs: seq<A>, f: A -> Result<seq<B>>, i: nat)
    requires i < |xs|
    ensures FoldConcat(xs[..i], f).Err? ==> FoldConcat(xs[..i + 1], f) == FoldConcat(xs[..i], f)
    ensures FoldConcat(xs[..i], f).Ok? && f(xs[i]).Err? ==> FoldConcat(xs[..i + 1], f) == Err(f(xs[i]).error)
    ensures FoldConcat(xs[..i], f).Ok? && f(xs[i]).Ok? ==>
              FoldConcat(xs[..i + 1], f) == Ok(FoldConcat(xs[..i], f).value + f(xs[i]).value)
  {
    assert xs[..i + 1][..i] == xs[..i];
    assert xs[..i + 1][i] == xs[i];
  }

  lemma FoldConcatWhole<A, B>(xs: seq<A>, f: A -> Result<seq<B>>)
    ensures FoldConcat(xs[..|xs|], f) == FoldConcat(xs, f)
  {
    assert xs[..|xs|] == xs;
  }

  /** An error in a prefix is the error of the whole. */
  lemma {:induction false} FoldConcatErrPrefix<A, B>(xs: seq<A>, f: A -> Result<seq<B>>, i: nat)
    requires i <= |xs| && FoldConcat(xs[..i], f).Err?
    ensures FoldConcat(xs, f) == FoldConcat(xs[..i], f)
    decreases |xs|
  {
    if i == |xs| {
      assert xs[..i] == xs;
    } else {
      var n := |xs| - 1;
      assert xs[..n][..i] == xs[..i];
      FoldConcatErrPrefix(xs[..n], f, i);
    }
  }

  /** The comprehension succeeds exactly when every element's part does. */
  lemma {:induction false} FoldConcatOk<A, B>(xs: seq<A>, f: A -> Result<seq<B>>)
    ensures FoldConcat(xs, f).Ok? <==> forall i :: 0 <= i < |xs| ==> f(xs[i]).Ok?
    decreases |xs|
  {
    if xs != [] {
      var n := |xs| - 1;
      FoldConcatOk(xs[..n], f);
      assert forall i :: 0 <= i < n ==> xs[..n][i] == xs[i];
    }
  }

  /** The error raised is that of the first element whose part fails. */
  lemma {:induction false} FoldConcatFirstError<A, B>(xs: seq<A>, f: A -> Result<seq<B>>)
    requires FoldConcat(xs, f).Err?
    ensures exists i :: 0 <= i < |xs| && f(xs[i]).Err? && FoldConcat(xs, f).error == f(xs[i]).error
                        && forall j :: 0 <= j < i ==> f(xs[j]).Ok?
    decreases |xs|
  {
    var n := |xs| - 1;
    assert forall i :: 0 <= i < n ==> xs[..n][i] == xs[i];
    if FoldConcat(xs[..n], f).Err? {
      FoldConcatFirstError(xs[..n], f);
      var i :| 0 <= i < n && f(xs[..n][i]).Err? && FoldConcat(xs[..n], f).error == f(xs[..n][i]).error
               && forall j :: 0 <= j < i ==> f(xs[..n][j]).Ok?;
      assert f(xs[i]).Err?;
    } else {
      FoldConcatOk(xs[..n], f);
      assert f(xs[n]).Err?;
    }
  }

  /** What the comprehension yields is exactly what the elements' parts hold. */
  lemma {:induction false} FoldConcatMembers<A, B>(xs: seq<A>, f: A -> Result<seq<B>>, y: B)
    requires FoldConcat(xs, f).Ok?
    ensures y in FoldConcat(xs, f).value <==> exists i :: 0 <= i < |xs| && f(xs[i]).Ok? && y in f(xs[i]).value
    decreases |xs|
  {
    if xs != [] {
      var n := |xs| - 1;
      FoldConcatMembers(xs[..n], f, y);
      assert forall i :: 0 <= i < n ==> xs[..n][i] == xs[i];
      if y in FoldConcat(xs[..n], f).value {
        var i :| 0 <= i < n && f(xs[..n][i]).Ok? && y in f(xs[..n][i]).value;
        assert f(xs[i]).Ok? && y in f(xs[i]).value;
      }
    }
  }

  /** The parts of earlier elements come first: each prefix's outcome begins the whole. */
  lemma {:induction false} FoldConcatPrefix<A, B>(xs: seq<A>, f: A -> Result<seq<B>>, i: nat)
    requires i <= |xs| && FoldConcat(xs, f).Ok?
    ensures FoldConcat(xs[..i], f).Ok? && FoldConcat(xs[..i], f).value <= FoldConcat(xs, f).value
    decreases |xs|
  {
    if i == |xs| {
      assert xs[..i] == xs;
    } else {
      var n := |xs| - 1;
      assert xs[..n][..i] == xs[..i];
      FoldConcatPrefix(xs[..n], f, i);
    }
  }

  /** When every part has one element, the comprehension has one element per input. */
  lemma {:induction false} FoldConcatSingles<A, B>(xs: seq<A>, f: A -> Result<seq<B>>)
    requires FoldConcat(xs, f).Ok?
    requires forall i :: 0 <= i < |xs| ==> f(xs[i]).Ok? ==> |f(xs[i]).value| == 1
    ensures |FoldConcat(xs, f).value| == |xs|
    ensures forall i :: 0 <= i < |xs| ==> f(xs[i]).Ok? && FoldConcat(xs, f).value[i] == f(xs[i]).value[0]
    decreases |xs|
  {
    if xs != [] {
      var n := |xs| - 1;
      assert forall i :: 0 <= i < n ==> xs[..n][i] == xs[i];
      FoldConcatSingles(xs[..n], f);
    }
  }

  /** `[y for x in xs for y in f(x)]` when no element expression raises. */
  function Flatten<A, B>(xs: seq<A>, f: A -> seq<B>): seq<B>
    decreases |xs|
  {
    if xs == [] then [] else Flatten(xs[..|xs| - 1], f) + f(xs[|xs| - 1])
  }

  lemma FlattenSnoc<A, B>(xs: seq<A>, f: A -> seq<B>, i: nat)
    requires i < |xs|
    ensures Flatten(xs[..i + 1], f) == Flatten(xs[..i], f) + f(xs[i])
  {
    assert xs[..i + 1][..i] == xs[..i];
  }

  lemma FlattenWhole<A, B>(xs: seq<A>, f: A -> seq<B>)
    ensures Flatten(xs[..|xs|], f) == Flatten(xs, f)
  {
    assert xs[..|xs|] == xs;
  }

  /** An element of the flattened list comes from the part of some input, and every part's elements are there. */
  lemma {:induction false} FlattenMembers<A, B>(xs: seq<A>, f: A -> seq<B>, y: B)
    ensures y in Flatten(xs, f) <==> exists i :: 0 <= i < |xs| && y in f(xs[i])
    decreases |xs|
  {
    if xs != [] {
      var n := |xs| - 1;
      FlattenMembers(xs[..n], f, y);
      assert forall i :: 0 <= i < n ==> xs[..n][i] == xs[i];
      if y in Flatten(xs[..n], f) {
        var i :| 0 <= i < n && y in f(xs[..n][i]);
        assert y in f(xs[i]);
      }
    }
  }
}
