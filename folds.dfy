/**
 * Generic loops over sequences: concatenating per-element results, mapping
 * with an early exit on the first error, and filling a dictionary from
 * labelled elements where the last element with a label wins.
 */
module Folds {
  import opened Results

  /** The concatenation of f(x) over xs, in order. */
  function FlatMap<T, U>(xs: seq<T>, f: T -> seq<U>): seq<U> {
    if xs == [] then [] else FlatMap(xs[..|xs| - 1], f) + f(xs[|xs| - 1])
  }

  lemma {:induction false} FlatMapAppend<T, U>(a: seq<T>, b: seq<T>, f: T -> seq<U>)
    ensures FlatMap(a + b, f) == FlatMap(a, f) + FlatMap(b, f)
  {
    if b == [] {
      assert a + b == a;
    } else {
      var n := |b| - 1;
      assert FlatMap(a + b, f) == FlatMap(a + b[..n], f) + f(b[n]) by {
        assert (a + b)[..|a| + n] == a + b[..n];
        assert (a + b)[|a| + n] == b[n];
      }
      FlatMapAppend(a, b[..n], f);
      assert FlatMap(b, f) == FlatMap(b[..n], f) + f(b[n]);
      assert (FlatMap(a, f) + FlatMap(b[..n], f)) + f(b[n]) == FlatMap(a, f) + (FlatMap(b[..n], f) + f(b[n]));
    }
  }

  /** When every f(x) has n elements, FlatMap(xs, f) has n for each x. */
  lemma {:induction false} FlatMapUniformLength<T, U>(xs: seq<T>, f: T -> seq<U>, n: nat)
    requires forall x :: |f(x)| == n
    ensures |FlatMap(xs, f)| == n * |xs|
  {
    if xs != [] {
      FlatMapUniformLength(xs[..|xs| - 1], f, n);
      assert n * |xs| == n * (|xs| - 1) + n;
    }
  }

  /** When every f(x) has n elements, element n * i + k of FlatMap(xs, f) is element k of f(xs[i]). */
  lemma {:induction false} FlatMapUniformAt<T, U>(xs: seq<T>, f: T -> seq<U>, n: nat, i: nat, k: nat)
    requires forall x :: |f(x)| == n
    requires i < |xs| && k < n
    ensures n * i + k < |FlatMap(xs, f)| && FlatMap(xs, f)[n * i + k] == f(xs[i])[k]
  {
    FlatMapSplit(xs, i, f);
    FlatMapUniformLength(xs[..i], f, n);
    FlatMapUniformLength(xs, f, n);
    MulLeq(n, i + 1, |xs|);
  }

  lemma {:induction false} MulLeq(n: nat, a: nat, b: nat)
    requires a <= b
    ensures n * a <= n * b
  {
    assert n * b == n * a + n * (b - a);
  }

  /** The concatenation splits around any element. */
  lemma {:induction false} FlatMapSplit<T, U>(xs: seq<T>, i: nat, f: T -> seq<U>)
    requires i < |xs|
    ensures FlatMap(xs, f) == FlatMap(xs[..i], f) + (f(xs[i]) + FlatMap(xs[i + 1..], f))
  {
    var front, mid, back := FlatMap(xs[..i], f), f(xs[i]), FlatMap(xs[i + 1..], f);
    assert FlatMap(xs, f) == FlatMap(xs[..i + 1], f) + back by {
      assert xs[..i + 1] + xs[i + 1..] == xs;
      FlatMapAppend(xs[..i + 1], xs[i + 1..], f);
    }
    assert FlatMap(xs[..i + 1], f) == front + mid by {
      assert xs[..i + 1][..i] == xs[..i];
      assert xs[..i + 1][i] == xs[i];
    }
    assert (front + mid) + back == front + (mid + back);
  }

  lemma {:induction false} ConcatRegroup<T>(front: seq<T>, a: seq<T>, b: seq<T>, back: seq<T>)
    ensures front + ((a + b) + back) == (front + a) + (b + back)
  {
  }

  /** Every element of the concatenation comes from some f(xs[i]), and every f(xs[i]) is in it. */
  lemma {:induction false} FlatMapMembers<T, U>(xs: seq<T>, f: T -> seq<U>, y: U)
    ensures y in FlatMap(xs, f) <==> exists i :: 0 <= i < |xs| && y in f(xs[i])
  {
    if xs != [] {
      var n := |xs| - 1;
      FlatMapMembers(xs[..n], f, y);
      assert forall i :: 0 <= i < n ==> xs[..n][i] == xs[i];
    }
  }

  /** f applied to each element in order; the first error is the result. */
  function Traverse<T, U, E>(xs: seq<T>, f: T -> Result<U, E>): Result<seq<U>, E> {
    if xs == [] then Ok([])
    else
      match Traverse(xs[..|xs| - 1], f)
      case Err(e) => Err(e)
      case Ok(ys) =>
        match f(xs[|xs| - 1])
        case Err(e) => Err(e)
        case Ok(y) => Ok(ys + [y])
  }

  lemma {:induction false} TraverseErrorSticks<T, U, E>(xs: seq<T>, more: seq<T>, f: T -> Result<U, E>)
    requires Traverse(xs, f).Err?
    ensures Traverse(xs + more, f) == Traverse(xs, f)
  {
    if more == [] {
      assert xs + more == xs;
    } else {
      var n := |more| - 1;
      TraverseErrorSticks(xs, more[..n], f);
      assert (xs + more)[..|xs| + n] == xs + more[..n];
    }
  }

  lemma {:induction false} TraverseSnoc<T, U, E>(xs: seq<T>, x: T, f: T -> Result<U, E>)
    requires Traverse(xs, f).Ok?
    ensures Traverse(xs + [x], f) == match f(x)
      case Err(e) => Err(e)
      case Ok(y) => Ok(Traverse(xs, f).value + [y])
  {
    assert (xs + [x])[..|xs|] == xs;
  }

  /** Success means every element succeeded, one result per element, in order. */
  lemma {:induction false} TraverseOk<T, U, E>(xs: seq<T>, f: T -> Result<U, E>)
    ensures Traverse(xs, f).Ok? <==> forall i :: 0 <= i < |xs| ==> f(xs[i]).Ok?
    ensures Traverse(xs, f).Ok? ==>
      |Traverse(xs, f).value| == |xs|
      && forall i :: 0 <= i < |xs| ==> Traverse(xs, f).value[i] == f(xs[i]).value
  {
    if xs != [] {
      var n := |xs| - 1;
      TraverseOk(xs[..n], f);
      assert forall i :: 0 <= i < n ==> xs[..n][i] == xs[i];
    }
  }

  /** A failure is the error of the first element that fails. */
  lemma {:induction false} TraverseFirstError<T, U, E>(xs: seq<T>, f: T -> Result<U, E>)
    requires Traverse(xs, f).Err?
    ensures exists i ::
      (0 <= i < |xs| && f(xs[i]) == Err(Traverse(xs, f).error)
       && forall j :: 0 <= j < i ==> f(xs[j]).Ok?)
  {
    var n := |xs| - 1;
    assert forall i :: 0 <= i < n ==> xs[..n][i] == xs[i];
    if Traverse(xs[..n], f).Err? {
      TraverseFirstError(xs[..n], f);
      var i :| 0 <= i < n && f(xs[..n][i]) == Err(Traverse(xs[..n], f).error)
        && forall j :: 0 <= j < i ==> f(xs[..n][j]).Ok?;
      assert f(xs[i]) == Err(Traverse(xs, f).error);
    } else {
      TraverseOk(xs[..n], f);
      assert f(xs[n]) == Err(Traverse(xs, f).error);
    }
  }

  /**
   * Fills a dictionary from the elements that carry a label, each setting its
   * label's entry to its value; the first value that fails is the result.
   */
  function KeyedScan<T, K(==), V, E>(xs: seq<T>, labelOf: T -> Option<K>, value: (K, T) -> Result<V, E>)
    : Result<map<K, V>, E>
  {
    if xs == [] then Ok(map[])
    else
      var x := xs[|xs| - 1];
      match KeyedScan(xs[..|xs| - 1], labelOf, value)
      case Err(e) => Err(e)
      case Ok(acc) =>
        match labelOf(x)
        case None => Ok(acc)
        case Some(k) =>
          match value(k, x)
          case Err(e) => Err(e)
          case Ok(v) => Ok(acc[k := v])
  }

  lemma {:induction false} KeyedScanErrorSticks<T, K, V, E>(
    xs: seq<T>, n: nat, labelOf: T -> Option<K>, value: (K, T) -> Result<V, E>)
    requires n <= |xs| && KeyedScan(xs[..n], labelOf, value).Err?
    ensures KeyedScan(xs, labelOf, value) == KeyedScan(xs[..n], labelOf, value)
    decreases |xs| - n
  {
    if n < |xs| {
      assert xs[..n + 1][..n] == xs[..n];
      KeyedScanErrorSticks(xs, n + 1, labelOf, value);
    } else {
      assert xs[..n] == xs;
    }
  }

  /** The entry of k exists exactly when some element has label k, and holds the value of the last one. */
  lemma {:induction false} KeyedScanLast<T, K, V, E>(
    xs: seq<T>, labelOf: T -> Option<K>, value: (K, T) -> Result<V, E>, acc: map<K, V>, k: K)
    requires KeyedScan(xs, labelOf, value) == Ok(acc)
    ensures k in acc <==> exists i :: 0 <= i < |xs| && labelOf(xs[i]) == Some(k)
    ensures k in acc ==> exists i ::
      (&& 0 <= i < |xs| && labelOf(xs[i]) == Some(k) && value(k, xs[i]) == Ok(acc[k])
       && forall j :: i < j < |xs| ==> labelOf(xs[j]) != Some(k))
  {
    if xs != [] {
      var n := |xs| - 1;
      var init := xs[..n];
      var acc0 := KeyedScan(init, labelOf, value).value;
      KeyedScanLast(init, labelOf, value, acc0, k);
      assert forall i :: 0 <= i < n ==> init[i] == xs[i];
      if labelOf(xs[n]) == Some(k) {
        assert acc == acc0[k := value(k, xs[n]).value];
      } else {
        assert k in acc <==> k in acc0;
        assert k in acc ==> acc[k] == acc0[k];
      }
    }
  }

  /** The scan succeeds exactly when every labelled element's value succeeds. */
  lemma {:induction false} KeyedScanOk<T, K, V, E>(
    xs: seq<T>, labelOf: T -> Option<K>, value: (K, T) -> Result<V, E>)
    ensures KeyedScan(xs, labelOf, value).Ok? <==> LabelledValuesOk(xs, labelOf, value)
  {
    if xs != [] {
      var n := |xs| - 1;
      KeyedScanOk(xs[..n], labelOf, value);
      assert forall i :: 0 <= i < n ==> xs[..n][i] == xs[i];
    }
  }

  /** An element without a label can be removed without changing the result. */
  lemma {:induction false} KeyedScanSkip<T, K, V, E>(
    before: seq<T>, x: T, after: seq<T>, labelOf: T -> Option<K>, value: (K, T) -> Result<V, E>)
    requires labelOf(x).None?
    ensures KeyedScan(before + [x] + after, labelOf, value) == KeyedScan(before + after, labelOf, value)
  {
    if after == [] {
      assert before + [x] + after == before + [x];
      assert (before + [x])[..|before|] == before;
      assert before + after == before;
    } else {
      var n := |after| - 1;
      KeyedScanSkip(before, x, after[..n], labelOf, value);
      assert (before + [x] + after)[..|before| + 1 + n] == before + [x] + after[..n];
      assert (before + after)[..|before| + n] == before + after[..n];
    }
  }

  /** Extending the prefix by an element without a label leaves the result as it was. */
  lemma {:induction false} KeyedScanPrefixSkip<T, K, V, E>(
    xs: seq<T>, n: nat, labelOf: T -> Option<K>, value: (K, T) -> Result<V, E>)
    requires n < |xs| && labelOf(xs[n]).None?
    ensures KeyedScan(xs[..n + 1], labelOf, value) == KeyedScan(xs[..n], labelOf, value)
  {
    assert xs[..n + 1][..n] == xs[..n];
    assert xs[..n + 1][n] == xs[n];
  }

  /** Extending the prefix by an element labelled k whose value is v sets entry k to v. */
  lemma {:induction false} KeyedScanPrefixStep<T, K, V, E>(
    xs: seq<T>, n: nat, labelOf: T -> Option<K>, value: (K, T) -> Result<V, E>, acc: map<K, V>, k: K, v: V)
    requires n < |xs| && KeyedScan(xs[..n], labelOf, value) == Ok(acc)
    requires labelOf(xs[n]) == Some(k) && value(k, xs[n]) == Ok(v)
    ensures KeyedScan(xs[..n + 1], labelOf, value) == Ok(acc[k := v])
  {
    assert xs[..n + 1][..n] == xs[..n];
    assert xs[..n + 1][n] == xs[n];
  }

  /** Some element of xs has label k. */
  ghost predicate HasLabel<T, K>(xs: seq<T>, labelOf: T -> Option<K>, k: K) {
    exists i :: 0 <= i < |xs| && labelOf(xs[i]) == Some(k)
  }

  /** Element i is the last element of xs with label k. */
  ghost predicate LastLabelled<T, K>(xs: seq<T>, labelOf: T -> Option<K>, k: K, i: int) {
    && 0 <= i < |xs| && labelOf(xs[i]) == Some(k)
    && forall j :: i < j < |xs| ==> labelOf(xs[j]) != Some(k)
  }

  /** Every labelled element of xs has a value that succeeds. */
  ghost predicate LabelledValuesOk<T, K, V, E>(xs: seq<T>, labelOf: T -> Option<K>, value: (K, T) -> Result<V, E>) {
    forall i :: 0 <= i < |xs| && labelOf(xs[i]).Some? ==> value(labelOf(xs[i]).value, xs[i]).Ok?
  }

  /** The dictionary has an entry for k exactly when some element has label k. */
  lemma {:induction false} KeyedScanDomain<T, K, V, E>(
    xs: seq<T>, labelOf: T -> Option<K>, value: (K, T) -> Result<V, E>, acc: map<K, V>, k: K)
    requires KeyedScan(xs, labelOf, value) == Ok(acc)
    ensures k in acc <==> HasLabel(xs, labelOf, k)
  {
    KeyedScanLast(xs, labelOf, value, acc, k);
  }

  /** The entry for k holds the value of the last element with label k. */
  lemma {:induction false} KeyedScanLastValue<T, K, V, E>(
    xs: seq<T>, labelOf: T -> Option<K>, value: (K, T) -> Result<V, E>, acc: map<K, V>, k: K, i: int)
    requires KeyedScan(xs, labelOf, value) == Ok(acc)
    requires LastLabelled(xs, labelOf, k, i)
    ensures k in acc && value(k, xs[i]) == Ok(acc[k])
  {
    KeyedScanLast(xs, labelOf, value, acc, k);
    var i' :| 0 <= i' < |xs| && labelOf(xs[i']) == Some(k) && value(k, xs[i']) == Ok(acc[k])
      && forall j :: i' < j < |xs| ==> labelOf(xs[j]) != Some(k);
    assert !(i < i') && !(i' < i);
  }
}
