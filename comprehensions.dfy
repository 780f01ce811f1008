/**
 * Python list comprehensions over a sequence: the indices that satisfy a
 * test, a filter, and a comprehension whose element expression may raise.
 */
module Comprehensions {
  import opened Wrappers

  /** `[i for i, e in enumerate(s) if p(e)]`. */
  function IndicesWhere<T>(s: seq<T>, p: T -> bool): (r: seq<nat>)
    ensures forall k :: 0 <= k < |r| ==> r[k] < |s| && p(s[r[k]])
    ensures forall j, k :: 0 <= j < k < |r| ==> r[j] < r[k]
    decreases |s|
  {
    if s == [] then []
    else
      var r0 := IndicesWhere(s[..|s| - 1], p);
      if p(s[|s| - 1]) then r0 + [|s| - 1] else r0
  }

  /** Every index whose element satisfies `p` is listed. */
  lemma {:induction false} IndicesWhereComplete<T>(s: seq<T>, p: T -> bool, i: nat)
    requires i < |s| && p(s[i])
    ensures i in IndicesWhere(s, p)
    decreases |s|
  {
    if i < |s| - 1 {
      IndicesWhereComplete(s[..|s| - 1], p, i);
    }
  }

  /** When every element satisfies `p`, every index is listed, in order. */
  lemma {:induction false} IndicesWhereAll<T>(s: seq<T>, p: T -> bool)
    requires forall i :: 0 <= i < |s| ==> p(s[i])
    ensures |IndicesWhere(s, p)| == |s|
    ensures forall k :: 0 <= k < |s| ==> IndicesWhere(s, p)[k] == k
    decreases |s|
  {
    if s != [] {
      var n := |s| - 1;
      assert forall i :: 0 <= i < n ==> s[..n][i] == s[i];
      IndicesWhereAll(s[..n], p);
    }
  }

  /** `[x for x in s if p(x)]`. */
  function Keep<T>(s: seq<T>, p: T -> bool): (r: seq<T>)
    ensures |r| <= |s|
    ensures forall x :: x in r ==> x in s && p(x)
    decreases |s|
  {
    if s == [] then [] else (if p(s[0]) then [s[0]] else []) + Keep(s[1..], p)
  }

  /** Nothing that satisfies `p` is dropped. */
  lemma {:induction false} KeepComplete<T>(s: seq<T>, p: T -> bool, x: T)
    requires x in s && p(x)
    ensures x in Keep(s, p)
    decreases |s|
  {
    if s[0] != x {
      KeepComplete(s[1..], p, x);
    }
  }

  /** Filtering distributes over concatenation, so it keeps relative order. */
  lemma {:induction false} KeepAppend<T>(a: seq<T>, b: seq<T>, p: T -> bool)
    ensures Keep(a + b, p) == Keep(a, p) + Keep(b, p)
    decreases |a|
  {
    if a != [] {
      assert (a + b)[1..] == a[1..] + b;
      KeepAppend(a[1..], b, p);
    } else {
      assert a + b == b;
    }
  }

  /** Two filters in a row are one filter by both conditions. */
  lemma {:induction false} KeepKeep<T>(s: seq<T>, p: T -> bool, q: T -> bool, pq: T -> bool)
    requires forall x :: pq(x) == (p(x) && q(x))
    ensures Keep(Keep(s, p), q) == Keep(s, pq)
    decreases |s|
  {
    if s != [] {
      KeepKeep(s[1..], p, q, pq);
      var head := if p(s[0]) then [s[0]] else [];
      KeepAppend(head, Keep(s[1..], p), q);
      if p(s[0]) {
        assert head[1..] == [];
      }
    }
  }

  /** Filters that agree everywhere keep the same elements. */
  lemma {:induction false} KeepSame<T>(s: seq<T>, p: T -> bool, q: T -> bool)
    requires forall x :: p(x) == q(x)
    ensures Keep(s, p) == Keep(s, q)
    decreases |s|
  {
    if s != [] {
      KeepSame(s[1..], p, q);
    }
  }

  /** A filter that holds for every element keeps the list as it is. */
  lemma {:induction false} KeepAll<T>(s: seq<T>, p: T -> bool)
    requires forall x :: x in s ==> p(x)
    ensures Keep(s, p) == s
    decreases |s|
  {
    if s != [] {
      assert s[0] in s;
      assert forall x :: x in s[1..] ==> x in s;
      KeepAll(s[1..], p);
    }
  }

  /** A filter that holds for no element keeps nothing. */
  lemma {:induction false} KeepNone<T>(s: seq<T>, p: T -> bool)
    requires forall x :: x in s ==> !p(x)
    ensures Keep(s, p) == []
    decreases |s|
  {
    if s != [] {
      assert s[0] in s;
      assert forall x :: x in s[1..] ==> x in s;
      KeepNone(s[1..], p);
    }
  }

  /**
   * `[f(x) for x in s]` when `f` may raise, given the results `rs` of `f`
   * element by element: all the values, or the first error.
   */
  function Collect<T, E>(rs: seq<Result<T, E>>): (r: Result<seq<T>, E>)
    ensures r.Ok? <==> forall i :: 0 <= i < |rs| ==> rs[i].Ok?
    decreases |rs|
  {
    if rs == [] then Ok([])
    else
      var n := |rs| - 1;
      assert forall i :: 0 <= i < n ==> rs[..n][i] == rs[i];
      var prev :- Collect(rs[..n]);
      var last :- rs[n];
      Ok(prev + [last])
  }

  /** The values are the elements' values, in order. */
  lemma {:induction false} CollectValues<T, E>(rs: seq<Result<T, E>>)
    requires Collect(rs).Ok?
    ensures |Collect(rs).value| == |rs|
    ensures forall i :: 0 <= i < |rs| ==> Collect(rs).value[i] == rs[i].value
    decreases |rs|
  {
    if rs != [] {
      var n := |rs| - 1;
      assert forall i :: 0 <= i < n ==> rs[..n][i] == rs[i];
      CollectValues(rs[..n]);
    }
  }

  /** Once a prefix fails, the whole list fails with the same error. */
  lemma {:induction false} CollectStopped<T, E>(rs: seq<Result<T, E>>, i: nat)
    requires i <= |rs| && Collect(rs[..i]).Err?
    ensures Collect(rs) == Collect(rs[..i])
    decreases |rs| - i
  {
    if i < |rs| {
      var n := |rs| - 1;
      assert rs[..n][..i] == rs[..i];
      CollectStopped(rs[..n], i);
    } else {
      assert rs[..i] == rs;
    }
  }

  /** The first element that fails decides the error. */
  lemma CollectFails<T, E>(rs: seq<Result<T, E>>, i: nat)
    requires i < |rs| && Collect(rs[..i]).Ok? && rs[i].Err?
    ensures Collect(rs) == Err(rs[i].error)
  {
    assert rs[..i + 1][..i] == rs[..i];
    CollectStopped(rs, i + 1);
  }

  /** One more element that succeeds: its value is appended. */
  lemma CollectSnoc<T, E>(rs: seq<Result<T, E>>, i: nat)
    requires i < |rs| && Collect(rs[..i]).Ok? && rs[i].Ok?
    ensures Collect(rs[..i + 1]) == Ok(Collect(rs[..i]).value + [rs[i].value])
  {
    assert rs[..i + 1][..i] == rs[..i];
  }

  /** The error is that of the first element that fails. */
  lemma {:induction false} CollectFirstError<T, E>(rs: seq<Result<T, E>>)
    requires Collect(rs).Err?
    ensures exists i :: (0 <= i < |rs| && rs[i].Err? && Collect(rs).error == rs[i].error
      && forall j :: 0 <= j < i ==> rs[j].Ok?)
    decreases |rs|
  {
    var n := |rs| - 1;
    assert forall i :: 0 <= i < n ==> rs[..n][i] == rs[i];
    if Collect(rs[..n]).Err? {
      CollectFirstError(rs[..n]);
      var i :| (0 <= i < n && rs[..n][i].Err? && Collect(rs[..n]).error == rs[..n][i].error
        && forall j :: 0 <= j < i ==> rs[..n][j].Ok?);
      assert rs[i] == rs[..n][i];
    } else {
      assert rs[n].Err?;
    }
  }
}
