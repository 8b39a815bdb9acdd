/** Sequence helpers shared by the loader and overlay models: distinctness,
    JavaScript `Set` insertion order, order-preserving filtering and removal. */
module Seqs {

  /** No element occurs twice. */
  predicate NoDuplicates<T(==)>(s: seq<T>) {
    forall i, j :: 0 <= i < j < |s| ==> s[i] != s[j]
  }

  /** Appending a new element keeps a sequence free of duplicates. */
  lemma NoDuplicatesAppend<T>(s: seq<T>, x: T)
    requires NoDuplicates(s) && x !in s
    ensures NoDuplicates(s + [x])
  {
    var t := s + [x];
    forall i, j | 0 <= i < j < |t| ensures t[i] != t[j] {
      if j == |s| {
        assert t[i] == s[i];
      }
    }
  }

  /** A sequence without duplicates whose elements all lie in `f` is no longer than `f`. */
  lemma {:induction false} NoDuplicatesWithin<T>(s: seq<T>, f: set<T>)
    requires NoDuplicates(s) && forall x :: x in s ==> x in f
    ensures |s| <= |f|
  {
    if s != [] {
      assert forall i, j :: 0 <= i < j < |s[1..]| ==> s[1..][i] == s[i + 1] && s[1..][j] == s[j + 1];
      assert s[0] !in s[1..];
      NoDuplicatesWithin(s[1..], f - {s[0]});
    }
  }

  /** The index of the first occurrence of `x` in `s`. */
  function FirstIndex<T(==)>(s: seq<T>, x: T): (i: nat)
    requires x in s
    ensures i < |s| && s[i] == x && x !in s[..i]
  {
    if s[0] == x then 0
    else
      var i := 1 + FirstIndex(s[1..], x);
      assert s[..i] == [s[0]] + s[1..][..i - 1];
      i
  }

  /** Only one index is the first occurrence. */
  lemma FirstIndexUnique<T>(s: seq<T>, x: T, i: nat)
    requires i < |s| && s[i] == x && x !in s[..i]
    ensures FirstIndex(s, x) == i
  {
  }

  /** An occurrence inside a prefix is found at the same index in the whole sequence. */
  lemma FirstIndexInPrefix<T>(s: seq<T>, n: nat, x: T)
    requires n <= |s| && x in s[..n]
    ensures FirstIndex(s, x) == FirstIndex(s[..n], x)
  {
    var i := FirstIndex(s[..n], x);
    assert s[..n][..i] == s[..i];
    FirstIndexUnique(s, x, i);
  }

  /** The distinct elements of `s`, each kept at its first occurrence: the
      order in which a JavaScript `Set` built from `s` iterates. */
  function Distinct<T(==)>(s: seq<T>): seq<T>
  {
    if s == [] then []
    else
      var prefix := Distinct(s[..|s| - 1]);
      if s[|s| - 1] in prefix then prefix else prefix + [s[|s| - 1]]
  }

  /** `Distinct` keeps exactly the elements of its input. */
  lemma {:induction false} DistinctElements<T>(s: seq<T>)
    ensures forall x :: x in Distinct(s) <==> x in s
    ensures |Distinct(s)| <= |s|
  {
    if s != [] {
      var t := s[..|s| - 1];
      DistinctElements(t);
      assert s == t + [s[|s| - 1]];
    }
  }

  /** `Distinct` never repeats an element. */
  lemma {:induction false} DistinctNoDuplicates<T>(s: seq<T>)
    ensures NoDuplicates(Distinct(s))
  {
    if s != [] {
      var t := s[..|s| - 1];
      DistinctNoDuplicates(t);
      DistinctElements(t);
    }
  }

  /** `Distinct` lists elements in the order of their first occurrence in `s`. */
  lemma {:induction false} DistinctFirstOccurrenceOrder<T>(s: seq<T>)
    ensures forall x :: x in Distinct(s) ==> x in s
    ensures forall i, j :: 0 <= i < j < |Distinct(s)| ==>
      FirstIndex(s, Distinct(s)[i]) < FirstIndex(s, Distinct(s)[j])
  {
    DistinctElements(s);
    if s != [] {
      var n := |s| - 1;
      var t := s[..n];
      var p := Distinct(t);
      var d := Distinct(s);
      DistinctFirstOccurrenceOrder(t);
      DistinctElements(t);
      forall i, j | 0 <= i < j < |d|
        ensures FirstIndex(s, d[i]) < FirstIndex(s, d[j])
      {
        FirstIndexInPrefix(s, n, d[i]);
        if j < |p| {
          FirstIndexInPrefix(s, n, d[j]);
        } else {
          assert d[j] == s[n] && s[n] !in t;
          FirstIndexUnique(s, s[n], n);
        }
      }
    }
  }

  /** The elements of `s` that satisfy `f`, in their original order. */
  function Filter<T(!new)>(s: seq<T>, f: T -> bool): (r: seq<T>)
    ensures |r| <= |s|
    ensures forall x :: x in r <==> x in s && f(x)
  {
    if s == [] then []
    else if f(s[0]) then [s[0]] + Filter(s[1..], f)
    else Filter(s[1..], f)
  }

  /** Filtering distributes over concatenation, so it keeps relative order. */
  lemma {:induction false} FilterAppend<T(!new)>(s: seq<T>, t: seq<T>, f: T -> bool)
    ensures Filter(s + t, f) == Filter(s, f) + Filter(t, f)
  {
    if s != [] {
      var st := s + t;
      assert st != [] && st[0] == s[0] && st[1..] == s[1..] + t;
      FilterAppend(s[1..], t, f);
      if f(s[0]) {
        assert Filter(st, f) == [s[0]] + (Filter(s[1..], f) + Filter(t, f));
      } else {
        assert Filter(st, f) == Filter(s[1..], f) + Filter(t, f);
      }
    } else {
      assert s + t == t;
    }
  }

  /** `s` without any occurrence of `x`, the others in their original order
      (`RemoveAppend`). */
  function Remove<T(==,!new)>(s: seq<T>, x: T): (r: seq<T>)
    ensures forall y :: y in r <==> y in s && y != x
    ensures NoDuplicates(s) ==> NoDuplicates(r)
    ensures NoDuplicates(s) && x in s ==> |r| == |s| - 1
    ensures x !in s ==> r == s
  {
    if s == [] then []
    else if s[0] == x then
      var r := Remove(s[1..], x);
      assert NoDuplicates(s) ==> x !in s[1..];
      r
    else
      var r := Remove(s[1..], x);
      assert NoDuplicates(s) ==> NoDuplicates(s[1..]) && s[0] !in s[1..];
      [s[0]] + r
  }

  /** Removal distributes over concatenation, so the other elements keep their order. */
  lemma {:induction false} RemoveAppend<T(!new)>(s: seq<T>, t: seq<T>, x: T)
    ensures Remove(s + t, x) == Remove(s, x) + Remove(t, x)
  {
    if s == [] {
      assert s + t == t;
    } else {
      assert (s + t)[0] == s[0] && (s + t)[1..] == s[1..] + t;
      RemoveAppend(s[1..], t, x);
    }
  }
}
