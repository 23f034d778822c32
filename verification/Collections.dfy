/** Options, distinct lists and listings of finite sets. */
module Collections {
  datatype Option<+T> = None | Some(value: T)

  ghost predicate NoDup<T>(s: seq<T>) {
    forall i, j :: 0 <= i < j < |s| ==> s[i] != s[j]
  }

  function Elems<T>(s: seq<T>): set<T> {
    set x | x in s
  }

  lemma {:induction false} DistinctCount<T>(s: seq<T>)
    requires NoDup(s)
    ensures |Elems(s)| == |s|
  {
    if s != [] {
      var k := |s| - 1;
      DistinctCount(s[..k]);
      assert s[k] !in s[..k];
      assert Elems(s) == Elems(s[..k]) + {s[k]};
    }
  }

  lemma SubsetCount<T>(a: set<T>, b: set<T>)
    requires a <= b
    ensures |a| <= |b|
  {
    assert b == a + (b - a);
  }

  /** A query without ORDER BY: the selected keys, each once, in some order. */
  method Enumerate<T>(keys: set<T>) returns (s: seq<T>)
    ensures NoDup(s)
    ensures forall x :: x in s <==> x in keys
  {
    s := [];
    var left := keys;
    while left != {}
      invariant NoDup(s)
      invariant left <= keys
      invariant forall x :: x in s <==> x in keys && x !in left
      decreases left
    {
      var x :| x in left;
      s, left := s + [x], left - {x};
    }
  }

  ghost predicate Falling<T(!new)>(s: seq<T>, score: T -> real) {
    forall i, j :: 0 <= i < j < |s| ==> score(s[j]) <= score(s[i])
  }

  method Highest<T>(left: set<T>, score: T -> real) returns (best: T)
    requires left != {}
    ensures best in left && forall x :: x in left ==> score(x) <= score(best)
  {
    best :| best in left;
    var rest := left - {best};
    while rest != {}
      invariant rest <= left && best in left
      invariant forall x :: x in left && x !in rest ==> score(x) <= score(best)
      decreases rest
    {
      var x :| x in rest;
      if score(x) > score(best) {
        best := x;
      }
      rest := rest - {x};
    }
  }

  /** A query with ORDER BY score DESC: each key once, ties in some order. */
  method EnumerateFalling<T(!new)>(keys: set<T>, score: T -> real) returns (s: seq<T>)
    ensures NoDup(s) && Falling(s, score)
    ensures forall x :: x in s <==> x in keys
  {
    s := [];
    var left := keys;
    while left != {}
      invariant NoDup(s) && Falling(s, score)
      invariant left <= keys
      invariant forall x :: x in s <==> x in keys && x !in left
      invariant forall x, i :: x in left && 0 <= i < |s| ==> score(x) <= score(s[i])
      decreases left
    {
      var x := Highest(left, score);
      s, left := s + [x], left - {x};
    }
  }
}
