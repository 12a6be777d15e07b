/**
 * The behaviour of the Java collection operations the view-models rely on,
 * over sequences: `List.remove(Object)`, `List.indexOf`, `List.set`, and the
 * "keep the values of one kind, in order" loops written out in several files.
 */
module JavaLists {
  import opened Wrappers

  /** `List.indexOf(x)`: the first index holding `x`, or -1. */
  function IndexOf<T(==)>(s: seq<T>, x: T): (i: int)
    ensures -1 <= i < |s|
    ensures i == -1 <==> x !in s
    ensures 0 <= i ==> s[i] == x && x !in s[..i]
  {
    if s == [] then -1
    else if s[0] == x then 0
    else
      var j := IndexOf(s[1..], x);
      assert s[1..][..if j < 0 then 0 else j] == s[1..if j < 0 then 1 else j + 1];
      if j < 0 then -1 else j + 1
  }

  /** `List.remove(Object)`: drops the first occurrence of `x`, if any. */
  function RemoveFirst<T(==)>(s: seq<T>, x: T): (r: seq<T>)
  {
    var i := IndexOf(s, x);
    if i < 0 then s else s[..i] + s[i + 1..]
  }

  /** Removing an element that is present takes out exactly one copy of it. */
  lemma RemoveFirstCount<T>(s: seq<T>, x: T)
    ensures x !in s ==> RemoveFirst(s, x) == s
    ensures x in s ==> |RemoveFirst(s, x)| == |s| - 1
    ensures x in s ==> multiset(RemoveFirst(s, x)) == multiset(s) - multiset{x}
  {
    var i := IndexOf(s, x);
    if 0 <= i {
      assert s == s[..i] + [x] + s[i + 1..];
      assert multiset(s) == multiset(s[..i]) + multiset{x} + multiset(s[i + 1..]);
    }
  }

  /** Appending a new element and then removing it gives back the list. */
  lemma {:induction false} RemoveFirstAppended<T>(s: seq<T>, x: T)
    requires x !in s
    ensures RemoveFirst(s + [x], x) == s
  {
    var i := IndexOf(s + [x], x);
    assert i == |s|;
    assert (s + [x])[..|s|] == s;
  }

  /** `List.set(i, x)` at the index of `old`, when `old` is present: same length,
      only that position changes. */
  function ReplaceFirst<T(==)>(s: seq<T>, old_: T, new_: T): (r: seq<T>)
    ensures |r| == |s|
    ensures old_ !in s ==> r == s
    ensures old_ in s ==> r[IndexOf(s, old_)] == new_
    ensures forall k :: 0 <= k < |s| && k != IndexOf(s, old_) ==> r[k] == s[k]
  {
    var i := IndexOf(s, old_);
    if i < 0 then s else s[i := new_]
  }

  /** Keeps, in order, the image of every element that `pick` accepts: the
      shape of a loop that tests `instanceof` and appends a cast value. */
  function Collect<A, B>(s: seq<A>, pick: A -> Option<B>): (r: seq<B>)
    ensures |r| <= |s|
  {
    if s == [] then []
    else
      (match pick(s[0]) case Some(b) => [b] case None => []) + Collect(s[1..], pick)
  }

  /** `Collect` distributes over concatenation, so it keeps the input order. */
  lemma {:induction false} CollectAppend<A, B>(s: seq<A>, t: seq<A>, pick: A -> Option<B>)
    ensures Collect(s + t, pick) == Collect(s, pick) + Collect(t, pick)
  {
    if s == [] {
      assert s + t == t;
    } else {
      assert (s + t)[1..] == s[1..] + t;
      CollectAppend(s[1..], t, pick);
    }
  }

  /** Something is collected exactly when some element is picked as it. */
  lemma {:induction false} CollectMembers<A, B>(s: seq<A>, pick: A -> Option<B>, b: B)
    ensures b in Collect(s, pick) <==> exists i :: 0 <= i < |s| && pick(s[i]) == Some(b)
  {
    if s != [] {
      CollectMembers(s[1..], pick, b);
      if exists i :: 0 <= i < |s[1..]| && pick(s[1..][i]) == Some(b) {
        var i :| 0 <= i < |s[1..]| && pick(s[1..][i]) == Some(b);
        assert pick(s[i + 1]) == Some(b);
      }
      if exists i :: 0 <= i < |s| && pick(s[i]) == Some(b) {
        var i :| 0 <= i < |s| && pick(s[i]) == Some(b);
        if i > 0 {
          assert pick(s[1..][i - 1]) == Some(b);
        }
      }
    }
  }

  /** Keeps, in order, the elements satisfying `p`: a stream `filter`. */
  function Filter<T>(s: seq<T>, p: T -> bool): (r: seq<T>)
    ensures |r| <= |s|
  {
    if s == [] then []
    else (if p(s[0]) then [s[0]] else []) + Filter(s[1..], p)
  }

  /** `Filter` distributes over concatenation, so it keeps the input order. */
  lemma {:induction false} FilterAppend<T>(s: seq<T>, t: seq<T>, p: T -> bool)
    ensures Filter(s + t, p) == Filter(s, p) + Filter(t, p)
  {
    if s == [] {
      assert s + t == t;
    } else {
      var head := if p(s[0]) then [s[0]] else [];
      assert (s + t)[0] == s[0];
      assert (s + t)[1..] == s[1..] + t;
      FilterAppend(s[1..], t, p);
      calc {
        Filter(s + t, p);
        head + Filter(s[1..] + t, p);
        head + (Filter(s[1..], p) + Filter(t, p));
        (head + Filter(s[1..], p)) + Filter(t, p);
      }
    }
  }

  /** An element is kept exactly when it is in the input and satisfies `p`. */
  lemma {:induction false} FilterMembers<T>(s: seq<T>, p: T -> bool, x: T)
    ensures x in Filter(s, p) <==> x in s && p(x)
  {
    if s != [] {
      FilterMembers(s[1..], p, x);
      assert s == [s[0]] + s[1..];
    }
  }
}
