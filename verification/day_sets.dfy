/**
 * Sets of day numbers, as the habit form keeps the selected weekdays and
 * days of the month: toggling a chip, and turning the set into the sorted
 * list that is stored.
 */
module DaySets {

  /** `m` is the least element of `s`. */
  predicate IsLeast(m: int, s: set<int>) {
    m in s && forall y :: y in s ==> m <= y
  }

  lemma {:induction false} LeastExists(s: set<int>)
    requires s != {}
    ensures exists m :: IsLeast(m, s)
    decreases |s|
  {
    assert exists y :: y in s by {
      if forall y :: y !in s {
        assert false;
      }
    }
    var x :| x in s;
    if s == {x} {
      assert IsLeast(x, s);
    } else {
      LeastExists(s - {x});
      var m :| IsLeast(m, s - {x});
      var least := if x < m then x else m;
      forall y | y in s ensures least <= y {
        if y != x {
          assert y in s - {x};
        }
      }
      assert IsLeast(least, s);
    }
  }

  /** Two least elements are the same element. */
  lemma LeastUnique(m: int, n: int, s: set<int>)
    requires IsLeast(m, s) && IsLeast(n, s)
    ensures m == n
  {
  }

  /** Swift's `Array(set).sorted()`: the elements in increasing order, each once. */
  function SortedElements(s: set<int>): (r: seq<int>)
    ensures forall x :: x in r <==> x in s
    ensures StrictlyIncreasing(r)
    ensures |r| == |s|
    decreases |s|
  {
    if s == {} then []
    else
      LeastExists(s);
      var m :| IsLeast(m, s);
      var rest := SortedElements(s - {m});
      assert forall x :: x in rest ==> m < x;
      [m] + rest
  }

  predicate StrictlyIncreasing(xs: seq<int>) {
    forall i, j :: 0 <= i < j < |xs| ==> xs[i] < xs[j]
  }

  function Elements(xs: seq<int>): set<int> {
    set x | x in xs
  }

  /** `SortedElements` starts with the least element. */
  lemma SortedElementsUnfold(s: set<int>, m: int)
    requires IsLeast(m, s)
    ensures SortedElements(s) == [m] + SortedElements(s - {m})
  {
  }

  /** The head of an increasing list is the least of its elements, and the rest hold the others. */
  lemma IncreasingHead(xs: seq<int>)
    requires StrictlyIncreasing(xs) && xs != []
    ensures IsLeast(xs[0], Elements(xs))
    ensures Elements(xs) - {xs[0]} == Elements(xs[1..])
  {
    var s := Elements(xs);
    forall y | y in s ensures xs[0] <= y {
      var k :| 0 <= k < |xs| && xs[k] == y;
    }
    forall y ensures y in s - {xs[0]} <==> y in Elements(xs[1..]) {
      if y in xs[1..] {
        var k :| 0 <= k < |xs[1..]| && xs[1..][k] == y;
        assert xs[k + 1] == y;
      }
    }
  }

  /** A list that is already increasing comes back unchanged from a set round trip. */
  lemma {:induction false} SortedElementsOfIncreasing(xs: seq<int>)
    requires StrictlyIncreasing(xs)
    ensures SortedElements(Elements(xs)) == xs
    decreases |xs|
  {
    if xs == [] {
      assert Elements(xs) == {};
    } else {
      var tail := xs[1..];
      assert StrictlyIncreasing(tail);
      SortedElementsOfIncreasing(tail);
      calc {
        SortedElements(Elements(xs));
        { IncreasingHead(xs); SortedElementsUnfold(Elements(xs), xs[0]); }
        [xs[0]] + SortedElements(Elements(xs) - {xs[0]});
        { IncreasingHead(xs); }
        [xs[0]] + SortedElements(Elements(tail));
        [xs[0]] + tail;
        xs;
      }
    }
  }

  /** A tap on a day chip: remove the day when selected, insert it otherwise. */
  function Toggled(s: set<int>, x: int): (r: set<int>)
    ensures x in r <==> x !in s
    ensures forall y :: y != x ==> (y in r <==> y in s)
  {
    if x in s then s - {x} else s + {x}
  }

  /** Tapping the same chip twice restores the selection. */
  lemma ToggleTwice(s: set<int>, x: int)
    ensures Toggled(Toggled(s, x), x) == s
  {
  }
}
