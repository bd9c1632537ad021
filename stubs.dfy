/** A boat's `loads` property: the ordered list of `{id}` stubs of the loads
    it carries, represented by the load ids. This module holds the list
    operations the route handlers perform on it. */
module Stubs {

  /** Number of stubs for load `x`. */
  function Count(xs: seq<int>, x: int): nat {
    if |xs| == 0 then 0 else (if xs[0] == x then 1 else 0) + Count(xs[1..], x)
  }

  /** The list with every stub for load `x` left out. */
  function Strip(xs: seq<int>, x: int): seq<int> {
    if |xs| == 0 then [] else (if xs[0] == x then [] else [xs[0]]) + Strip(xs[1..], x)
  }

  /** Python's `list.remove`: drops the first stub for load `x`. */
  function RemoveFirst(xs: seq<int>, x: int): (r: seq<int>)
    requires x in xs
    ensures |r| == |xs| - 1
  {
    if xs[0] == x then xs[1..] else [xs[0]] + RemoveFirst(xs[1..], x)
  }

  /** No load is listed twice. */
  predicate NoDup(xs: seq<int>) {
    forall i, j :: 0 <= i < j < |xs| ==> xs[i] != xs[j]
  }

  lemma {:induction false} CountZero(xs: seq<int>, x: int)
    ensures Count(xs, x) == 0 <==> x !in xs
  {
    if |xs| > 0 {
      CountZero(xs[1..], x);
      assert xs == [xs[0]] + xs[1..];
    }
  }

  lemma {:induction false} StripMembers(xs: seq<int>, x: int, y: int)
    ensures y in Strip(xs, x) <==> y in xs && y != x
  {
    if |xs| > 0 {
      StripMembers(xs[1..], x, y);
      assert xs == [xs[0]] + xs[1..];
    }
  }

  lemma {:induction false} StripAbsent(xs: seq<int>, x: int)
    requires x !in xs
    ensures Strip(xs, x) == xs
  {
    if |xs| > 0 {
      assert x !in xs[1..];
      StripAbsent(xs[1..], x);
      assert xs == [xs[0]] + xs[1..];
    }
  }

  lemma {:induction false} StripAppend(xs: seq<int>, y: int, x: int)
    ensures Strip(xs + [y], x) == Strip(xs, x) + (if y == x then [] else [y])
  {
    if |xs| == 0 {
      assert xs + [y] == [y];
    } else {
      var hd := if xs[0] == x then [] else [xs[0]];
      var tl := if y == x then [] else [y];
      assert (xs + [y])[0] == xs[0] && (xs + [y])[1..] == xs[1..] + [y];
      StripAppend(xs[1..], y, x);
      calc {
        Strip(xs + [y], x);
        hd + Strip(xs[1..] + [y], x);
        hd + (Strip(xs[1..], x) + tl);
        (hd + Strip(xs[1..], x)) + tl;
      }
    }
  }

  lemma {:induction false} StripKeepsNoDup(xs: seq<int>, x: int)
    requires NoDup(xs)
    ensures NoDup(Strip(xs, x))
  {
    if |xs| > 0 {
      assert NoDup(xs[1..]) by {
        forall i, j | 0 <= i < j < |xs[1..]| ensures xs[1..][i] != xs[1..][j] {
          assert xs[1..][i] == xs[i + 1] && xs[1..][j] == xs[j + 1];
        }
      }
      StripKeepsNoDup(xs[1..], x);
      var rest := Strip(xs[1..], x);
      if xs[0] != x {
        assert xs[0] !in xs[1..] by {
          forall k | 0 <= k < |xs[1..]| ensures xs[1..][k] != xs[0] {
            assert xs[1..][k] == xs[k + 1];
          }
        }
        StripMembers(xs[1..], x, xs[0]);
        var r := [xs[0]] + rest;
        forall i, j | 0 <= i < j < |r| ensures r[i] != r[j] {
          if i == 0 {
            assert r[j] == rest[j - 1] && r[j] in rest;
          } else {
            assert r[i] == rest[i - 1] && r[j] == rest[j - 1];
          }
        }
      }
    }
  }

  lemma AppendKeepsNoDup(xs: seq<int>, y: int)
    requires NoDup(xs) && y !in xs
    ensures NoDup(xs + [y])
  {
    var r := xs + [y];
    forall i, j | 0 <= i < j < |r| ensures r[i] != r[j] {
      if j == |xs| {
        assert r[i] == xs[i];
      } else {
        assert r[i] == xs[i] && r[j] == xs[j];
      }
    }
  }

  /** A list without repeats has at most one stub for any load. */
  lemma {:induction false} NoDupCount(xs: seq<int>, x: int)
    requires NoDup(xs)
    ensures Count(xs, x) <= 1
  {
    if |xs| > 0 {
      assert NoDup(xs[1..]) by {
        forall i, j | 0 <= i < j < |xs[1..]| ensures xs[1..][i] != xs[1..][j] {
          assert xs[1..][i] == xs[i + 1] && xs[1..][j] == xs[j + 1];
        }
      }
      NoDupCount(xs[1..], x);
      if xs[0] == x {
        assert x !in xs[1..] by {
          forall k | 0 <= k < |xs[1..]| ensures xs[1..][k] != x {
            assert xs[1..][k] == xs[k + 1];
          }
        }
        CountZero(xs[1..], x);
      }
    }
  }

  /** `list.remove` takes away exactly one stub for `x` and no other stub. */
  lemma {:induction false} RemoveFirstDropsOne(xs: seq<int>, x: int)
    requires x in xs
    ensures Count(RemoveFirst(xs, x), x) == Count(xs, x) - 1
    ensures Strip(RemoveFirst(xs, x), x) == Strip(xs, x)
  {
    if xs[0] != x {
      assert x in xs[1..] by {
        var k :| 0 <= k < |xs| && xs[k] == x;
        assert xs[1..][k - 1] == x;
      }
      RemoveFirstDropsOne(xs[1..], x);
      var r := [xs[0]] + RemoveFirst(xs[1..], x);
      assert r[1..] == RemoveFirst(xs[1..], x);
    }
  }

  /** The scan of the detach route: is there a stub for load `x`? */
  method HasStub(ls: seq<int>, x: int) returns (present: bool)
    ensures present <==> x in ls
  {
    present := false;
    var i := 0;
    while i < |ls|
      invariant 0 <= i <= |ls|
      invariant x !in ls[..i]
    {
      if ls[i] == x {
        present := true;
        break;
      }
      assert ls[..i + 1] == ls[..i] + [ls[i]];
      i := i + 1;
    }
    assert present || ls[..i] == ls;
  }

  /** The removal loop of the detach and delete-load routes, as written:
      `for l in loads: if l is x: loads.remove(l)`. The iteration walks the
      list it is shrinking, so after each removal it skips one element.
      Every stub for another load survives in order, at least one stub for
      `x` goes when there is one, and when `x` is listed at most once the
      result is the list without it. */
  method DropStubs(ls: seq<int>, x: int) returns (r: seq<int>)
    ensures Strip(r, x) == Strip(ls, x)
    ensures Count(r, x) <= Count(ls, x)
    ensures x in ls ==> Count(r, x) < Count(ls, x)
    ensures Count(ls, x) <= 1 ==> r == Strip(ls, x)
  {
    r := ls;
    var i := 0;
    while i < |r|
      invariant Strip(r, x) == Strip(ls, x)
      invariant Count(r, x) <= Count(ls, x)
      invariant Count(r, x) == Count(ls, x) ==> r == ls && i <= |ls| && x !in ls[..i]
      decreases |r| - i
    {
      var l := r[i];
      if l == x {
        RemoveFirstDropsOne(r, x);
        r := RemoveFirst(r, x);
      } else {
        assert r == ls ==> ls[..i + 1] == ls[..i] + [l];
      }
      i := i + 1;
    }
    CountZero(ls, x);
    CountZero(r, x);
    if Count(ls, x) <= 1 {
      if Count(r, x) == Count(ls, x) {
        assert ls[..i] == ls;
      }
      StripAbsent(r, x);
    }
  }
}
