/** Small facts about sequences and multisets used by several components. */
module Seqs {

  lemma TailsAgree<T>(xs: seq<T>, ys: seq<T>)
    requires xs != [] && ys != [] && xs[0] == ys[0]
    requires multiset(xs) == multiset(ys)
    ensures multiset(xs[1..]) == multiset(ys[1..])
  {
    assert xs == [xs[0]] + xs[1..] && ys == [ys[0]] + ys[1..];
    assert multiset(xs[1..]) == multiset(xs) - multiset{xs[0]};
    assert multiset(ys[1..]) == multiset(ys) - multiset{ys[0]};
  }

  lemma SameLength<T>(xs: seq<T>, ys: seq<T>)
    requires multiset(xs) == multiset(ys)
    ensures |xs| == |ys|
  {
    assert |xs| == |multiset(xs)| == |multiset(ys)| == |ys|;
  }

  lemma SingleOccurrence<T>(xs: seq<T>, i: nat, j: nat)
    requires i < j < |xs| && multiset(xs)[xs[i]] == 1
    ensures xs[i] != xs[j]
  {
    assert xs == xs[..j] + [xs[j]] + xs[j + 1..];
    assert xs[i] in xs[..j];
  }

  /** The same elements with one of them moved to the end. */
  function MovedLast<T(==)>(xs: seq<T>, x: T): (r: seq<T>)
    requires x in xs
    ensures multiset(r) == multiset(xs) && |r| == |xs| && r[|r| - 1] == x
  {
    if xs[0] == x then
      assert xs == [x] + xs[1..];
      xs[1..] + [x]
    else
      assert xs == [xs[0]] + xs[1..];
      [xs[0]] + MovedLast(xs[1..], x)
  }

  /** All occurrences of `x`. */
  function Copies<T(==)>(xs: seq<T>, x: T): seq<T> {
    if xs == [] then [] else (if xs[0] == x then [x] else []) + Copies(xs[1..], x)
  }

  /** Everything but `x`, in order. */
  function Others<T(==)>(xs: seq<T>, x: T): seq<T> {
    if xs == [] then [] else (if xs[0] == x then [] else [xs[0]]) + Others(xs[1..], x)
  }

  lemma {:induction false} PartsMakeWhole<T>(xs: seq<T>, x: T)
    ensures multiset(Copies(xs, x)) + multiset(Others(xs, x)) == multiset(xs)
  {
    if xs != [] {
      PartsMakeWhole(xs[1..], x);
      assert xs == [xs[0]] + xs[1..];
    }
  }

  lemma {:induction false} CopyMembers<T>(xs: seq<T>, x: T)
    ensures Copies(xs, x) != [] <==> x in xs
    ensures forall i :: 0 <= i < |Copies(xs, x)| ==> Copies(xs, x)[i] == x
  {
    if xs != [] {
      CopyMembers(xs[1..], x);
      assert xs == [xs[0]] + xs[1..];
    }
  }

  lemma {:induction false} OtherMembers<T(!new)>(xs: seq<T>, x: T)
    ensures forall e :: e in Others(xs, x) <==> e in xs && e != x
  {
    if xs != [] {
      OtherMembers(xs[1..], x);
      assert xs == [xs[0]] + xs[1..];
    }
  }

  /** All occurrences of `x`, all of `y`, and everything else: put together in any order they are a permutation. */
  lemma PartedTwice<T(!new)>(all: seq<T>, x: T, y: T) returns (xs: seq<T>, ys: seq<T>, others: seq<T>)
    requires x in all && y in all && x != y
    ensures xs != [] && ys != [] && (forall e :: e in xs ==> e == x) && (forall e :: e in ys ==> e == y)
    ensures forall e :: e in others <==> e in all && e != x && e != y
    ensures multiset(xs) + multiset(ys) + multiset(others) == multiset(all)
  {
    var rest := Others(all, x);
    xs, ys, others := Copies(all, x), Copies(rest, y), Others(rest, y);
    CopyMembers(all, x);
    OtherMembers(all, x);
    CopyMembers(rest, y);
    OtherMembers(rest, y);
    assert multiset(xs) + multiset(ys) + multiset(others) == multiset(all) by {
      PartsMakeWhole(all, x);
      PartsMakeWhole(rest, y);
    }
  }
}
