/**
  The two orderings the store applies on request (`order_by('-popularity')`
  and `order_by('-launch_date')`) and the launch-date window of the New
  section (`launch_date__gte`).
 */
module Ranking {

  import opened Model

  /** The document field a section is ordered by. */
  datatype Field = Popularity | LaunchDate

  function Rank(h: Hit, f: Field): real
  {
    match f
    case Popularity => h.restaurant.popularity
    case LaunchDate => h.restaurant.launchDate as real
  }

  /** Non-increasing in field f. */
  predicate Descending(s: seq<Hit>, f: Field)
  {
    forall i, j :: 0 <= i < j < |s| ==> Rank(s[j], f) <= Rank(s[i], f)
  }

  /** No element ranks above v in field f. */
  predicate AtMost(s: seq<Hit>, f: Field, v: real)
  {
    forall i :: 0 <= i < |s| ==> Rank(s[i], f) <= v
  }

  /** Puts h before the first element of s that it ranks at least as high as. */
  function Insert(h: Hit, s: seq<Hit>, f: Field): (r: seq<Hit>)
    ensures multiset(r) == multiset(s) + multiset{h}
    ensures r[0] == h || (s != [] && r[0] == s[0])
  {
    if s == [] then
      [h]
    else if Rank(s[0], f) <= Rank(h, f) then
      [h] + s
    else
      assert s == [s[0]] + s[1..];
      [s[0]] + Insert(h, s[1..], f)
  }

  /** Inserting into a sorted list keeps it sorted. */
  lemma {:induction false} InsertDescending(h: Hit, s: seq<Hit>, f: Field)
    requires Descending(s, f)
    ensures Descending(Insert(h, s, f), f)
  {
    if s != [] && Rank(h, f) < Rank(s[0], f) {
      var rest := Insert(h, s[1..], f);
      InsertDescending(h, s[1..], f);
      var r := [s[0]] + rest;
      assert Rank(rest[0], f) <= Rank(s[0], f);
      forall i, j | 0 <= i < j < |r|
        ensures Rank(r[j], f) <= Rank(r[i], f)
      {
        if i == 0 {
          assert Rank(rest[j - 1], f) <= Rank(rest[0], f);
        } else {
          assert r[i] == rest[i - 1] && r[j] == rest[j - 1];
        }
      }
    }
  }

  /**
    The store's descending sort on field f: the same restaurants, in
    non-increasing order of f. The store promises no order among equal
    keys; no property below depends on the order this model picks for them.
   */
  function SortDescending(s: seq<Hit>, f: Field): (r: seq<Hit>)
    ensures Descending(r, f)
    ensures multiset(r) == multiset(s)
  {
    if s == [] then
      []
    else
      assert s == [s[0]] + s[1..];
      InsertDescending(s[0], SortDescending(s[1..], f), f);
      Insert(s[0], SortDescending(s[1..], f), f)
  }

  /**
    The filter `launch_date >= threshold`, inclusive: it keeps exactly the
    hits launched on or after the threshold day, with their multiplicities.
   */
  function LaunchedSince(s: seq<Hit>, threshold: int): (r: seq<Hit>)
    ensures forall i :: 0 <= i < |r| ==> r[i].restaurant.launchDate >= threshold
  {
    if s == [] then
      []
    else
      var rest := LaunchedSince(s[1..], threshold);
      if s[0].restaurant.launchDate >= threshold then
        [s[0]] + rest
      else
        rest
  }

  /**
    The window filter keeps exactly the hits launched on or after the
    threshold day, each as often as the input holds it.
   */
  lemma {:induction false} LaunchedSinceCount(s: seq<Hit>, threshold: int)
    ensures forall h :: (multiset(LaunchedSince(s, threshold))[h] ==
      if h.restaurant.launchDate >= threshold then multiset(s)[h] else 0)
  {
    if s != [] {
      assert s == [s[0]] + s[1..];
      LaunchedSinceCount(s[1..], threshold);
    }
  }

  /** Filtering never brings in a hit ranking above a bound the input respects. */
  lemma {:induction false} LaunchedSinceAtMost(s: seq<Hit>, threshold: int, f: Field, v: real)
    requires AtMost(s, f, v)
    ensures AtMost(LaunchedSince(s, threshold), f, v)
  {
    if s != [] {
      LaunchedSinceAtMost(s[1..], threshold, f, v);
    }
  }

  /** Filtering keeps the relative order: a sorted input stays sorted. */
  lemma {:induction false} LaunchedSinceDescending(s: seq<Hit>, threshold: int, f: Field)
    requires Descending(s, f)
    ensures Descending(LaunchedSince(s, threshold), f)
  {
    if s != [] {
      LaunchedSinceDescending(s[1..], threshold, f);
      LaunchedSinceAtMost(s[1..], threshold, f, Rank(s[0], f));
    }
  }
}
