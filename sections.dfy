/**
  The three sections of the discovery page, computed from the store's
  answer to the proximity query around the customer's point.
 */
module Sections {

  import opened Model
  import opened Fallback
  import opened Ranking

  /** The search radius around the customer, in the store's distance unit. */
  const Radius: real := 1500.0

  /** What the proximity query promises: nearest first. */
  predicate NearestFirst(s: seq<Hit>)
  {
    forall i, j :: 0 <= i < j < |s| ==> s[i].distance <= s[j].distance
  }

  /** No element is nearer than d. */
  predicate AtLeastAway(s: seq<Hit>, d: real)
  {
    forall i :: 0 <= i < |s| ==> d <= s[i].distance
  }

  /** Every element has online flag b. */
  predicate AllOnline(s: seq<Hit>, b: bool)
  {
    forall i :: 0 <= i < |s| ==> s[i].restaurant.online == b
  }

  /**
    The restaurants of one query `location__near = point,
    location__max_distance = 1500, online = b`: exactly the hits within the
    radius whose online flag is b, with their multiplicities.
   */
  function Candidates(hits: seq<Hit>, b: bool): (r: seq<Hit>)
    ensures AllOnline(r, b)
    ensures forall i :: 0 <= i < |r| ==> r[i].distance <= Radius
  {
    if hits == [] then
      []
    else
      var rest := Candidates(hits[1..], b);
      if hits[0].restaurant.online == b && hits[0].distance <= Radius then
        [hits[0]] + rest
      else
        rest
  }

  /**
    The query misses nothing: it holds each hit within the radius whose
    flag is b exactly as often as the store's answer does, and no other.
   */
  lemma {:induction false} CandidatesCount(hits: seq<Hit>, b: bool)
    ensures forall h :: (multiset(Candidates(hits, b))[h] ==
      if h.restaurant.online == b && h.distance <= Radius then multiset(hits)[h] else 0)
  {
    if hits != [] {
      assert hits == [hits[0]] + hits[1..];
      CandidatesCount(hits[1..], b);
    }
  }

  lemma {:induction false} CandidatesAtLeastAway(hits: seq<Hit>, b: bool, d: real)
    requires AtLeastAway(hits, d)
    ensures AtLeastAway(Candidates(hits, b), d)
  {
    if hits != [] {
      CandidatesAtLeastAway(hits[1..], b, d);
    }
  }

  /** Filtering by flag and radius keeps the nearest-first order. */
  lemma {:induction false} CandidatesNearestFirst(hits: seq<Hit>, b: bool)
    requires NearestFirst(hits)
    ensures NearestFirst(Candidates(hits, b))
  {
    if hits != [] {
      var rest := Candidates(hits[1..], b);
      CandidatesNearestFirst(hits[1..], b);
      assert AtLeastAway(hits[1..], hits[0].distance);
      CandidatesAtLeastAway(hits[1..], b, hits[0].distance);
      if hits[0].restaurant.online == b && hits[0].distance <= Radius {
        var r := [hits[0]] + rest;
        forall i, j | 0 <= i < j < |r|
          ensures r[i].distance <= r[j].distance
        {
          if 0 < i {
            assert r[i] == rest[i - 1] && r[j] == rest[j - 1];
          }
        }
      }
    }
  }

  /**
    The online and offline candidates split the hits within the radius: no
    hit is in both, together they hold every hit within the radius, and
    each keeps the store's nearest-first order.
   */
  lemma CandidatesPartition(hits: seq<Hit>)
    requires NearestFirst(hits)
    ensures var on, off := Candidates(hits, true), Candidates(hits, false);
      && multiset(on) !! multiset(off)
      && (forall h: Hit :: h.distance <= Radius ==> multiset(on)[h] + multiset(off)[h] == multiset(hits)[h])
      && NearestFirst(on) && NearestFirst(off)
  {
    CandidatesCount(hits, true);
    CandidatesCount(hits, false);
    CandidatesNearestFirst(hits, true);
    CandidatesNearestFirst(hits, false);
  }

  /** A list holding no more of each hit than one with flag b also has flag b. */
  lemma AllOnlineSubmultiset(s: seq<Hit>, t: seq<Hit>, b: bool)
    requires multiset(s) <= multiset(t) && AllOnline(t, b)
    ensures AllOnline(s, b)
  {
    forall i | 0 <= i < |s|
      ensures s[i].restaurant.online == b
    {
      assert s[i] in multiset(s);
      assert s[i] in t;
    }
  }

  /** Nearby: online candidates nearest first, filled up from offline ones. */
  function NearbySection(online: seq<Hit>, offline: seq<Hit>): seq<Hit>
  {
    Select(online, offline, PageSize)
  }

  /** Popular: each group sorted by popularity, most popular first. */
  function PopularSection(online: seq<Hit>, offline: seq<Hit>): seq<Hit>
  {
    Select(SortDescending(online, Popularity), SortDescending(offline, Popularity), PageSize)
  }

  /** New: each group sorted newest first and cut at the threshold day. */
  function NewSection(online: seq<Hit>, offline: seq<Hit>, threshold: int): seq<Hit>
  {
    Select(LaunchedSince(SortDescending(online, LaunchDate), threshold),
           LaunchedSince(SortDescending(offline, LaunchDate), threshold),
           PageSize)
  }

  /**
    What a section built by the fill rule from an online and an offline
    list looks like: at most n items, every online item before every
    offline one, offline items only when the online list is shorter than
    n, and, when both lists are sorted by f, sorted by f within the online
    part and within the offline part.
   */
  lemma {:induction false} SelectGroups(p: seq<Hit>, s: seq<Hit>, n: nat, f: Field)
    requires AllOnline(p, true) && AllOnline(s, false)
    ensures var r := Select(p, s, n);
      && |r| <= n
      && (forall i, j :: 0 <= i < j < |r| && r[j].restaurant.online ==> r[i].restaurant.online)
      && (|p| >= n ==> AllOnline(r, true))
      && (Descending(p, f) && Descending(s, f) ==>
            forall i, j :: 0 <= i < j < |r| && r[i].restaurant.online == r[j].restaurant.online ==>
              Rank(r[j], f) <= Rank(r[i], f))
  {
    var r := Select(p, s, n);
    SelectAt(p, s, n);
    if Descending(p, f) && Descending(s, f) {
      forall i, j | 0 <= i < j < |r| && r[i].restaurant.online == r[j].restaurant.online
        ensures Rank(r[j], f) <= Rank(r[i], f)
      {
        if j < |p| {
          assert r[i] == p[i] && r[j] == p[j];
        } else if i < |p| {
          assert false;
        } else {
          assert r[i] == s[i - |p|] && r[j] == s[j - |p|];
        }
      }
    }
  }

  /** A prefix holds no more of any hit than the whole list. */
  lemma PrefixSubmultiset(a: seq<Hit>, k: nat)
    requires k <= |a|
    ensures multiset(a[..k]) <= multiset(a)
  {
    assert a == a[..k] + a[k..];
  }

  /**
    Filling an online list with an offline one, both nearest first, gives a
    section whose online part and offline part are each nearest first.
   */
  lemma {:induction false} SelectNearestFirstParts(p: seq<Hit>, s: seq<Hit>, n: nat)
    requires AllOnline(p, true) && AllOnline(s, false)
    requires NearestFirst(p) && NearestFirst(s)
    ensures var r := Select(p, s, n);
      forall i, j :: 0 <= i < j < |r| && r[i].restaurant.online == r[j].restaurant.online ==>
        r[i].distance <= r[j].distance
  {
    var r := Select(p, s, n);
    SelectAt(p, s, n);
    forall i, j | 0 <= i < j < |r| && r[i].restaurant.online == r[j].restaurant.online
      ensures r[i].distance <= r[j].distance
    {
      if j < |p| {
        assert r[i] == p[i] && r[j] == p[j];
      } else if i < |p| {
        assert false;
      } else {
        assert r[i] == s[i - |p|] && r[j] == s[j - |p|];
      }
    }
  }

  /**
    Nearby keeps the store's distance order, never re-sorted: it is the
    first min(10, |online| + |offline|) of the online candidates followed
    by the offline ones. Online items come first, offline ones only when
    fewer than 10 are online, and distance never decreases within either
    part. When it holds fewer than 10, it holds every candidate.
   */
  lemma {:induction false} NearbyOrder(on: seq<Hit>, off: seq<Hit>)
    requires AllOnline(on, true) && AllOnline(off, false)
    requires NearestFirst(on) && NearestFirst(off)
    ensures var r := NearbySection(on, off);
      && r == (on + off)[..Min(PageSize, |on| + |off|)]
      && (forall i, j :: 0 <= i < j < |r| && r[j].restaurant.online ==> r[i].restaurant.online)
      && (|on| >= PageSize ==> AllOnline(r, true))
      && (forall i, j :: 0 <= i < j < |r| && r[i].restaurant.online == r[j].restaurant.online ==>
            r[i].distance <= r[j].distance)
      && (|r| < PageSize ==> multiset(r) == multiset(on) + multiset(off))
  {
    var r := NearbySection(on, off);
    assert forall i, j :: 0 <= i < j < |r| && r[j].restaurant.online ==> r[i].restaurant.online by {
      SelectGroups(on, off, PageSize, Popularity);
    }
    assert |on| >= PageSize ==> AllOnline(r, true) by {
      SelectGroups(on, off, PageSize, Popularity);
    }
    assert forall i, j :: 0 <= i < j < |r| && r[i].restaurant.online == r[j].restaurant.online ==>
             r[i].distance <= r[j].distance by {
      SelectNearestFirstParts(on, off, PageSize);
    }
    assert |r| < PageSize ==> multiset(r) == multiset(on) + multiset(off) by {
      SelectAt(on, off, PageSize);
    }
  }

  /**
    A list sorted most popular first, cut after its first n: nothing left
    out is more popular than anything kept.
   */
  lemma {:induction false} TopByPopularity(p: seq<Hit>, n: nat)
    requires Descending(p, Popularity) && n <= |p|
    ensures forall x: Hit, i :: x in multiset(p) - multiset(p[..n]) && 0 <= i < n ==>
      x.restaurant.popularity <= p[i].restaurant.popularity
  {
    assert p == p[..n] + p[n..];
    forall x: Hit, i | x in multiset(p) - multiset(p[..n]) && 0 <= i < n
      ensures x.restaurant.popularity <= p[i].restaurant.popularity
    {
      assert x in multiset(p[n..]);
      var k :| 0 <= k < |p[n..]| && p[n..][k] == x;
      assert x == p[n + k];
      assert Rank(p[n + k], Popularity) <= Rank(p[i], Popularity);
    }
  }

  /**
    Popular: online items first, offline ones only when fewer than 10 are
    online, and most popular first within the online part and within the
    offline part.
   */
  lemma {:induction false} PopularOrder(on: seq<Hit>, off: seq<Hit>)
    requires AllOnline(on, true) && AllOnline(off, false)
    ensures var r := PopularSection(on, off);
      && |r| <= PageSize
      && (forall i, j :: 0 <= i < j < |r| && r[j].restaurant.online ==> r[i].restaurant.online)
      && (|on| >= PageSize ==> AllOnline(r, true))
      && (forall i, j :: 0 <= i < j < |r| && r[i].restaurant.online == r[j].restaurant.online ==>
            r[j].restaurant.popularity <= r[i].restaurant.popularity)
  {
    var p, s := SortDescending(on, Popularity), SortDescending(off, Popularity);
    var r := PopularSection(on, off);
    AllOnlineSubmultiset(p, on, true);
    AllOnlineSubmultiset(s, off, false);
    SelectGroups(p, s, PageSize, Popularity);
    forall i, j | 0 <= i < j < |r| && r[i].restaurant.online == r[j].restaurant.online
      ensures r[j].restaurant.popularity <= r[i].restaurant.popularity
    {
      assert Rank(r[j], Popularity) <= Rank(r[i], Popularity);
    }
  }

  /**
    With 10 or more online candidates, Popular is exactly a top ten: no
    online candidate left out is more popular than any that is shown.
   */
  lemma {:induction false} PopularTopTen(on: seq<Hit>, off: seq<Hit>)
    requires |on| >= PageSize
    ensures var r := PopularSection(on, off);
      forall x: Hit, i :: x in multiset(on) - multiset(r) && 0 <= i < |r| ==>
        x.restaurant.popularity <= r[i].restaurant.popularity
  {
    var p, s := SortDescending(on, Popularity), SortDescending(off, Popularity);
    assert |multiset(p)| == |multiset(on)|;
    SelectAt(p, s, PageSize);
    TopByPopularity(p, PageSize);
  }

  /**
    Popular shows only candidates; when it holds fewer than 10 it holds
    every candidate, and when there are at most 10 candidates it shows the
    same restaurants as Nearby, possibly in another order.
   */
  lemma {:induction false} PopularContents(on: seq<Hit>, off: seq<Hit>)
    ensures var r := PopularSection(on, off);
      && multiset(r) <= multiset(on) + multiset(off)
      && (|r| < PageSize ==> multiset(r) == multiset(on) + multiset(off))
      && (|on| + |off| <= PageSize ==> multiset(r) == multiset(NearbySection(on, off)))
  {
    var p, s := SortDescending(on, Popularity), SortDescending(off, Popularity);
    var r := PopularSection(on, off);
    PrefixSubmultiset(p + s, |r|);
    SelectAt(p, s, PageSize);
    SelectAt(on, off, PageSize);
  }

  /**
    One group of the New section: sorted newest first and cut at the
    threshold day, it keeps the group's flag, holds as many hits as the
    window holds, is newest first, and holds nothing else.
   */
  lemma {:induction false} WindowGroup(g: seq<Hit>, threshold: int, b: bool)
    requires AllOnline(g, b)
    ensures var w := LaunchedSince(SortDescending(g, LaunchDate), threshold);
      && AllOnline(w, b)
      && Descending(w, LaunchDate)
      && |w| == |LaunchedSince(g, threshold)|
      && (forall h :: (multiset(w)[h] ==
            if h.restaurant.launchDate >= threshold then multiset(g)[h] else 0))
  {
    var sg := SortDescending(g, LaunchDate);
    var w := LaunchedSince(sg, threshold);
    LaunchedSinceCount(sg, threshold);
    LaunchedSinceCount(g, threshold);
    LaunchedSinceDescending(sg, threshold, LaunchDate);
    assert multiset(w) <= multiset(g);
    AllOnlineSubmultiset(w, g, b);
    assert multiset(w) == multiset(LaunchedSince(g, threshold));
    assert |multiset(w)| == |multiset(LaunchedSince(g, threshold))|;
  }

  /**
    New: every item launched on or after the threshold day (inclusive),
    online items first, offline ones only when fewer than 10 online
    candidates are in the window, and newest first within each part.
   */
  lemma {:induction false} NewOrder(on: seq<Hit>, off: seq<Hit>, threshold: int)
    requires AllOnline(on, true) && AllOnline(off, false)
    ensures var r := NewSection(on, off, threshold);
      && |r| <= PageSize
      && (forall i :: 0 <= i < |r| ==> r[i].restaurant.launchDate >= threshold)
      && (forall i, j :: 0 <= i < j < |r| && r[j].restaurant.online ==> r[i].restaurant.online)
      && (|LaunchedSince(on, threshold)| >= PageSize ==> AllOnline(r, true))
      && (forall i, j :: 0 <= i < j < |r| && r[i].restaurant.online == r[j].restaurant.online ==>
            r[j].restaurant.launchDate <= r[i].restaurant.launchDate)
  {
    var p := LaunchedSince(SortDescending(on, LaunchDate), threshold);
    var s := LaunchedSince(SortDescending(off, LaunchDate), threshold);
    var r := NewSection(on, off, threshold);
    WindowGroup(on, threshold, true);
    WindowGroup(off, threshold, false);
    SelectAt(p, s, PageSize);
    SelectGroups(p, s, PageSize, LaunchDate);
    forall i, j | 0 <= i < j < |r| && r[i].restaurant.online == r[j].restaurant.online
      ensures r[j].restaurant.launchDate <= r[i].restaurant.launchDate
    {
      assert Rank(r[j], LaunchDate) <= Rank(r[i], LaunchDate);
    }
  }

  /**
    New shows only candidates from within the window: restaurants launched
    before the threshold never fill the section up. When it holds fewer
    than 10 it holds every candidate in the window.
   */
  lemma {:induction false} NewContents(on: seq<Hit>, off: seq<Hit>, threshold: int)
    ensures var r := NewSection(on, off, threshold);
      && (forall i :: 0 <= i < |r| ==> r[i].restaurant.launchDate >= threshold)
      && multiset(r) <= multiset(on) + multiset(off)
      && (|r| < PageSize ==>
            forall h: Hit :: h.restaurant.launchDate >= threshold ==>
              multiset(r)[h] == multiset(on)[h] + multiset(off)[h])
  {
    var so, sf := SortDescending(on, LaunchDate), SortDescending(off, LaunchDate);
    var p, s := LaunchedSince(so, threshold), LaunchedSince(sf, threshold);
    var r := NewSection(on, off, threshold);
    LaunchedSinceCount(so, threshold);
    LaunchedSinceCount(sf, threshold);
    assert multiset(p) <= multiset(on);
    assert multiset(s) <= multiset(off);
    SelectAt(p, s, PageSize);
    PrefixSubmultiset(p + s, |r|);
  }

  /**
    The handler's own candidate lists meet what the section lemmas ask of
    their inputs: when the store answers nearest first, every fact stated
    above holds of the three sections Pick computes from that answer.
   */
  lemma PickSections(hits: seq<Hit>, threshold: int)
    requires NearestFirst(hits)
    ensures var on, off := Candidates(hits, true), Candidates(hits, false);
      && AllOnline(on, true) && AllOnline(off, false)
      && NearestFirst(on) && NearestFirst(off)
      && Pick(hits, threshold) == Picks(PopularSection(on, off),
                                        NewSection(on, off, threshold),
                                        NearbySection(on, off))
  {
    CandidatesPartition(hits);
  }

  /**
    Nearby, Popular and New as the handler builds them from one nearest-first
    query answer: online items first in each, Nearby nearest first and
    Popular most popular first within each part, and every New item inside
    the window.
   */
  lemma PickOrder(hits: seq<Hit>, threshold: int)
    requires NearestFirst(hits)
    ensures var picks := Pick(hits, threshold);
      && (forall i, j :: 0 <= i < j < |picks.nearby| && picks.nearby[j].restaurant.online ==>
            picks.nearby[i].restaurant.online)
      && (forall i, j ::
            (0 <= i < j < |picks.nearby| && picks.nearby[i].restaurant.online == picks.nearby[j].restaurant.online) ==>
              picks.nearby[i].distance <= picks.nearby[j].distance)
      && (forall i, j :: 0 <= i < j < |picks.popular| && picks.popular[j].restaurant.online ==>
            picks.popular[i].restaurant.online)
      && (forall i, j ::
            (0 <= i < j < |picks.popular| && picks.popular[i].restaurant.online == picks.popular[j].restaurant.online) ==>
              picks.popular[j].restaurant.popularity <= picks.popular[i].restaurant.popularity)
      && (forall i, j :: 0 <= i < j < |picks.newest| && picks.newest[j].restaurant.online ==>
            picks.newest[i].restaurant.online)
      && (forall i :: 0 <= i < |picks.newest| ==> picks.newest[i].restaurant.launchDate >= threshold)
  {
    var on, off := Candidates(hits, true), Candidates(hits, false);
    PickSections(hits, threshold);
    NearbyOrder(on, off);
    PopularOrder(on, off);
    NewOrder(on, off, threshold);
  }

  /** The three sections the handler computes from one query answer. */
  datatype Picks = Picks(popular: seq<Hit>, newest: seq<Hit>, nearby: seq<Hit>)

  /** No section holds more than a page. */
  function Pick(hits: seq<Hit>, threshold: int): (picks: Picks)
    ensures |picks.popular| <= PageSize && |picks.newest| <= PageSize && |picks.nearby| <= PageSize
  {
    var online, offline := Candidates(hits, true), Candidates(hits, false);
    Picks(PopularSection(online, offline),
          NewSection(online, offline, threshold),
          NearbySection(online, offline))
  }
}
