/**
  The top-n-with-fallback rule shared by the three sections of the
  discovery page: take the first n of the preferred candidates, and when
  there are fewer than n of them, fill up from the second-choice ones.
 */
module Fallback {

  /** Number of restaurants in one section of the page. */
  const PageSize: nat := 10

  function Min(a: int, b: int): int
  {
    if a <= b then a else b
  }

  /**
    The fill rule as the handler writes it: the branch on the length of
    `primary`, then on the difference still to fill. Whatever the branch,
    the result is the first min(n, |primary| + |secondary|) elements of
    `primary + secondary`, so it never holds more than n.
   */
  function Select<T>(primary: seq<T>, secondary: seq<T>, n: nat): (r: seq<T>)
    ensures r == (primary + secondary)[..Min(n, |primary| + |secondary|)]
    ensures |r| <= n
  {
    if |primary| >= n then
      primary[..n]
    else
      var difference := n - |primary|;
      if difference >= |secondary| then
        primary + secondary
      else
        primary + secondary[..difference]
  }

  /**
    Where each element of the selection comes from: position i holds
    primary[i] while primary lasts, and the secondary element i - |primary|
    after that. The second-choice list is reached only when primary has
    fewer than n elements, and when the two hold at most n together (the
    only case where the result is shorter than n), all of both are kept.
   */
  lemma SelectAt<T>(primary: seq<T>, secondary: seq<T>, n: nat)
    ensures var r := Select(primary, secondary, n);
      && |r| <= n
      && (forall i :: 0 <= i < |r| && i < |primary| ==> r[i] == primary[i])
      && (forall i :: |primary| <= i < |r| ==> r[i] == secondary[i - |primary|])
      && (|primary| >= n ==> r == primary[..n])
      && (|primary| + |secondary| <= n ==> r == primary + secondary)
      && (|r| < n ==> r == primary + secondary)
  {
    var r := Select(primary, secondary, n);
    var m := Min(n, |primary| + |secondary|);
    forall i | 0 <= i < |r|
      ensures r[i] == (primary + secondary)[i]
    {
    }
    if |primary| + |secondary| <= n || |r| < n {
      assert m == |primary + secondary|;
      assert (primary + secondary)[..m] == primary + secondary;
    }
  }
}
