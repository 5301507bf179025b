/** The gcp deployer's location list: every Cloud Run location except the
    one the deployment skips. */
module Locations {

  /** The location the gcp deployer leaves out. */
  const Excluded: string := "me-central2"

  /** The locations to deploy to, in the order the location listing gave
      them: every element but the excluded one, duplicates kept. */
  function ListLocations(locations: seq<string>): (r: seq<string>)
    ensures Excluded !in r
    ensures forall x :: x != Excluded ==> multiset(r)[x] == multiset(locations)[x]
    ensures |r| == |locations| - multiset(locations)[Excluded]
  {
    if locations == [] then []
    else
      var rest := ListLocations(locations[1..]);
      assert locations == [locations[0]] + locations[1..];
      if locations[0] == Excluded then rest else [locations[0]] + rest
  }

  /** `r` is `s` with some elements deleted, the rest in their original order. */
  predicate IsSubsequence(r: seq<string>, s: seq<string>)
    decreases |s|
  {
    if r == [] then true
    else if s == [] then false
    else if r[0] == s[0] then IsSubsequence(r[1..], s[1..])
    else IsSubsequence(r, s[1..])
  }

  /** The filter keeps the relative order of the retained locations. */
  lemma {:induction false} ListLocationsKeepsOrder(locations: seq<string>)
    ensures IsSubsequence(ListLocations(locations), locations)
  {
    if locations != [] {
      ListLocationsKeepsOrder(locations[1..]);
      var rest := ListLocations(locations[1..]);
      if locations[0] != Excluded {
        assert ListLocations(locations) == [locations[0]] + rest;
        assert ([locations[0]] + rest)[1..] == rest;
      } else {
        SubsequenceSkip(rest, locations);
      }
    }
  }

  /** A subsequence of the tail is a subsequence of the whole. */
  lemma {:induction false} SubsequenceSkip(r: seq<string>, s: seq<string>)
    requires s != [] && IsSubsequence(r, s[1..])
    ensures IsSubsequence(r, s)
    decreases |s|, 0
  {
    if r != [] && r[0] == s[0] {
      SubsequenceTail(r, s[1..]);
    }
  }

  /** Dropping the first element of a subsequence keeps it a subsequence. */
  lemma {:induction false} SubsequenceTail(r: seq<string>, s: seq<string>)
    requires r != [] && IsSubsequence(r, s)
    ensures IsSubsequence(r[1..], s)
    decreases |s|, 1
  {
    if s != [] {
      if r[0] == s[0] {
        if r[1..] != [] {
          SubsequenceSkip(r[1..], s);
        }
      } else {
        SubsequenceTail(r, s[1..]);
        SubsequenceSkip(r[1..], s);
      }
    }
  }

  /** Filtering an already filtered list changes nothing. */
  lemma {:induction false} ListLocationsIdempotent(locations: seq<string>)
    ensures ListLocations(ListLocations(locations)) == ListLocations(locations)
  {
    NoExcludedIsFixed(ListLocations(locations));
  }

  /** A list without the excluded location passes the filter unchanged. */
  lemma {:induction false} NoExcludedIsFixed(locations: seq<string>)
    requires Excluded !in locations
    ensures ListLocations(locations) == locations
  {
    if locations != [] {
      assert locations[0] != Excluded;
      assert forall x :: x in locations[1..] ==> x in locations;
      NoExcludedIsFixed(locations[1..]);
      assert locations == [locations[0]] + locations[1..];
    }
  }

  /** The filter works element by element: filtering a concatenation is
      concatenating the filtered parts. */
  lemma {:induction false} ListLocationsAppend(a: seq<string>, b: seq<string>)
    ensures ListLocations(a + b) == ListLocations(a) + ListLocations(b)
  {
    if a == [] {
      assert a + b == b;
    } else {
      assert (a + b)[0] == a[0];
      assert (a + b)[1..] == a[1..] + b;
      ListLocationsAppend(a[1..], b);
    }
  }
}
