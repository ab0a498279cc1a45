/**
 * Recognising a customer's product photo: the confirmed image of the trader whose
 * perceptual hash is nearest.  The hash comparison itself is a parameter; it has no
 * result for hashes it cannot read.
 */
module ImageMatch {
  import opened Basics
  import opened Text

  const MAX_DISTANCE := 12

  datatype Image = Image(
    id: nat, trader: string, productName: string, price: Option<int>, hash: Option<string>,
    confirmed: bool, createdAt: int)

  datatype Match = Match(productName: string, price: int, distance: nat)

  type Catalogue = seq<(string, int)>   // in the order of the dictionary
  type Distance = string -> Option<nat>

  predicate SameName(a: string, b: string) { Lower(a) == Lower(b) }

  // The result of the query: the trader's confirmed images that have a hash, newest first.
  ghost predicate IsListing(images: set<Image>, trader: string, listing: seq<Image>) {
    && (forall im :: im in listing <==> im in images && im.trader == trader && im.confirmed && im.hash.Some?)
    && forall i, j :: 0 <= i < j < |listing| ==> listing[i].createdAt >= listing[j].createdAt
  }

  // The price of an image: that of the first catalogue entry with its name in any case,
  // else the one stored with it.
  ghost predicate Priced(im: Image, catalogue: Catalogue, price: int) {
    (exists k :: 0 <= k < |catalogue| && FirstNamed(catalogue, im.productName, k) && catalogue[k].1 == price)
    || (&& (forall k :: 0 <= k < |catalogue| ==> Lower(catalogue[k].0) != Lower(im.productName))
        && im.price == Some(price))
  }

  ghost predicate FirstNamed(catalogue: Catalogue, name: string, k: nat)
    requires k < |catalogue|
  {
    Lower(catalogue[k].0) == Lower(name) && forall j :: 0 <= j < k ==> Lower(catalogue[j].0) != Lower(name)
  }

  // The image is near enough and has a price.
  ghost predicate Qualifies(im: Image, dist: Distance, catalogue: Catalogue) {
    && im.hash.Some? && im.hash.value != ""
    && dist(im.hash.value).Some? && dist(im.hash.value).value <= 12
    && exists price :: Priced(im, catalogue, price)
  }

  ghost predicate MatchOf(im: Image, dist: Distance, catalogue: Catalogue, m: Match) {
    && Qualifies(im, dist, catalogue)
    && m.productName == im.productName && Priced(im, catalogue, m.price)
    && dist(im.hash.value) == Some(m.distance)
  }

  method ResolvePrice(im: Image, catalogue: Catalogue) returns (price: Option<int>)
    ensures forall p :: Priced(im, catalogue, p) <==> price == Some(p)
  {
    for k := 0 to |catalogue|
      invariant forall j :: 0 <= j < k ==> !SameName(catalogue[j].0, im.productName)
    {
      if SameName(catalogue[k].0, im.productName) {
        assert FirstNamed(catalogue, im.productName, k);
        return Some(catalogue[k].1);
      }
    }
    return im.price;
  }

  function DistanceOf(im: Image, dist: Distance): nat
    requires im.hash.Some? && dist(im.hash.value).Some?
  {
    dist(im.hash.value).value
  }

  // No qualifying image among the first n is nearer than d, nor as near and before i.
  ghost predicate LeastAt(listing: seq<Image>, n: nat, dist: Distance, catalogue: Catalogue, i: nat, d: nat)
    requires n <= |listing|
  {
    forall j :: 0 <= j < n && Qualifies(listing[j], dist, catalogue) ==>
      d <= DistanceOf(listing[j], dist) && (d == DistanceOf(listing[j], dist) ==> i <= j)
  }

  // The first of the least distant qualifying images among the first n of the listing.
  ghost predicate BestOf(listing: seq<Image>, n: nat, dist: Distance, catalogue: Catalogue, best: Option<Match>)
    requires n <= |listing|
  {
    match best
    case None => forall j :: 0 <= j < n ==> !Qualifies(listing[j], dist, catalogue)
    case Some(m) =>
      exists i :: 0 <= i < n && MatchOf(listing[i], dist, catalogue, m)
                  && LeastAt(listing, n, dist, catalogue, i, m.distance)
  }

  lemma KeepsLeast(listing: seq<Image>, n: nat, dist: Distance, catalogue: Catalogue, i: nat, d: nat)
    requires i < n < |listing| && LeastAt(listing, n, dist, catalogue, i, d)
    requires Qualifies(listing[n], dist, catalogue) ==> d <= DistanceOf(listing[n], dist)
    ensures LeastAt(listing, n + 1, dist, catalogue, i, d)
  {
  }

  lemma KeepsBest(listing: seq<Image>, n: nat, dist: Distance, catalogue: Catalogue, best: Option<Match>)
    requires n < |listing| && BestOf(listing, n, dist, catalogue, best)
    requires Qualifies(listing[n], dist, catalogue) ==>
               best.Some? && best.value.distance <= DistanceOf(listing[n], dist)
    ensures BestOf(listing, n + 1, dist, catalogue, best)
  {
    if best.Some? {
      var m := best.value;
      var i :| 0 <= i < n && MatchOf(listing[i], dist, catalogue, m)
               && LeastAt(listing, n, dist, catalogue, i, m.distance);
      KeepsLeast(listing, n, dist, catalogue, i, m.distance);
    }
  }

  lemma TakesBest(listing: seq<Image>, n: nat, dist: Distance, catalogue: Catalogue, best: Option<Match>, m: Match)
    requires n < |listing| && BestOf(listing, n, dist, catalogue, best) && MatchOf(listing[n], dist, catalogue, m)
    requires best.Some? ==> m.distance < best.value.distance
    ensures BestOf(listing, n + 1, dist, catalogue, Some(m))
  {
    if best.Some? {
      var i :| 0 <= i < n && LeastAt(listing, n, dist, catalogue, i, best.value.distance);
      assert LeastAt(listing, n + 1, dist, catalogue, n, m.distance);
    } else {
      assert LeastAt(listing, n + 1, dist, catalogue, n, m.distance);
    }
  }

  // The images of a trader that a photo may be matched with.
  ghost predicate Candidate(images: set<Image>, trader: string, im: Image, dist: Distance, catalogue: Catalogue) {
    im in images && im.trader == trader && im.confirmed && Qualifies(im, dist, catalogue)
  }

  // Over all stored images: nothing is found exactly when there is no candidate; otherwise
  // the match is a least distant candidate, and no newer candidate is as near.
  ghost predicate Nearest(
    images: set<Image>, trader: string, dist: Distance, catalogue: Catalogue, best: Option<Match>)
  {
    match best
    case None => forall im :: im in images ==> !Candidate(images, trader, im, dist, catalogue)
    case Some(m) =>
      exists im :: Candidate(images, trader, im, dist, catalogue) && MatchOf(im, dist, catalogue, m)
                   && forall other :: Candidate(images, trader, other, dist, catalogue) ==>
                        m.distance <= DistanceOf(other, dist)
                        && (m.distance == DistanceOf(other, dist) ==> im.createdAt >= other.createdAt)
  }

  lemma FirstIsNearest(
    images: set<Image>, trader: string, listing: seq<Image>, dist: Distance, catalogue: Catalogue, best: Option<Match>)
    requires IsListing(images, trader, listing) && BestOf(listing, |listing|, dist, catalogue, best)
    ensures Nearest(images, trader, dist, catalogue, best)
  {
    if best.Some? {
      var m := best.value;
      var i :| 0 <= i < |listing| && MatchOf(listing[i], dist, catalogue, m)
               && LeastAt(listing, |listing|, dist, catalogue, i, m.distance);
      forall other | Candidate(images, trader, other, dist, catalogue)
        ensures m.distance <= DistanceOf(other, dist)
        ensures m.distance == DistanceOf(other, dist) ==> listing[i].createdAt >= other.createdAt
      {
        assert other in listing;
        var j :| 0 <= j < |listing| && listing[j] == other;
      }
      assert listing[i] in listing;
    }
  }

  method FindBestMatch(
    ghost images: set<Image>, trader: string, listing: seq<Image>, dist: Distance, catalogue: Catalogue)
    returns (best: Option<Match>)
    requires IsListing(images, trader, listing)
    ensures BestOf(listing, |listing|, dist, catalogue, best)
    ensures Nearest(images, trader, dist, catalogue, best)
  {
    best := None;
    var bestDistance := MAX_DISTANCE + 1;
    for n := 0 to |listing|
      invariant BestOf(listing, n, dist, catalogue, best)
      invariant bestDistance == if best.Some? then best.value.distance else MAX_DISTANCE + 1
    {
      var im := listing[n];
      var d := if im.hash.None? || im.hash.value == "" then None else dist(im.hash.value);
      if d.None? || d.value >= bestDistance || d.value > MAX_DISTANCE {
        KeepsBest(listing, n, dist, catalogue, best);
        continue;
      }
      var price := ResolvePrice(im, catalogue);
      if price.None? {
        KeepsBest(listing, n, dist, catalogue, best);
        continue;
      }
      var m := Match(im.productName, price.value, d.value);
      assert Priced(im, catalogue, price.value);
      TakesBest(listing, n, dist, catalogue, best, m);
      best, bestDistance := Some(m), d.value;
    }
    FirstIsNearest(images, trader, listing, dist, catalogue, best);
  }
}
