/**
  The logic of the Space model: ranking spaces by the consensus of the
  requested facilities, the bounding box of all spaces, the location filter,
  the unique-result rule of the address search and the star rating.
*/
module Spaces {
  import opened Wrappers
  import opened Experiences

  /** An aggregated facility review as the ranking reads it. */
  datatype AggregatedReview = AggregatedReview(facilityId: FacilityId, experience: Experience)

  /** A space with its coordinates, star rating and aggregated facility reviews. */
  datatype Space = Space(
    id: SpaceId,
    lat: real,
    lng: real,
    starRating: Option<real>,
    aggregatedFacilityReviews: seq<AggregatedReview>)

  // ---------------------------------------------------------------------------
  // filter_on_facilities
  // ---------------------------------------------------------------------------

  /** What one requested row adds to a score: the more usable, the lower. */
  function Weight(e: Experience): int {
    if e == Maybe || e == Likely then -1
    else if e == Impossible then 1
    else 0
  }

  /** The score of a space: the weights of its rows whose facility is requested, summed in row order. */
  function Score(rows: seq<AggregatedReview>, facilities: seq<FacilityId>): int {
    if rows == [] then 0
    else
      var last := rows[|rows| - 1];
      Score(rows[..|rows| - 1], facilities) + if last.facilityId in facilities then Weight(last.experience) else 0
  }

  /** The rows whose facility is requested, in order. */
  function Requested(rows: seq<AggregatedReview>, facilities: seq<FacilityId>): seq<AggregatedReview> {
    if rows == [] then []
    else
      var last := rows[|rows| - 1];
      Requested(rows[..|rows| - 1], facilities) + if last.facilityId in facilities then [last] else []
  }

  /** The number of rows with experience `e`. */
  function Count(rows: seq<AggregatedReview>, e: Experience): nat {
    if rows == [] then 0
    else Count(rows[..|rows| - 1], e) + if rows[|rows| - 1].experience == e then 1 else 0
  }

  /** Rows whose facility is not requested do not take part in the score. */
  lemma {:induction false} ScoreOnlyRequested(rows: seq<AggregatedReview>, facilities: seq<FacilityId>)
    ensures Score(rows, facilities) == Score(Requested(rows, facilities), facilities)
  {
    if rows != [] {
      var init, last := rows[..|rows| - 1], rows[|rows| - 1];
      ScoreOnlyRequested(init, facilities);
      var req := Requested(init, facilities);
      if last.facilityId in facilities {
        assert Requested(rows, facilities) == req + [last];
        assert (req + [last])[..|req|] == req;
        assert Score(req + [last], facilities) == Score(req, facilities) + Weight(last.experience);
      } else {
        assert Requested(rows, facilities) == req;
      }
    }
  }

  /**
    The score counts the requested rows: +1 for each Impossible, -1 for each
    Maybe or Likely; Unlikely and Unknown rows count for nothing.
  */
  lemma {:induction false} ScoreCountsExperiences(rows: seq<AggregatedReview>, facilities: seq<FacilityId>)
    ensures var req := Requested(rows, facilities);
            Score(rows, facilities) == Count(req, Impossible) - Count(req, Maybe) - Count(req, Likely)
  {
    if rows != [] {
      var init, last := rows[..|rows| - 1], rows[|rows| - 1];
      ScoreCountsExperiences(init, facilities);
      var req := Requested(init, facilities);
      if last.facilityId in facilities {
        assert Requested(rows, facilities) == req + [last];
        assert (req + [last])[..|req|] == req;
      } else {
        assert Requested(rows, facilities) == req;
      }
    }
  }

  /** With k requested rows, the score lies between -k and k. */
  lemma {:induction false} ScoreBounds(rows: seq<AggregatedReview>, facilities: seq<FacilityId>)
    ensures var k := |Requested(rows, facilities)|;
            -k <= Score(rows, facilities) <= k
  {
    if rows != [] {
      ScoreBounds(rows[..|rows| - 1], facilities);
    }
  }

  /** The score of one space, accumulated row by row as `filter_on_facilities` does. */
  method ScoreSpace(rows: seq<AggregatedReview>, facilities: seq<FacilityId>) returns (score: int)
    ensures score == Score(rows, facilities)
  {
    score := 0;
    var i := 0;
    while i < |rows|
      invariant 0 <= i <= |rows|
      invariant score == Score(rows[..i], facilities)
    {
      var review := rows[i];
      assert rows[..i + 1][..i] == rows[..i];
      if review.facilityId in facilities {
        if review.experience == Maybe || review.experience == Likely {
          score := score - 1;
        } else if review.experience == Impossible {
          score := score + 1;
        }
      }
      i := i + 1;
    }
    assert rows[..i] == rows;
  }

  /** A space paired with the score computed for it (the `OpenStruct` built in `filter_on_facilities`). */
  datatype ScoredSpace = ScoredSpace(score: int, space: Space)

  /** The spaces of a sequence of scored spaces, in order (`map(&:space)`). */
  function SpacesOf(scored: seq<ScoredSpace>): (r: seq<Space>)
    ensures |r| == |scored| && forall k :: 0 <= k < |scored| ==> r[k] == scored[k].space
  {
    seq(|scored|, k requires 0 <= k < |scored| => scored[k].space)
  }

  predicate SortedByScore(scored: seq<ScoredSpace>) {
    forall i, j :: 0 <= i < j < |scored| ==> scored[i].score <= scored[j].score
  }

  /** Every scored space carries the score of its own space. */
  predicate ScoresAgree(scored: seq<ScoredSpace>, facilities: seq<FacilityId>) {
    forall k :: 0 <= k < |scored| ==> scored[k].score == Score(scored[k].space.aggregatedFacilityReviews, facilities)
  }

  /** Spaces sorted in non-decreasing score for the requested facilities. */
  predicate SortedByFacilityScore(spaces: seq<Space>, facilities: seq<FacilityId>) {
    forall i, j :: 0 <= i < j < |spaces| ==>
      Score(spaces[i].aggregatedFacilityReviews, facilities) <= Score(spaces[j].aggregatedFacilityReviews, facilities)
  }

  /** Insertion of one scored space into a sorted sequence, after the entries of equal score. */
  function InsertByScore(x: ScoredSpace, sorted: seq<ScoredSpace>): seq<ScoredSpace> {
    if sorted == [] then [x]
    else if x.score < sorted[0].score then [x] + sorted
    else [sorted[0]] + InsertByScore(x, sorted[1..])
  }

  /** Every entry scores at least `bound`. */
  predicate AllAtLeast(scored: seq<ScoredSpace>, bound: int) {
    forall k :: 0 <= k < |scored| ==> bound <= scored[k].score
  }

  /** Inserting an entry that scores at least `bound` keeps every entry at least `bound`. */
  lemma {:induction false} InsertByScoreAtLeast(x: ScoredSpace, sorted: seq<ScoredSpace>, bound: int)
    requires AllAtLeast(sorted, bound) && bound <= x.score
    ensures AllAtLeast(InsertByScore(x, sorted), bound)
  {
    if sorted != [] && x.score >= sorted[0].score {
      InsertByScoreAtLeast(x, sorted[1..], bound);
    }
  }

  /** Insertion keeps the sequence sorted. */
  lemma {:induction false} InsertByScoreSorted(x: ScoredSpace, sorted: seq<ScoredSpace>)
    requires SortedByScore(sorted)
    ensures SortedByScore(InsertByScore(x, sorted))
  {
    if sorted != [] {
      if x.score < sorted[0].score {
        assert AllAtLeast(sorted, sorted[0].score);
      } else {
        var rest := InsertByScore(x, sorted[1..]);
        InsertByScoreSorted(x, sorted[1..]);
        InsertByScoreAtLeast(x, sorted[1..], sorted[0].score);
        assert AllAtLeast(rest, sorted[0].score);
      }
    }
  }

  /** Insertion adds exactly the inserted entry. */
  lemma {:induction false} InsertByScorePermutes(x: ScoredSpace, sorted: seq<ScoredSpace>)
    ensures multiset(InsertByScore(x, sorted)) == multiset(sorted) + multiset{x}
  {
    if sorted != [] && x.score >= sorted[0].score {
      InsertByScorePermutes(x, sorted[1..]);
      assert sorted == [sorted[0]] + sorted[1..];
    }
  }

  /** The projection distributes over concatenation. */
  lemma SpacesOfConcat(a: seq<ScoredSpace>, b: seq<ScoredSpace>)
    ensures SpacesOf(a + b) == SpacesOf(a) + SpacesOf(b)
  {
    assert forall k :: 0 <= k < |a + b| ==> SpacesOf(a + b)[k] == (SpacesOf(a) + SpacesOf(b))[k];
  }

  /** Insertion adds exactly the inserted entry's space to the projection. */
  lemma {:induction false} InsertByScoreSpaces(x: ScoredSpace, sorted: seq<ScoredSpace>)
    ensures multiset(SpacesOf(InsertByScore(x, sorted))) == multiset(SpacesOf(sorted)) + multiset{x.space}
  {
    assert SpacesOf([x]) == [x.space];
    if sorted != [] {
      if x.score < sorted[0].score {
        SpacesOfConcat([x], sorted);
      } else {
        var first, rest := sorted[0], InsertByScore(x, sorted[1..]);
        InsertByScoreSpaces(x, sorted[1..]);
        assert SpacesOf([first]) == [first.space];
        SpacesOfConcat([first], rest);
        SpacesOfConcat([first], sorted[1..]);
        assert sorted == [first] + sorted[1..];
      }
    }
  }

  /** `sort_by(&:score)`: a permutation of the scored spaces in non-decreasing score. */
  method SortByScore(scored: seq<ScoredSpace>) returns (sorted: seq<ScoredSpace>)
    ensures SortedByScore(sorted)
    ensures multiset(sorted) == multiset(scored)
    ensures multiset(SpacesOf(sorted)) == multiset(SpacesOf(scored))
  {
    sorted := [];
    var i := 0;
    while i < |scored|
      invariant 0 <= i <= |scored|
      invariant SortedByScore(sorted)
      invariant multiset(sorted) == multiset(scored[..i])
      invariant multiset(SpacesOf(sorted)) == multiset(SpacesOf(scored[..i]))
    {
      InsertByScoreSorted(scored[i], sorted);
      InsertByScorePermutes(scored[i], sorted);
      InsertByScoreSpaces(scored[i], sorted);
      assert scored[..i + 1] == scored[..i] + [scored[i]];
      assert SpacesOf(scored[..i + 1]) == SpacesOf(scored[..i]) + [scored[i].space];
      sorted := InsertByScore(scored[i], sorted);
      i := i + 1;
    }
    assert scored[..i] == scored;
  }

  /**
    `filter_on_facilities`: every space is kept (the block always yields a
    struct) and the result is ordered by the space's score for the requested
    facilities; the order among equal scores is not promised.
  */
  method FilterOnFacilities(spaces: seq<Space>, facilities: seq<FacilityId>) returns (result: seq<Space>)
    ensures multiset(result) == multiset(spaces)
    ensures SortedByFacilityScore(result, facilities)
  {
    var results: seq<ScoredSpace> := [];
    var i := 0;
    while i < |spaces|
      invariant 0 <= i <= |spaces| && |results| == i
      invariant SpacesOf(results) == spaces[..i]
      invariant ScoresAgree(results, facilities)
    {
      var score := ScoreSpace(spaces[i].aggregatedFacilityReviews, facilities);
      results := results + [ScoredSpace(score, spaces[i])];
      i := i + 1;
    }
    assert spaces[..i] == spaces;
    var sorted := SortByScore(results);
    forall k | 0 <= k < |sorted|
      ensures sorted[k].score == Score(sorted[k].space.aggregatedFacilityReviews, facilities)
    {
      assert sorted[k] in multiset(results);
    }
    result := SpacesOf(sorted);
  }

  // ---------------------------------------------------------------------------
  // rect_of_spaces
  // ---------------------------------------------------------------------------

  datatype LatLng = LatLng(lat: real, lng: real)

  /** A box given by its south-west and north-east corners. */
  datatype Rect = Rect(southWest: LatLng, northEast: LatLng)

  /** The box the fold starts from: inverted, so that any space widens it. */
  const SentinelRect := Rect(LatLng(90.0, 180.0), LatLng(-90.0, -180.0))

  /** One iteration of the fold: each bound moves out to the space when the space lies beyond it. */
  function Widen(r: Rect, space: Space): Rect {
    Rect(LatLng(if space.lat < r.southWest.lat then space.lat else r.southWest.lat,
                if space.lng < r.southWest.lng then space.lng else r.southWest.lng),
         LatLng(if space.lat > r.northEast.lat then space.lat else r.northEast.lat,
                if space.lng > r.northEast.lng then space.lng else r.northEast.lng))
  }

  /** The box after folding all spaces, in order, into the sentinel box. */
  function BoundingBox(spaces: seq<Space>): Rect {
    if spaces == [] then SentinelRect else Widen(BoundingBox(spaces[..|spaces| - 1]), spaces[|spaces| - 1])
  }

  /** Every space lies inside the box, and the box lies inside the sentinel bounds. */
  lemma {:induction false} BoundingBoxContains(spaces: seq<Space>)
    ensures var r := BoundingBox(spaces);
            && r.southWest.lat <= 90.0 && r.southWest.lng <= 180.0
            && r.northEast.lat >= -90.0 && r.northEast.lng >= -180.0
            && forall k :: 0 <= k < |spaces| ==>
                 r.southWest.lat <= spaces[k].lat <= r.northEast.lat
                 && r.southWest.lng <= spaces[k].lng <= r.northEast.lng
  {
    if spaces != [] {
      BoundingBoxContains(spaces[..|spaces| - 1]);
    }
  }

  /** Each bound is its sentinel or the coordinate of some space. */
  lemma {:induction false} BoundingBoxTight(spaces: seq<Space>)
    ensures var r := BoundingBox(spaces);
            && (r.southWest.lat == 90.0 || exists k :: 0 <= k < |spaces| && r.southWest.lat == spaces[k].lat)
            && (r.southWest.lng == 180.0 || exists k :: 0 <= k < |spaces| && r.southWest.lng == spaces[k].lng)
            && (r.northEast.lat == -90.0 || exists k :: 0 <= k < |spaces| && r.northEast.lat == spaces[k].lat)
            && (r.northEast.lng == -180.0 || exists k :: 0 <= k < |spaces| && r.northEast.lng == spaces[k].lng)
  {
    if spaces != [] {
      var init := spaces[..|spaces| - 1];
      BoundingBoxTight(init);
      forall k | 0 <= k < |init| ensures init[k] == spaces[k] { }
    }
  }

  /** Coordinates a real place can have. */
  predicate InRange(space: Space) {
    -90.0 <= space.lat <= 90.0 && -180.0 <= space.lng <= 180.0
  }

  /** When all coordinates are in range and there is a space, every bound is some space's coordinate. */
  lemma BoundingBoxAttained(spaces: seq<Space>)
    requires spaces != [] && forall k :: 0 <= k < |spaces| ==> InRange(spaces[k])
    ensures var r := BoundingBox(spaces);
            && (exists k :: 0 <= k < |spaces| && r.southWest.lat == spaces[k].lat)
            && (exists k :: 0 <= k < |spaces| && r.southWest.lng == spaces[k].lng)
            && (exists k :: 0 <= k < |spaces| && r.northEast.lat == spaces[k].lat)
            && (exists k :: 0 <= k < |spaces| && r.northEast.lng == spaces[k].lng)
  {
    BoundingBoxTight(spaces);
    BoundingBoxContains(spaces);
    var r := BoundingBox(spaces);
    assert r.southWest.lat <= spaces[0].lat <= r.northEast.lat;
    assert r.southWest.lng <= spaces[0].lng <= r.northEast.lng;
    if r.southWest.lat == 90.0 { assert spaces[0].lat == 90.0; }
    if r.southWest.lng == 180.0 { assert spaces[0].lng == 180.0; }
    if r.northEast.lat == -90.0 { assert spaces[0].lat == -90.0; }
    if r.northEast.lng == -180.0 { assert spaces[0].lng == -180.0; }
  }

  /** `rect_of_spaces` over the spaces of the table, visited in the given order. */
  method RectOfSpaces(spaces: seq<Space>) returns (rect: Rect)
    ensures rect == BoundingBox(spaces)
    ensures spaces == [] ==> rect == SentinelRect
    ensures forall k :: 0 <= k < |spaces| ==>
              rect.southWest.lat <= spaces[k].lat <= rect.northEast.lat
              && rect.southWest.lng <= spaces[k].lng <= rect.northEast.lng
  {
    var southWestLat, southWestLng := 90.0, 180.0;
    var northEastLat, northEastLng := -90.0, -180.0;
    var i := 0;
    while i < |spaces|
      invariant 0 <= i <= |spaces|
      invariant Rect(LatLng(southWestLat, southWestLng), LatLng(northEastLat, northEastLng)) == BoundingBox(spaces[..i])
    {
      var space := spaces[i];
      assert spaces[..i + 1][..i] == spaces[..i];
      if space.lat < southWestLat { southWestLat := space.lat; }
      if space.lng < southWestLng { southWestLng := space.lng; }
      if space.lat > northEastLat { northEastLat := space.lat; }
      if space.lng > northEastLng { northEastLng := space.lng; }
      i := i + 1;
    }
    assert spaces[..i] == spaces;
    rect := Rect(LatLng(southWestLat, southWestLng), LatLng(northEastLat, northEastLng));
    BoundingBoxContains(spaces);
  }

  // ---------------------------------------------------------------------------
  // filter_on_location
  // ---------------------------------------------------------------------------

  /** The condition of the `filter_on_location` scope for one space. */
  predicate InLocation(space: Space, northWestLat: real, northWestLng: real, southEastLat: real, southEastLng: real) {
    northWestLat >= space.lat && northWestLng <= space.lng && southEastLat <= space.lat && southEastLng >= space.lng
  }

  /** The `filter_on_location` scope: the spaces meeting the condition, in the order given. */
  function FilterOnLocation(spaces: seq<Space>, northWestLat: real, northWestLng: real, southEastLat: real, southEastLng: real)
    : (r: seq<Space>)
    ensures forall k :: 0 <= k < |r| ==>
              r[k] in spaces && southEastLat <= r[k].lat <= northWestLat && northWestLng <= r[k].lng <= southEastLng
    ensures forall k :: 0 <= k < |spaces| ==>
              (southEastLat <= spaces[k].lat <= northWestLat && northWestLng <= spaces[k].lng <= southEastLng ==>
                 spaces[k] in r)
    ensures |r| <= |spaces|
  {
    if spaces == [] then []
    else
      (if InLocation(spaces[0], northWestLat, northWestLng, southEastLat, southEastLng) then [spaces[0]] else [])
      + FilterOnLocation(spaces[1..], northWestLat, northWestLng, southEastLat, southEastLng)
  }

  /** The scope keeps every space when all of them meet its condition. */
  lemma {:induction false} FilterOnLocationKeepsAll(spaces: seq<Space>, nwLat: real, nwLng: real, seLat: real, seLng: real)
    requires forall k :: 0 <= k < |spaces| ==> InLocation(spaces[k], nwLat, nwLng, seLat, seLng)
    ensures FilterOnLocation(spaces, nwLat, nwLng, seLat, seLng) == spaces
  {
    if spaces != [] {
      FilterOnLocationKeepsAll(spaces[1..], nwLat, nwLng, seLat, seLng);
      assert spaces == [spaces[0]] + spaces[1..];
    }
  }

  /**
    The box of `rect_of_spaces`, read as the north-west and south-east corners
    of `filter_on_location`, admits every space.
  */
  lemma BoundingBoxAdmitsEverySpace(spaces: seq<Space>)
    ensures var r := BoundingBox(spaces);
            FilterOnLocation(spaces, r.northEast.lat, r.southWest.lng, r.southWest.lat, r.northEast.lng) == spaces
  {
    BoundingBoxContains(spaces);
    var r := BoundingBox(spaces);
    FilterOnLocationKeepsAll(spaces, r.northEast.lat, r.southWest.lng, r.southWest.lat, r.northEast.lng);
  }

  // ---------------------------------------------------------------------------
  // search_for_address
  // ---------------------------------------------------------------------------

  /** `search_for_address`: the result of the location search when it is the only one, nil otherwise. */
  function SearchForAddress<T>(results: seq<T>): (r: Option<T>)
    ensures r.Some? <==> |results| == 1
    ensures r.Some? ==> results == [r.value]
  {
    if |results| > 1 || results == [] then None else Some(results[0])
  }

  // ---------------------------------------------------------------------------
  // star rating
  // ---------------------------------------------------------------------------

  /** The star-rating validation: nil, or strictly between 0 and 6. */
  predicate ValidStarRating(rating: Option<real>) {
    rating.None? || (0.0 < rating.value && rating.value < 6.0)
  }

  /** What `star_rating_s` returns: the rating, or the placeholder text. */
  datatype StarRatingText = Rating(value: real) | Placeholder(text: string)

  const NoRatingText := " - "

  /** `star_rating_s` */
  function StarRatingS(rating: Option<real>): (r: StarRatingText)
    ensures r.Placeholder? <==> rating.None?
    ensures r.Placeholder? ==> r.text == NoRatingText
    ensures r.Rating? ==> rating == Some(r.value)
  {
    if rating.Some? then Rating(rating.value) else Placeholder(NoRatingText)
  }

  /** The edges of the star-rating validation. */
  lemma StarRatingEdges()
    ensures ValidStarRating(None)
    ensures !ValidStarRating(Some(0.0)) && !ValidStarRating(Some(6.0))
    ensures ValidStarRating(Some(1.0)) && ValidStarRating(Some(5.0)) && ValidStarRating(Some(5.5))
  {
  }
}
