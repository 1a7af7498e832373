/**
  Recomputation of a space's aggregated facility reviews: one consensus row
  per facility, whose experience is obtained by replaying at most the first
  five raw facility reviews of that (space, facility) pair through a
  first-match-wins chain of transitions that may raise.
*/
module AggregateFacilityReviews {
  import opened Wrappers
  import opened Experiences

  /** Only this many raw reviews of a pair take part in the fold. */
  const ReviewLimit: nat := 5

  /** `positive_review`: the facility could be used, possibly badly. */
  predicate IsPositive(r: ReviewExperience) {
    r == WasAllowed || r == WasAllowedButBad
  }

  /** `negative_review`: the reviewer was not allowed to use the facility. */
  predicate IsNegative(r: ReviewExperience) {
    r == WasNotAllowed
  }

  /** `impossible_review`: the facility is not available at the space. */
  predicate IsImpossibleReview(r: ReviewExperience) {
    r == WasNotAvailable
  }

  /** The combinations after which `aggregate_reviews` raises. */
  predicate Unhandled(state: Experience, review: ReviewExperience) {
    review.OtherExperience?
    || (state == Maybe && (IsPositive(review) || IsNegative(review)))
    || (state == Impossible && IsPositive(review))
  }

  /** Every recognised review is exactly one of positive, negative and impossible; anything else is none. */
  lemma ReviewKindsPartition(r: ReviewExperience)
    ensures r.OtherExperience? <==> !IsPositive(r) && !IsNegative(r) && !IsImpossibleReview(r)
    ensures !(IsPositive(r) && IsNegative(r)) && !(IsPositive(r) && IsImpossibleReview(r))
    ensures !(IsNegative(r) && IsImpossibleReview(r))
  {
  }

  /** The error raised for a combination the transition chain does not handle. */
  datatype AggregationError = UnhandledCombination(state: Experience, review: ReviewExperience)

  /**
    One pass through the transition chain. The branches are tried in the
    order of `aggregate_reviews`'s branches and the first that matches
    wins; when none matches the combination is an error. The contract restates the chain as a table
    indexed by the kind of review.
  */
  function Step(state: Experience, review: ReviewExperience): (r: Result<Experience, AggregationError>)
    ensures IsImpossibleReview(review) ==> r == Success(Impossible)
    ensures IsPositive(review) ==> (r.Success? <==> state == Unknown || state == Likely || state == Unlikely)
    ensures IsPositive(review) && r.Success? ==> r.value == if state == Unlikely then Maybe else Likely
    ensures IsNegative(review) ==> (r.Success? <==> state != Maybe)
    ensures IsNegative(review) && r.Success? ==>
              r.value == if state == Likely then Maybe else if state == Impossible then Impossible else Unlikely
    ensures !IsPositive(review) && !IsNegative(review) && !IsImpossibleReview(review) ==> r.Failure?
    ensures r.Failure? ==> r.error == UnhandledCombination(state, review)
  {
    if state == Unknown && IsPositive(review) then Success(Likely)
    else if state == Unknown && IsNegative(review) then Success(Unlikely)
    else if (state == Unlikely && IsPositive(review)) || (state == Likely && IsNegative(review)) then Success(Maybe)
    else if (state == Likely && IsPositive(review)) || (state == Unlikely && IsNegative(review)) then Success(state)
    else if IsImpossibleReview(review) then Success(Impossible)
    else if state == Impossible && IsNegative(review) then Success(Impossible)
    else assert state == Maybe || !IsNegative(review); Failure(UnhandledCombination(state, review))
  }

  /**
    Left fold of Step over the reviews; the first error stops the fold. A
    raise names one of the folded reviews, met in one of the combinations
    the transition chain leaves unhandled.
  */
  function Fold(state: Experience, reviews: seq<ReviewExperience>): (r: Result<Experience, AggregationError>)
    ensures r.Failure? ==> r.error.review in reviews
    ensures r.Failure? ==> Unhandled(r.error.state, r.error.review)
    decreases |reviews|
  {
    if reviews == [] then Success(state)
    else
      match Step(state, reviews[0])
      case Failure(e) => Failure(e)
      case Success(next) => Fold(next, reviews[1..])
  }

  /** The `limit(5)` of the query: the first ReviewLimit reviews. */
  function Capped(reviews: seq<ReviewExperience>): (r: seq<ReviewExperience>)
    ensures r <= reviews && |r| <= ReviewLimit
    ensures |reviews| >= ReviewLimit ==> |r| == ReviewLimit
    ensures |reviews| <= ReviewLimit ==> r == reviews
  {
    if |reviews| <= ReviewLimit then reviews else reviews[..ReviewLimit]
  }

  /** Consensus of a pair whose raw reviews are `reviews`, in the order the store returns them. */
  function Consensus(reviews: seq<ReviewExperience>): (r: Result<Experience, AggregationError>)
    ensures r.Failure? ==> exists k :: 0 <= k < |reviews| && k < ReviewLimit && reviews[k] == r.error.review
  {
    Fold(Unknown, Capped(reviews))
  }

  /** The `where(facility: ...)` query: the experiences of the space's reviews of one facility, in order. */
  function ReviewsFor(facilityReviews: seq<FacilityReview>, facility: FacilityId): seq<ReviewExperience> {
    if facilityReviews == [] then []
    else
      (if facilityReviews[0].facilityId == facility then [facilityReviews[0].experience] else [])
      + ReviewsFor(facilityReviews[1..], facility)
  }

  /** The query keeps every review of the facility, and only reviews of that facility. */
  lemma {:induction false} ReviewsForMembers(facilityReviews: seq<FacilityReview>, facility: FacilityId)
    ensures forall x :: x in ReviewsFor(facilityReviews, facility) ==> FacilityReview(facility, x) in facilityReviews
    ensures forall i :: 0 <= i < |facilityReviews| && facilityReviews[i].facilityId == facility ==>
              facilityReviews[i].experience in ReviewsFor(facilityReviews, facility)
  {
    if facilityReviews != [] {
      ReviewsForMembers(facilityReviews[1..], facility);
      forall i | 1 <= i < |facilityReviews| && facilityReviews[i].facilityId == facility
        ensures facilityReviews[i].experience in ReviewsFor(facilityReviews, facility)
      {
        assert facilityReviews[1..][i - 1] == facilityReviews[i];
      }
    }
  }

  /** The query keeps every review of the facility as often as the store holds it. */
  lemma {:induction false} ReviewsForCounts(facilityReviews: seq<FacilityReview>, facility: FacilityId, x: ReviewExperience)
    ensures multiset(ReviewsFor(facilityReviews, facility))[x] == multiset(facilityReviews)[FacilityReview(facility, x)]
  {
    if facilityReviews != [] {
      assert facilityReviews == [facilityReviews[0]] + facilityReviews[1..];
      ReviewsForCounts(facilityReviews[1..], facility, x);
    }
  }

  /** The query keeps the store's order: the reviews of a concatenation are the concatenated reviews. */
  lemma {:induction false} ReviewsForConcat(a: seq<FacilityReview>, b: seq<FacilityReview>, facility: FacilityId)
    ensures ReviewsFor(a + b, facility) == ReviewsFor(a, facility) + ReviewsFor(b, facility)
  {
    if a != [] {
      var head := if a[0].facilityId == facility then [a[0].experience] else [];
      assert (a + b)[0] == a[0] && (a + b)[1..] == a[1..] + b;
      assert ReviewsFor(a + b, facility) == head + ReviewsFor(a[1..] + b, facility);
      ReviewsForConcat(a[1..], b, facility);
      assert head + (ReviewsFor(a[1..], facility) + ReviewsFor(b, facility))
          == (head + ReviewsFor(a[1..], facility)) + ReviewsFor(b, facility);
    } else {
      assert a + b == b;
    }
  }

  /** Consensus of one facility of the space. */
  function ConsensusOf(facilityReviews: seq<FacilityReview>, facility: FacilityId): (r: Result<Experience, AggregationError>)
    ensures r.Failure? ==> FacilityReview(facility, r.error.review) in facilityReviews
  {
    ReviewsForMembers(facilityReviews, facility);
    Consensus(ReviewsFor(facilityReviews, facility))
  }

  // ---------------------------------------------------------------------------
  // Properties of the fold
  // ---------------------------------------------------------------------------

  /** Reviews after the fifth never change the consensus. */
  lemma LaterReviewsIgnored(reviews: seq<ReviewExperience>, later: seq<ReviewExperience>)
    requires |reviews| >= ReviewLimit
    ensures Consensus(reviews + later) == Consensus(reviews)
  {
    assert Capped(reviews) == reviews[..ReviewLimit];
    if |reviews + later| <= ReviewLimit {
      assert later == [];
      assert reviews + later == reviews;
    } else {
      assert (reviews + later)[..ReviewLimit] == reviews[..ReviewLimit];
    }
  }

  /** Once the fold is in Impossible, it ends in Impossible or raises. */
  lemma {:induction false} ImpossibleAbsorbs(reviews: seq<ReviewExperience>)
    ensures Fold(Impossible, reviews).Success? ==> Fold(Impossible, reviews).value == Impossible
  {
    if reviews != [] {
      match Step(Impossible, reviews[0])
      case Failure(_) =>
      case Success(next) =>
        assert next == Impossible;
        ImpossibleAbsorbs(reviews[1..]);
    }
  }

  /** An impossible review anywhere in the folded reviews makes the result Impossible, unless the fold raises. */
  lemma {:induction false} ImpossibleReviewDecides(state: Experience, reviews: seq<ReviewExperience>, k: nat)
    requires k < |reviews| && IsImpossibleReview(reviews[k])
    ensures Fold(state, reviews).Success? ==> Fold(state, reviews).value == Impossible
    decreases k
  {
    match Step(state, reviews[0])
    case Failure(_) =>
    case Success(next) =>
      if k == 0 {
        assert next == Impossible;
        ImpossibleAbsorbs(reviews[1..]);
      } else {
        ImpossibleReviewDecides(next, reviews[1..], k - 1);
      }
  }

  /** The same for the capped consensus of a pair: an impossible review among the first five decides it. */
  lemma ImpossibleAmongFirstFive(reviews: seq<ReviewExperience>, k: nat)
    requires k < |reviews| && k < ReviewLimit && IsImpossibleReview(reviews[k])
    ensures Consensus(reviews).Success? ==> Consensus(reviews).value == Impossible
  {
    assert Capped(reviews)[k] == reviews[k];
    ImpossibleReviewDecides(Unknown, Capped(reviews), k);
  }

  /** No transition leads back to Unknown. */
  lemma {:induction false} NeverBackToUnknown(state: Experience, reviews: seq<ReviewExperience>)
    requires state != Unknown
    ensures Fold(state, reviews).Success? ==> Fold(state, reviews).value != Unknown
    decreases |reviews|
  {
    if reviews != [] {
      match Step(state, reviews[0])
      case Failure(_) =>
      case Success(next) => NeverBackToUnknown(next, reviews[1..]);
    }
  }

  /** The consensus succeeds with Unknown exactly when the pair has no raw reviews. */
  lemma UnknownIffNoReviews(reviews: seq<ReviewExperience>)
    ensures Consensus(reviews) == Success(Unknown) <==> reviews == []
  {
    if reviews != [] {
      var capped := Capped(reviews);
      assert capped != [] && capped[0] == reviews[0];
      match Step(Unknown, capped[0])
      case Failure(_) =>
      case Success(next) =>
        NeverBackToUnknown(next, capped[1..]);
    }
  }

  /** Maybe has no outgoing transition for positive or negative reviews: such a review raises. */
  lemma MaybeThenPositiveOrNegativeRaises(review: ReviewExperience, rest: seq<ReviewExperience>)
    requires IsPositive(review) || IsNegative(review)
    ensures Fold(Maybe, [review] + rest) == Failure(UnhandledCombination(Maybe, review))
  {
  }

  /** Worked sequences of reviews and their consensus. */
  lemma Scenarios()
    ensures Consensus([WasAllowed]) == Success(Likely)
    ensures Consensus([WasNotAllowed]) == Success(Unlikely)
    ensures Consensus([WasAllowedButBad, WasNotAllowed]) == Success(Maybe)
    ensures Consensus([WasNotAllowed, WasNotAllowed, WasAllowed]) == Success(Maybe)
    ensures Consensus([WasNotAvailable, WasNotAllowed]) == Success(Impossible)
    ensures Consensus([WasAllowed, WasNotAllowed, WasAllowed]) == Failure(UnhandledCombination(Maybe, WasAllowed))
    ensures Consensus([WasNotAvailable, WasAllowed]) == Failure(UnhandledCombination(Impossible, WasAllowed))
  {
  }

  // ---------------------------------------------------------------------------
  // Records and the runner
  // ---------------------------------------------------------------------------

  /** An aggregated facility review row; its experience is updated in place by the fold. */
  class AggregatedFacilityReview {
    const spaceId: SpaceId
    const facilityId: FacilityId
    var experience: Experience

    /** `create!(experience: 'unknown', space: space, facility: facility)` */
    constructor (spaceId: SpaceId, facilityId: FacilityId)
      ensures this.spaceId == spaceId && this.facilityId == facilityId
      ensures experience == Unknown
    {
      this.spaceId := spaceId;
      this.facilityId := facilityId;
      experience := Unknown;
    }
  }

  /** The table of aggregated facility reviews of all spaces. */
  class AggregatedFacilityReviewTable {
    var rows: seq<AggregatedFacilityReview>

    constructor ()
      ensures rows == []
    {
      rows := [];
    }
  }

  /** The rows left after `space.aggregated_facility_reviews.destroy_all`. */
  function RowsOfOtherSpaces(rows: seq<AggregatedFacilityReview>, space: SpaceId): (r: seq<AggregatedFacilityReview>)
    ensures forall i :: 0 <= i < |r| ==> r[i] in rows && r[i].spaceId != space
    ensures forall i :: 0 <= i < |rows| && rows[i].spaceId != space ==> rows[i] in r
  {
    if rows == [] then []
    else (if rows[0].spaceId != space then [rows[0]] else []) + RowsOfOtherSpaces(rows[1..], space)
  }

  /** The rows belong to the space and are those of the facilities, in order. */
  predicate RowsOf(rows: seq<AggregatedFacilityReview>, space: SpaceId, facilities: seq<FacilityId>) {
    |rows| == |facilities|
    && forall k :: 0 <= k < |rows| ==> rows[k].spaceId == space && rows[k].facilityId == facilities[k]
  }

  /** No row appears twice. */
  predicate Distinct(rows: seq<AggregatedFacilityReview>) {
    forall k, l :: 0 <= k < l < |rows| ==> rows[k] != rows[l]
  }

  /** The service object for one space. */
  class AggregateFacilityReviewsService {
    const space: SpaceId

    constructor (space: SpaceId)
      ensures this.space == space
    {
      this.space := space;
    }

    /**
      Folds the first five reviews of the aggregate's facility into the
      aggregate's experience, stopping at the first unhandled combination,
      which is returned as the raised error.
    */
    method AggregateReviews(aggregate: AggregatedFacilityReview, facilityReviews: seq<FacilityReview>)
      returns (raised: Option<AggregationError>)
      modifies aggregate
      ensures Fold(old(aggregate.experience), Capped(ReviewsFor(facilityReviews, aggregate.facilityId)))
              == if raised.None? then Success(aggregate.experience) else Failure(raised.value)
      ensures raised.Some? ==> aggregate.experience == raised.value.state
    {
      var capped := Capped(ReviewsFor(facilityReviews, aggregate.facilityId));
      var i := 0;
      while i < |capped|
        invariant 0 <= i <= |capped|
        invariant Fold(old(aggregate.experience), capped) == Fold(aggregate.experience, capped[i..])
      {
        assert capped[i..][1..] == capped[i + 1..];
        match Step(aggregate.experience, capped[i])
        case Failure(e) =>
          assert Fold(aggregate.experience, capped[i..]) == Failure(e);
          return Some(e);
        case Success(next) =>
          assert Fold(aggregate.experience, capped[i..]) == Fold(next, capped[i + 1..]);
          aggregate.experience := next;
        i := i + 1;
      }
      return None;
    }

    /**
      `call`: removes the space's old rows, creates one Unknown row per
      facility in the given (creation) order, then folds each row's reviews.
      The rows are created before any fold runs, so they stay in the table
      when a fold raises.
    */
    method Call(table: AggregatedFacilityReviewTable, facilities: seq<FacilityId>, facilityReviews: seq<FacilityReview>)
      returns (result: Result<seq<AggregatedFacilityReview>, AggregationError>)
      modifies table
      ensures var kept := RowsOfOtherSpaces(old(table.rows), space);
              && |kept| <= |table.rows|
              && table.rows[..|kept|] == kept
              && RowsOf(table.rows[|kept|..], space, facilities)
              && Distinct(table.rows[|kept|..])
              && (forall k :: |kept| <= k < |table.rows| ==> fresh(table.rows[k]))
              && (result.Success? ==> result.value == table.rows[|kept|..])
      ensures result.Success? <==> forall k :: 0 <= k < |facilities| ==> ConsensusOf(facilityReviews, facilities[k]).Success?
      ensures result.Success? ==>
                |result.value| == |facilities|
                && forall k :: 0 <= k < |facilities| ==>
                     ConsensusOf(facilityReviews, facilities[k]) == Success(result.value[k].experience)
      ensures result.Failure? ==>
                exists j :: 0 <= j < |facilities|
                  && ConsensusOf(facilityReviews, facilities[j]) == Failure(result.error)
                  && forall k :: 0 <= k < j ==> ConsensusOf(facilityReviews, facilities[k]).Success?
    {
      table.rows := RowsOfOtherSpaces(table.rows, space);
      ghost var kept := table.rows;
      var aggregates := CreateRows(table, facilities);
      assert table.rows[..|kept|] == kept && table.rows[|kept|..] == aggregates;
      result := AggregateRows(aggregates, facilities, facilityReviews);
    }

    /** Appends one fresh Unknown row of this space per facility, in order. */
    method CreateRows(table: AggregatedFacilityReviewTable, facilities: seq<FacilityId>)
      returns (aggregates: seq<AggregatedFacilityReview>)
      modifies table
      ensures table.rows == old(table.rows) + aggregates
      ensures RowsOf(aggregates, space, facilities) && Distinct(aggregates)
      ensures forall k :: 0 <= k < |aggregates| ==> fresh(aggregates[k]) && aggregates[k].experience == Unknown
    {
      aggregates := [];
      var i := 0;
      while i < |facilities|
        invariant 0 <= i <= |facilities|
        invariant table.rows == old(table.rows) + aggregates
        invariant RowsOf(aggregates, space, facilities[..i]) && Distinct(aggregates)
        invariant forall k :: 0 <= k < i ==> fresh(aggregates[k]) && aggregates[k].experience == Unknown
      {
        var row := new AggregatedFacilityReview(space, facilities[i]);
        table.rows := table.rows + [row];
        aggregates := aggregates + [row];
        i := i + 1;
      }
      assert facilities[..i] == facilities;
    }

    /**
      Folds the reviews of each row in turn, stopping at the first row whose
      fold raises; on success the rows themselves are returned.
    */
    method AggregateRows(aggregates: seq<AggregatedFacilityReview>, facilities: seq<FacilityId>,
                         facilityReviews: seq<FacilityReview>)
      returns (result: Result<seq<AggregatedFacilityReview>, AggregationError>)
      requires RowsOf(aggregates, space, facilities) && Distinct(aggregates)
      requires forall k :: 0 <= k < |aggregates| ==> aggregates[k].experience == Unknown
      modifies set k | 0 <= k < |aggregates| :: aggregates[k]
      ensures result.Success? <==> forall k :: 0 <= k < |facilities| ==> ConsensusOf(facilityReviews, facilities[k]).Success?
      ensures result.Success? ==>
                result.value == aggregates
                && forall k :: 0 <= k < |facilities| ==>
                     ConsensusOf(facilityReviews, facilities[k]) == Success(aggregates[k].experience)
      ensures result.Failure? ==>
                exists j :: 0 <= j < |facilities|
                  && ConsensusOf(facilityReviews, facilities[j]) == Failure(result.error)
                  && forall k :: 0 <= k < j ==> ConsensusOf(facilityReviews, facilities[k]).Success?
    {
      var j := 0;
      while j < |aggregates|
        invariant 0 <= j <= |aggregates|
        invariant forall k :: j <= k < |aggregates| ==> aggregates[k].experience == Unknown
        invariant forall k :: 0 <= k < j ==> ConsensusOf(facilityReviews, facilities[k]) == Success(aggregates[k].experience)
      {
        var raised := AggregateReviews(aggregates[j], facilityReviews);
        if raised.Some? {
          assert ConsensusOf(facilityReviews, facilities[j]) == Failure(raised.value);
          return Failure(raised.value);
        }
        assert ConsensusOf(facilityReviews, facilities[j]) == Success(aggregates[j].experience);
        j := j + 1;
      }
      return Success(aggregates);
    }
  }
}
