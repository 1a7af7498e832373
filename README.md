# Facility-review aggregation and space ranking, modelled in Dafny

This project models the core of an accessibility-review web application
(spaces such as halls or meeting rooms, and user reviews saying whether a
facility, for example a step-free entrance, could be used there). Three
pieces of the application's logic are modelled and proved.

1. **Aggregation of facility reviews** (`aggregate_facility_reviews.dfy`,
   module `AggregateFacilityReviews`). For one space, the service removes the
   space's aggregated facility reviews. It creates one fresh `unknown` row per
   facility, in facility creation order. Then it folds at most the first five
   raw facility reviews of each (space, facility) pair into that row. The
   fold is a first-match-wins chain. Reviews are positive (`was_allowed`,
   `was_allowed_but_bad`), negative (`was_not_allowed`) or impossible
   (`was_not_available`). Combinations the chain does not handle raise. The
   chain is the pure function `Step`, the fold is `Fold`/`Consensus`. The
   rows are objects whose `experience` the method `AggregateReviews` updates
   in place. `Call` is a method of the service class over a table class.
2. **The Space model** (`space.dfy`, module `Spaces`). `FilterOnFacilities`
   scores every space by its aggregated rows for the requested facilities
   (−1 for maybe/likely, +1 for impossible, 0 otherwise) and sorts by
   ascending score. `RectOfSpaces` is the min/max bounding-box loop that
   starts from sentinels. `FilterOnLocation` is the location scope's
   containment condition. `SearchForAddress` is the unique-result rule.
   `ValidStarRating` and `StarRatingS` cover the star rating.
3. **Review form parsing in the reviews controller** (`reviews_controller.dfy`,
   module `ReviewsController`). `DeleteAllUnknown` collects the ids of the
   facility reviews answered `"unknown"` and drops those entries.
   `AddUserAndSpace` writes a user and a space id onto every remaining entry.
   `ParseBeforeUpdate`/`ParseBeforeCreate` write the result back into the
   review parameters. `ErrorForm` chooses the form `create_error` renders.

`experiences.dfy` holds the two enumerations (the consensus `Experience`
and the per-review `ReviewExperience`). `wrappers.dfy` holds `Option` (for
nil) and `Result` (for raised errors).

Modelling choices:

- The raw reviews of a space are an input sequence. `Consensus` folds them
  in the order given, because the query has no ORDER BY.
- The fold is a function, so the consensus is deterministic in the capped,
  ordered review sequence. `AggregateReviews` and `Call` are tied to it by
  their postconditions.
- Coordinates and star ratings are `real`; they are only compared.
- The form's nested `facility_reviews_attributes` hash is given by its values
  in insertion order; `None` stands for a missing key, on which `values`
  raises.
- `add_user_and_space` reads `space_id` from a fresh copy of the permitted
  parameters. The parse never writes that key, so the model uses the
  parameters' own `space_id`.
- The current user is a non-nil user reference: the controller inherits from
  an authenticating controller, which is not part of this model.

The model follows the code on these points:

- A review after `maybe` that is positive or negative raises. It is not a no-op.
- Scores use the weights −1 (`likely`, `maybe`) and +1 (`impossible`).
- Every space is ranked; none is excluded.
- `sort_by` is not promised to be stable.
- `call` is not atomic: the rows are created outside the transaction.

## Model

| member | source | states |
|---|---|---|
| `AggregateFacilityReviews.IsPositive` | app/services/spaces/aggregate_facility_reviews_service.rb:31-33 | Holds for `was_allowed` and `was_allowed_but_bad`. |
| `AggregateFacilityReviews.IsNegative` | app/services/spaces/aggregate_facility_reviews_service.rb:35-37 | Holds for `was_not_allowed`. |
| `AggregateFacilityReviews.IsImpossibleReview` | app/services/spaces/aggregate_facility_reviews_service.rb:39-41 | Holds for `was_not_available`. |
| `AggregateFacilityReviews.ReviewKindsPartition` | app/services/spaces/aggregate_facility_reviews_service.rb:31-41 | Each recognised review answer is exactly one of positive, negative and impossible. Any other value is none of them. |
| `AggregateFacilityReviews.Step` | app/services/spaces/aggregate_facility_reviews_service.rb:31-58 | Transition table. Impossible review → Impossible from any state. Positive: Unknown/Likely → Likely, Unlikely → Maybe, Maybe/Impossible raise. Negative: Unknown/Unlikely → Unlikely, Likely → Maybe, Impossible → Impossible, Maybe raises. Any other review raises. The error names the state and review. |
| `AggregateFacilityReviews.Fold` | app/services/spaces/aggregate_facility_reviews_service.rb:44-60 | Runs the branch chain over the reviews in order, stopping at the first raise. A raise names one of the folded reviews, in a combination the chain leaves unhandled: an unrecognised review, a positive or negative review after Maybe, or a positive review after Impossible. |
| `AggregateFacilityReviews.Capped` | app/services/spaces/aggregate_facility_reviews_service.rb:44 | `limit(5)`: a prefix of the reviews, at most five long, exactly five when there are at least five, and all of them otherwise. |
| `AggregateFacilityReviews.Consensus` | app/services/spaces/aggregate_facility_reviews_service.rb:44-60 | The capped fold from Unknown. A raise names one of the first five reviews. |
| `AggregateFacilityReviews.ReviewsFor` | app/services/spaces/aggregate_facility_reviews_service.rb:44 | `where(facility: ...)`: the experiences of the space's reviews of that facility, in store order. |
| `AggregateFacilityReviews.ReviewsForMembers` | app/services/spaces/aggregate_facility_reviews_service.rb:44 | Every review of the facility contributes its experience, and only reviews of that facility do. |
| `AggregateFacilityReviews.ReviewsForCounts` | app/services/spaces/aggregate_facility_reviews_service.rb:44 | Each experience occurs in the query's result exactly as often as the store holds a review of that facility with that experience. |
| `AggregateFacilityReviews.ReviewsForConcat` | app/services/spaces/aggregate_facility_reviews_service.rb:44 | The query keeps the store's order: the reviews of a concatenation of stores are the concatenation of their reviews. |
| `AggregateFacilityReviews.ConsensusOf` | app/services/spaces/aggregate_facility_reviews_service.rb:44-60 | The consensus of one facility's reviews. A raise names a review that the space has for that facility. |
| `AggregateFacilityReviews.LaterReviewsIgnored` | app/services/spaces/aggregate_facility_reviews_service.rb:44 | Once a pair has five reviews, appending any further reviews leaves the consensus unchanged. |
| `AggregateFacilityReviews.ImpossibleAbsorbs` | app/services/spaces/aggregate_facility_reviews_service.rb:53-58 | A fold that has reached Impossible ends in Impossible or raises. |
| `AggregateFacilityReviews.ImpossibleReviewDecides` | app/services/spaces/aggregate_facility_reviews_service.rb:43-61 | If any folded review is `was_not_available`, a fold that does not raise ends in Impossible, whatever the start state. |
| `AggregateFacilityReviews.ImpossibleAmongFirstFive` | app/services/spaces/aggregate_facility_reviews_service.rb:44-56 | An impossible review among a pair's first five makes its consensus Impossible unless the fold raises. |
| `AggregateFacilityReviews.NeverBackToUnknown` | app/services/spaces/aggregate_facility_reviews_service.rb:45-58 | No transition leads back to Unknown. |
| `AggregateFacilityReviews.UnknownIffNoReviews` | app/services/spaces/aggregate_facility_reviews_service.rb:15-58 | The consensus succeeds with Unknown exactly when the pair has no raw reviews. A fold that raises is not covered: it can leave the row at Unknown even though the pair has reviews. |
| `AggregateFacilityReviews.MaybeThenPositiveOrNegativeRaises` | app/services/spaces/aggregate_facility_reviews_service.rb:49-58 | From Maybe, a positive or negative review raises with (Maybe, that review). |
| `AggregateFacilityReviews.Scenarios` | app/services/spaces/aggregate_facility_reviews_service.rb:43-61 | Worked sequences: [allowed] → Likely; [not allowed] → Unlikely; [allowed but bad, not allowed] → Maybe; [not allowed, not allowed, allowed] → Maybe; [not available, not allowed] → Impossible; [allowed, not allowed, allowed] raises; [not available, allowed] raises. |
| `AggregateFacilityReviews.RowsOfOtherSpaces` | app/services/spaces/aggregate_facility_reviews_service.rb:11 | The space's old rows are removed and every row of another space is kept. |
| `AggregateFacilityReviews.AggregatedFacilityReview.constructor` | app/services/spaces/aggregate_facility_reviews_service.rb:15 | A created row belongs to the given space and facility and starts at Unknown. |
| `AggregateFacilityReviews.AggregateFacilityReviewsService.constructor` | app/services/spaces/aggregate_facility_reviews_service.rb:5-8 | `initialize(space:)`: the service is bound to the given space. |
| `AggregateFacilityReviews.AggregateFacilityReviewsService.AggregateReviews` | app/services/spaces/aggregate_facility_reviews_service.rb:43-61 | The row's new experience is the fold of its old experience over the first five reviews of its facility. If the fold raises, the same error is returned and the row keeps the state at which it raised. |
| `AggregateFacilityReviews.AggregateFacilityReviewsService.CreateRows` | app/services/spaces/aggregate_facility_reviews_service.rb:14-16 | The table gains, at its end, one fresh, distinct Unknown row of the space per facility, in facility order, and nothing else changes. |
| `AggregateFacilityReviews.AggregateFacilityReviewsService.AggregateRows` | app/services/spaces/aggregate_facility_reviews_service.rb:20-26 | Folding the rows in order succeeds exactly when every facility's consensus succeeds, and then each row carries its facility's consensus. Otherwise it fails with the error of the first facility whose fold raises. |
| `AggregateFacilityReviews.AggregateFacilityReviewsService.Call` | app/services/spaces/aggregate_facility_reviews_service.rb:10-27 | The table ends as the other spaces' rows followed by one fresh, distinct row per facility, in facility order, for this space, on success and on error. On success the returned rows are those rows, each carrying the consensus of its facility. It fails exactly when some facility's fold raises, with the error of the first such facility. |
| `Spaces.Weight` | app/models/space.rb:107-111 | The weight of one row: −1 for maybe and likely, +1 for impossible, 0 otherwise. |
| `Spaces.Score` | app/models/space.rb:99-112 | The sum of the weights of the rows whose facility is requested, in row order. |
| `Spaces.ScoreSpace` | app/models/space.rb:99-112 | The loop's accumulated score equals the score of the space's rows for the requested facilities. |
| `Spaces.ScoreOnlyRequested` | app/models/space.rb:100-101 | Rows whose facility is not requested do not affect the score. |
| `Spaces.ScoreCountsExperiences` | app/models/space.rb:107-111 | The score is the number of requested Impossible rows minus the number of requested Maybe and Likely rows. |
| `Spaces.ScoreBounds` | app/models/space.rb:99-112 | With k requested rows, −k ≤ score ≤ k. |
| `Spaces.InsertByScoreSorted` | app/models/space.rb:117 | Inserting into a score-sorted sequence keeps it sorted. |
| `Spaces.InsertByScorePermutes` | app/models/space.rb:117 | Inserting adds exactly the inserted entry and loses nothing. |
| `Spaces.InsertByScoreSpaces` | app/models/space.rb:117 | Inserting adds exactly the inserted entry's space to the projected spaces. |
| `Spaces.SpacesOf` | app/models/space.rb:117 | `map(&:space)`: the definition of the projection, the spaces of the scored entries in the same order and number. |
| `Spaces.SortByScore` | app/models/space.rb:117 | The result is a permutation of the scored spaces, in non-decreasing score. |
| `Spaces.FilterOnFacilities` | app/models/space.rb:97-118 | The result is a permutation of the input spaces, so none is dropped. It is sorted by non-decreasing score for the requested facilities. |
| `Spaces.Widen` | app/models/space.rb:64-67 | One iteration of the loop: each bound moves to the space's coordinate when that coordinate is strictly beyond it. |
| `Spaces.BoundingBox` | app/models/space.rb:54-68 | The box that starts from the sentinels and is widened by each space in turn. |
| `Spaces.BoundingBoxContains` | app/models/space.rb:54-72 | Every space lies in the box (south-west ≤ lat/lng ≤ north-east). South-west stays ≤ (90, 180) and north-east ≥ (−90, −180). |
| `Spaces.BoundingBoxTight` | app/models/space.rb:63-68 | Each bound is its sentinel or some space's coordinate. |
| `Spaces.BoundingBoxAttained` | app/models/space.rb:63-68 | For a non-empty set of in-range coordinates, each bound equals some space's coordinate. |
| `Spaces.RectOfSpaces` | app/models/space.rb:54-72 | The loop computes the fold's box. No spaces gives the sentinel box, south-west (90, 180) and north-east (−90, −180). Otherwise every space lies inside the box. |
| `Spaces.InLocation` | app/models/space.rb:15 | The scope's SQL condition for one space: north_west_lat ≥ lat, north_west_lng ≤ lng, south_east_lat ≤ lat and south_east_lng ≥ lng. |
| `Spaces.FilterOnLocation` | app/models/space.rb:14-20 | A space is admitted exactly when south_east_lat ≤ lat ≤ north_west_lat and north_west_lng ≤ lng ≤ south_east_lng. Only input spaces are returned. |
| `Spaces.FilterOnLocationKeepsAll` | app/models/space.rb:14-20 | When every space meets the condition, the filter returns all of them in order. |
| `Spaces.BoundingBoxAdmitsEverySpace` | app/models/space.rb:14-20 | Give `rect_of_spaces`'s box to the location scope as north-west (ne.lat, sw.lng) and south-east (sw.lat, ne.lng). It admits every space. |
| `Spaces.SearchForAddress` | app/models/space.rb:82-92 | nil when there are zero results or more than one; otherwise the single result. |
| `Spaces.StarRatingS` | app/models/space.rb:120-122 | Returns the rating when present and the text " - " exactly when the rating is nil. |
| `Spaces.ValidStarRating` | app/models/space.rb:30 | The validation itself, taken as its own definition: a rating is valid when it is nil or strictly between 0 and 6. |
| `Spaces.StarRatingEdges` | app/models/space.rb:30 | nil, 1, 5 and 5.5 are valid ratings. 0 and 6 are not. |
| `ReviewsController.IsUnknown` | app/controllers/reviews_controller.rb:146-149 | The `review[:experience] == "unknown"` test that both blocks use; a missing experience is not unknown. |
| `ReviewsController.KeepKnown` | app/controllers/reviews_controller.rb:149 | The `delete_if`: the entries whose experience is not "unknown", in their order. |
| `ReviewsController.UnknownIds` | app/controllers/reviews_controller.rb:146 | The `filter_map`: the ids of the entries whose experience is "unknown", nil ids skipped, in entry order. |
| `ReviewsController.KeepKnownIsOrderedSelection` | app/controllers/reviews_controller.rb:149 | The kept entries are exactly the non-"unknown" entries, taken at strictly increasing positions. Nothing else is dropped and relative order is kept. |
| `ReviewsController.KeepKnownHasNoUnknown` | app/controllers/reviews_controller.rb:149 | No kept entry has experience "unknown". |
| `ReviewsController.UnknownIdsExact` | app/controllers/reviews_controller.rb:146 | An id is destroyed exactly when some "unknown" entry carries it. |
| `ReviewsController.DeleteAllUnknownIdempotent` | app/controllers/reviews_controller.rb:145-150 | Deleting again from the kept entries changes nothing and destroys no id. |
| `ReviewsController.DeleteAllUnknown` | app/controllers/reviews_controller.rb:145-150 | Returns the kept entries, none of them "unknown", and the ids to destroy. |
| `ReviewsController.StampCommutesWithDeleteAllUnknown` | app/controllers/reviews_controller.rb:113-140 | Stamping user and space commutes with deleting the "unknown" entries and does not change the destroyed ids. |
| `ReviewsController.StampedUser` | app/controllers/reviews_controller.rb:136 | The existing review's user when there is a review with a user, else the current user. |
| `ReviewsController.StampedSpaceId` | app/controllers/reviews_controller.rb:137 | The id of the existing review's space when there is one, else the `space_id` request parameter, nil when that is absent. |
| `ReviewsController.Stamp` | app/controllers/reviews_controller.rb:135-139 | Every entry, in order, with its user and space id set to the given values. |
| `ReviewsController.AddUserAndSpace` | app/controllers/reviews_controller.rb:134-140 | Length, order and form fields are kept. Each entry's user is the existing review's user if present, else the current user. Its space id is the existing review's space id if present, else the `space_id` parameter. |
| `ReviewsController.ParseFacilityReviews` | app/controllers/reviews_controller.rb:113-124 | A missing hash raises. Otherwise the result is the stamped, de-unknowned entries plus the destroyed ids. |
| `ReviewsController.ReviewParams.ParseBeforeUpdate` | app/controllers/reviews_controller.rb:99-105 | Only `facility_reviews_attributes` is replaced, by its parse against the existing review. If it raises, nothing changes. |
| `ReviewsController.ReviewParams.ParseBeforeCreate` | app/controllers/reviews_controller.rb:107-111 | `facility_reviews_attributes` is replaced by its parse with no review. Then `user` is set to the current user. If the parse raises, nothing changes. |
| `ReviewsController.FormName` | app/controllers/reviews_controller.rb:79-86 | The template each form renders: `new`, `new_been_there`, `new_not_allowed_to_use` and `new_only_contacted`. |
| `ReviewsController.ErrorForm` | app/controllers/reviews_controller.rb:73-87 | `been_there`, `not_allowed_to_use` and `only_contacted` each get their own `new_<type>` form, the one `new_with_type_of_contact` renders. Every other value, nil included, gets `new`. |

## Left out

- Persistence. `destroy_all`, `reload`, `create!`, `includes` and the transaction are modelled as updates of an in-memory table. `FacilityReview.where(id: ids).destroy_all` is modelled as returning the ids.
- Rollback after the raise. The model returns the error and says nothing about reverting rows.
- AggregateFacilityReviews.AggregateFacilityReviewsService.Call: on the error path, the experiences left on the created rows are not stated. Only the rows' identity, order, space and facility are.
- Review order inside a pair. It is an input because the query has no ORDER BY.
- `Facility.all.order(:created_at)`. The facility ids are an input, already in creation order.
- The location search service behind `search_for_address` is not part of this model. Its results are an input.
- `aggregate_star_rating`, paper_trail, rich text, attachments: services not part of this model.
- HTTP rendering, turbo streams, flash, `respond_to` and strong parameters. Only the choice of form in `create_error` is modelled.
- `reviews_for_facility` and `facilities_in_category`. They are database lookups with no logic of their own.
- Aliasing of the entry hashes between the form hash and the parsed list. The form hash is replaced by the parsed list, so this is not observable.
- Null coordinates. `Space.lat` and `Space.lng` are plain reals, so the model assumes every space has both. A nil coordinate would make `rect_of_spaces` raise (`nil < 90` is a NoMethodError), and `filter_on_location` would drop that space. Neither case is modelled.
- The JavaScript map controller, the Stimulus registration and the OAuth callbacks controller: UI and authentication outside the core.
