/**
  The parsing the reviews controller applies to a submitted review form
  before the review is created or updated: facility reviews answered
  "unknown" are dropped (and their stored rows destroyed), and every
  remaining facility review gets a user and a space id. Also the choice of
  the form shown again when creating a review fails.
*/
module ReviewsController {
  import opened Wrappers

  type UserRef = nat

  /**
    The space id written onto a facility review: the id of the existing
    review's space record, or the raw `space_id` request parameter.
  */
  datatype SpaceIdValue = RecordId(id: nat) | ParamValue(raw: string)

  /**
    One facility review of the form: the permitted keys `id`, `facility_id`
    and `experience` as sent (each may be missing), and the `user` and
    `space_id` keys the controller writes onto it.
  */
  datatype FacilityReviewAttributes = FacilityReviewAttributes(
    id: Option<string>,
    facilityId: Option<string>,
    experience: Option<string>,
    user: Option<UserRef>,
    spaceId: Option<SpaceIdValue>)

  /** The review being updated: its user and the id of its space, each of which may be nil. */
  datatype ExistingReview = ExistingReview(user: Option<UserRef>, spaceId: Option<nat>)

  const UnknownExperience := "unknown"

  predicate IsUnknown(entry: FacilityReviewAttributes) {
    entry.experience == Some(UnknownExperience)
  }

  // ---------------------------------------------------------------------------
  // delete_all_unknown
  // ---------------------------------------------------------------------------

  /** The entries left by `delete_if`, in their original order. */
  function KeepKnown(entries: seq<FacilityReviewAttributes>): seq<FacilityReviewAttributes> {
    if entries == [] then []
    else
      var last := entries[|entries| - 1];
      KeepKnown(entries[..|entries| - 1]) + if IsUnknown(last) then [] else [last]
  }

  /** The ids collected by `filter_map`: the non-nil ids of the "unknown" entries, in order. */
  function UnknownIds(entries: seq<FacilityReviewAttributes>): seq<string> {
    if entries == [] then []
    else
      var last := entries[|entries| - 1];
      UnknownIds(entries[..|entries| - 1]) + if IsUnknown(last) && last.id.Some? then [last.id.value] else []
  }

  /** The positions of the entries that are not "unknown", in increasing order. */
  function KnownIndices(entries: seq<FacilityReviewAttributes>): seq<nat> {
    if entries == [] then []
    else
      var n := |entries| - 1;
      KnownIndices(entries[..n]) + if IsUnknown(entries[n]) then [] else [n]
  }

  /**
    The kept entries are exactly the entries that are not "unknown", taken
    at strictly increasing positions: no other entry is dropped and the
    relative order is kept.
  */
  lemma {:induction false} KeepKnownIsOrderedSelection(entries: seq<FacilityReviewAttributes>)
    ensures var idx, kept := KnownIndices(entries), KeepKnown(entries);
            && |idx| == |kept|
            && (forall k :: 0 <= k < |idx| ==> idx[k] < |entries| && kept[k] == entries[idx[k]])
            && (forall k, l :: 0 <= k < l < |idx| ==> idx[k] < idx[l])
            && (forall i :: 0 <= i < |entries| ==> (i in idx <==> !IsUnknown(entries[i])))
  {
    if entries != [] {
      var n := |entries| - 1;
      var init := entries[..n];
      KeepKnownIsOrderedSelection(init);
      forall i | 0 <= i < n ensures init[i] == entries[i] { }
    }
  }

  /** No kept entry is "unknown". */
  lemma {:induction false} KeepKnownHasNoUnknown(entries: seq<FacilityReviewAttributes>)
    ensures forall k :: 0 <= k < |KeepKnown(entries)| ==> !IsUnknown(KeepKnown(entries)[k])
  {
    if entries != [] {
      KeepKnownHasNoUnknown(entries[..|entries| - 1]);
    }
  }

  /** An id is destroyed iff some "unknown" entry carries it. */
  lemma {:induction false} UnknownIdsExact(entries: seq<FacilityReviewAttributes>, x: string)
    ensures x in UnknownIds(entries) <==>
            exists i :: 0 <= i < |entries| && IsUnknown(entries[i]) && entries[i].id == Some(x)
  {
    if entries != [] {
      var n := |entries| - 1;
      var init := entries[..n];
      UnknownIdsExact(init, x);
      if x in UnknownIds(init) {
        var i :| 0 <= i < |init| && IsUnknown(init[i]) && init[i].id == Some(x);
        assert entries[i] == init[i];
      }
      if exists i :: 0 <= i < |entries| && IsUnknown(entries[i]) && entries[i].id == Some(x) {
        var i :| 0 <= i < |entries| && IsUnknown(entries[i]) && entries[i].id == Some(x);
        if i < n {
          assert init[i] == entries[i];
        }
      }
    }
  }

  /** Running the deletion on its own result changes nothing and destroys nothing. */
  lemma {:induction false} DeleteAllUnknownIdempotent(entries: seq<FacilityReviewAttributes>)
    ensures KeepKnown(KeepKnown(entries)) == KeepKnown(entries)
    ensures UnknownIds(KeepKnown(entries)) == []
  {
    if entries != [] {
      var init, last := entries[..|entries| - 1], entries[|entries| - 1];
      DeleteAllUnknownIdempotent(init);
      var kept := KeepKnown(init);
      if !IsUnknown(last) {
        assert KeepKnown(entries) == kept + [last];
        assert (kept + [last])[..|kept|] == kept;
        assert KeepKnown(kept + [last]) == KeepKnown(kept) + [last];
        assert UnknownIds(kept + [last]) == UnknownIds(kept);
      } else {
        assert KeepKnown(entries) == kept;
      }
    }
  }

  /**
    `delete_all_unknown`: collects the ids of the "unknown" entries (the rows
    then destroyed), then removes those entries with `delete_if`.
  */
  method DeleteAllUnknown(facilityReviews: seq<FacilityReviewAttributes>)
    returns (known: seq<FacilityReviewAttributes>, destroyedIds: seq<string>)
    ensures known == KeepKnown(facilityReviews)
    ensures destroyedIds == UnknownIds(facilityReviews)
    ensures forall k :: 0 <= k < |known| ==> !IsUnknown(known[k])
  {
    destroyedIds := [];
    var i := 0;
    while i < |facilityReviews|
      invariant 0 <= i <= |facilityReviews|
      invariant destroyedIds == UnknownIds(facilityReviews[..i])
    {
      assert facilityReviews[..i + 1][..i] == facilityReviews[..i];
      var review := facilityReviews[i];
      if review.experience == Some(UnknownExperience) && review.id.Some? {
        destroyedIds := destroyedIds + [review.id.value];
      }
      i := i + 1;
    }
    known := [];
    var j := 0;
    while j < |facilityReviews|
      invariant 0 <= j <= |facilityReviews|
      invariant known == KeepKnown(facilityReviews[..j])
    {
      assert facilityReviews[..j + 1][..j] == facilityReviews[..j];
      var review := facilityReviews[j];
      if review.experience != Some(UnknownExperience) {
        known := known + [review];
      }
      j := j + 1;
    }
    assert facilityReviews[..i] == facilityReviews;
    KeepKnownHasNoUnknown(facilityReviews);
  }

  // ---------------------------------------------------------------------------
  // add_user_and_space
  // ---------------------------------------------------------------------------

  /** The user written onto each entry: the existing review's user when there is one, else the current user. */
  function StampedUser(review: Option<ExistingReview>, currentUser: UserRef): UserRef {
    if review.Some? && review.value.user.Some? then review.value.user.value else currentUser
  }

  /**
    The space id written onto each entry: the id of the existing review's
    space when there is one, else the `space_id` request parameter (nil when
    that is missing too).
  */
  function StampedSpaceId(review: Option<ExistingReview>, paramsSpaceId: Option<string>): Option<SpaceIdValue> {
    if review.Some? && review.value.spaceId.Some? then Some(RecordId(review.value.spaceId.value))
    else if paramsSpaceId.Some? then Some(ParamValue(paramsSpaceId.value))
    else None
  }

  /** Every entry with its user and space id set to the given values. */
  function Stamp(entries: seq<FacilityReviewAttributes>, user: UserRef, spaceId: Option<SpaceIdValue>)
    : seq<FacilityReviewAttributes>
  {
    seq(|entries|, k requires 0 <= k < |entries| => entries[k].(user := Some(user), spaceId := spaceId))
  }

  /**
    Stamping only writes the user and space id, so it commutes with the
    deletion of the "unknown" entries: the parse could run its two steps in
    either order.
  */
  lemma {:induction false} StampCommutesWithDeleteAllUnknown(
    entries: seq<FacilityReviewAttributes>, user: UserRef, spaceId: Option<SpaceIdValue>)
    ensures KeepKnown(Stamp(entries, user, spaceId)) == Stamp(KeepKnown(entries), user, spaceId)
    ensures UnknownIds(Stamp(entries, user, spaceId)) == UnknownIds(entries)
  {
    if entries != [] {
      var n := |entries| - 1;
      var init := entries[..n];
      StampCommutesWithDeleteAllUnknown(init, user, spaceId);
      assert Stamp(entries, user, spaceId)[..n] == Stamp(init, user, spaceId);
      var kept := KeepKnown(init);
      if !IsUnknown(entries[n]) {
        assert Stamp(kept + [entries[n]], user, spaceId)
               == Stamp(kept, user, spaceId) + [entries[n].(user := Some(user), spaceId := spaceId)];
      }
    }
  }

  /**
    `add_user_and_space`: keeps the length and order of the entries and
    their form fields, and writes the existing review's user (else the
    current user) and the existing review's space id (else the `space_id`
    parameter) onto every entry.
  */
  method AddUserAndSpace(
    facilityReviews: seq<FacilityReviewAttributes>, review: Option<ExistingReview>,
    currentUser: UserRef, paramsSpaceId: Option<string>)
    returns (stamped: seq<FacilityReviewAttributes>)
    ensures stamped == Stamp(facilityReviews, StampedUser(review, currentUser), StampedSpaceId(review, paramsSpaceId))
    ensures |stamped| == |facilityReviews|
    ensures forall k :: 0 <= k < |stamped| ==>
              && stamped[k].id == facilityReviews[k].id
              && stamped[k].facilityId == facilityReviews[k].facilityId
              && stamped[k].experience == facilityReviews[k].experience
              && stamped[k].user == Some(if review.Some? && review.value.user.Some? then review.value.user.value
                                         else currentUser)
              && (review.Some? && review.value.spaceId.Some? ==> stamped[k].spaceId == Some(RecordId(review.value.spaceId.value)))
              && (!(review.Some? && review.value.spaceId.Some?) ==>
                    stamped[k].spaceId == if paramsSpaceId.Some? then Some(ParamValue(paramsSpaceId.value)) else None)
  {
    stamped := [];
    var i := 0;
    while i < |facilityReviews|
      invariant 0 <= i <= |facilityReviews|
      invariant stamped == Stamp(facilityReviews[..i], StampedUser(review, currentUser), StampedSpaceId(review, paramsSpaceId))
    {
      assert facilityReviews[..i + 1][..i] == facilityReviews[..i];
      var facilityReview := facilityReviews[i];
      facilityReview := facilityReview.(user := Some(StampedUser(review, currentUser)));
      facilityReview := facilityReview.(spaceId := StampedSpaceId(review, paramsSpaceId));
      stamped := stamped + [facilityReview];
      i := i + 1;
    }
    assert facilityReviews[..i] == facilityReviews;
  }

  // ---------------------------------------------------------------------------
  // parse_facility_reviews, parse_before_update, parse_before_create
  // ---------------------------------------------------------------------------

  /** Calling `values` on a missing `facility_reviews_attributes` raises. */
  datatype ParseError = ValuesOfNil

  /** The parsed facility reviews and the ids of the rows destroyed on the way. */
  datatype ParsedFacilityReviews = ParsedFacilityReviews(entries: seq<FacilityReviewAttributes>, destroyedIds: seq<string>)

  /**
    `parse_facility_reviews`. The form's hash is given by its values in
    insertion order (None when the key is missing).
  */
  method ParseFacilityReviews(
    facilityReviews: Option<seq<FacilityReviewAttributes>>, review: Option<ExistingReview>,
    currentUser: UserRef, paramsSpaceId: Option<string>)
    returns (result: Result<ParsedFacilityReviews, ParseError>)
    ensures result.Failure? <==> facilityReviews.None?
    ensures facilityReviews.Some? ==>
              var values := facilityReviews.value;
              result.value == ParsedFacilityReviews(
                Stamp(KeepKnown(values), StampedUser(review, currentUser), StampedSpaceId(review, paramsSpaceId)),
                UnknownIds(values))
  {
    if facilityReviews.None? {
      return Failure(ValuesOfNil);
    }
    var facilityReviewValues := facilityReviews.value;
    var knownReviews, destroyedIds := DeleteAllUnknown(facilityReviewValues);
    var stamped := AddUserAndSpace(knownReviews, review, currentUser, paramsSpaceId);
    return Success(ParsedFacilityReviews(stamped, destroyedIds));
  }

  /**
    The permitted review parameters. Only `facility_reviews_attributes` and
    `user` are written by the parse; `space_id` and the remaining scalar
    parameters (title, comment, price, ...) are read-only here.
  */
  class ReviewParams {
    var facilityReviewsAttributes: Option<seq<FacilityReviewAttributes>>
    var user: Option<UserRef>
    const spaceId: Option<string>
    const scalars: map<string, string>

    constructor (facilityReviewsAttributes: Option<seq<FacilityReviewAttributes>>, spaceId: Option<string>,
                 scalars: map<string, string>)
      ensures this.facilityReviewsAttributes == facilityReviewsAttributes && user.None?
      ensures this.spaceId == spaceId && this.scalars == scalars
    {
      this.facilityReviewsAttributes := facilityReviewsAttributes;
      this.user := None;
      this.spaceId := spaceId;
      this.scalars := scalars;
    }

    /**
      `parse_before_update`: replaces `facility_reviews_attributes` by its
      parse against the review being updated; nothing else changes. Returns
      the ids destroyed, or the error raised when the key is missing, in
      which case the parameters are left as they were.
    */
    method ParseBeforeUpdate(review: ExistingReview, currentUser: UserRef)
      returns (destroyed: Result<seq<string>, ParseError>)
      modifies this
      ensures user == old(user)
      ensures destroyed.Failure? <==> old(facilityReviewsAttributes).None?
      ensures destroyed.Failure? ==> facilityReviewsAttributes == old(facilityReviewsAttributes)
      ensures destroyed.Success? ==>
                var values := old(facilityReviewsAttributes).value;
                && facilityReviewsAttributes
                   == Some(Stamp(KeepKnown(values), StampedUser(Some(review), currentUser), StampedSpaceId(Some(review), spaceId)))
                && destroyed.value == UnknownIds(values)
    {
      var parsed := ParseFacilityReviews(facilityReviewsAttributes, Some(review), currentUser, spaceId);
      if parsed.Failure? {
        return Failure(parsed.error);
      }
      facilityReviewsAttributes := Some(parsed.value.entries);
      return Success(parsed.value.destroyedIds);
    }

    /**
      `parse_before_create`: replaces `facility_reviews_attributes` by its
      parse with no existing review, then sets `user` to the current user.
    */
    method ParseBeforeCreate(currentUser: UserRef)
      returns (destroyed: Result<seq<string>, ParseError>)
      modifies this
      ensures destroyed.Failure? <==> old(facilityReviewsAttributes).None?
      ensures destroyed.Failure? ==> facilityReviewsAttributes == old(facilityReviewsAttributes) && user == old(user)
      ensures destroyed.Success? ==>
                var values := old(facilityReviewsAttributes).value;
                && facilityReviewsAttributes
                   == Some(Stamp(KeepKnown(values), currentUser, StampedSpaceId(None, spaceId)))
                && destroyed.value == UnknownIds(values)
                && user == Some(currentUser)
    {
      var parsed := ParseFacilityReviews(facilityReviewsAttributes, None, currentUser, spaceId);
      if parsed.Failure? {
        return Failure(parsed.error);
      }
      facilityReviewsAttributes := Some(parsed.value.entries);
      user := Some(currentUser);
      return Success(parsed.value.destroyedIds);
    }
  }

  // ---------------------------------------------------------------------------
  // create_error
  // ---------------------------------------------------------------------------

  /** The review forms the controller renders. */
  datatype ReviewForm = New | NewBeenThere | NewNotAllowedToUse | NewOnlyContacted

  /** The template name of a form. */
  function FormName(form: ReviewForm): string {
    match form
    case New => "new"
    case NewBeenThere => "new_been_there"
    case NewNotAllowedToUse => "new_not_allowed_to_use"
    case NewOnlyContacted => "new_only_contacted"
  }

  /** The types of contact that have a form of their own. */
  const ContactTypesWithForm: seq<string> := ["been_there", "not_allowed_to_use", "only_contacted"]

  /**
    The form `create_error` renders again for the review's type of contact:
    each type of contact with a form of its own gets that form, which is the
    `new_<type>` form `new_with_type_of_contact` renders for it; every other
    value, nil included, gets the plain `new` form.
  */
  function ErrorForm(typeOfContact: Option<string>): (form: ReviewForm)
    ensures form != New <==> typeOfContact.Some? && typeOfContact.value in ContactTypesWithForm
    ensures form != New ==> FormName(form) == "new_" + typeOfContact.value
  {
    match typeOfContact
    case None => New
    case Some(t) =>
      if t == "been_there" then
        assert "new_been_there" == "new_" + "been_there";
        NewBeenThere
      else if t == "not_allowed_to_use" then
        assert "new_not_allowed_to_use" == "new_" + "not_allowed_to_use";
        NewNotAllowedToUse
      else if t == "only_contacted" then
        assert "new_only_contacted" == "new_" + "only_contacted";
        NewOnlyContacted
      else New
  }
}
