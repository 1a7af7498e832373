/**
  The enumerations the core works on: the consensus value stored on an
  aggregated facility review, and the experience a user reports in a single
  facility review.
*/
module Experiences {

  type SpaceId = nat
  type FacilityId = nat

  /** Consensus value of one (space, facility) pair. */
  datatype Experience = Unknown | Likely | Unlikely | Maybe | Impossible

  /**
    Experience reported in one facility review. The four named values are the
    ones the aggregation recognises; any other enum value of the review is
    carried by OtherExperience with its name.
  */
  datatype ReviewExperience =
    | WasAllowed
    | WasAllowedButBad
    | WasNotAllowed
    | WasNotAvailable
    | OtherExperience(name: string)

  /** One raw facility review of a space: the facility it is about and what was reported. */
  datatype FacilityReview = FacilityReview(facilityId: FacilityId, experience: ReviewExperience)
}
