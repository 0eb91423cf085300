/**
 * The values the social-context core works on: learning objects, the
 * positions they are assigned within a cluster, and the clusters
 * (canopies) themselves.
 */
module Entities {

  /** A learning object as the ranking sees it: its identity and its visit count. */
  datatype LearningObject = LearningObject(id: int, visits: int)

  /** One learning object stored for a cluster at a 1-based position. */
  datatype Ranked = Ranked(lo: LearningObject, position: int)

  /** A social cluster: its identity and the user profile at its center. */
  datatype Canopy<P> = Canopy(id: int, center: P)
}
