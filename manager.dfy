/**
 * The social-context manager: it keeps the clusters and user profiles of
 * the last clustering run, ranks every cluster's learning objects, and
 * finds the cluster nearest to a user. Storage reads are parameters
 * (values or functions of the requested id); storage writes are the
 * results the methods return.
 */
module Manager {
  import opened Entities
  import opened RankingSpec
  import Ranking

  /** What storage reports for a user in no cluster, and the answer when no cluster is near. */
  const NoCluster: int := -1

  /** The search's starting minimum: a cluster at this distance or farther is never chosen. */
  const MaxDistance: real := 1000.0

  /** The distance from the center of cluster `k` to the target profile. */
  function DistanceTo<P>(clusters: seq<Canopy<P>>, k: int, target: P, distance: (P, P) -> real): real
    requires 0 <= k < |clusters|
  {
    distance(clusters[k].center, target)
  }

  /**
   * Cluster `k` is nearer than MaxDistance, no cluster is nearer, and every
   * cluster before it is strictly farther.
   */
  ghost predicate IsFirstNearest<P>(clusters: seq<Canopy<P>>, target: P, distance: (P, P) -> real, k: int)
  {
    && 0 <= k < |clusters|
    && DistanceTo(clusters, k, target, distance) < MaxDistance
    && (forall j :: 0 <= j < |clusters| ==>
          DistanceTo(clusters, k, target, distance) <= DistanceTo(clusters, j, target, distance))
    && (forall j :: 0 <= j < k ==>
          DistanceTo(clusters, k, target, distance) < DistanceTo(clusters, j, target, distance))
  }

  /**
   * `r` is what the nearest-cluster search must answer: NoCluster when no
   * cluster is nearer than MaxDistance (in particular when there is no
   * cluster), and otherwise the id of the first nearest cluster.
   */
  ghost predicate IsNearestAnswer<P>(clusters: seq<Canopy<P>>, target: P, distance: (P, P) -> real, r: int)
  {
    && ((forall j :: 0 <= j < |clusters| ==> DistanceTo(clusters, j, target, distance) >= MaxDistance) ==>
          r == NoCluster)
    && ((exists j :: 0 <= j < |clusters| && DistanceTo(clusters, j, target, distance) < MaxDistance) ==>
          exists k :: IsFirstNearest(clusters, target, distance, k) && r == clusters[k].id)
  }

  /** At most one cluster is the first nearest. */
  lemma FirstNearestUnique<P>(clusters: seq<Canopy<P>>, target: P, distance: (P, P) -> real, k1: int, k2: int)
    requires IsFirstNearest(clusters, target, distance, k1)
    requires IsFirstNearest(clusters, target, distance, k2)
    ensures k1 == k2
  {
  }

  /** The nearest-cluster answer is determined by the clusters, the target and the measure. */
  lemma NearestAnswerUnique<P>(clusters: seq<Canopy<P>>, target: P, distance: (P, P) -> real, r1: int, r2: int)
    requires IsNearestAnswer(clusters, target, distance, r1)
    requires IsNearestAnswer(clusters, target, distance, r2)
    ensures r1 == r2
  {
    if exists j :: 0 <= j < |clusters| && DistanceTo(clusters, j, target, distance) < MaxDistance {
      var k1 :| IsFirstNearest(clusters, target, distance, k1) && r1 == clusters[k1].id;
      var k2 :| IsFirstNearest(clusters, target, distance, k2) && r2 == clusters[k2].id;
      FirstNearestUnique(clusters, target, distance, k1, k2);
    }
  }

  /**
   * Linear search for the nearest cluster: a cluster replaces the current
   * best only when it is strictly nearer. `evaluations` counts the calls of
   * the distance measure.
   */
  method FindClosestCanopy<P>(target: P, clusters: seq<Canopy<P>>, distance: (P, P) -> real)
    returns (closestCanopyId: int, ghost evaluations: nat)
    ensures IsNearestAnswer(clusters, target, distance, closestCanopyId)
    ensures evaluations == |clusters|
  {
    closestCanopyId := NoCluster;
    evaluations := 0;
    var minDist := MaxDistance;
    ghost var best := -1;
    var i := 0;
    while i < |clusters|
      invariant 0 <= i <= |clusters| && evaluations == i
      invariant best == -1 ==>
        && closestCanopyId == NoCluster && minDist == MaxDistance
        && forall j :: 0 <= j < i ==> DistanceTo(clusters, j, target, distance) >= MaxDistance
      invariant best != -1 ==>
        && 0 <= best < i && closestCanopyId == clusters[best].id
        && minDist == DistanceTo(clusters, best, target, distance) && minDist < MaxDistance
        && (forall j :: 0 <= j < i ==> minDist <= DistanceTo(clusters, j, target, distance))
        && (forall j :: 0 <= j < best ==> minDist < DistanceTo(clusters, j, target, distance))
    {
      var c := clusters[i];
      var d := distance(c.center, target);
      evaluations := evaluations + 1;
      if d < minDist {
        minDist := d;
        closestCanopyId := c.id;
        best := i;
      }
      i := i + 1;
    }
    if best != -1 {
      assert IsFirstNearest(clusters, target, distance, best);
    }
  }

  class SocialContextManager<P> {
    /** Canopy thresholds, loose above tight. */
    const C1: real := 6.0
    const C2: real := 2.0

    /** How many top subjects the distance measure uses. */
    const TopSubjects: nat := 5

    /** The social clusters of the last clustering run. */
    var clusters: seq<Canopy<P>>
    /** The user profiles of the last clustering run. */
    var users: seq<P>

    constructor ()
      ensures clusters == [] && users == []
    {
      clusters := [];
      users := [];
    }

    /**
     * Reads the profiles and the top subjects and keeps the canopies the
     * clusterer builds from them with thresholds C1 and C2.
     */
    method DoUserProfileClustering(
      profiles: seq<P>,
      topSubjectsOf: nat -> seq<string>,
      createCanopies: (seq<P>, seq<string>, real, real) -> seq<Canopy<P>>)
      modifies this
      ensures users == profiles
      ensures clusters == createCanopies(profiles, topSubjectsOf(TopSubjects), C1, C2)
    {
      users := profiles;
      var topSubjects := topSubjectsOf(TopSubjects);
      clusters := createCanopies(users, topSubjects, C1, C2);
    }

    /**
     * Ranks the learning objects of every cluster, in cluster order. The
     * members of a cluster are those storage lists for its id, and a
     * member's content is what storage lists for that member.
     */
    method DoLOAssignment(membersOf: int -> seq<P>, contentOf: P -> seq<LearningObject>)
      returns (rankings: seq<seq<Ranked>>)
      ensures |rankings| == |clusters|
      ensures forall c :: 0 <= c < |clusters| ==>
                rankings[c] == ClusterRanking(MemberContent(membersOf(clusters[c].id), contentOf))
    {
      rankings := [];
      var c := 0;
      while c < |clusters|
        invariant 0 <= c <= |clusters| && |rankings| == c
        invariant forall b :: 0 <= b < c ==>
                    rankings[b] == ClusterRanking(MemberContent(membersOf(clusters[b].id), contentOf))
      {
        var members := membersOf(clusters[c].id);
        var ranking := Ranking.RankCluster(MemberContent(members, contentOf));
        rankings := rankings + [ranking];
        c := c + 1;
      }
    }

    /** One clustering run followed by the ranking of every cluster it built. */
    method GenerateSocialContext(
      profiles: seq<P>,
      topSubjectsOf: nat -> seq<string>,
      createCanopies: (seq<P>, seq<string>, real, real) -> seq<Canopy<P>>,
      membersOf: int -> seq<P>,
      contentOf: P -> seq<LearningObject>)
      returns (rankings: seq<seq<Ranked>>)
      modifies this
      ensures users == profiles
      ensures clusters == createCanopies(profiles, topSubjectsOf(TopSubjects), C1, C2)
      ensures |rankings| == |clusters|
      ensures forall c :: 0 <= c < |clusters| ==>
                rankings[c] == ClusterRanking(MemberContent(membersOf(clusters[c].id), contentOf))
    {
      DoUserProfileClustering(profiles, topSubjectsOf, createCanopies);
      rankings := DoLOAssignment(membersOf, contentOf);
    }

    /**
     * The cluster of a user: the one storage already binds the user to, or
     * else the nearest of the stored clusters to the user's profile.
     */
    method DiscoverUserCluster(
      targetUserId: int,
      userClusterIdOf: int -> int,
      userProfileOf: int -> P,
      allClusters: seq<Canopy<P>>,
      distance: (P, P) -> real)
      returns (closestCanopyId: int, ghost evaluations: nat)
      ensures userClusterIdOf(targetUserId) != NoCluster ==>
                closestCanopyId == userClusterIdOf(targetUserId) && evaluations == 0
      ensures userClusterIdOf(targetUserId) == NoCluster ==>
                IsNearestAnswer(allClusters, userProfileOf(targetUserId), distance, closestCanopyId)
    {
      closestCanopyId := NoCluster;
      evaluations := 0;
      var userClusterId := userClusterIdOf(targetUserId);
      if userClusterId != NoCluster {
        closestCanopyId := userClusterId;
      } else {
        var targetUser := userProfileOf(targetUserId);
        closestCanopyId, evaluations := FindClosestCanopy(targetUser, allClusters, distance);
      }
    }
  }

  /** The content lists of the given members, in member order. */
  function MemberContent<P>(members: seq<P>, contentOf: P -> seq<LearningObject>): seq<seq<LearningObject>>
  {
    seq(|members|, m requires 0 <= m < |members| => contentOf(members[m]))
  }
}
