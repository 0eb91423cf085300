# Social context manager of the ViSH recommender

This project models the algorithmic part of `SocialContextManager`, the class that builds the social context of the ViSH recommender. Two pieces are modelled.

- **Learning-object assignment.** For every social cluster (canopy), it takes the content lists of the cluster's members in member order and joins them. It drops items whose id was already seen, so the first occurrence is kept. It sorts the rest by visit count with a stable ascending sort and reverses the whole list. It then hands out positions 1, 2, 3, … in that final order.
- **Nearest-cluster lookup.** For a user, it returns the cluster that storage already binds the user to. Otherwise it runs a linear search for the cluster whose center is nearest to the user's profile. The search starts from id -1 and a minimum of 1000 and uses a strict `<`, so the first nearest cluster wins. If no cluster is nearer than 1000, the answer is -1.

Storage reads become parameters: values (the stored profiles and clusters), or functions from what is requested to what storage would return (a user id to the user's cluster id or profile, a cluster id to its members, a member's profile to its content). Storage writes become the values the methods return. The distance measure is a parameter `(P, P) -> real`, called center first. Profiles are a type parameter `P`.

Modules:

- `Entities` (`entities.dfy`): the learning object (`id`, `visits`), a ranked entry (learning object, position), and a canopy (`id`, `center`).
- `RankingSpec` (`ranking_spec.dfy`): the ranking as functions on sequences. These are `Flatten`, `Dedup`, `SortedByVisits` (a stable insertion sort), `Reversed`, `Numbered` and their composition `ClusterRanking`. The file also holds the lemmas that state what the ranking promises.
- `Ranking` (`ranking.dfy`): the ranking as the source runs it, step by step.
  - A join loop.
  - A duplicate scan that uses an `exist` flag.
  - An in-place stable sort and an in-place reversal on the list's backing array.
  - A position counter.

  Each method is proved to compute the matching function of `RankingSpec`.
- `Manager` (`manager.dfy`): the class `SocialContextManager`, with its fields `clusters` and `users` and its thresholds `C1 = 6`, `C2 = 2`, `TopSubjects = 5`. It also holds the nearest-cluster search `FindClosestCanopy` and its specification `IsNearestAnswer`.

`Collections.sort` is a merge sort in Java, while the model uses an insertion sort. Both are stable, and `SortIsTheStableSort` proves that every stable ascending ordering of a list equals `SortedByVisits` of it. So the choice of algorithm does not change the ranking.

## Model

| member | source | states |
|---|---|---|
| `RankingSpec.FlattenEmpty` | src/manager/SocialContextManager.java:121-132 | the joined content list is empty exactly when every member's content list is empty |
| `RankingSpec.FlattenHasId` | src/manager/SocialContextManager.java:121-132 | an id occurs in the joined content list if and only if some member's content list has it |
| `RankingSpec.DedupKeepsIds` | src/manager/SocialContextManager.java:135-148 | nothing is lost: an id occurs among the kept items if and only if it occurs in the joined list |
| `RankingSpec.DedupNoDuplicates` | src/manager/SocialContextManager.java:135-148 | no two kept items share an id |
| `RankingSpec.DedupFirstOccurrences` | src/manager/SocialContextManager.java:136-147 | each kept item is the first item with its id in the joined list, and the kept items follow the order in which their ids first occur |
| `RankingSpec.SortPermutes` | src/manager/SocialContextManager.java:152 | the sort is a permutation of its input (same multiset) |
| `RankingSpec.SortAscending` | src/manager/SocialContextManager.java:152 | after the sort, visit counts never decrease along the list |
| `RankingSpec.SortStable` | src/manager/SocialContextManager.java:152 | for every visit count, the items with that count keep their relative order through the sort |
| `RankingSpec.AscendingSameTiesEqual` | src/manager/SocialContextManager.java:152 | two ascending lists that agree, for every visit count, on the ordered items with that count are equal |
| `RankingSpec.SortIsTheStableSort` | src/manager/SocialContextManager.java:152 | any ascending list that keeps every visit count's items in input order equals the model's sort, so any stable sort gives the same result |
| `RankingSpec.ReversedAt` | src/manager/SocialContextManager.java:153 | item k of the reversal is item n-1-k of the input |
| `RankingSpec.ReversedDescending` | src/manager/SocialContextManager.java:153 | reversing an ascending list gives a list whose visit counts never increase |
| `RankingSpec.ReversedTies` | src/manager/SocialContextManager.java:153 | the items with a given visit count appear in the reversal in the reverse of their order before it |
| `RankingSpec.Numbered` | src/manager/SocialContextManager.java:156-161 | the i-th item (from 0) gets position i+1, and there is one entry per item |
| `RankingSpec.RankingDistinctIds` | src/manager/SocialContextManager.java:135-153 | no two entries of a cluster's ranking share an id |
| `RankingSpec.RankingCoversIds` | src/manager/SocialContextManager.java:121-153 | an id is ranked if and only if it occurs in the joined content list; with `RankingDistinctIds`, such an id is ranked exactly once |
| `RankingSpec.RankingCoversMemberIds` | src/manager/SocialContextManager.java:121-153 | an id is ranked if and only if some member's content list has it |
| `RankingSpec.RankingFirstOccurrences` | src/manager/SocialContextManager.java:136-147 | each ranked item is the first item carrying its id in the joined content lists |
| `RankingSpec.RankingDescending` | src/manager/SocialContextManager.java:150-153 | visit counts never increase along the ranking |
| `RankingSpec.RankingPermutes` | src/manager/SocialContextManager.java:150-153 | the ranked items are a permutation of the deduplicated list |
| `RankingSpec.RankingTies` | src/manager/SocialContextManager.java:152-153 | for every visit count, the ranked items with that count are the deduplicated items with that count in reverse order |
| `RankingSpec.RankingTieOrder` | src/manager/SocialContextManager.java:135-153 | of two ranked items with equal visit counts, the one whose id first occurs later in the joined lists is ranked higher |
| `RankingSpec.RankingPositions` | src/manager/SocialContextManager.java:121-161 | positions run 1..n in the final order, and n is the number of distinct ids. The ranking is empty exactly when no member has content |
| `RankingSpec.TieBreakScenario` | src/manager/SocialContextManager.java:121-161 | the joined list X(5), Y(5), Z(9) is ranked Z at 1, Y at 2, X at 3 |
| `Ranking.GatherContent` | src/manager/SocialContextManager.java:121-132 | the `addAll` loop over the members yields the joined list `Flatten` |
| `Ranking.RemoveRepeated` | src/manager/SocialContextManager.java:135-148 | the scan with the `exist` flag keeps exactly `Dedup` of the joined list |
| `Ranking.InsertAt` | src/manager/SocialContextManager.java:152 | one insertion pass of the in-place sort: the prefix through `i` becomes `Insert` of the old prefix and old item, and the rest of the array is unchanged |
| `Ranking.SortByVisits` | src/manager/SocialContextManager.java:152 | the in-place stable sort leaves the array equal to `SortedByVisits` of its old contents |
| `Ranking.ReverseInPlace` | src/manager/SocialContextManager.java:153 | the in-place reversal leaves the array equal to `Reversed` of its old contents |
| `Ranking.AssignPositions` | src/manager/SocialContextManager.java:156-161 | the `position++` loop yields `Numbered` of the array, so positions are 1, 2, 3, … in array order |
| `Ranking.RankCluster` | src/manager/SocialContextManager.java:120-161 | one cluster's pass (join, dedup, sort, reverse, number) yields `ClusterRanking` of its members' content lists |
| `Manager.FirstNearestUnique` | src/manager/SocialContextManager.java:200-209 | at most one cluster is the first nearest |
| `Manager.NearestAnswerUnique` | src/manager/SocialContextManager.java:196-209 | any two answers meeting the nearest-cluster specification are equal, so the search's answer is determined by the clusters, the profile and the measure |
| `Manager.FindClosestCanopy` | src/manager/SocialContextManager.java:196-209 | if no cluster is nearer than 1000 (or there is none), the result is -1. Otherwise the result is the id of the first cluster at minimum distance, and that distance is below 1000. The measure is called once per cluster |
| `Manager.SocialContextManager.DiscoverUserCluster` | src/manager/SocialContextManager.java:173-217 | a stored cluster id other than -1 is returned as it is, with no distance computed. Otherwise the result is the nearest-cluster answer for the user's profile |
| `Manager.SocialContextManager.constructor` | src/manager/SocialContextManager.java:41-44 | a new manager holds no clusters and no user profiles |
| `Manager.SocialContextManager.DoUserProfileClustering` | src/manager/SocialContextManager.java:80-91 | `users` becomes the stored profiles. `clusters` becomes the clusterer's canopies for those profiles, the top 5 subjects and thresholds 6 and 2 |
| `Manager.SocialContextManager.DoLOAssignment` | src/manager/SocialContextManager.java:114-165 | one ranking per cluster, in cluster order. Each is `ClusterRanking` of the content lists of the members storage lists for that cluster |
| `Manager.SocialContextManager.GenerateSocialContext` | src/manager/SocialContextManager.java:54-69 | clustering followed by assignment: the new fields and the per-cluster rankings as the two steps state them |

## Left out

- Database connections, table upgrades and persistence (`connect`, `close`, `upgradeTables`, `createCluster`, `createLearningObject`) are I/O. Each ranking is returned as a sequence of (learning object, position) entries, indexed like `clusters`, instead of being written.
- `CanopyClusterer.createCanopies` is not part of this model. It is a function parameter of `DoUserProfileClustering`, and the model keeps whatever it returns.
- `ViSHDistance.calculateDistance` is not part of this model. It is a parameter `(P, P) -> real`, and only comparisons of its results are used. Doubles are modelled as reals, so NaN and rounding are not modelled.
- `LearningObject.compareTo` is not part of this model. The model takes it to compare visit counts only, and `getId()` to return a primitive integer compared with `==`.
- The case where `getUserProfile` finds no profile is not handled by the code, and it is not modelled. The profile lookup is a total function parameter.
- Logging is left out.
- `getClustersInformation` is left out: it only builds a text report from storage reads.
- Java's 32-bit `int` is modelled as an unbounded integer, so a position counter overflow (more than 2^31 items in one cluster) is not modelled.
- The class `Canopy`'s member set is not modelled. Ranking reads a cluster's members from storage (`getUsersIntoCluster`), which is a function parameter here.
- On the shortcut path of `DiscoverUserCluster`, the model states that no distance is computed through a ghost counter of measure calls. It cannot observe the calls themselves.
- `Manager.SocialContextManager.constructor`: the Java fields `clusters` and `users` have no initializer and start as null, while the model starts them empty. No path observes the difference, because `doLOAssignment` is private and runs only after `doUserProfileClustering` assigns both fields.
