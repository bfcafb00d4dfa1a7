# AI Provenance Tracker, modelled in Dafny

AI Provenance Tracker detects AI-generated text, images, audio and video. It scores content with its own
detectors and, where configured, external providers, and it investigates coordinated activity on X
(formerly Twitter). This project models the deterministic core of that system and proves properties of
the model:

- **The coordinated-activity engine** (`backend/app/services/x_intel.py`). It covers:
  - the request budget plan and the request guard;
  - pagination and merging of the collected posts;
  - the four cluster-candidate generators (hashtag, URL, exact text, 45-minute burst window);
  - the fixed-point merge of candidate sets, cluster acceptance and role assignment;
  - the amplification-graph metrics;
  - the bot-likelihood, AI-content and claim-cluster scorers.
- **The trust report** built from the engine's output (`backend/app/services/trust_report.py`). It covers
  the timeline, bot activity, objective inference, claims, spread parsing, risk level, confidence and data
  gaps.
- **Decision tables around the detectors**:
  - the weighted provider consensus and its JSON probing;
  - the C2PA tool output probing;
  - the image and video detectors' combiners and byte heuristics;
  - the verdict rule.
- **Small stateful components**, modelled as classes over sequences and maps:
  - the per-client sliding-window rate limiter with a daily spend cap;
  - the webhook retry queue with dead-lettering;
  - the capacity-bounded analysis and audit stores;
  - the X pipeline scheduler's retry schedule.
- **Request validation and routing**:
  - the detect endpoints' upload and URL rules;
  - the batch text loop;
  - the cache-header middleware.
- **Evaluation and operations arithmetic**:
  - the public benchmark's metrics, tamper evaluation and leaderboard;
  - detector threshold calibration and the X-intel benchmark;
  - the cost-governance and SLO snapshots;
  - dataset health and the benchmark regression gate;
  - run comparison, the pipeline's run-id and report-contract helpers, the weekly cycle;
  - the evaluation store's trend summary.

The model follows the modules of the source, one Dafny module per file or component. Shared helpers sit
in `Common`, `Text`, `Collections`, `Numerals`, `Json` and `Tables`. Code that changes state step by step
becomes methods with loops, or classes with `modifies` clauses. Each of these is proved against a
specification function, and the properties of those functions are proved as lemmas. Pure code becomes
functions and lemmas. Probabilities and scores are exact `real`s. Timestamps are integer or real seconds.
The clock, the network, files, subprocesses and the detectors themselves are parameters.

Notes on the source's behaviour that the model keeps:

- `_topic_key` (`x_intel.py`) keeps words longer than 3 characters.
- `dispatch` (`webhook_dispatcher.py`) first drains the retry queue and then delivers the new event.
- `collect` plans its request budget with the configured page cap when none is given.
- The provider name literal of `ProviderConsensusVote` (`backend/app/models/detection.py:76`) lacks
  "hive", which `provider_consensus.py` emits. The model's provider datatype has a Hive case.

## Model

| member | source | states |
|---|---|---|
| Common.RoundClose | benchmark/eval/run_public_benchmark.py:80-81 | rounding to a number of places moves a value by at most half a unit of the last place |
| Common.RoundMonotone | benchmark/eval/run_public_benchmark.py:80-81 | rounding never reverses the order of two values |
| XIntelPosts.NormalizeHandle | backend/app/services/x_intel.py:353-357 | the result is, character by character, the lower case of the trimmed handle less one leading '@' when it has one, and holds no upper-case letter |
| XIntelPosts.NormalizeHandleOfNormal | backend/app/services/x_intel.py:353-357 | a handle already trimmed, lower-case and without a leading '@' is a fixed point |
| XIntelPosts.CanonicalUrl | backend/app/services/x_intel.py:1270-1275 | the key is the lower-cased host followed by the path with its trailing '/' characters removed |
| XIntelPosts.CanonicalUrlIgnoresCaseAndSlash | backend/app/services/x_intel.py:1270-1275 | links differing only in host case and a trailing slash fall into the same URL group |
| XIntelPosts.UrlMatch | backend/app/services/x_intel.py:36 | a match is at least 8 characters long, within the text, and starts with the https:// or http:// scheme |
| XIntelPosts.SchemesAre | backend/app/services/x_intel.py:36 | the character tests used by the scanner are exactly the "https://" and "http://" prefixes |
| XIntelPosts.UrlMatchMeaning | backend/app/services/x_intel.py:36 | a link is matched exactly when the text starts with https:// or http:// followed by a non-space character; the match then covers only non-space characters and ends at the first whitespace or at the end |
| XIntelPosts.StripUrls | backend/app/services/x_intel.py:1264 | removing links only ever writes spaces or characters of the input |
| XIntelPosts.StripUrlsPrefix | backend/app/services/x_intel.py:1264 | up to the first whitespace of the result, the result repeats the input: text before a link is kept as it is |
| XIntelPosts.StripUrlsLeavesNoLink | backend/app/services/x_intel.py:1264 | no link starts anywhere in the result |
| XIntelPosts.StripUrlsOfLinkFree | backend/app/services/x_intel.py:1264 | text in which no link starts comes through unchanged |
| XIntelPosts.StripUrlsIdempotent | backend/app/services/x_intel.py:1264 | removing links twice is removing them once |
| XIntelPosts.WordRun | backend/app/services/x_intel.py:37 | the run taken after '@' consists of word characters only |
| XIntelPosts.StripMentions | backend/app/services/x_intel.py:1265 | removing mentions only ever writes spaces or characters of the input |
| XIntelPosts.StripMentionsHead | backend/app/services/x_intel.py:1265 | a mention at the head becomes one space and the scan resumes after its word run; any other first character is kept |
| XIntelPosts.StripMentionsLeavesNoMention | backend/app/services/x_intel.py:1265 | no '@' followed by a word character is left in the result |
| XIntelPosts.StripMentionsOfFree | backend/app/services/x_intel.py:1265 | text without a mention comes through unchanged |
| XIntelPosts.StripMentionsIdempotent | backend/app/services/x_intel.py:1265 | removing mentions twice is removing them once |
| XIntelPosts.PunctuationToSpace | backend/app/services/x_intel.py:1266 | same length; each character is kept when it is a word character, '#' or whitespace and becomes a space otherwise |
| XIntelPosts.NormalizeText | backend/app/services/x_intel.py:1262-1268 | the normalized text is single-spaced with no leading or trailing space, lower-case, and made only of word characters, '#' and spaces |
| XIntelPosts.NormalizeTextIdempotent | backend/app/services/x_intel.py:1262-1268 | normalizing normalized text changes nothing |
| XIntelPosts.TokenSet | backend/app/services/x_intel.py:1250-1254 | a token is in the set exactly when it is a space-separated token of the normalized text, longer than 2 and not a stopword |
| XIntelPosts.ToWorkingPost | backend/app/services/x_intel.py:1247-1260 | the working post keeps the post, its timestamp and its normalized text, and its tokens are space-free, longer than 2 and not stopwords |
| XIntelPosts.ToWorking | backend/app/services/x_intel.py:659 | one working post per post, in the same order |
| XIntelCandidates.PostMap | backend/app/services/x_intel.py:667 | every working post's id is a key, and each key maps to a working post carrying that id (a later duplicate id overwrites an earlier one) |
| XIntelCandidates.AllKeys | backend/app/services/x_intel.py:668-674 | a group key is listed exactly when some working post yields it |
| XIntelCandidates.Groups | backend/app/services/x_intel.py:663-674 | one id set per distinct key, in first-seen order, each holding the ids of the posts with that key |
| XIntelCandidates.GroupsNonEmpty | backend/app/services/x_intel.py:668-674 | no group is empty |
| XIntelCandidates.CandidatesFromGroups | backend/app/services/x_intel.py:704-716 | a group becomes a candidate exactly when it has at least 3 ids from at least 3 distinct lower-cased handles |
| XIntelCandidates.ByCreatedOrder | backend/app/services/x_intel.py:723 | ordering by timestamp is total and transitive, so the stable sort is well defined |
| XIntelCandidates.SortedByCreated | backend/app/services/x_intel.py:723 | the sorted posts are a permutation of the working posts in non-decreasing time order |
| XIntelCandidates.StartFromIsStart | backend/app/services/x_intel.py:728-731 | advancing the left edge from any point that only skipped posts outside the window reaches the first post within 2700 s of the right edge |
| XIntelCandidates.WindowStartIsStart | backend/app/services/x_intel.py:725-731 | the window's left edge is the first post no more than 45 minutes before the right edge |
| XIntelCandidates.StartFromSkip | backend/app/services/x_intel.py:725-731 | the left pointer carried over from the previous right edge gives the same window start as a fresh scan |
| XIntelCandidates.CandidatesFromBursts | backend/app/services/x_intel.py:719-741 | the sliding-window loop returns exactly the burst candidates of the time-sorted posts, and nothing when there are fewer than 4 |
| XIntelCandidates.OutOfWindowLater | backend/app/services/x_intel.py:727-731 | in time order a post outside the window of one right edge is outside the window of every later right edge, so `left` never moves back |
| XIntelCandidates.WindowStartAt | backend/app/services/x_intel.py:728-733 | where the `while` stops is the window start, and the window from there decides what this right edge adds |
| XIntelCandidates.SkipStale | backend/app/services/x_intel.py:728-731 | the inner `while` stops at the first post no more than 2700 s before the right edge |
| XIntelCandidates.ScanBursts | backend/app/services/x_intel.py:724-741 | on posts in time order the `for right` loop appends exactly the qualifying windows, right edge by right edge |
| XIntelCandidates.BurstsAreWindows | backend/app/services/x_intel.py:733-739 | every burst candidate is the id set of a contiguous window of sorted posts with at least 4 posts and 3 distinct handles, spanning no more than 2700 s |
| XIntelCandidates.BurstsComplete | backend/app/services/x_intel.py:733-739 | every qualifying window ending at a right edge appears among the candidates |
| XIntelMerge.MergeableSymmetric | backend/app/services/x_intel.py:751-753 | the overlap rule (overlap / smaller size >= 0.5, smaller size > 0) does not depend on argument order |
| XIntelMerge.UnionOf | backend/app/services/x_intel.py:775 | an id is in the union exactly when some merged set holds it |
| XIntelMerge.AttachIndex | backend/app/services/x_intel.py:750-756 | a candidate attaches to the first merged set it overlaps enough, and to none when no set qualifies |
| XIntelMerge.PartnerFrom | backend/app/services/x_intel.py:766-773 | the inner scan finds the first later set mergeable with set i, or reports that there is none |
| XIntelMerge.FirstPair | backend/app/services/x_intel.py:763-773 | the pass finds the first pair (i, j), i < j, of mergeable sets in scan order, or reports that no two sets from row i on are mergeable |
| XIntelMerge.MergePair | backend/app/services/x_intel.py:770-771 | merging a pair removes one set from the list |
| XIntelMerge.AttachLarge | backend/app/services/x_intel.py:746-758 | after the attach pass every merged set has at least 3 ids |
| XIntelMerge.LargeUnion | backend/app/services/x_intel.py:747 | an id is covered exactly when some candidate with at least 3 ids holds it |
| XIntelMerge.AttachUnion | backend/app/services/x_intel.py:746-758 | the attach pass covers exactly the ids of the candidates with at least 3 ids |
| XIntelMerge.AbsorbUnion | backend/app/services/x_intel.py:750-758 | attaching or appending one candidate adds exactly its ids to the union |
| XIntelMerge.MergePairAt | backend/app/services/x_intel.py:770-771 | after a pair merge set i is the union of both, sets before j keep their place and later ones shift down by one |
| XIntelMerge.MergePairUnion | backend/app/services/x_intel.py:770-771 | merging a pair keeps the union and keeps every set at least 3 ids |
| XIntelMerge.SettleSpec | backend/app/services/x_intel.py:760-773 | the fixed-point loop keeps the union and the size bound and ends with no mergeable pair |
| XIntelMerge.MergeCandidateSetsSpec | backend/app/services/x_intel.py:744-775 | every output set has at least 3 ids, no two output sets are mergeable, and the output ids are exactly those of the candidates with at least 3 ids |
| XIntelMerge.AttachOfSettled | backend/app/services/x_intel.py:746-758 | the attach pass leaves a settled list of large sets unchanged |
| XIntelMerge.MergeIdempotent | backend/app/services/x_intel.py:744-775 | merging the merge's own output returns it unchanged |
| XIntelMerge.MergeCandidateSetsInPlace | backend/app/services/x_intel.py:744-775 | the attach loop and the fixed-point loop compute MergeCandidateSets |
| XIntelMerge.SettleInPlace | backend/app/services/x_intel.py:760-773 | the while loop ends with the settled list |
| XIntelMerge.ScanPairs | backend/app/services/x_intel.py:763-773 | one pass reports a change exactly when a mergeable pair exists, and then merges the first such pair |
| XIntelMerge.ScanRow | backend/app/services/x_intel.py:766-773 | the inner loop merges set i with the first mergeable later set, if there is one |
| XIntelSimilarity.Jaccard | backend/app/services/x_intel.py:1305-1308 | the Jaccard value of two token sets lies in [0, 1], is 1 exactly when the sets are equal and 0 exactly when they are disjoint |
| XIntelSimilarity.JaccardFacts | backend/app/services/x_intel.py:1305-1308 | the intersection is no larger than the union, as large only for equal sets, and empty only for disjoint sets |
| XIntelSimilarity.PairScores | backend/app/services/x_intel.py:1302-1311 | the scored pairs, taken in `combinations` order and skipping pairs with an empty token set, are all in [0, 1] |
| XIntelSimilarity.TextSimilarity | backend/app/services/x_intel.py:1297-1315 | the mean of at most 50 pair scores lies in [0, 1], and is 0 with fewer than 2 posts or no scored pair |
| XIntelSimilarity.PairScoresConstant | backend/app/services/x_intel.py:1302-1311 | when every comparable pair scores c, every collected score is c |
| XIntelSimilarity.FirstPairScored | backend/app/services/x_intel.py:1302-1309 | when the first two posts both have tokens their pair is scored |
| XIntelSimilarity.MeanOfConstant | backend/app/services/x_intel.py:1315 | the mean of a non-empty run of equal values is that value |
| XIntelSimilarity.SimilarityOfIdentical | backend/app/services/x_intel.py:1297-1315 | posts that all share the same non-empty token set have similarity 1 |
| XIntelSimilarity.SimilarityOfDisjoint | backend/app/services/x_intel.py:1297-1315 | posts with pairwise disjoint token sets have similarity 0 |
| XIntelSimilarity.BurstRaw | backend/app/services/x_intel.py:1291-1293 | the unrounded score 1 - min(max(span, 1) / max(900, 900 n), 1) lies in [0, 1) |
| XIntelSimilarity.BurstScore | backend/app/services/x_intel.py:1288-1294 | the burst score lies in [0, 1] and is 0 with fewer than 2 posts |
| XIntelSimilarity.BurstTighterScoresHigher | backend/app/services/x_intel.py:1288-1294 | with as many posts, a shorter span never scores lower |
| XIntelSimilarity.BurstSpreadScoresZero | backend/app/services/x_intel.py:1288-1294 | posts spread over at least 900 s each score 0 |
| XIntelSimilarity.BurstOfSimultaneous | backend/app/services/x_intel.py:1291-1293 | posts within one second of each other score 1 - 1/(900 n) before rounding |
| XIntelCluster.Repeated | backend/app/services/x_intel.py:789-790 | a key is listed exactly when it occurs at least twice among the cluster's posts |
| XIntelCluster.SharedKeys | backend/app/services/x_intel.py:786-790 | at most 8 shared keys, each occurring at least twice; none exactly when no key repeats; all repeated keys when there are at most 8 of them |
| XIntelCluster.RankedHandles | backend/app/services/x_intel.py:801-805 | `most_common` lists only handles of the cluster's posts |
| XIntelCluster.BridgeOf | backend/app/services/x_intel.py:803-808 | a bridge is a poster of the cluster other than the earliest, not empty, whose handle belongs to more than one cluster |
| XIntelCluster.SelectFrom | backend/app/services/x_intel.py:813-817 | selection extends the initial handles, stays distinct, stops at 3, adds only ranked handles, and takes all of them when fewer than 3 result |
| XIntelCluster.InitialSelection | backend/app/services/x_intel.py:810-812 | the selection starts with the earliest handle, followed by the bridge when there is one |
| XIntelCluster.Exemplar | backend/app/services/x_intel.py:827-829 | the exemplar is the cluster's first post by that handle |
| XIntelCluster.AccountsFor | backend/app/services/x_intel.py:819-836 | one top account per selected handle, with the role seed, bridge or amplifier and the exemplar's handle |
| XIntelCluster.AccountFor | backend/app/services/x_intel.py:821-836 | a top account has the role the rules give its handle and the handle of its exemplar |
| XIntelCluster.RankedPosts | backend/app/services/x_intel.py:838-842 | the posts sorted by likes + reposts + replies are a permutation of the cluster's posts in non-increasing engagement |
| XIntelCluster.TopPosts | backend/app/services/x_intel.py:843-853 | at most 3 top posts, the most engaged ones in rank order, each text cut to 280 characters |
| XIntelCluster.SelectedHandles | backend/app/services/x_intel.py:800-817 | 1 to 3 distinct handles of the cluster, starting with the earliest poster |
| XIntelCluster.AccountRoles | backend/app/services/x_intel.py:819-826 | distinct selected handles led by the earliest poster give exactly one seed, the first account, and at most one bridge |
| XIntelCluster.Summary | backend/app/services/x_intel.py:800-864 | an accepted cluster has its size, at most 8 shared tags and URLs, scores in [0, 1], at most 3 top accounts led by the seed, its top posts, and keeps the given id |
| XIntelCluster.ClusterRejection | backend/app/services/x_intel.py:783-798 | a cluster is rejected exactly when it has fewer than 3 posts, or no shared tag or URL and similarity below 0.65, or more than 25 posts with similarity below 0.1 and burst below 0.25 |
| XIntelCluster.ClusterShape | backend/app/services/x_intel.py:777-864 | every emitted cluster is well formed and keeps the id it was given |
| XIntelCluster.TopPostsMostEngaged | backend/app/services/x_intel.py:838-853 | no post left out of the top 3 is more engaged than one in it |
| XIntelCluster.SelectHandles | backend/app/services/x_intel.py:810-817 | the selection loop computes SelectFrom of the initial handles |
| XIntelCluster.CollectAccounts | backend/app/services/x_intel.py:819-836 | the loop over the selected handles builds AccountsFor |
| XIntelCluster.AccountsForEach | backend/app/services/x_intel.py:819-836 | each account is built from its handle alone |
| XIntelCluster.BuildCluster | backend/app/services/x_intel.py:777-864 | the method returns ClusterOf, the cluster or its rejection |
| XIntelCluster.AssembleSummary | backend/app/services/x_intel.py:800-864 | the accounts loop and the result dict of an accepted cluster give its Summary |
| XIntelFind.PostsOf | backend/app/services/x_intel.py:686-687 | a cluster's posts are exactly the mapped posts of its ids that are present in the post map |
| XIntelFind.SortedSameElements | backend/app/services/x_intel.py:686-689 | sorting by time neither adds nor loses posts |
| XIntelFind.ClusterPostsMembers | backend/app/services/x_intel.py:686-689 | every cluster post is a working post whose id is in the merged set |
| XIntelFind.ClusterPostsComplete | backend/app/services/x_intel.py:686-689 | every id of the set that names a post contributes its mapped post |
| XIntelFind.ClusterPostsSorted | backend/app/services/x_intel.py:686-689 | cluster posts are in non-decreasing time order |
| XIntelFind.ClusterIdInjective | backend/app/services/x_intel.py:693 | distinct indices give distinct `cluster-<n>` ids |
| XIntelFind.AddMembershipOf | backend/app/services/x_intel.py:694-695 | recording a cluster adds its id to exactly the handles posting in it |
| XIntelFind.MergedPosts | backend/app/services/x_intel.py:682-689 | one post list per merged set, in merge order, each the sorted posts of that set |
| XIntelFind.MembershipExact | backend/app/services/x_intel.py:685-699 | a handle holds `cluster-k` exactly when merged set k has at least 3 posts and the handle posted in it, whether or not the cluster was then rejected |
| XIntelFind.MembershipIds | backend/app/services/x_intel.py:693-695 | membership only ever holds ids `cluster-k` of indices already visited |
| XIntelFind.MembershipGrows | backend/app/services/x_intel.py:683-699 | a handle's memberships only grow as the loop proceeds |
| XIntelFind.ClustersWellFormed | backend/app/services/x_intel.py:685-699 | every emitted cluster is the cluster built from some merged set k under the id `cluster-k` |
| XIntelFind.ClustersRecorded | backend/app/services/x_intel.py:694-699 | every top account of an emitted cluster has that cluster's id in its membership |
| XIntelFind.FewPostsNoClusters | backend/app/services/x_intel.py:659-661 | fewer than 3 posts yield no clusters and an empty membership |
| XIntelFind.RecordMembership | backend/app/services/x_intel.py:694-695 | the loop over cluster posts computes AddMembership |
| XIntelFind.FindCoordinatedClusters | backend/app/services/x_intel.py:655-701 | the method returns FindClusters' clusters and membership |
| XIntelGraph.TweetToAuthorValues | backend/app/services/x_intel.py:874 | every post id is a key and every value is some post's lower-cased author |
| XIntelGraph.TweetToAuthorLastWins | backend/app/services/x_intel.py:874 | a repeated tweet id maps to the author of its last post |
| XIntelGraph.AddTargetsMembers | backend/app/services/x_intel.py:881-884 | the mention pass adds exactly the lower-cased mentions other than the source, and keeps node order free of repeats |
| XIntelGraph.NodeOrderMembers | backend/app/services/x_intel.py:875-884 | the nodes are the authors and the other-than-self mentions, with no repeats |
| XIntelGraph.NodeSetIsNodes | backend/app/services/x_intel.py:875-884 | the node set is exactly the authors and mentioned handles |
| XIntelGraph.RefEdgesShape | backend/app/services/x_intel.py:887-891 | a reply or quote edge runs from the source to another account that authored a post of the set |
| XIntelGraph.EdgesUpToShape | backend/app/services/x_intel.py:878-891 | every edge built so far is a graph edge |
| XIntelGraph.EdgesShape | backend/app/services/x_intel.py:876-891 | the graph has no self-loop and joins only nodes |
| XIntelGraph.EdgesUpToGrow | backend/app/services/x_intel.py:878-891 | each post's edges end up in the edge set |
| XIntelGraph.MentionGivesEdge | backend/app/services/x_intel.py:881-885 | every mention of another handle gives an edge |
| XIntelGraph.ReplyGivesEdge | backend/app/services/x_intel.py:887-891 | a reply to another author's post in the set gives an edge |
| XIntelGraph.DegreeBound | backend/app/services/x_intel.py:897-901 | without self-loops a node's in- and out-degree are at most n - 1 |
| XIntelGraph.EdgeCountBound | backend/app/services/x_intel.py:893-895 | a loop-free graph has at most n(n - 1) edges |
| XIntelGraph.DegreeStep | backend/app/services/x_intel.py:899-901 | counting one more edge raises the degree of exactly its two ends |
| XIntelGraph.CountDegrees | backend/app/services/x_intel.py:897-901 | the counting loop yields each handle's in- and out-degree over the edge set |
| XIntelGraph.AccountsOf | backend/app/services/x_intel.py:903-907 | one account per node, in node order, with its centrality score |
| XIntelGraph.RankAccounts | backend/app/services/x_intel.py:908 | the stable sort is a permutation of the accounts in non-increasing score |
| XIntelGraph.ModularityFacts | backend/app/services/x_intel.py:925-934 | intra-cluster edges are among the assigned edges, and as many only when the two sets agree |
| XIntelGraph.Modularity | backend/app/services/x_intel.py:918-938 | the proxy lies in [0, 1], is 0 exactly when no edge joins accounts sharing a cluster, and is 1 exactly when every assigned edge does |
| XIntelGraph.ModularityStep | backend/app/services/x_intel.py:927-934 | one more edge adds one to the assigned count when both ends have clusters, and one to the intra count when they share one |
| XIntelGraph.ModularityProxy | backend/app/services/x_intel.py:918-938 | the counting loop returns Modularity |
| XIntelGraph.AddMentions | backend/app/services/x_intel.py:881-885 | the mention loop adds the mention nodes and edges |
| XIntelGraph.AddRefs | backend/app/services/x_intel.py:887-891 | the reference loop adds the reply and quote edges |
| XIntelGraph.MentionEdgesStep | backend/app/services/x_intel.py:881-885 | one more mention adds its edge exactly when it is not the source |
| XIntelGraph.ScoreNodes | backend/app/services/x_intel.py:903-907 | the scoring loop builds AccountsOf |
| XIntelGraph.AmplificationGraphMetrics | backend/app/services/x_intel.py:866-915 | the method returns GraphOf, the graph summary of the posts |
| XIntelGraph.BuildGraph | backend/app/services/x_intel.py:874-891 | the building loop yields the node order and edge set of the posts |
| XIntelGraph.EdgeCount | backend/app/services/x_intel.py:893-895 | there are at most n(n - 1) edges |
| XIntelGraph.DensityUnit | backend/app/services/x_intel.py:893-895 | density lies in [0, 1] |
| XIntelGraph.NodeScoreUnit | backend/app/services/x_intel.py:905-906 | each centrality (in + out) / (2(n - 1)) lies in [0, 1] |
| XIntelGraph.AccountsUnit | backend/app/services/x_intel.py:903-907 | every scored account is a node with score in [0, 1] |
| XIntelGraph.GraphBounds | backend/app/services/x_intel.py:866-915 | density and modularity lie in [0, 1]; at most 10 central accounts, all nodes, scores in [0, 1], in non-increasing order |
| XIntelGraph.RankedFromAccounts | backend/app/services/x_intel.py:908-914 | the 10 central accounts are drawn from the scored accounts |
| XIntelGraph.CentralScores | backend/app/services/x_intel.py:903-914 | every central account carries its own centrality |
| XIntelGraph.AccountsScored | backend/app/services/x_intel.py:903-907 | every account's score is the centrality of its handle |
| XIntelGraph.SparseGraphDensity | backend/app/services/x_intel.py:893-895 | with fewer than 2 nodes the density is 0 |
| XIntelGraph.NoIntraEdgesNoModularity | backend/app/services/x_intel.py:922-938 | with no intra-cluster edge the modularity is 0 |
| XIntelFind.GatherCandidates | backend/app/services/x_intel.py:663-680 | the grouping loop and the four candidate sources give the candidate sets in source order |
| XIntelFind.ClustersFromMerged | backend/app/services/x_intel.py:682-701 | the loop over the merged sets builds exactly the clusters and the membership of the first n sets, for n up to all of them |
| XIntelFind.ClusterStep | backend/app/services/x_intel.py:685-699 | one turn records and clusters merged set n when it has at least 3 posts and leaves both unchanged otherwise |
| XIntelFind.UpToStep | backend/app/services/x_intel.py:689-699 | a small set adds nothing; a large one adds its handles to the membership first and then its cluster, if accepted |
| XIntelScores.AccountAgeDays | backend/app/services/x_intel.py:1237-1245 | the age is unknown exactly when the account has no creation time, and otherwise is never negative |
| XIntelScores.AccountAgeCoversElapsed | backend/app/services/x_intel.py:1245 | a known age in days covers the seconds from creation to now |
| XIntelScores.TimeBounds | backend/app/services/x_intel.py:1233-1234 | the earliest and latest post times bound every post time and are attained |
| XIntelScores.WindowDays | backend/app/services/x_intel.py:1229-1235 | the posting window is at least one day |
| XIntelScores.WindowCoversPosts | backend/app/services/x_intel.py:1229-1235 | the window in days covers the gap between any two of the account's posts |
| XIntelScores.DistinctTextsMembers | backend/app/services/x_intel.py:956-957 | the distinct texts are exactly the normalized texts of the account's posts |
| XIntelScores.DistinctTextsCard | backend/app/services/x_intel.py:956-957 | a non-empty account has between 1 and post-count distinct texts |
| XIntelScores.DuplicateRatioBounds | backend/app/services/x_intel.py:957-958 | the duplicate ratio lies in [0, 1) and is 0 exactly when all texts are distinct |
| XIntelScores.BotProbability | backend/app/services/x_intel.py:968-994 | 0.05 plus the age, rate, duplicate, hashtag, follower and cluster increments, clipped, lies in [0, 0.99] |
| XIntelScores.AddAgeAndRate | backend/app/services/x_intel.py:969-978 | the age and activity steps add their bonuses to the running score |
| XIntelScores.AddContentSignals | backend/app/services/x_intel.py:980-986 | the duplicate and hashtag steps add their bonuses |
| XIntelScores.AddNetworkSignals | backend/app/services/x_intel.py:988-992 | the follower-ratio and cluster steps add their bonuses |
| XIntelScores.ScoreAccount | backend/app/services/x_intel.py:968-994 | the step-by-step score equals BotProbability |
| XIntelScores.QuietAccountScoresBase | backend/app/services/x_intel.py:968-994 | an account that trips no rule scores the base 0.05 |
| XIntelScores.LoudAccountScoresCap | backend/app/services/x_intel.py:968-994 | an account that trips every rule is capped at 0.99 |
| XIntelScores.MoreClustersNeverLower | backend/app/services/x_intel.py:991-992 | belonging to more clusters never lowers the bot probability |
| XIntelScores.BotConfidence | backend/app/services/x_intel.py:996-1000 | high exactly with at least 8 posts and a known age, medium exactly with at least 3 posts otherwise, low exactly below 3 posts |
| XIntelScores.AccountsOf | backend/app/services/x_intel.py:945-947 | every account group holds at least one post |
| XIntelScores.AccountsOfShape | backend/app/services/x_intel.py:945-947 | groups are keyed by distinct lower-cased handles, hold only that handle's posts, and every post's author has a group |
| XIntelScores.AccountScores | backend/app/services/x_intel.py:953-1028 | one score per account group |
| XIntelScores.RankBots | backend/app/services/x_intel.py:1030 | the stable sort is a permutation of the scores in non-increasing probability |
| XIntelScores.ScoreOneAccount | backend/app/services/x_intel.py:954-1028 | the loop body builds the account's BotScoreOf |
| XIntelScores.ScoreAccounts | backend/app/services/x_intel.py:953-1028 | the loop scores every account group in order |
| XIntelScores.BuildBotScores | backend/app/services/x_intel.py:940-1031 | the method returns BotScores, the ranked first 200 |
| XIntelScores.RoundWithinCap | backend/app/services/x_intel.py:1024 | rounding to 3 places keeps a probability within [0, 0.99] |
| XIntelScores.AccountScoresBounds | backend/app/services/x_intel.py:994-1024 | every reported probability lies in [0, 0.99] |
| XIntelScores.RankedScoresBounds | backend/app/services/x_intel.py:1030-1031 | at most 200 scores, all in [0, 0.99], in non-increasing order |
| XIntelScores.BotScoresBounds | backend/app/services/x_intel.py:940-1031 | at most 200 bot scores, all in [0, 0.99], in non-increasing order |
| XIntelScores.BotScoreOfNames | backend/app/services/x_intel.py:954-1023 | a score carries a handle whose lower case is its account's key |
| XIntelScores.AccountScoresKeys | backend/app/services/x_intel.py:953-1028 | the i-th score names the i-th account |
| XIntelScores.RankedScoresDistinct | backend/app/services/x_intel.py:1030-1031 | no two ranked scores name the same account |
| XIntelScores.OneScorePerAccount | backend/app/services/x_intel.py:940-1031 | there is at most one bot score per lower-cased handle |
| XIntelScores.RankedScoresComplete | backend/app/services/x_intel.py:1030-1031 | with at most 200 accounts every account is scored |
| XIntelScores.EveryAccountScored | backend/app/services/x_intel.py:940-1031 | with at most 200 accounts every post's author has a score |
| XIntelScores.CountMarkers | backend/app/services/x_intel.py:1049-1053 | the loop counts the formal markers occurring in the lower-cased text |
| XIntelScores.UniqueWordRatio | backend/app/services/x_intel.py:1046 | the unique-word ratio lies in [0, 1] and is positive when there are words |
| XIntelScores.Bigrams | backend/app/services/x_intel.py:1322 | n words give n - 1 bigrams |
| XIntelScores.RepeatedIsSurplus | backend/app/services/x_intel.py:1323-1324 | the repeated count is the total less the number of distinct bigrams, and 0 exactly when none repeats |
| XIntelScores.RepeatedCountFacts | backend/app/services/x_intel.py:1323-1324 | fewer repeats than bigrams, and none exactly when every bigram occurs once |
| XIntelScores.RepeatedBigramRatioFacts | backend/app/services/x_intel.py:1317-1325 | with at least 4 words the ratio lies in [0, 1) and is 0 exactly when no bigram repeats |
| XIntelScores.SquaredDeviations | backend/app/services/x_intel.py:1331 | the sum of squared deviations is never negative |
| XIntelScores.Variance | backend/app/services/x_intel.py:1326-1332 | the variance is never negative |
| XIntelScores.SquaredDeviationsOfConstant | backend/app/services/x_intel.py:1330-1331 | equal values deviate by nothing from their mean |
| XIntelScores.UniformSentencesLowSpread | backend/app/services/x_intel.py:1078 | sentences of equal length count as evenly written |
| XIntelScores.AiTextProbability | backend/app/services/x_intel.py:1062-1081 | 0.08 plus the unique-ratio, repetition, marker and long-uniform increments, clipped, lies in [0, 0.99] |
| XIntelScores.ScoreText | backend/app/services/x_intel.py:1062-1081 | the step-by-step score equals AiTextProbability |
| XIntelScores.PlainTextScoresBase | backend/app/services/x_intel.py:1062-1081 | a text that trips no rule scores the base 0.08 |
| XIntelScores.AiContentScores | backend/app/services/x_intel.py:1033-1105 | exactly one score per post |
| XIntelScores.AiContentScoresSnoc | backend/app/services/x_intel.py:1042-1103 | each post appends its own score |
| XIntelScores.ScorePost | backend/app/services/x_intel.py:1043-1103 | the loop body builds the post's AiScoreOf |
| XIntelScores.BuildAiContentScores | backend/app/services/x_intel.py:1033-1105 | the method returns AiContentScores |
| XIntelScores.AiScoreOfShape | backend/app/services/x_intel.py:1083-1103 | a score keeps the post's id, has text probability in [0, 0.99], and image probability 0.2 exactly when the post has media, else 0 |
| XIntelScores.AiContentScoresAt | backend/app/services/x_intel.py:1042-1103 | the i-th score is the i-th post's |
| XIntelScores.AiScoresShape | backend/app/services/x_intel.py:1033-1105 | one score per post, in order, each keeping its post's id and bounds |
| XIntelClaims.TopicKeyCases | backend/app/services/x_intel.py:1154-1167 | the topic is the first hashtag lower-cased; else the first normalized token longer than 3 letters that is not a stopword, cut to 40; else `general_discussion` |
| XIntelClaims.TopicFromTextShape | backend/app/services/x_intel.py:1159-1166 | a topic taken from the text has 4 to 40 characters and no space |
| XIntelClaims.ChosenGroupsShape | backend/app/services/x_intel.py:1111-1122 | the kept groups have distinct topics and at least 2 posts each; when no topic repeats there is the single group of all posts under `general_discussion` |
| XIntelClaims.RankGroupsShape | backend/app/services/x_intel.py:1124-1127 | at most 10 groups in non-increasing size, at least one if there were any, keeping distinct topics and the size rule |
| XIntelClaims.ClusterGroupsShape | backend/app/services/x_intel.py:1111-1127 | the ranked groups: at most 10, non-empty for non-empty posts, non-increasing sizes, distinct topics, and the general fallback when no topic repeats |
| XIntelClaims.CollectClaims | backend/app/services/x_intel.py:1128-1139 | the loop over a group's posts builds RepresentativeClaims |
| XIntelClaims.ClaimsShape | backend/app/services/x_intel.py:1128-1139 | at most 3 claims, each a non-empty prefix of at most 280 characters of a post's whitespace-collapsed text, taken from distinct texts, present whenever some post has text |
| XIntelClaims.ClaimsFromPosts | backend/app/services/x_intel.py:1131-1136 | every claim is non-empty, at most 280 characters and a prefix of some post's cleaned text |
| XIntelClaims.ClaimSourcesDistinct | backend/app/services/x_intel.py:1134-1137 | claims come from pairwise distinct cleaned texts |
| XIntelClaims.ClaimsPresent | backend/app/services/x_intel.py:1130-1139 | a group with some non-blank post has at least one claim |
| XIntelClaims.ShortClaimsUnclipped | backend/app/services/x_intel.py:1136 | when no cleaned text exceeds 280 characters the claims are the cleaned texts themselves |
| XIntelClaims.SourceOfClaim | backend/app/services/x_intel.py:1131-1137 | each claim is the clip of a non-empty cleaned text of some post of the group |
| XIntelClaims.ByDateOrder | backend/app/services/x_intel.py:1175 | ordering dates as strings is total and transitive |
| XIntelClaims.SpreadEntriesShape | backend/app/services/x_intel.py:1169-1175 | one entry per distinct post date, in strictly ascending order, counting that date's posts, and every post's date appears |
| XIntelClaims.TopAccountsShape | backend/app/services/x_intel.py:1177-1180 | min(limit, distinct handles) distinct authors of the group, in non-increasing post count |
| XIntelClaims.SentimentCases | backend/app/services/x_intel.py:1182-1197 | negative exactly when negative > 0 and negative >= 1.4 positive; positive exactly when positive > 0 and positive >= 1.4 negative; neutral exactly when neither word kind occurs; mixed otherwise |
| XIntelClaims.SentimentSymmetric | backend/app/services/x_intel.py:1191-1197 | swapping the two counts mirrors the sentiment |
| XIntelClaims.TallySentiment | backend/app/services/x_intel.py:1184-1197 | the counting loop yields EstimateSentiment |
| XIntelClaims.BuildCluster | backend/app/services/x_intel.py:1128-1150 | the loop body builds the group's claim cluster |
| XIntelClaims.BuildClaimClusters | backend/app/services/x_intel.py:1107-1152 | the method returns ClaimClusters |
| XIntelClaims.BuildClusters | backend/app/services/x_intel.py:1126-1152 | the enumerate loop builds one cluster per ranked group |
| XIntelClaims.ClusterForFits | backend/app/services/x_intel.py:1141-1150 | a claim cluster carries `claim-<index>`, its group's topic, at most 3 claims of 1 to 280 characters and at most 5 distinct key accounts |
| XIntelClaims.ClaimIdsDiffer | backend/app/services/x_intel.py:1143 | distinct indices give distinct claim ids |
| XIntelClaims.ClusterAt | backend/app/services/x_intel.py:1127 | the k-th cluster is built from the k-th ranked group with index k + 1 |
| XIntelClaims.ClaimClustersShape | backend/app/services/x_intel.py:1107-1152 | at most 10 clusters, present exactly for non-empty posts, each fitting its group, with distinct ids |
| XIntelClaims.ClaimClustersCount | backend/app/services/x_intel.py:1108-1127 | at most 10 clusters, and none exactly when there are no posts |
| XIntelClaims.ClaimClustersFit | backend/app/services/x_intel.py:1126-1150 | each cluster fits the group it was built from |
| XIntelClaims.ClaimClusterIdsDistinct | backend/app/services/x_intel.py:1143 | cluster ids are pairwise distinct |
| XIntelCollect.Ceil100 | backend/app/services/x_intel.py:164-166 | the ceiling of x / 100 |
| XIntelCollect.StreamPages | backend/app/services/x_intel.py:164-166 | a stream plans between 1 and page_cap pages, just enough for its limit when the cap allows |
| XIntelCollect.StreamLimits | backend/app/services/x_intel.py:160-162 | each stream's limit is at least 20: half, three tenths and the rest of the posts |
| XIntelCollect.EstimateRequestPlan | backend/app/services/x_intel.py:155-176 | the page cap is max(1, given or configured pages); every limit is at least 20; 4 <= estimated <= worst case = 1 + 3 page_cap |
| XIntelCollect.EstimateCountsPages | backend/app/services/x_intel.py:164-168 | the estimate is one user lookup plus each stream's pages, which cover its limit when the cap allows |
| XIntelCollect.EstimateLowCost | backend/app/services/x_intel.py:155-176 | 60 posts with one page give estimated = worst case = 4 |
| XIntelCollect.BudgetError | backend/app/services/x_intel.py:424-430 | a budget error carries status 400 |
| XIntelCollect.StatusOutcome | backend/app/services/x_intel.py:433-447 | statuses below 400 give the body; 401/403 map to 401, 404 to 404, 429 to 429 and other errors to 502 |
| XIntelCollect.AddUsers | backend/app/services/x_intel.py:493-496 | users with a non-empty id are recorded, earlier ones kept |
| XIntelCollect.AddMedia | backend/app/services/x_intel.py:497-500 | media with a non-empty key are recorded, earlier ones kept |
| XIntelCollect.PageSize | backend/app/services/x_intel.py:483 | a page asks for between 10 and 100 results |
| XIntelCollect.Paginate | backend/app/services/x_intel.py:468-508 | with the guard on, pagination never takes the count past the maximum, never asks for more pages than allowed, and stops with a budget error only at the maximum |
| XIntelCollect.PaginateKeepsPrefix | backend/app/services/x_intel.py:489-490 | pages only ever append tweets |
| XIntelCollect.SliceTo | backend/app/services/x_intel.py:508 | Python's `[:n]` slice, negative n counting from the end |
| XIntelCollect.SafeFetch | backend/app/services/x_intel.py:336-350 | success and budget errors pass through; a collection error becomes an empty result plus one appended note; only budget errors remain errors |
| XIntelCollect.IdsOf | backend/app/services/x_intel.py:524 | the ids of the tweets, in order |
| XIntelCollect.FirstById | backend/app/services/x_intel.py:522-530 | one tweet per non-empty id, ids distinct, every non-empty id of the input present |
| XIntelCollect.FirstByIdKeepsFirst | backend/app/services/x_intel.py:525-526 | the first tweet seen with an id is the one kept |
| XIntelCollect.NewerFirstOrder | backend/app/services/x_intel.py:531 | ordering by `created_at` text is total and transitive |
| XIntelCollect.UnionUsers | backend/app/services/x_intel.py:527 | updating the user map keeps every earlier key |
| XIntelCollect.MergeFetchResults | backend/app/services/x_intel.py:511-532 | the target user is always among the merged users |
| XIntelCollect.MergedNewestFirst | backend/app/services/x_intel.py:530-532 | at most max_posts posts, newest first |
| XIntelCollect.MergedDistinctFirstSeen | backend/app/services/x_intel.py:522-532 | merged posts have distinct ids and are first sightings |
| XIntelCollect.DistinctIdsSorted | backend/app/services/x_intel.py:531 | sorting keeps ids distinct |
| XIntelCollect.FilterPostsByWindow | backend/app/services/x_intel.py:384-400 | a post is kept exactly when its parsed time falls in [start, end] |
| XIntelCollect.FilterKeepsOrder | backend/app/services/x_intel.py:389-400 | filtering keeps newest-first order and distinct ids |
| XIntelCollect.MergeInWindow | backend/app/services/x_intel.py:282-287 | the posts are newest first with distinct ids, at most max_posts, all in the window, and the target user is known |
| XIntelCollect.InteractionQuery | backend/app/services/x_intel.py:228 | the trimmed query when not blank, else `@handle` |
| XIntelCollect.Collector.constructor | backend/app/services/x_intel.py:138-140 | a new collector has made no request and caps requests at max(1, the configured maximum) |
| XIntelCollect.Collector.RequestJson | backend/app/services/x_intel.py:418-447 | with the guard on and the count at the maximum it fails with a budget error without counting; otherwise it counts one request and maps the status |
| XIntelCollect.Collector.NextPage | backend/app/services/x_intel.py:479-505 | one turn of the page loop makes at most one request; a failed request ends pagination with that error; a page without a next token ends it with the page added; otherwise pagination goes on from the next page with one more request counted |
| XIntelCollect.Collector.FetchTweetsPaginated | backend/app/services/x_intel.py:468-508 | the loop counts exactly the requests Paginate makes and returns its tweets cut to the limit |
| XIntelCollect.Collector.CollectStreams | backend/app/services/x_intel.py:230-287 | the request count never falls; a successful collection has at most three notes, one per stream, keeps the handle and target user, has the target user among its users, and its posts are newest first, distinct, within the window and at most max_posts |
| XIntelCollect.Collector.Collect | backend/app/services/x_intel.py:178-323 | without a token it fails with 400 before any request; with the guard on and the estimate over the cap it fails before any request; a result has the normalized handle, a known target user, at most 3 notes, and distinct newest-first posts inside the window |
| XIntelAnalysis.FallbackBotScore | backend/app/services/x_intel.py:1199-1213 | the fallback score has probability 0, low confidence, and the target's id and username or `unknown` |
| XIntelAnalysis.FallbackAiScore | backend/app/services/x_intel.py:1215-1227 | the fallback score is `unavailable` with both probabilities 0, low confidence, and the no-posts note followed by at most two collection notes |
| XIntelAnalysis.Analyze | backend/app/services/x_intel.py:295-323 | the analysis steps after collection compute AnalysisOf |
| XIntelAnalysis.BotScoresPresent | backend/app/services/x_intel.py:940-1031 | posts always give at least one bot score |
| XIntelAnalysis.AnalysisOfNoPosts | backend/app/services/x_intel.py:308-323 | with no posts the scores are the two fallbacks and there are no claim clusters |
| XIntelAnalysis.AnalysisOfPosts | backend/app/services/x_intel.py:295-323 | with posts the scores and claim clusters are the engine's own, all present, so no fallback is used |
| XIntelBenchmark.KeyOrder | backend/scripts/benchmark_x_intel.py:47-58 | the label keys in dict order, distinct, exactly the keys of the truth map |
| XIntelBenchmark.KeyedHas | backend/scripts/benchmark_x_intel.py:47 | a key is labelled exactly when some label's lower-cased handle is that key |
| XIntelBenchmark.KeyedSize | backend/scripts/benchmark_x_intel.py:47-73 | the truth map has one entry per distinct lower-cased handle |
| XIntelBenchmark.PredictionsMeaning | backend/scripts/benchmark_x_intel.py:38-45 | a handle is flagged exactly when it is non-empty and some top account with that lower-cased handle has probability at least the threshold |
| XIntelBenchmark.PredictionsSnoc | backend/scripts/benchmark_x_intel.py:40-45 | each account updates the predictions once |
| XIntelBenchmark.FlattenSnoc | backend/scripts/benchmark_x_intel.py:39-40 | the accounts of the clusters, cluster by cluster |
| XIntelBenchmark.BuildPredictions | backend/scripts/benchmark_x_intel.py:38-45 | the nested loop builds Predictions over all clusters' top accounts |
| XIntelBenchmark.BotOutcome | backend/scripts/benchmark_x_intel.py:59-67 | the four outcomes are exactly the four combinations of prediction and label |
| XIntelBenchmark.TallyHandles | backend/scripts/benchmark_x_intel.py:57-67 | tp + fp + fn + tn is the number of labelled accounts |
| XIntelBenchmark.TallyHandlesCounts | backend/scripts/benchmark_x_intel.py:57-67 | tp + fn counts the labelled bots and tp + fp the flagged accounts |
| XIntelBenchmark.BotMetricsOf | backend/scripts/benchmark_x_intel.py:33-82 | no labels give the note result; otherwise the evaluated count is the number of labelled handles and the four counts, and precision, recall and F1 lie in [0, 1] |
| XIntelBenchmark.BotMetricsCounts | backend/scripts/benchmark_x_intel.py:57-70 | the counts behind recall and precision are the labelled bots and the flagged handles |
| XIntelBenchmark.CountHandles | backend/scripts/benchmark_x_intel.py:57-67 | the counting loop computes TallyHandles |
| XIntelBenchmark.ComputeBotMetrics | backend/scripts/benchmark_x_intel.py:33-82 | the method returns BotMetricsOf |
| XIntelBenchmark.Correct | backend/scripts/benchmark_x_intel.py:97-101 | no more topics are correct than are labelled |
| XIntelBenchmark.Accuracy | backend/scripts/benchmark_x_intel.py:103 | accuracy lies in [0, 1], is 1 when all are correct and 0 when none is |
| XIntelBenchmark.ClaimMetricsOf | backend/scripts/benchmark_x_intel.py:85-108 | no labels give the note result; otherwise the evaluated topics are the distinct labelled topics, correct counts matching responses, and accuracy is their ratio |
| XIntelBenchmark.LabelsAgreeWithThemselves | backend/scripts/benchmark_x_intel.py:85-108 | claims that equal the labels score accuracy 1 |
| XIntelBenchmark.ComputeClaimMetrics | backend/scripts/benchmark_x_intel.py:85-108 | the method returns ClaimMetricsOf |
| XIntelBenchmark.SpikeDays | backend/scripts/benchmark_x_intel.py:141 | spike days are at most the timeline days |
| XIntelBenchmark.TopSpike | backend/scripts/benchmark_x_intel.py:131 | the top spike count bounds every day's and is attained, or 0 |
| XIntelBenchmark.SpikeFiguresAgree | backend/scripts/benchmark_x_intel.py:131-141 | there are no spike days exactly when the top spike count is 0 |
| XIntelBenchmark.Summary | backend/scripts/benchmark_x_intel.py:128-143 | the report summary defaults risk and confidence to `low`, counts timeline days, clusters and topics, and its spike figures agree |
| TrustSpread.MaxSpreadCount | backend/app/services/trust_report.py:475-485 | the chunk loop returns the largest count read from the chunks, 0 when none parses |
| TrustSpread.MaxOfIsMax | backend/app/services/trust_report.py:476-485 | the result is at least 0, bounds every parsed chunk value and is one of them unless it is 0 |
| TrustSpread.CountReadsBack | backend/app/services/trust_report.py:482 | `int` reads back a printed count preceded by a space |
| TrustSpread.LastPartOfItem | backend/app/services/trust_report.py:482 | the part after the last ':' of `date: count` is the printed count |
| TrustSpread.SpreadItemValue | backend/app/services/trust_report.py:478-482 | a spread item, with or without its leading space, reads back as its count |
| TrustSpread.ItemHasNoComma | backend/app/services/x_intel.py:1175 | a spread item holds no comma, so splitting on ',' separates items exactly |
| TrustSpread.SpreadSplits | backend/app/services/x_intel.py:1175 | splitting the joined spread on ',' gives the items back, each after the first with its leading space |
| TrustSpread.SpreadChunks | backend/app/services/trust_report.py:477-482 | every chunk of a spread string reads back as its day's count; an empty spread gives the single chunk "" |
| TrustSpread.SpreadMaxRoundTrip | backend/app/services/trust_report.py:475-485 | on a formatted spread the maximum is the largest per-day count, and 0 for no days |
| TrustSpread.SpreadOverTimeMax | backend/app/services/x_intel.py:1169-1175 | on the spread of posts the maximum is the largest number of posts on one day, attained by some post's day, and 0 for no posts |
| TrustSpread.BusiestDayBound | backend/app/services/x_intel.py:1171-1174 | no day has more posts than the busiest |
| TrustSpread.BusiestDayExists | backend/app/services/x_intel.py:1171-1174 | the busiest count is attained by some post's day |
| TrustTimeline.ByDayTextOrder | backend/app/services/trust_report.py:117 | ordering days as strings is total and transitive |
| TrustTimeline.BuildTimeline | backend/app/services/trust_report.py:108-125 | the loop over sorted day counts builds Timeline |
| TrustTimeline.DayCountsShape | backend/app/services/trust_report.py:112-117 | one entry per distinct `created_at[:10]`, strictly ascending, each counting that day's posts, every post's day present, counts summing to the number of posts |
| TrustTimeline.TimelineShape | backend/app/services/trust_report.py:108-125 | one row per day in date order, its event giving the day's count, with a spike exactly when the day has at least 10 posts; none for no posts |
| TrustTimeline.WordRun | backend/app/services/trust_report.py:351 | the maximal run of `[a-zA-Z0-9_]` characters at the start |
| TrustTimeline.WordRuns | backend/app/services/trust_report.py:351 | every token found is a non-empty run of word characters |
| TrustTimeline.ClaimRows | backend/app/services/trust_report.py:334-346 | one row per day, each built from that day's mentions |
| TrustTimeline.BuildClaimTimeline | backend/app/services/trust_report.py:321-347 | the loops build ClaimTimeline |
| TrustTimeline.MentionsAreTopics | backend/app/services/trust_report.py:330-332 | only topics with a non-empty token set are counted |
| TrustTimeline.ClaimTimelineShape | backend/app/services/trust_report.py:321-347 | one row per distinct post day, strictly ascending, each with its total mentions and at most 8 topics by decreasing count, counted exactly |
| TrustTimeline.ClaimDayOfFits | backend/app/services/trust_report.py:336-345 | a day's row totals its mentions and lists at most 8 cluster topics, most mentioned first, with their exact counts |
| TrustReport.Rationale | backend/app/services/trust_report.py:183-236 | every objective comes with exactly 3 rationale lines |
| TrustReport.ObjectivePriority | backend/app/services/trust_report.py:179-236 | scam, political, astroturf, smear and engagement_farm are chosen in that priority, each exactly when its condition holds and no earlier one does, else other; always 3 rationale lines |
| TrustReport.PostHintInBlob | backend/app/services/trust_report.py:180-183 | a hint in any top post's lower-cased text is a hint in the joined text blob |
| TrustReport.ScamPostMakesScam | backend/app/services/trust_report.py:183-191 | a scam hint in any top post makes the objective scam |
| TrustReport.PoliticalPostMakesPolitical | backend/app/services/trust_report.py:192-200 | a political hint in any top post makes the objective scam or political |
| TrustReport.BotMapLookup | backend/app/services/trust_report.py:128 | a lower-cased handle is a key exactly when some score has it, and maps to the probability of the last such score |
| TrustReport.BotMapValues | backend/app/services/trust_report.py:128 | the map's values stay within the scores' bounds |
| TrustReport.AccountProbs | backend/app/services/trust_report.py:134-136 | one probability per top account |
| TrustReport.AccountViews | backend/app/services/trust_report.py:134-143 | one account entry per top account |
| TrustReport.SuspectedClusters | backend/app/services/trust_report.py:131-166 | one suspected cluster per cluster |
| TrustReport.ViewAccounts | backend/app/services/trust_report.py:134-143 | the account loop builds the entries and the probabilities |
| TrustReport.BuildBotActivity | backend/app/services/trust_report.py:127-177 | the method builds the suspected clusters and the overall assessment |
| TrustReport.BotLikelihoodBounds | backend/app/services/trust_report.py:150 | with probabilities in [0, 1] the cluster's bot likelihood lies in [0, 1], and is 0 with no top accounts |
| TrustReport.ProbsWithin | backend/app/services/trust_report.py:135 | looked-up probabilities, missing ones 0, stay in [0, 1] |
| TrustReport.LikelihoodWithin | backend/app/services/trust_report.py:150 | the rounded mean of values in [0, 1] lies in [0, 1] |
| TrustReport.BotMapKeys | backend/app/services/trust_report.py:128 | the keys are exactly the scores' lower-cased handles |
| TrustReport.UnscoredClusterIsZero | backend/app/services/trust_report.py:135-150 | a cluster none of whose top accounts is scored has bot likelihood 0 |
| TrustReport.UnscoredProbsZero | backend/app/services/trust_report.py:135 | unscored accounts look up 0 |
| TrustReport.ZeroMean | backend/app/services/trust_report.py:150 | the mean of zeros is 0 |
| TrustReport.BotActivityShape | backend/app/services/trust_report.py:127-177 | one entry per cluster in order, each keeping id, size, handles and roles, with the mean bot likelihood, its objective, and confidence high exactly at size >= 50 and similarity >= 0.7, medium exactly otherwise at size >= 15; the no-activity assessment exactly when there are no clusters |
| TrustReport.AiRankOrder | backend/app/services/trust_report.py:240-244 | ranking by (text, image) probability is total and transitive |
| TrustReport.PostMapLookup | backend/app/services/trust_report.py:239 | an id is a key exactly when some post has it, and maps to the last such post |
| TrustReport.NotableItems | backend/app/services/trust_report.py:246-269 | one item per notable score |
| TrustReport.BuildAiContent | backend/app/services/trust_report.py:238-284 | the method builds the notable items and the overall assessment |
| TrustReport.NotableRanking | backend/app/services/trust_report.py:240-244 | at most 5 scores, all when fewer, drawn from the input in descending (text, image) order, none left out ranking above one shown |
| TrustReport.NotableItemFits | backend/app/services/trust_report.py:247-269 | each item keeps its score's id, probabilities and notes; impact high exactly when a probability reaches 0.7 and low exactly when both are below 0.3; media flagged exactly when the last post with the id has media |
| TrustReport.LastWithId | backend/app/services/trust_report.py:239 | when some post has the id, one of them is the last |
| TrustReport.ReportClaimsOf | backend/app/services/trust_report.py:288-318 | one report claim per shown cluster, the k-th built from the k-th cluster |
| TrustReport.ReportClaims | backend/app/services/trust_report.py:286-319 | one claim for each of the first 10 clusters |
| TrustReport.BuildClaims | backend/app/services/trust_report.py:286-319 | the loop builds ReportClaims |
| TrustReport.ClaimsShape | backend/app/services/trust_report.py:286-319 | at most 10 claims, each keeping its cluster's topic and first 2 claims, with reach from the busiest day, harm flagged exactly for medium or high reach, and escalation only at high reach |
| TrustReport.ReachOfPosts | backend/app/services/trust_report.py:289-290 | reach is high exactly when some day has at least 30 of the cluster's posts, and low exactly when every day has fewer than 10 |
| TrustReport.RiskLevels | backend/app/services/trust_report.py:488-508 | critical exactly with a strong cluster and a high-risk claim; at least high exactly with either or top bot probability >= 0.7; at least medium exactly when also >= 0.4 or >= 100 posts |
| TrustReport.RiskMonotone | backend/app/services/trust_report.py:488-508 | more posts or a higher top bot probability never lower the risk |
| TrustReport.EscalationIsHighRisk | backend/app/services/trust_report.py:494-505 | an escalated claim makes the risk at least high |
| TrustReport.EscalatedMeansHighReach | backend/app/services/trust_report.py:297-298 | a claim is escalated only when its reach is high |
| TrustReport.ConfidenceLevels | backend/app/services/trust_report.py:511-516 | high exactly with >= 100 posts, >= 50 accounts and some cluster; low exactly below 30 posts; more of each never lowers it |
| TrustReport.DataGapsShape | backend/app/services/trust_report.py:526-534 | the three standing gaps always come first, with the sample-size gap as a fourth exactly below 100 posts |
| TrustReport.IntelAlerts | backend/app/services/trust_report.py:353-389 | the method builds Alerts |
| TrustReport.VelocityAlertDue | backend/app/services/trust_report.py:379 | the scan decides the velocity condition |
| TrustReport.AlertsShape | backend/app/services/trust_report.py:353-389 | at most 3 alerts, each code at most once in the fixed order, each present exactly when its threshold is met |
| TrustReport.HighReachRaisesVelocity | backend/app/services/trust_report.py:379-387 | a shown claim with high reach always raises the velocity alert |
| TrustGenerate.RowCountOfRow | backend/app/services/trust_report.py:522 | the count read back from a timeline row's first event is the day's post count |
| TrustGenerate.WhyNowOfRows | backend/app/services/trust_report.py:519-523 | on a non-empty timeline the reason names the date of the first day with the largest count |
| TrustGenerate.WhyNowOfTimeline | backend/app/services/trust_report.py:519-523 | with no posts the reason is the fixed no-posts line; otherwise it names the first busiest day of the posts |
| TrustGenerate.StrategyShape | backend/app/services/trust_report.py:391-434 | an unknown goal gets the default line; provenance checks cost high exactly for a low risk tolerance and med otherwise |
| TrustGenerate.UniqueAccountsBounds | backend/app/services/trust_report.py:34 | the distinct lower-cased handles are at most the posts, and at least one when there are posts |
| TrustGenerate.MaxBotShape | backend/app/services/trust_report.py:35 | 0 without scores; otherwise the largest bot probability, reached by some score |
| TrustGenerate.Generate | backend/app/services/trust_report.py:22-76 | the method assembles the report from the timeline, bot activity, AI content, claims, risk, strategy, data gaps and confidence |
| TrustGenerate.ReportShape | backend/app/services/trust_report.py:33-76 | the summary always says why now; accounts are at most the posts and at least 1 when there are posts; high confidence needs 100 posts, 50 accounts and a cluster; one timeline row per day; the fourth data gap exactly below 100 posts |
| TrustGenerate.DrilldownClusters | backend/app/services/trust_report.py:84-99 | one drill-down entry per cluster, in order |
| TrustGenerate.BuildDrilldownClusters | backend/app/services/trust_report.py:83-99 | the loop over the clusters builds exactly the drill-down entries, one per cluster in order, each with the cluster's figures and its inferred objective |
| TrustGenerate.GenerateDrilldown | backend/app/services/trust_report.py:78-106 | the method assembles the drill-down: target, window, clusters, claim timeline and alerts |
| TrustGenerate.DrilldownAgreesWithReport | backend/app/services/trust_report.py:85-97 | the drill-down and the report's bot activity list the same clusters with the same objectives and rationales |
| ProviderConsensus.Clip | backend/app/services/provider_consensus.py:595-596 | the result lies in [0, 1], equals the input inside it, and is the nearer bound outside |
| ProviderConsensus.MakeVote | backend/app/services/provider_consensus.py:624-645 | the vote keeps provider, status and reference, with its probability clipped into [0, 1] and its weight at least 0, both unchanged when already in range |
| ProviderConsensus.HeaderGet | backend/app/services/provider_consensus.py:619 | a value is found exactly when some header carries the key, and it is that header's value |
| ProviderConsensus.FirstHeader | backend/app/services/provider_consensus.py:617-622 | the first of the names whose header is present and non-empty gives the id; none when every one is missing or empty |
| ProviderConsensus.PathValue | backend/app/services/provider_consensus.py:572-587 | the loop over the dotted keys computes the path walk |
| ProviderConsensus.PathWalkAppend | backend/app/services/provider_consensus.py:574-587 | walking a + b is walking a and then b from where a ended |
| ProviderConsensus.PathWalkIndex | backend/app/services/provider_consensus.py:575-583 | on a list an in-range decimal key steps to that item |
| ProviderConsensus.PathWalkBadIndex | backend/app/services/provider_consensus.py:576-581 | on a list a key that is not an integer or out of range gives nothing |
| ProviderConsensus.PathWalkOnDicts | backend/app/services/provider_consensus.py:584-586 | a path through dicts alone is walked by key lookups |
| ProviderConsensus.PathWalkScalar | backend/app/services/provider_consensus.py:584-585 | a scalar with keys left gives nothing |
| ProviderConsensus.DirectNumber | backend/app/services/provider_consensus.py:603-607 | a number is found exactly when some direct key holds one, and it is that key's value |
| ProviderConsensus.MemberOf | backend/app/services/provider_consensus.py:611 | a present key's value is that member of the dict, and smaller than it |
| ProviderConsensus.ExtractFound | backend/app/services/provider_consensus.py:598-615 | any probability found is the number at some path of nested keys ending in a direct key |
| ProviderConsensus.NestedFound | backend/app/services/provider_consensus.py:609-614 | a probability found under the nested keys lies on such a path |
| ProviderConsensus.ProbabilityPathCons | backend/app/services/provider_consensus.py:609-614 | a nested key in front of a probability path is one |
| ProviderConsensus.ExtractNonDict | backend/app/services/provider_consensus.py:600-601 | no probability is read from anything but a dict |
| ProviderConsensus.FirstNumeric | backend/app/services/provider_consensus.py:515-526 | the first candidate holding a number gives it and its path; none when no candidate holds one |
| ProviderConsensus.CollectHiveClassScore | backend/app/services/provider_consensus.py:552-570 | the method computes the best class score of a list, none for anything else |
| ProviderConsensus.ScanClasses | backend/app/services/provider_consensus.py:556-570 | the loop keeps the highest score among AI-labelled classes |
| ProviderConsensus.BestByShape | backend/app/services/provider_consensus.py:556-570 | nothing exactly when no item scores; otherwise a score some item has and no scoring item exceeds |
| ProviderConsensus.BestScoreShape | backend/app/services/provider_consensus.py:557-569 | among dict items with a string label containing ai, synthetic or deepfake and a numeric score, the result is the highest, nothing when there is none |
| ProviderConsensus.ApiVoteShape | backend/app/services/provider_consensus.py:136-192 | ok exactly for a response below 400 with a probability found, which is then used clipped and verified; otherwise an error at 0.5; a reference only from the response's request id |
| ProviderConsensus.CopyleaksTextOnly | backend/app/services/provider_consensus.py:105-114 | Copyleaks is unsupported for anything but text and never looks at the response |
| ProviderConsensus.MissingKeyUnavailable | backend/app/services/provider_consensus.py:194-302 | without API keys Reality Defender and Hive are unavailable and ignore the response |
| ProviderConsensus.CopyleaksVote | backend/app/services/provider_consensus.py:101-192 | Copyleaks votes ok exactly on text, with its key and a non-empty text, when the response is below 400 and holds a probability, which it clips; it is unsupported off text or without text, unavailable without its key, and stands at 0.5 whenever it is not ok |
| ProviderConsensus.RealityDefenderVote | backend/app/services/provider_consensus.py:194-300 | Reality Defender is unavailable exactly without its key, unsupported exactly when the text or bytes the content type calls for are missing, and ok exactly when moreover the response is below 400 and holds a probability, which it clips; otherwise it stands at 0.5 |
| ProviderConsensus.HiveVote | backend/app/services/provider_consensus.py:302-408 | Hive is unavailable exactly without its key, unsupported exactly when the text or bytes the content type calls for are missing, and ok exactly when moreover the response is below 400 and holds a probability, which it clips; otherwise it stands at 0.5 |
| ProviderConsensus.C2paVote | backend/app/services/provider_consensus.py:410-472 | disabled is unavailable and non-media unsupported; ok exactly for a verified (0.15) or unverified (0.52 with a manifest, 0.58 without) verdict; every other vote stands at 0.5 |
| ProviderConsensus.CollectExternalVotes | backend/app/services/provider_consensus.py:80-99 | the votes of Copyleaks, Reality Defender, Hive and C2PA in that order |
| ProviderConsensus.WeightedBounds | backend/app/services/provider_consensus.py:59-60 | with probabilities in [lo, hi] and non-negative weights the weighted total lies between lo and hi times the weight sum |
| ProviderConsensus.WeightSumPositive | backend/app/services/provider_consensus.py:57-63 | active votes have a positive weight sum |
| ProviderConsensus.FinalBetween | backend/app/services/provider_consensus.py:57-68 | the final probability lies in [0, 1], within the active votes' range when any exists, and is the clipped internal probability otherwise |
| ProviderConsensus.Unanimous | backend/app/services/provider_consensus.py:57-65 | active votes that all say p give final probability p |
| ProviderConsensus.InactiveIgnored | backend/app/services/provider_consensus.py:57 | a vote that is not ok or weighs nothing leaves the final probability unchanged |
| ProviderConsensus.Consensus | backend/app/services/provider_consensus.py:28-78 | the reported probability, the threshold and the squared disagreement lie in [0, 1]; the internal vote plus the external ones when consensus is on; AI exactly when the unrounded final probability reaches the threshold |
| ProviderConsensus.ConsensusShape | backend/app/services/provider_consensus.py:28-78 | the internal vote first, the external ones exactly when consensus is on; the clipped threshold; AI exactly when the final probability reaches it; consensus off gives the clipped internal probability; no disagreement with at most one active vote |
| ProviderConsensus.ConsensusBounds | backend/app/services/provider_consensus.py:57-77 | the rounded final probability and the squared disagreement of any votes lie in [0, 1] |
| ProviderConsensus.DisagreementBounds | backend/app/services/provider_consensus.py:589-592 | the squared disagreement lies in [0, 1] and is 0 when all probabilities agree |
| ProviderConsensus.SquaresNonneg | backend/app/services/provider_consensus.py:592 | the sum of squared deviations is never negative |
| ProviderConsensus.SumOfEqual | backend/app/services/provider_consensus.py:592 | n equal values sum to n times the value |
| ProviderConsensus.SquaresOfEqual | backend/app/services/provider_consensus.py:592 | equal values deviate by 0 from their mean |
| ProviderConsensus.AttemptCount | backend/app/services/provider_consensus.py:484 | at least one attempt and at least the setting |
| ProviderConsensus.RetryFromStep | backend/app/services/provider_consensus.py:499-506 | a retryable attempt before the last sleeps backoff times its number and moves on |
| ProviderConsensus.PostWithRetry | backend/app/services/provider_consensus.py:474-509 | the loop computes the result, the posts made and the sleeps of the retry specification |
| ProviderConsensus.RetryShape | backend/app/services/provider_consensus.py:488-509 | at most the allowed posts; every earlier try failed in transport or with a 5xx; the result is the first other answer or the last try's outcome; the k-th sleep is backoff times k |
| C2paVerifier.First | backend/app/services/c2pa_verifier.py:219-230 | the loop over the paths computes the first path that resolves to a non-null value |
| C2paVerifier.FirstOfShape | backend/app/services/c2pa_verifier.py:219-230 | nothing exactly when no path resolves through dicts to a non-null value; otherwise the value of the first path that does |
| C2paVerifier.SignatureDecisionShape | backend/app/services/c2pa_verifier.py:170-195 | a boolean flag decides alone; otherwise the signature is valid only with a status of valid, verified, ok or success; with neither it is invalid |
| C2paVerifier.AssertionLabels | backend/app/services/c2pa_verifier.py:209-217 | at most one label per assertion item |
| C2paVerifier.ExtractAssertions | backend/app/services/c2pa_verifier.py:197-217 | the method computes the assertions of the first assertion list found, none when it is not a list |
| C2paVerifier.CollectLabels | backend/app/services/c2pa_verifier.py:209-217 | the loop collects the labels of the items |
| C2paVerifier.AssertionLabelsShape | backend/app/services/c2pa_verifier.py:209-217 | every string item is kept; every label comes from some item; items that are neither strings nor dicts give no labels |
| C2paVerifier.ParsePayloadShape | backend/app/services/c2pa_verifier.py:118-168 | verified exactly with a manifest and a valid signature, unverified otherwise; issuer and manifest id are never blank |
| C2paVerifier.ParseJsonOutput | backend/app/services/c2pa_verifier.py:101-116 | any output parsed is a dict |
| C2paVerifier.ParseJsonOutputShape | backend/app/services/c2pa_verifier.py:101-116 | blank output gives nothing; the whole text's decoding when it decodes, kept only when a dict; otherwise the decoding of the span from the first '{' to the last '}' |
| C2paVerifier.RunC2paTool | backend/app/services/c2pa_verifier.py:64-99 | the loop over the three command lines computes the tool specification |
| C2paVerifier.ToolFromFound | backend/app/services/c2pa_verifier.py:73-97 | a payload found is a dict, with no error, from the first command that gave one |
| C2paVerifier.ToolFromNone | backend/app/services/c2pa_verifier.py:73-99 | with no payload every command failed, and the error is the last command's failure |
| C2paVerifier.VerifyBytes | backend/app/services/c2pa_verifier.py:32-62 | the method computes the verification specification |
| C2paVerifier.VerifyShape | backend/app/services/c2pa_verifier.py:32-62 | empty media is unsupported with no manifest and no valid signature whatever the tool; verified only with a manifest and a valid signature |
| RateLimiter.StatusOf | backend/app/middleware/rate_limiter.py:43-59 | a rate or spend-cap rejection answers 429 and a bad API key 401 |
| RateLimiter.BucketName | backend/app/middleware/rate_limiter.py:66-75 | a bucket name never contains ':' |
| RateLimiter.PathBucketRules | backend/app/middleware/rate_limiter.py:66-75 | text exactly for paths ending in /detect/text; media exactly for other /detect/ paths ending in a media suffix; the default bucket only for paths with none of the markers |
| RateLimiter.CostFor | backend/app/middleware/rate_limiter.py:88-97 | media costs the largest of the image, audio and video costs; the default bucket costs 1 |
| RateLimiter.KeyedSuffixLength | backend/app/middleware/rate_limiter.py:32 | a ':'-joined key with a colon-free suffix determines how long that suffix can be |
| RateLimiter.KeyedInjective | backend/app/middleware/rate_limiter.py:32 | two ':'-joined keys with colon-free suffixes are equal only with equal parts |
| RateLimiter.DistinctClientsDistinctHitKeys | backend/app/middleware/rate_limiter.py:32 | different clients or buckets never share a hit window |
| RateLimiter.DistinctClientsDistinctDayKeys | backend/app/middleware/rate_limiter.py:49 | different clients never share a day's spend counter |
| RateLimiter.DropExpired | backend/app/middleware/rate_limiter.py:38-39 | expiry drops only a prefix, of hits at or before the cutoff, and leaves a first hit after it |
| RateLimiter.DropExpiredSuffix | backend/app/middleware/rate_limiter.py:38-39 | what is kept is a suffix of the window |
| RateLimiter.DropExpiredAscending | backend/app/middleware/rate_limiter.py:38-39 | an ascending window stays ascending and only live hits remain |
| RateLimiter.AppendAscending | backend/app/middleware/rate_limiter.py:61 | appending the current time to a window of earlier hits keeps it ascending |
| RateLimiter.RetryAfter | backend/app/middleware/rate_limiter.py:42 | the retry delay is at least 1 second |
| RateLimiter.RetryAfterWithinWindow | backend/app/middleware/rate_limiter.py:42 | with the oldest hit inside the window the delay is at most the window |
| RateLimiter.Admission | backend/app/middleware/rate_limiter.py:41-63 | admitted exactly when the window has room and the day's points plus the cost stay within the cap, returning the cost, the new points and the limit; the spend-cap rejection exactly when only the cap fails; a rate rejection only with a full, non-empty window |
| RateLimiter.InMemoryRateLimiter.Check | backend/app/middleware/rate_limiter.py:26-63 | the decision is the admission on the expired-trimmed window; the window keeps the trimmed hits plus now when admitted; the day's points change only when admitted; the spend cap stays respected |
| RateLimiter.InMemoryRateLimiter.CheckBucket | backend/app/middleware/rate_limiter.py:26-63 | the same for a bucket given directly |
| RateLimiter.RecordedWindow | backend/app/middleware/rate_limiter.py:35-61 | the recorded window stays ascending, no later than now, and live |
| RateLimiter.DropExpiredNotAfter | backend/app/middleware/rate_limiter.py:38-39 | trimming keeps every hit no later than now |
| RateLimiter.AppendLive | backend/app/middleware/rate_limiter.py:61 | appending now to a live ascending window keeps it live and ascending |
| RateLimiter.RecordedKeepsOrder | backend/app/middleware/rate_limiter.py:35-61 | recording a check keeps every window ordered and live |
| RateLimiter.CheckKeepsOrder | backend/app/middleware/rate_limiter.py:26-63 | a check keeps the limiter's windows ordered, creates the window, and an admitted window holds at most the limit |
| RateLimiter.ClientIdentifier | backend/app/middleware/rate_limiter.py:103-109 | the first forwarded hop, trimmed, when not blank; else the client host; else unknown; never empty |
| RateLimiter.ClientIdentifierFirstHop | backend/app/middleware/rate_limiter.py:104-106 | with several forwarded hops the first one identifies the client |
| RateLimiter.ValidateApiKey | backend/app/middleware/rate_limiter.py:112-118 | rejected exactly when keys are required and the key is missing, empty or unknown; otherwise the provided key is returned |
| RateLimiter.ClientKey | backend/app/middleware/rate_limiter.py:124 | a non-empty API key identifies the client, otherwise the client identifier; never empty |
| RateLimiter.RateLimit | backend/app/middleware/rate_limiter.py:121-133 | a bad key is rejected as an invalid API key with the limiter untouched; otherwise the decision is the admission on the trimmed window and the day's points of the client key and the path's bucket, that window records the decision, and the day's points change only when admitted |
| WebhookDispatcher.DeliverOnce | backend/app/services/webhook_dispatcher.py:78-98 | ok exactly for an answer below 400, and then with no error; an answer keeps its status code and a transport failure its message; an answer's error text is cut to 300 |
| WebhookDispatcher.Pow2 | backend/app/services/webhook_dispatcher.py:75 | a power of two is at least 1 |
| WebhookDispatcher.RetryDelaySchedule | backend/app/services/webhook_dispatcher.py:73-76 | the delay is never negative, is the backoff for the first attempt, doubles with each further attempt, and is 0 for a non-positive backoff |
| WebhookDispatcher.LoadQueue | backend/app/services/webhook_dispatcher.py:31-41 | only dict entries of a JSON list are loaded, none of anything else |
| WebhookDispatcher.LoadSaved | backend/app/services/webhook_dispatcher.py:41-46 | a saved queue of dicts loads back unchanged |
| WebhookDispatcher.StoredAttempts | backend/app/services/webhook_dispatcher.py:152 | a missing or falsy attempt count reads as 1, a non-zero integer as itself |
| WebhookDispatcher.FateOf | backend/app/services/webhook_dispatcher.py:113-179 | an entry without a dict payload or a URL is dead-lettered as invalid; one not yet due is kept; a due one is delivered when the post is ok, otherwise dead-lettered once attempts plus 1 reach the maximum, else requeued as a dict |
| WebhookDispatcher.RuleOfRequeuesDicts | backend/app/services/webhook_dispatcher.py:168-179 | every requeued entry is a dict |
| WebhookDispatcher.DrainPartition | backend/app/services/webhook_dispatcher.py:100-187 | without a crash every entry is delivered, dead-lettered or kept pending; delivered entries are among those processed; one dead letter per dead-lettered entry; pending entries are dicts |
| WebhookDispatcher.FateIgnoresResponse | backend/app/services/webhook_dispatcher.py:117-139 | an invalid or not yet due entry never looks at a response |
| WebhookDispatcher.FailedAttemptCount | backend/app/services/webhook_dispatcher.py:152-179 | a failed delivery of an entry with k attempts dead-letters it with k + 1 attempts at the maximum and requeues it with k + 1 below it |
| WebhookDispatcher.UrlResults | backend/app/services/webhook_dispatcher.py:211-247 | one result per URL, in order |
| WebhookDispatcher.FirstFailureEntryShape | backend/app/services/webhook_dispatcher.py:226-238 | a first failure is queued as a dict with 1 attempt |
| WebhookDispatcher.CountDelivered | backend/app/services/webhook_dispatcher.py:213-214 | at most one delivery counted per URL |
| WebhookDispatcher.DispatchPartition | backend/app/services/webhook_dispatcher.py:211-247 | every URL is either delivered or queued |
| WebhookDispatcher.EntryOfFirstAttempts | backend/app/services/webhook_dispatcher.py:226-238 | the entry built for a failed URL records a first attempt |
| WebhookDispatcher.FailureEntriesFirstAttempt | backend/app/services/webhook_dispatcher.py:225-238 | every queued entry of a dispatch records a first attempt |
| WebhookDispatcher.Dispatcher.constructor | backend/app/services/webhook_dispatcher.py:20-29 | the dispatcher starts from the given queue and dead-letter files |
| WebhookDispatcher.Dispatcher.DrainRetryQueue | backend/app/services/webhook_dispatcher.py:100-187 | an empty queue gives zero counts and changes nothing; otherwise the dead letters grow by the drain's letters and the queue file holds the pending entries |
| WebhookDispatcher.Dispatcher.DrainEntries | backend/app/services/webhook_dispatcher.py:113-179 | the loop computes the drain specification and appends its dead letters |
| WebhookDispatcher.Dispatcher.Dispatch | backend/app/services/webhook_dispatcher.py:189-266 | no URLs gives zero counts and changes nothing; otherwise the queue is drained first, every URL is posted once, delivered plus queued is the URL count, and the queue file holds the drain's pending entries followed by the new failures |
| WebhookDispatcher.PostAll | backend/app/services/webhook_dispatcher.py:211-247 | the URL loop computes the results, the failure entries and the counts, which add up to the URL count |
| WebhookDispatcher.PendingAfterDrainLoads | backend/app/services/webhook_dispatcher.py:249-254 | the queue file after a drain loads back as the pending entries |
| WebhookDispatcher.DrainStep | backend/app/services/webhook_dispatcher.py:113-179 | each entry's fate advances the drain by one step |
| WebhookDispatcher.DrainStaysCrashed | backend/app/services/webhook_dispatcher.py:112-181 | after a crash the remaining entries change nothing |
| AnalysisStore.RecordById | backend/app/services/analysis_store.py:170-178 | a record is found exactly when some stored record has the id, and it is one of them |
| AnalysisStore.DumpedResult | backend/app/services/analysis_store.py:134-135 | the dumped result gains the new analysis id and keeps every other field |
| AnalysisStore.HistoryOf | backend/app/services/analysis_store.py:180-196 | the total is the number of records; the page holds min(limit, records after the offset) items, newest first from the offset |
| AnalysisStore.HistoryPagesDisjoint | backend/app/services/analysis_store.py:188-193 | with distinct ids consecutive pages share no record |
| AnalysisStore.ConfidenceOf | backend/app/services/analysis_store.py:208 | a missing confidence counts as 0 |
| AnalysisStore.CountAi | backend/app/services/analysis_store.py:203-205 | at most one AI detection per record |
| AnalysisStore.CountType | backend/app/services/analysis_store.py:215-217 | at most one per record of a type |
| AnalysisStore.TypeCountsCover | backend/app/services/analysis_store.py:215-217 | the four type counts add up to the number of records |
| AnalysisStore.ConfidenceSumBounds | backend/app/services/analysis_store.py:208 | confidences in [0, 1] sum to between 0 and the record count |
| AnalysisStore.MeanConfidenceUnit | backend/app/services/analysis_store.py:206-213 | confidences in [0, 1] have a mean in [0, 1] |
| AnalysisStore.StatsOf | backend/app/services/analysis_store.py:198-225 | the totals count every record, AI plus human make the total and so do the four types, the average is the mean confidence, and no records give all zeros |
| AnalysisStore.DayMonotone | backend/app/services/analysis_store.py:248 | a later moment never falls on an earlier day |
| AnalysisStore.DayShift | backend/app/services/analysis_store.py:257 | k days later is k calendar days on |
| AnalysisStore.WindowDays | backend/app/services/analysis_store.py:230 | the window is the requested days clamped to [1, 90] |
| AnalysisStore.RecentOf | backend/app/services/analysis_store.py:235 | a record is recent exactly when it was created at or after the cutoff |
| AnalysisStore.DayTotal | backend/app/services/analysis_store.py:249-250 | a day counts at most every record |
| AnalysisStore.DayAi | backend/app/services/analysis_store.py:251-252 | a day's AI count is at most its total |
| AnalysisStore.EntryOf | backend/app/services/analysis_store.py:257-266 | a timeline entry carries its day's total and AI count, and AI plus human make the total |
| AnalysisStore.DaysSumSnoc | backend/app/services/analysis_store.py:256-266 | one more record adds 1 to the window's day totals exactly when its day is in the window |
| AnalysisStore.DaysSumCovers | backend/app/services/analysis_store.py:256-266 | when every record's day is in the window the day totals count every record |
| AnalysisStore.DaysSumOfNone | backend/app/services/analysis_store.py:256-266 | no records give empty days |
| AnalysisStore.TimelineAccountsForWindow | backend/app/services/analysis_store.py:231-266 | the timeline's totals add up to the number of records in the window |
| AnalysisStore.TimelineTotalIsDaysSum | backend/app/services/analysis_store.py:256-266 | the first n timeline rows total the records of those n days |
| AnalysisStore.TopModelsShape | backend/app/services/analysis_store.py:279-289 | at most 5 distinct models in descending count order, each with its number of occurrences |
| AnalysisStore.PeakOf | backend/app/services/analysis_store.py:301 | the peak day is one of the timeline's days and none has a larger total |
| AnalysisStore.AlertsOf | backend/app/services/analysis_store.py:291-309 | the high AI rate alert exactly with 10 recent records and a rate of 0.7; the volume spike exactly with 25 recent records and a peak of max(10, 35% of them), naming the peak day; at most 2 alerts |
| AnalysisStore.Sources | backend/app/services/analysis_store.py:247 | one source per record, in order |
| AnalysisStore.SourcesSnoc | backend/app/services/analysis_store.py:245-247 | the sources of one more record gain its source |
| AnalysisStore.OccurrencesSnoc | backend/app/services/analysis_store.py:283-284 | one more key adds 1 to its own count |
| AnalysisStore.TypeStep | backend/app/services/analysis_store.py:246 | each record adds 1 to its own type's count |
| AnalysisStore.SourceStep | backend/app/services/analysis_store.py:247 | each record adds 1 to its own source's tally |
| AnalysisStore.DayStep | backend/app/services/analysis_store.py:248-252 | each record adds 1 to its day's total and, when AI, to its AI count |
| AnalysisStore.TallyWindow | backend/app/services/analysis_store.py:245-252 | the loop computes the type counts, source tallies and day buckets of the recent records |
| AnalysisStore.Lookup | backend/app/services/analysis_store.py:258 | a present key gives its value, a missing one the default |
| AnalysisStore.BuildTimeline | backend/app/services/analysis_store.py:254-266 | the loop builds one entry per window day from the day buckets |
| AnalysisStore.AiRate | backend/app/services/analysis_store.py:277 | the rate lies in [0, 1], 0 with no records and 1 when all are AI |
| AnalysisStore.SummaryOf | backend/app/services/analysis_store.py:313-320 | the summary counts all records and the window's records and AI detections, AI plus human make the window total, the rate lies in [0, 1], and the average is the mean confidence |
| AnalysisStore.Store.constructor | backend/app/services/analysis_store.py:38-40 | the store starts with the given records, oldest first and with distinct ids |
| AnalysisStore.Store.SaveResult | backend/app/services/analysis_store.py:122-168 | a new id adds the record in creation order and drops the oldest beyond the maximum; a clashing id changes nothing |
| AnalysisStore.Store.SaveText | backend/app/services/analysis_store.py:48-63 | a text result is saved with the text's digest and length |
| AnalysisStore.Store.SaveMedia | backend/app/services/analysis_store.py:65-120 | an image, audio or video result is saved with the data's digest, size and filename |
| AnalysisStore.Store.GetDashboard | backend/app/services/analysis_store.py:227-326 | the dashboard describes exactly the window's records: clamped window, one timeline entry per day, summary, type, source and model counts, and the alerts of the summary |
| AnalysisStore.Store.Reset | backend/app/services/analysis_store.py:328-333 | every record is removed |
| AnalysisStore.FiveSavesKeepLastThree | backend/app/services/analysis_store.py:154-166 | with room for three, five saves keep the last three |
| AuditEvents.Capacity | backend/app/services/audit_events.py:37 | the capacity is at least 1000: the given maximum when non-zero, else the configured one |
| AuditEvents.CleanPayload | backend/app/services/audit_events.py:61 | a missing payload is stored as an empty dict, a given one as it is |
| AuditEvents.Matching | backend/app/services/audit_events.py:136-141 | an event is listed exactly when it is stored and matches both optional filters |
| AuditEvents.EventsPage | backend/app/services/audit_events.py:122-159 | the total counts the matching events; the page holds min(limit, matches after the offset) of them, newest first from the offset |
| AuditEvents.NewestFirst | backend/app/services/audit_events.py:147-149 | with events stored in (time, id) order a page lists them newest first |
| AuditEvents.FiltersConjunctive | backend/app/services/audit_events.py:136-141 | filtering by type and severity together is filtering by type, then by severity |
| AuditEvents.PagesTile | backend/app/services/audit_events.py:150-151 | a page of a items followed by the next page of b is the page of a + b |
| AuditEvents.LoggedEventListedFirst | backend/app/services/audit_events.py:46-93 | an event newer than all stored ones is the first item of the first page |
| AuditEvents.InsertKeepsTable | backend/app/services/audit_events.py:64-91 | an insert with the next id, followed by eviction, keeps the table ordered, within capacity and below the next id |
| AuditEvents.PlaceKeepsOrder | backend/app/services/audit_events.py:64-74 | inserting with the next id keeps the table ordered |
| AuditEvents.EvictKeepsOrder | backend/app/services/audit_events.py:79-91 | eviction keeps the order and leaves at most the capacity |
| AuditEvents.AuditEventStore.constructor | backend/app/services/audit_events.py:36-38 | the store starts empty, with ids from 1 and its capacity |
| AuditEvents.AuditEventStore.LogEvent | backend/app/services/audit_events.py:46-93 | disabled logging returns nothing and changes nothing; otherwise the event gets the next id, is inserted, and the oldest events beyond capacity go |
| AuditEvents.AuditEventStore.LogDefault | backend/app/services/audit_events.py:46-55 | logging with the defaults stores severity info, source api and an empty payload |
| AuditEvents.AuditEventStore.SafeLogEvent | backend/app/services/audit_events.py:95-120 | a storage failure leaves the store unchanged and raises nothing; otherwise the event is logged |
| AuditEvents.AuditEventStore.ListEvents | backend/app/services/audit_events.py:122-159 | listing gives the page of the stored events |
| AuditEvents.AuditEventStore.Reset | backend/app/services/audit_events.py:161-166 | every event is removed, so listing counts none |
| JobScheduler.NonSlugRun | backend/app/services/job_scheduler.py:25 | the length of the leading run of characters outside [a-z0-9_], ending at the first slug character |
| JobScheduler.DashSeparatedSlice | backend/app/services/job_scheduler.py:25 | a slice of a dash-separated string is dash-separated |
| JobScheduler.SubRuns | backend/app/services/job_scheduler.py:25 | replacing each run of other characters with one '-' leaves a dash-separated string, empty only for the empty input, starting like it when it starts with a slug character |
| JobScheduler.SubRunsKeepsSlugChars | backend/app/services/job_scheduler.py:25 | the replacement keeps every slug character, in order |
| JobScheduler.FilterDropsRun | backend/app/services/job_scheduler.py:25 | a leading run of other characters holds no slug character |
| JobScheduler.SlugHandle | backend/app/services/job_scheduler.py:23-26 | the slug is a non-empty dash-separated slug with no '-' at either end |
| JobScheduler.SliceOfSubRuns | backend/app/services/job_scheduler.py:25 | stripping '-' from the replaced text leaves nothing or a well-shaped slug |
| JobScheduler.SlugOfBlank | backend/app/services/job_scheduler.py:26 | a blank handle gets the slug target |
| JobScheduler.SlugOfShaped | backend/app/services/job_scheduler.py:23-26 | a well-shaped slug is its own slug |
| JobScheduler.LowerOfShaped | backend/app/services/job_scheduler.py:24 | lower-casing a dash-separated slug changes nothing |
| JobScheduler.SubRunsOfShaped | backend/app/services/job_scheduler.py:25 | the replacement leaves a dash-separated slug unchanged |
| JobScheduler.SlugIdempotent | backend/app/services/job_scheduler.py:23-26 | slugging a slug changes nothing |
| JobScheduler.CleanHandle | backend/app/services/job_scheduler.py:40-42 | a blank handle is dropped; any other is trimmed and starts with '@' |
| JobScheduler.ConfiguredHandles | backend/app/services/job_scheduler.py:37-43 | at most one handle per configured entry, each trimmed and starting with '@' |
| JobScheduler.HandlesCountNonBlank | backend/app/services/job_scheduler.py:37-43 | one handle per non-blank configured entry |
| JobScheduler.HandlesIdempotent | backend/app/services/job_scheduler.py:37-43 | cleaning the handles again changes nothing |
| JobScheduler.Handles | backend/app/services/job_scheduler.py:37-43 | the loop computes the configured handles |
| JobScheduler.AtHandle | backend/app/services/job_scheduler.py:78 | a handle starting with '@' is kept, any other gets '@' in front |
| JobScheduler.IntervalSeconds | backend/app/services/job_scheduler.py:87 | the loop waits the configured minutes in seconds, at least 60 |
| JobScheduler.AttemptCount | backend/app/services/job_scheduler.py:95 | at least one attempt, the setting when it is positive |
| JobScheduler.Backoff | backend/app/services/job_scheduler.py:96 | the backoff is the setting, or 0.1 when that is smaller |
| JobScheduler.Pow2 | backend/app/services/job_scheduler.py:160 | a power of two is at least 1 |
| JobScheduler.BackoffDelays | backend/app/services/job_scheduler.py:159-161 | the i-th sleep is the backoff times 2 to the i |
| JobScheduler.BackoffTotal | backend/app/services/job_scheduler.py:159-161 | n failed attempts sleep backoff times (2^n - 1) in all |
| JobScheduler.FailedExtend | backend/app/services/job_scheduler.py:99-161 | a failure before a run of failures extends the run |
| JobScheduler.OutcomeFrom | backend/app/services/job_scheduler.py:99-174 | the run succeeds exactly at its first successful attempt, after failures only, with that attempt's alerts and directory; it fails only at the last attempt with its error |
| JobScheduler.RunOutcome | backend/app/services/job_scheduler.py:93-174 | the outcome's attempt is within the allowed ones and every earlier attempt failed; success exactly when that attempt collected |
| JobScheduler.RunFailsOnlyWhenAllFail | backend/app/services/job_scheduler.py:157-174 | a run fails exactly when every attempt fails |
| JobScheduler.WebhookEvents | backend/app/services/job_scheduler.py:145-173 | no events without webhooks; a failure sends the failed event; a success sends the success event, followed by the alerts event exactly when there were alerts |
| JobScheduler.RunAttempts | backend/app/services/job_scheduler.py:99-174 | the attempt loop computes the outcome and sleeps once per failed attempt before it |
| JobScheduler.Recorded | backend/app/services/job_scheduler.py:142-171 | the last runs hold exactly the old handles plus each run's lower-cased handle |
| JobScheduler.RecordedLatest | backend/app/services/job_scheduler.py:142-171 | a handle's entry is its latest run |
| JobScheduler.RunsOfSnoc | backend/app/services/job_scheduler.py:82-83 | running the next handle extends the results |
| JobScheduler.Scheduler.constructor | backend/app/services/job_scheduler.py:32-35 | the scheduler starts with no recorded runs |
| JobScheduler.Scheduler.RunForHandle | backend/app/services/job_scheduler.py:93-174 | the run's outcome, its sleeps and its webhook events, recorded under the lower-cased handle |
| JobScheduler.Scheduler.RunAll | backend/app/services/job_scheduler.py:81-84 | one outcome per configured handle, in order, each recorded |
| JobScheduler.Scheduler.TriggerOnce | backend/app/services/job_scheduler.py:76-84 | a given handle gets '@' and runs alone; otherwise every configured handle runs, and the count triggered is the number of results |
| DetectApi.FindCharFirst | backend/app/api/v1/detect.py:46 | the found position is the first '>' from k on, or the end when there is none |
| DetectApi.FindCloseFirst | backend/app/api/v1/detect.py:46 | the found position is the first closing tag of the element's name from k on, or the end |
| DetectApi.ElementAt | backend/app/api/v1/detect.py:46 | a match at i starts with '<' there and lies within the text |
| DetectApi.ElementAtMeaning | backend/app/api/v1/detect.py:46 | an element matches at i exactly when a script or style tag opens there and a '>' after its name is followed by the closing tag of the same name |
| DetectApi.ElementAtEnd | backend/app/api/v1/detect.py:46 | the lazy match ends at the first closing tag of the same name that has a '>' before it: no earlier one does |
| DetectApi.RemoveFromChars | backend/app/api/v1/detect.py:46 | every character left by the first substitution is a replacing space or a character of the input |
| DetectApi.RemoveFromLeavesNone | backend/app/api/v1/detect.py:46 | no script or style element is left after the substitution has run from any index |
| DetectApi.RemoveElementsLeavesNone | backend/app/api/v1/detect.py:46 | the first substitution leaves no script or style element, replacing spaces joining none |
| DetectApi.RemoveTags | backend/app/api/v1/detect.py:47 | no complete tag remains; characters are the input's or spaces; text before any '<' is kept |
| DetectApi.TagFreeCons | backend/app/api/v1/detect.py:47 | a character in front of tag-free text keeps it tag-free unless it opens a tag |
| DetectApi.CollapseAndStripTagFree | backend/app/api/v1/detect.py:48 | collapsing whitespace and stripping keeps text tag-free |
| DetectApi.TagFreeNoElement | backend/app/api/v1/detect.py:46-47 | text without tags holds no script or style element |
| DetectApi.ExtractText | backend/app/api/v1/detect.py:44-48 | the extracted text is single-spaced, holds no tag and no script or style element, and is made of the input's characters and spaces |
| DetectApi.NoMarkupUnchanged | backend/app/api/v1/detect.py:46-47 | text without '<' passes both removals unchanged |
| DetectApi.PlainTextExtract | backend/app/api/v1/detect.py:44-48 | text without markup only has its whitespace collapsed and trimmed |
| DetectApi.ExtractAgainOnlyCollapses | backend/app/api/v1/detect.py:44-48 | extracting already extracted plain text changes nothing |
| DetectApi.FilenameFromPath | backend/app/api/v1/detect.py:51-57 | the name is never empty and holds no '/'; unless it is the default it ends the path without trailing slashes |
| Text.SplitLastIsSuffix | backend/app/api/v1/detect.py:56 | the last part of `str.split` on a separator ends the string |
| DetectApi.FilenameOfFile | backend/app/api/v1/detect.py:51-57 | a directory, '/' and a file name give back the file name |
| DetectApi.SplitTail | backend/app/api/v1/detect.py:56 | the last part of dir/file is file |
| DetectApi.CheckText | backend/app/api/v1/detect.py:96-103 | blank text is rejected as empty, text longer than the maximum as too long, anything else is accepted unchanged |
| DetectApi.AnyEndsWith | backend/app/api/v1/detect.py:237 | true exactly when the name ends with one of the extensions |
| DetectApi.CheckUpload | backend/app/api/v1/detect.py:227-250 | an upload is rejected for type exactly when neither its content type is listed nor its name has an allowed extension, then as empty exactly at size 0, then as too large exactly above the limit; otherwise the name is returned |
| DetectApi.CheckImage | backend/app/api/v1/detect.py:130-150 | an image is rejected for type exactly when its content type is not one of the four image types, accepted exactly when listed and non-empty within the megabyte limit, under its name or "unknown" |
| DetectApi.CheckAudio | backend/app/api/v1/detect.py:174-199 | audio is rejected for type exactly when neither a WAV content type nor a ".wav" name (default "unknown.wav"), accepted exactly when typed and non-empty within the limit |
| DetectApi.CheckVideo | backend/app/api/v1/detect.py:227-250 | video is rejected for type exactly when neither a listed video type nor one of the five extensions (default "unknown.mp4"), accepted exactly when typed and non-empty within the limit |
| DetectApi.ImageNeedsType | backend/app/api/v1/detect.py:130-135 | an image upload without an allowed content type is rejected, whatever its name |
| DetectApi.AudioByName | backend/app/api/v1/detect.py:182-199 | an audio upload named .wav within the size limit is accepted without a content type |
| DetectApi.MediaType | backend/app/api/v1/detect.py:303 | no header gives ""; a header without ';' gives its stripped lower-cased value; the result holds no ';', no upper case and no edge whitespace |
| DetectApi.ClassifyUrl | backend/app/api/v1/detect.py:303-312 | with a content type image/ means image and text/, json or xml text; without one the path's extension decides image, and everything else is text |
| DetectApi.UrlText | backend/app/api/v1/detect.py:346-349 | the text to analyse is single-spaced; an HTML page gives its extracted text; a body without '<' only has its whitespace collapsed |
| DetectApi.UrlPlan | backend/app/api/v1/detect.py:275-379 | a failed fetch and a status of 400 or more are errors; an image within the limit is detected under its URL's filename; text is extracted, never empty, and cut to the maximum; any other content type is unsupported |
| DetectApi.DetectionResponse.constructor | backend/app/api/v1/detect.py:60-67 | a detector's response starts without consensus |
| DetectApi.DetectionResponse.ApplyConsensus | backend/app/api/v1/detect.py:60-80 | the consensus replaces confidence and verdict; a missing model becomes unknown exactly when the verdict is AI, a given one is kept |
| BatchApi.ItemId | backend/app/api/v1/batch.py:43 | a non-empty item id is kept, otherwise the decimal index, which reads back as the index |
| BatchApi.ItemResult | backend/app/api/v1/batch.py:42-106 | every result carries its item's id |
| BatchApi.ItemResultMeaning | backend/app/api/v1/batch.py:44-106 | an item fails as empty exactly when its text is blank, as too long exactly when its trimmed text exceeds the maximum, and succeeds only with the detector's result on the trimmed text |
| BatchApi.GuardsBeforeDetector | backend/app/api/v1/batch.py:46-70 | a blank or too long item fails without the detector being consulted |
| BatchApi.StopAfter | backend/app/api/v1/batch.py:55-96 | the kept results are a prefix, all of them without stop-on-error; with it only the last kept may fail, and a cut ends in a failure |
| BatchApi.StopsAtFirstFailure | backend/app/api/v1/batch.py:55-96 | with stop-on-error processing ends right after the first failure |
| BatchApi.Answers | backend/app/api/v1/batch.py:42-106 | one result per item, in order |
| BatchApi.EveryItemAnswered | backend/app/api/v1/batch.py:29 | without stop-on-error every item is answered, in request order, under its id |
| BatchApi.Results | backend/app/api/v1/batch.py:42-106 | results come in request order, each the result of the item at its position; without stop-on-error every item has one; with it every result but the last succeeds and a batch cut short ends in a failure |
| BatchApi.Successes | backend/app/api/v1/batch.py:99 | at most one success per result |
| BatchApi.Failures | backend/app/api/v1/batch.py:47-87 | successes and failures add up to the results |
| BatchApi.SuccessesSnoc | backend/app/api/v1/batch.py:47-99 | one more result adds 1 to exactly one of the counters |
| BatchApi.StopAfterStep | backend/app/api/v1/batch.py:55-97 | each processed item either ends the batch on a failure or continues with the rest |
| BatchApi.StopAfterEnd | backend/app/api/v1/batch.py:42 | after the last item nothing more is added |
| BatchApi.ProcessItems | backend/app/api/v1/batch.py:38-106 | the loop computes the results and counts them |
| BatchApi.BatchDetectText | backend/app/api/v1/batch.py:25-115 | a batch over the maximum is rejected; otherwise the response holds the results, the item count and the success and failure counts |
| CacheHeaders.AnyPrefix | backend/app/middleware/cache_headers.py:28 | true exactly when the path starts with one of the prefixes |
| CacheHeaders.Policy | backend/app/middleware/cache_headers.py:22-38 | only successful GET responses get a policy: the short one under the analytics prefixes, else the long one under /openapi.json, else no-store under /api/, else none |
| CacheHeaders.SetDefault | backend/app/middleware/cache_headers.py:29-38 | the name is looked up lower-cased, as Starlette's header map does: a header present under any spelling is kept, a missing one is added under the lower-cased name; lower-cased keys stay lower-cased |
| CacheHeaders.KeepsExistingHeader | backend/app/middleware/cache_headers.py:29-38 | an existing cache-control entry of the lower-cased header map is never replaced, and no other header changes |
| CacheHeaders.HeaderMap | backend/app/middleware/cache_headers.py:20 | the response's headers are keyed by lower-cased name, every raw header name has its lower-cased entry |
| CacheHeaders.SetDefaultIgnoresCase | backend/app/middleware/cache_headers.py:29-38 | two spellings of one header name set the same entry |
| CacheHeaders.KeepsHandlerHeader | backend/app/middleware/cache_headers.py:29-38 | a handler header named Cache-Control in any letter case (e.g. "cache-control") keeps its value through the middleware |
| CacheHeaders.PolicyIdempotent | backend/app/middleware/cache_headers.py:18-40 | passing a response through the middleware twice is passing it once |
| CacheHeaders.ApiResponsesCarryPolicy | backend/app/middleware/cache_headers.py:28-38 | every successful GET under /api/ leaves with a Cache-Control header |
| CacheHeaders.AnalyticsPrefixWins | backend/app/middleware/cache_headers.py:28-31 | analytics paths, though under /api/, get the short policy and not no-store |
| CacheHeaders.Response.constructor | backend/app/middleware/cache_headers.py:20 | a response keeps its status, and its raw headers are stored under lower-cased names |
| CacheHeaders.Response.ApplyCacheControl | backend/app/middleware/cache_headers.py:18-40 | the response's headers become those the policy rule gives, looked up case-insensitively, and stay keyed by lower-cased names |
| Verdicts.Label | backend/app/schemas/common.py:18 | every verdict's label is one of the five allowed, in scale order |
| Verdicts.ComputeVerdict | backend/app/schemas/common.py:24-34 | human below 20, likely human below 40, uncertain below 60, likely AI below 80, AI generated from 80 |
| Verdicts.VerdictBand | backend/app/schemas/common.py:24-34 | the confidence lies in its verdict's 20-wide band |
| Verdicts.VerdictMonotone | backend/app/schemas/common.py:24-34 | a higher confidence never gives a more human verdict |
| Verdicts.OutOfRange | backend/app/schemas/common.py:24-34 | below 0 is human and above 100 AI generated |
| Verdicts.VerdictTotal | backend/app/schemas/common.py:18-34 | every confidence has an allowed label |
| DetectionModels.Explain | backend/app/detection/image/detector.py:351-353 | the explanation starts with its head and ends with the reasons joined by ", " after "Key indicators: ", or with the fallback when there are none |
| ImageDetector.Compression | backend/app/detection/image/detector.py:260-271 | heavily compressed below 50 KiB, moderately below 200 KiB, minimal above 5000 KiB, normal in between |
| ImageDetector.MetadataScore | backend/app/detection/image/detector.py:289-297 | the flag score lies in [0, 1.6] and is 0 exactly when none of the four scored flags is raised |
| ImageDetector.Clamped | backend/app/detection/image/detector.py:301-304 | the combined score is clamped into [0.1, 0.95] |
| ImageDetector.MakePrediction | backend/app/detection/image/detector.py:273-318 | AI exactly when the clamped score exceeds 0.5; the rounded confidence lies in [0.1, 0.95]; a model exactly when AI: Stable Diffusion for artifacts above 0.6, else Midjourney for frequency above 0.6, else DALL-E |
| ImageDetector.RoundAtThreeBetween | backend/app/detection/image/detector.py:318 | rounding to 3 places keeps [0.1, 0.95] |
| ImageDetector.MetadataAloneIsNotEnough | backend/app/detection/image/detector.py:283-306 | with no frequency or artifact signal no metadata flags make an image AI |
| ImageDetector.PredictionMonotone | backend/app/detection/image/detector.py:283-306 | stronger frequency and artifact signals never lower the confidence nor undo an AI verdict |
| ImageDetector.Reasons | backend/app/detection/image/detector.py:332-349 | no reasons exactly for an AI verdict with no signal above its threshold and neither metadata flag |
| ImageDetector.AuthenticAlwaysExplained | backend/app/detection/image/detector.py:343-349 | an authentic verdict always gives at least one reason |
| ImageDetector.ConfidenceLevel | backend/app/detection/image/detector.py:330 | high above 0.75, low at 0.5 or below, moderate in between |
| ImageDetector.Explanation | backend/app/detection/image/detector.py:320-353 | the explanation opens with the verdict and confidence level, opens with "likely AI-generated" exactly for an AI verdict, and ends with the joined reasons or "mixed signals" |
| ImageDetector.HeadSaysVerdict | backend/app/detection/image/detector.py:329-353 | an explanation's opening tells an AI verdict from an authentic one |
| ImageDetector.Combine | backend/app/detection/image/detector.py:65-80 | AI exactly when the clamped score exceeds 0.5, the confidence is that score rounded to 3 places, a model exactly when AI; the compression note is the size's band; the explanation opens with the same verdict and its confidence level |
| VideoDetector.Sample | backend/app/detection/video/detector.py:73-78 | data within the limit is kept; longer data keeps its first and last half-limit bytes; a limit below 2 keeps everything |
| VideoDetector.SampleIdempotent | backend/app/detection/video/detector.py:73-78 | sampling a sample changes nothing |
| VideoDetector.Chunks | backend/app/detection/video/detector.py:105-106 | one chunk per full 32 bytes |
| VideoDetector.RepeatedCount | backend/app/detection/video/detector.py:109-110 | at most every chunk is counted as repeated |
| VideoDetector.RepeatedChunkRatio | backend/app/detection/video/detector.py:101-112 | the ratio lies in [0, 1] and is 0 below two chunks |
| VideoDetector.DistinctChunksScoreZero | backend/app/detection/video/detector.py:109-112 | distinct chunks give ratio 0 |
| VideoDetector.UniformChunksScoreOne | backend/app/detection/video/detector.py:109-112 | identical chunks give ratio 1 |
| VideoDetector.LowerBytes | backend/app/detection/video/detector.py:118 | lower-casing keeps the length |
| VideoDetector.Raised | backend/app/detection/video/detector.py:116-135 | each flag is raised exactly when its condition holds, in order, at most once |
| VideoDetector.SignatureFlags | backend/app/detection/video/detector.py:114-137 | unknown container exactly without an MP4 or WebM header or a known extension; encoder and AI tags exactly when a keyword occurs in the lower-cased first 4096 bytes; small file exactly below 20 KiB |
| VideoDetector.FlagNames | backend/app/detection/video/detector.py:124-135 | one name per flag, in order |
| VideoDetector.Unit | backend/app/detection/video/detector.py:146-148 | each signal is clipped into [0, 1] |
| VideoDetector.Clamped | backend/app/detection/video/detector.py:151-157 | the combined score is clamped into [0.05, 0.95] |
| VideoDetector.MakePrediction | backend/app/detection/video/detector.py:139-161 | AI exactly when the clamped score exceeds 0.5, then attributed to the unknown model; the rounded confidence lies in [0.05, 0.95] |
| VideoDetector.RoundBetween | backend/app/detection/video/detector.py:161 | rounding to 3 places keeps [0.05, 0.95] |
| VideoDetector.FlagsAloneAreNotEnough | backend/app/detection/video/detector.py:146-159 | without byte signals no flags make a video AI |
| VideoDetector.StrongestSignals | backend/app/detection/video/detector.py:146-161 | the strongest signals with four flags give AI at 0.95 |
| VideoDetector.Reasons | backend/app/detection/video/detector.py:174-182 | no specific reason exactly when entropy is at most 7.5, the repeat ratio at most 0.08 and no AI keyword flag is raised |
| VideoDetector.ConfidenceLabel | backend/app/detection/video/detector.py:172 | high above 0.75, low at 0.5 or below, moderate in between |
| VideoDetector.Explanation | backend/app/detection/video/detector.py:163-189 | the explanation opens with the verdict and confidence label, opens with "likely AI-generated" exactly for an AI verdict, and ends with the joined reasons or the mixed-signals fallback |
| VideoDetector.HeadSaysVerdict | backend/app/detection/video/detector.py:171-186 | an explanation's opening tells an AI verdict from a human-captured one |
| VideoDetector.Detect | backend/app/detection/video/detector.py:26-71 | empty data is rejected; otherwise the sample's repeat ratio, the flags of the whole data and the prediction from the sample's scores, with a model exactly when AI |
| BenchmarkMetrics.ToBool | benchmark/eval/run_public_benchmark.py:71-73 | a flag is false exactly when, trimmed and lower-cased, it is one of "0", "false", "no", "off" |
| BenchmarkMetrics.ToBoolIgnoresCase | benchmark/eval/run_public_benchmark.py:72-73 | case never changes a flag |
| BenchmarkMetrics.ToBoolIgnoresBlanks | benchmark/eval/run_public_benchmark.py:72-73 | surrounding blanks never change a flag |
| BenchmarkMetrics.BlankIsTrue | benchmark/eval/run_public_benchmark.py:72-73 | an empty or blank flag reads as true |
| BenchmarkMetrics.Zip | benchmark/eval/run_public_benchmark.py:473 | non-strict zip: as many pairs as the shorter list, each pairing the same positions |
| BenchmarkMetrics.Predict | benchmark/eval/run_public_benchmark.py:470 | the prediction is 1 exactly when the score reaches the threshold |
| BenchmarkMetrics.Tally | benchmark/eval/run_public_benchmark.py:472-481 | every zipped pair lands in exactly one of the four counts |
| BenchmarkMetrics.TallyCounts | benchmark/eval/run_public_benchmark.py:472-481 | tp + fn counts the positive labels and tp + fp the scores at or above the threshold |
| BenchmarkMetrics.F1Bounds | benchmark/eval/run_public_benchmark.py:485 | the F1 of two rates is a rate, and 1 when both are 1 |
| BenchmarkMetrics.FromCounts | benchmark/eval/run_public_benchmark.py:483-499 | the counts are copied and precision, recall, F1 and accuracy are rates |
| BenchmarkMetrics.Metrics | benchmark/eval/run_public_benchmark.py:469-499 | the counts cover the zipped pairs, samples is the label count, and every rate lies in [0, 1] |
| BenchmarkMetrics.SeparatingTally | benchmark/eval/run_public_benchmark.py:472-481 | binary labels that the threshold separates give no false positive and no false negative |
| BenchmarkMetrics.PerfectScores | benchmark/eval/run_public_benchmark.py:469-499 | a separating threshold gives accuracy 1, and F1 1 when some label is positive |
| BenchmarkMetrics.ComputeBinaryMetrics | benchmark/eval/run_public_benchmark.py:469-499 | the loop computes the specified metrics |
| BenchmarkMetrics.RocAuc | benchmark/eval/run_public_benchmark.py:422-436 | the AUC is a rate, and 0 when there are no positives or no negatives |
| BenchmarkMetrics.AucOfUniformCredit | benchmark/eval/run_public_benchmark.py:428-436 | when every positive-negative pair earns the same credit the AUC is that credit |
| BenchmarkMetrics.AllTiedIsHalf | benchmark/eval/run_public_benchmark.py:428-436 | when every positive ties every negative the AUC is 0.5 |
| BenchmarkMetrics.ComputeRocAuc | benchmark/eval/run_public_benchmark.py:422-436 | the nested loops compute the specified AUC |
| BenchmarkMetrics.BinOf | benchmark/eval/run_public_benchmark.py:445-452 | every score in [0, 1] has a bin below 10 |
| BenchmarkMetrics.ExactlyOneBin | benchmark/eval/run_public_benchmark.py:445-452 | a score in [0, 1] is selected by exactly one bin, the last bin closed at 1 |
| BenchmarkMetrics.NoBinOutside | benchmark/eval/run_public_benchmark.py:445-452 | a score outside [0, 1] is selected by no bin |
| BenchmarkMetrics.Ece | benchmark/eval/run_public_benchmark.py:439-460 | the calibration error is never negative |
| BenchmarkMetrics.CalibrationEce | benchmark/eval/run_public_benchmark.py:439-460 | the loop over the bins computes the specified error |
| BenchmarkMetrics.SquaredErrors | benchmark/eval/run_public_benchmark.py:466 | one squared error per zipped pair |
| BenchmarkMetrics.Brier | benchmark/eval/run_public_benchmark.py:463-466 | the Brier score is never negative and 0 for no labels |
| BenchmarkMetrics.BrierAtMostOne | benchmark/eval/run_public_benchmark.py:463-466 | binary labels and scores in [0, 1] keep the Brier score at most 1 |
| BenchmarkMetrics.BrierOfExactScores | benchmark/eval/run_public_benchmark.py:463-466 | scores equal to their labels give Brier score 0 |
| BenchmarkEval.ScoreRow | benchmark/eval/run_public_benchmark.py:399-417 | a row is ok, scored and predicted at 0.5 exactly when it carries a score; otherwise it is an error with the missing-score message |
| BenchmarkEval.ScoreRowsPrecomputed | benchmark/eval/run_public_benchmark.py:397-419 | one scored row per input row, in order |
| BenchmarkEval.TotalsCount | benchmark/eval/run_public_benchmark.py:506-519 | the per-domain totals count the valid negative rows of that domain, the false positives those at or above the threshold, and a domain is present exactly when its count is positive |
| BenchmarkEval.FalsePositivesWithinTotals | benchmark/eval/run_public_benchmark.py:513-519 | a domain never has more false positives than negatives |
| BenchmarkEval.FalsePositiveRates | benchmark/eval/run_public_benchmark.py:521-524 | one rate per domain with a negative, each in [0, 1] |
| BenchmarkEval.FalsePositiveRatesMeaning | benchmark/eval/run_public_benchmark.py:502-524 | a domain's rate is its rounded false positives over its negatives |
| BenchmarkEval.FalsePositiveByDomain | benchmark/eval/run_public_benchmark.py:502-524 | the loop computes the specified rates |
| BenchmarkEval.F1Of | benchmark/eval/run_public_benchmark.py:599 | the F1 of an evaluation, 0 when it is not available |
| BenchmarkEval.EvaluateDetection | benchmark/eval/run_public_benchmark.py:527-552 | not available exactly when no row is valid; evaluated plus failed is every row; otherwise the metrics, AUC, calibration error, Brier score and domain rates are those of the valid rows, the AUC in [0, 1], the error and score not negative, and F1 in [0, 1] |
| BenchmarkEval.FailedRowsOnlyCount | benchmark/eval/run_public_benchmark.py:528-531 | an extra failed row only raises the failed count |
| BenchmarkEval.PerTransform | benchmark/eval/run_public_benchmark.py:589-599 | one evaluation per transform name, each of the rows with that transform |
| BenchmarkEval.EvaluateTamper | benchmark/eval/run_public_benchmark.py:588-614 | the per-transform evaluations and the rounded robustness of the attacked F1 mean over the clean F1 |
| BenchmarkEval.NoCleanF1NoRobustness | benchmark/eval/run_public_benchmark.py:606 | with no clean F1 the robustness is 0 |
| BenchmarkEval.NoCleanRows | benchmark/eval/run_public_benchmark.py:601 | with no clean rows the clean F1 is 0 |
| BenchmarkEval.TamperBounds | benchmark/eval/run_public_benchmark.py:601-613 | the clean and attacked F1 are rates and the robustness is never negative |
| BenchmarkEval.UndegradedIsFullyRobust | benchmark/eval/run_public_benchmark.py:601-606 | attacks that keep the clean F1 give robustness 1 |
| Leaderboard.AsFloat | benchmark/eval/run_public_benchmark.py:654-656 | the task's number for the key, 0 when it is missing |
| Leaderboard.OverallIsWeightedMean | benchmark/eval/run_public_benchmark.py:672-679 | with every metric a rate the overall score is a rate, and 1 exactly when every metric is 1 |
| Leaderboard.NewEntry | benchmark/eval/run_public_benchmark.py:681-692 | the new entry carries the model, the run's time, the rounded overall score and the experimental mark |
| Leaderboard.NewEntryScoreIsRate | benchmark/eval/run_public_benchmark.py:672-690 | the new entry's overall score is a rate |
| Leaderboard.RankAll | benchmark/eval/run_public_benchmark.py:731-735 | the entries in order, ranked from 1 |
| Leaderboard.Board.constructor | benchmark/eval/run_public_benchmark.py:696-712 | a new board has the run's time and no entries |
| Leaderboard.Board.Upsert | benchmark/eval/run_public_benchmark.py:727-738 | the entries become the others plus the new entry, sorted by overall score highest first and ranked; the board takes the run's time |
| Leaderboard.UpsertedCounts | benchmark/eval/run_public_benchmark.py:727-728 | the upserted model has exactly one entry, every other model keeps its count |
| Leaderboard.UpsertKeepsModelsUnique | benchmark/eval/run_public_benchmark.py:727-728 | a model listed at most once stays listed at most once |
| Leaderboard.UpsertedOrdered | benchmark/eval/run_public_benchmark.py:729-735 | the entries are in descending score order and ranked 1, 2, ... |
| Leaderboard.UpsertedSize | benchmark/eval/run_public_benchmark.py:727-728 | the board holds the other models' entries plus one |
| Calibration.OutcomeAt | backend/scripts/evaluate_detection_calibration.py:55-63 | each scored sample is a true or false positive or negative according to its score against the threshold and its label |
| Calibration.TallyAt | backend/scripts/evaluate_detection_calibration.py:53-63 | every sample lands in exactly one count |
| Calibration.TallyAtCounts | backend/scripts/evaluate_detection_calibration.py:53-63 | tp + fn counts the AI samples and tp + fp those at or above the threshold |
| Calibration.ThresholdMetrics | backend/scripts/evaluate_detection_calibration.py:52-79 | the counts cover the samples, the threshold rounded to 2 places, every rate in [0, 1] |
| Calibration.ComputeThresholdMetrics | backend/scripts/evaluate_detection_calibration.py:52-79 | the loop computes the specified metrics |
| Calibration.SeparatedAt | backend/scripts/evaluate_detection_calibration.py:53-63 | a threshold that separates the labels gives no false positive and no false negative |
| Calibration.Thresholds | backend/scripts/evaluate_detection_calibration.py:162 | fifteen thresholds i / 20 from 0.20 to 0.90 |
| Calibration.ThresholdsIncrease | backend/scripts/evaluate_detection_calibration.py:162 | the thresholds increase |
| Calibration.ThresholdExact | backend/scripts/evaluate_detection_calibration.py:70 | rounding a threshold to 2 places keeps it |
| Calibration.BestIndex | backend/scripts/evaluate_detection_calibration.py:164 | no metrics beat the chosen ones on F1 then accuracy, and the first maximum wins |
| Calibration.Grid | backend/scripts/evaluate_detection_calibration.py:163 | one metrics record per threshold |
| Calibration.KeyCandidates | backend/scripts/evaluate_detection_calibration.py:83-88 | the keys tried for image, audio and video, in order; none for any other type |
| Calibration.FirstPath | backend/scripts/evaluate_detection_calibration.py:88-92 | the first non-blank trimmed value among the keys, none when all are blank |
| Calibration.ResolveSamplePathPriority | backend/scripts/evaluate_detection_calibration.py:82-92 | text samples have no path and the medium's own key wins when it is set |
| Calibration.ResolveSamplePath | backend/scripts/evaluate_detection_calibration.py:82-92 | no path exactly when every key of the medium is blank; a path found is the non-blank stripped value of one of its keys |
| Calibration.FileName | backend/scripts/evaluate_detection_calibration.py:127 | the name the detector sees holds no '/' and ends the path |
| Calibration.ScoreOfMeaning | backend/scripts/evaluate_detection_calibration.py:99-131 | a text sample is skipped exactly when blank and otherwise scored on its stripped text; a media sample without a path, a file or bytes is skipped, and a scored one gave the detector its bytes and its file name |
| Calibration.ScoredOrSkipped | backend/scripts/evaluate_detection_calibration.py:95-132 | every sample is either scored or skipped |
| Calibration.ScoreTexts | backend/scripts/evaluate_detection_calibration.py:99-107 | the text loop scores the non-blank texts, in order |
| Calibration.ScoreMedium | backend/scripts/evaluate_detection_calibration.py:117-131 | one media sample is scored by the detector, or skipped with no path or no bytes or a rejection |
| Calibration.ScoreMedia | backend/scripts/evaluate_detection_calibration.py:116-132 | the media loop scores and skips as specified |
| Calibration.ScoreSamples | backend/scripts/evaluate_detection_calibration.py:95-132 | every sample is scored or skipped according to its type |
| Calibration.Calibrate | backend/scripts/evaluate_detection_calibration.py:152-175 | no samples and no scored samples are the two errors; otherwise the report counts every sample and recommends the best grid threshold |
| Calibration.RecommendedIsBest | backend/scripts/evaluate_detection_calibration.py:162-172 | the recommended threshold is on the grid and no grid threshold beats its metrics |
| Calibration.ComputeGrid | backend/scripts/evaluate_detection_calibration.py:163 | the loop builds the specified grid |
| Calibration.Run | backend/scripts/evaluate_detection_calibration.py:145-175 | the script's run computes the specified calibration |
| OpsReports.ParseRepo | scripts/cost_governance_snapshot.py:73-81 | owner and name are the trimmed text around the first '/', both non-empty; no '/' or an empty part is the invalid-repo error |
| OpsReports.ParseRepoRoundTrip | scripts/cost_governance_snapshot.py:73-81 | a trimmed owner without '/' and a trimmed non-empty name are parsed back from "owner/name" |
| OpsReports.DurationMinutes | scripts/cost_governance_snapshot.py:129-137 | the run's minutes from its start, or else creation, to its update, never negative, 0 when either time is missing |
| OpsReports.DurationSign | scripts/cost_governance_snapshot.py:134-137 | the duration is positive exactly when the update comes after the start |
| OpsReports.Classify | scripts/cost_governance_snapshot.py:159-166 | success, the three failure conclusions, the two cancelled ones, and anything else |
| OpsReports.LevelRank | scripts/cost_governance_snapshot.py:276-278 | warn ranks 1, critical 2, anything else 0 |
| OpsReports.ExitCode | scripts/cost_governance_snapshot.py:473-480 | exit 1 exactly when a failure level is set and some alert ranks at or above it |
| OpsReports.ExitCodeLevels | scripts/cost_governance_snapshot.py:473-480 | level none never fails; warn fails on any alert; critical fails exactly on a critical alert |
| OpsReports.ExitCodeMonotone | scripts/cost_governance_snapshot.py:473-480 | a stricter failure level never fails where a laxer one passes |
| CostGovernance.RowIndex | scripts/cost_governance_snapshot.py:168-176 | the index of the workflow's row, or -1 when it has none |
| CostGovernance.Record | scripts/cost_governance_snapshot.py:168-180 | the workflow's entry gains one run, the run's minutes and, for a failure, one failed run; a new workflow is appended at the end; every other entry and every name stays as it was |
| CostGovernance.RecordFacts | scripts/cost_governance_snapshot.py:168-180 | recording a run keeps one row per workflow with failures within runs and adds one run |
| CostGovernance.Step | scripts/cost_governance_snapshot.py:153-180 | one run adds one to its conclusion class and to no other, adds its minutes to the total, and is recorded under its workflow name |
| CostGovernance.ClassTotalCounts | scripts/cost_governance_snapshot.py:153-166 | each conclusion counter equals the number of runs whose conclusion falls in its class, counted independently of the loop |
| CostGovernance.TotalsFacts | scripts/cost_governance_snapshot.py:153-180 | the success, failed, cancelled and other counts are the numbers of runs of each class; the four counts and the workflow rows both account for every run, and the runtime is never negative |
| CostGovernance.Finish | scripts/cost_governance_snapshot.py:188-191 | a row keeps its counts, its runtime is rounded to 2 places, and its failure rate is a rate |
| CostGovernance.FailureRateOf | scripts/cost_governance_snapshot.py:182-183 | failures over runs, 0 with no runs |
| CostGovernance.SummaryOf | scripts/cost_governance_snapshot.py:140-194 | the total counts every run, the four classes sum to it, the failure rate is a rate, and at most 12 workflows are reported |
| CostGovernance.SumRunsSortBy | scripts/cost_governance_snapshot.py:187 | sorting the rows keeps the number of runs they hold |
| CostGovernance.Reported | scripts/cost_governance_snapshot.py:186-192 | as many rows as workflows, at most 12, each the finished form of one of the workflows |
| CostGovernance.ReportedOrdered | scripts/cost_governance_snapshot.py:187-192 | the reported rows run from the longest total runtime to the shortest |
| CostGovernance.ReportedRates | scripts/cost_governance_snapshot.py:188-190 | each reported row has no more failures than runs and a failure rate in [0, 1] |
| CostGovernance.WorkflowsFacts | scripts/cost_governance_snapshot.py:186-192 | the reported workflows are by runtime, longest first, each with failures within runs and a rate in [0, 1] |
| CostGovernance.NoRunsSummary | scripts/cost_governance_snapshot.py:182-193 | no runs give zero counts, rate 0 and no workflows |
| CostGovernance.RecordRun | scripts/cost_governance_snapshot.py:168-180 | the row update computes the specified rows |
| CostGovernance.StepRun | scripts/cost_governance_snapshot.py:154-180 | one loop step computes the specified totals |
| CostGovernance.TallyRuns | scripts/cost_governance_snapshot.py:153-180 | the loop computes the specified totals |
| CostGovernance.FinishRows | scripts/cost_governance_snapshot.py:188-191 | the loop finishes every row as specified |
| CostGovernance.SummarizeGithub | scripts/cost_governance_snapshot.py:140-194 | the summary is the specified one |
| CostGovernance.FailedStateIgnoresCase | scripts/cost_governance_snapshot.py:262 | a deployment's failure does not depend on the case of its state |
| CostGovernance.CountDeployments | scripts/cost_governance_snapshot.py:255-265 | the failed deployments have a state other than ready or succeeded, the production ones target production |
| CostGovernance.VercelSummaryOf | scripts/cost_governance_snapshot.py:197-273 | no token or project gives the unavailable summary; ok exactly with both and a payload; failures give zero counts; failed and production never exceed the total |
| CostGovernance.FetchVercelSummary | scripts/cost_governance_snapshot.py:197-273 | the fetch computes the specified summary from the response |
| CostGovernance.AlertsShape | scripts/cost_governance_snapshot.py:281-349 | at most three alerts, warn or critical, at most one each for runtime, failure rate and deployments |
| CostGovernance.RuntimeAlertRaised | scripts/cost_governance_snapshot.py:288-310 | a runtime alert is raised exactly when the minutes reach the warning or critical threshold |
| CostGovernance.BuildAlerts | scripts/cost_governance_snapshot.py:281-349 | the alerts are the specified ones |
| CostGovernance.Preflight | scripts/cost_governance_snapshot.py:414-423 | the repository is parsed first, then a missing token is an error |
| CostGovernance.Since | scripts/cost_governance_snapshot.py:419 | the window starts at least a day before now |
| SloReport.Selected | scripts/slo_observability_report.py:123 | only the runs of the named workflow, in order |
| SloReport.SelectedDisjoint | scripts/slo_observability_report.py:123 | two workflow names select no more runs than there are |
| SloReport.SelectedKeeps | scripts/slo_observability_report.py:123 | every run of the workflow is selected |
| SloReport.TallyBounds | scripts/slo_observability_report.py:129-138 | the classes count at most the selected runs and the runtime is never negative |
| SloReport.RateOf | scripts/slo_observability_report.py:139-140 | the rounded share, 0 with no runs, 1 when all count |
| SloReport.SummaryOf | scripts/slo_observability_report.py:122-150 | the summary counts the workflow's runs, the classes within them, rates in [0, 1], zero without runs |
| SloReport.SummariesDisjoint | scripts/slo_observability_report.py:250-251 | the smoke and deploy summaries never count more runs than were fetched |
| SloReport.SummaryRuntime | scripts/slo_observability_report.py:122-150 | the runtime is never negative |
| SloReport.SelectRuns | scripts/slo_observability_report.py:123 | the loop selects the specified runs |
| SloReport.CountSelected | scripts/slo_observability_report.py:129-138 | the loop computes the specified tally |
| SloReport.SummarizeNamedRuns | scripts/slo_observability_report.py:122-150 | the summary is the specified one |
| SloReport.AlertsShape | scripts/slo_observability_report.py:157-195 | at most one alert per source; an alert for a source exactly when it had no runs or missed its objective |
| SloReport.AllSuccessNoAlert | scripts/slo_observability_report.py:157-195 | workflows that ran and always succeeded raise no alert |
| SloReport.BuildAlerts | scripts/slo_observability_report.py:157-195 | the alerts are the specified ones |
| SloReport.Preflight | scripts/slo_observability_report.py:240-244 | a missing token is an error before the repository is parsed |
| SloReport.PreflightsAgree | scripts/slo_observability_report.py:240-244 | the two reports accept the same arguments and differ only in which error a bad repository without a token gets |
| DatasetHealth.DefaultTargets | benchmark/eval/dataset_health.py:49-56 | with no targets given, five distinct tasks with their default minimums |
| DatasetHealth.ParseTarget | benchmark/eval/dataset_health.py:60-66 | a target without '=' is the format error; a parsed task is non-empty and trimmed |
| DatasetHealth.ParseTargetRoundTrip | benchmark/eval/dataset_health.py:60-66 | "task=count" for a trimmed task without '=' parses back to the task and the count |
| DatasetHealth.Put | benchmark/eval/dataset_health.py:66 | a task already present has its count replaced in place, a new task is appended |
| DatasetHealth.PutFacts | benchmark/eval/dataset_health.py:66 | keys stay distinct, the task maps to the new count and no other task changes |
| DatasetHealth.FoldOutcome | benchmark/eval/dataset_health.py:58-67 | the targets parse exactly when every value does, and otherwise the error is that of the first value that fails |
| DatasetHealth.FoldDistinct | benchmark/eval/dataset_health.py:58-67 | the parsed targets hold each task once |
| DatasetHealth.FoldHasTask | benchmark/eval/dataset_health.py:58-67 | a task has a target exactly when some value names it |
| DatasetHealth.FoldLastWins | benchmark/eval/dataset_health.py:58-67 | a task named several times keeps its last count |
| DatasetHealth.ParseTaskTargets | benchmark/eval/dataset_health.py:48-67 | the loop computes the specified targets or the first error |
| DatasetHealth.FoldStops | benchmark/eval/dataset_health.py:59-65 | nothing after the first bad value is looked at |
| DatasetHealth.MissingOf | benchmark/eval/dataset_health.py:73 | the required fields a row lacks, in order |
| DatasetHealth.IncompleteMeaning | benchmark/eval/dataset_health.py:73-74 | a row raises an issue exactly when some required field is missing |
| DatasetHealth.IssuesCount | benchmark/eval/dataset_health.py:70-79 | one issue per incomplete row |
| DatasetHealth.IssuesMeaning | benchmark/eval/dataset_health.py:70-79 | every issue is that of an incomplete row at its 1-based position, and each such row has one |
| DatasetHealth.ValidateRows | benchmark/eval/dataset_health.py:70-79 | the loop computes the specified issues |
| DatasetHealth.CounterCounts | benchmark/eval/dataset_health.py:148-151 | a counter holds, for each value, the rows having it |
| DatasetHealth.NoIssuesIffComplete | benchmark/eval/dataset_health.py:144-147 | there are no validation issues exactly when every row of every dataset is complete |
| DatasetHealth.Accumulate | benchmark/eval/dataset_health.py:143-151 | the loop counts every row, gathers every issue and counts the rows per task |
| DatasetHealth.CountRows | benchmark/eval/dataset_health.py:148-151 | the inner loop adds a dataset's rows to the task counter |
| DatasetHealth.TaskRows | benchmark/eval/dataset_health.py:175-186 | one row per target, in order |
| DatasetHealth.TotalAlerts | benchmark/eval/dataset_health.py:153-173 | no total alert exactly when the total reaches both the warning and the target total |
| DatasetHealth.RaiseTotalAlerts | benchmark/eval/dataset_health.py:153-173 | the alerts are the specified ones |
| DatasetHealth.TaskAlertsCount | benchmark/eval/dataset_health.py:187-193 | one alert per task below its target |
| DatasetHealth.TaskRowsShape | benchmark/eval/dataset_health.py:175-186 | one row per target, sorted by task, each with the task's count, its target and whether it meets it |
| DatasetHealth.ProgressPct | benchmark/eval/dataset_health.py:206-208 | no target total gives 0 per cent |
| DatasetHealth.ProgressReached | benchmark/eval/dataset_health.py:206-208 | reaching the target total is at least 100 per cent, below it between 0 and 100 |
| DatasetHealth.ExitCode | benchmark/eval/dataset_health.py:230-235 | exit 1 exactly when enforcing and there are alerts or issues |
| DatasetHealth.ExitCodeIffUnhealthy | benchmark/eval/dataset_health.py:219-235 | enforcing fails exactly when the report is not healthy |
| DatasetHealth.HealthyMeaning | benchmark/eval/dataset_health.py:153-219 | healthy exactly when the total reaches both totals, every task meets its target and every row is complete |
| DatasetHealth.BuildTaskRows | benchmark/eval/dataset_health.py:175-193 | the loop builds the specified rows and alerts |
| DatasetHealth.BuildReport | benchmark/eval/dataset_health.py:135-220 | the report is the specified one |
| DatasetHealth.Run | benchmark/eval/dataset_health.py:130-235 | a bad target is an error; otherwise the specified report and exit code |
| RegressionGate.ToFloat | benchmark/eval/check_benchmark_regression.py:44 | numbers convert, strings are parsed, anything else fails |
| RegressionGate.ValueAtPath | benchmark/eval/check_benchmark_regression.py:38-44 | the loop finds the specified value |
| RegressionGate.ValueOfMissingKey | benchmark/eval/check_benchmark_regression.py:40-42 | the KeyError is raised exactly when some step of the path is not a key of the dict reached |
| RegressionGate.ValueOfNest | benchmark/eval/check_benchmark_regression.py:38-44 | a value stored under its dotted path is found there |
| RegressionGate.SplitJoinedDots | benchmark/eval/check_benchmark_regression.py:40 | splitting keys joined by '.' gives the keys back |
| RegressionGate.CheckOf | benchmark/eval/check_benchmark_regression.py:88-106 | the check copies the metric, the least allowed value is the baseline less the drop, and it passes exactly when the current value reaches it |
| RegressionGate.ChecksOk | benchmark/eval/check_benchmark_regression.py:87-106 | every check is made exactly when every path is found, one per metric in order |
| RegressionGate.ChecksErr | benchmark/eval/check_benchmark_regression.py:91 | a failed lookup stops the gate with the error of the first path not found |
| RegressionGate.ReportOf | benchmark/eval/check_benchmark_regression.py:108-116 | the report counts the checks and the failing ones, and passes exactly with no failure |
| RegressionGate.ReportPassed | benchmark/eval/check_benchmark_regression.py:114 | the report passes exactly when every check passes |
| RegressionGate.ExitCodeOf | benchmark/eval/check_benchmark_regression.py:125-129 | exit 0 exactly when no check failed |
| RegressionGate.ExitCodeMeaning | benchmark/eval/check_benchmark_regression.py:85-129 | the gate exits 1 exactly when some metric fell below its least allowed value |
| RegressionGate.NoDropPasses | benchmark/eval/check_benchmark_regression.py:85-129 | metrics at or above their baselines with non-negative drops pass |
| RegressionGate.CheckMetric | benchmark/eval/check_benchmark_regression.py:88-106 | one check, or the lookup's error |
| RegressionGate.RunGate | benchmark/eval/check_benchmark_regression.py:75-129 | the loop computes the specified report and exit code, or the first lookup error |
| EvaluationStore.WindowDays | backend/app/services/evaluation_store.py:23 | the window is the requested days clamped into [1, 365] |
| EvaluationStore.ReplaceZ | backend/app/services/evaluation_store.py:37 | every 'Z' is replaced, and text without one is unchanged |
| EvaluationStore.RowOf | backend/app/services/evaluation_store.py:28-59 | a report becomes a row exactly when it parses, has a string time that parses and is not before the cutoff |
| EvaluationStore.CollectedShape | backend/app/services/evaluation_store.py:27-59 | one row per admitted report, none before the cutoff |
| EvaluationStore.RowsSorted | backend/app/services/evaluation_store.py:61 | the rows sorted by time are a permutation of the collected ones |
| EvaluationStore.TypeCountsFacts | backend/app/services/evaluation_store.py:63-67 | a content type is counted exactly when some row has it, with its number of rows |
| EvaluationStore.LatestFacts | backend/app/services/evaluation_store.py:63-76 | the latest row of a type is its last row |
| EvaluationStore.CountsSumToTotal | backend/app/services/evaluation_store.py:63-67 | the per-type counts add up to the number of rows |
| EvaluationStore.LatestIsNewest | backend/app/services/evaluation_store.py:61-76 | on time-sorted rows no row of a type is later than its latest |
| EvaluationStore.AlertFor | backend/app/services/evaluation_store.py:83-95 | a type gets one alert exactly when its last F1 is more than 0.1 below the one before |
| EvaluationStore.AlertedIff | backend/app/services/evaluation_store.py:78-95 | a type is alerted exactly when its F1 fell |
| EvaluationStore.AlertValues | backend/app/services/evaluation_store.py:86-95 | every alert carries its type's last two F1 values |
| EvaluationStore.SummaryOf | backend/app/services/evaluation_store.py:112-119 | the window is clamped and the total is the trend's length |
| EvaluationStore.SummaryTrend | backend/app/services/evaluation_store.py:97-114 | the trend holds every admitted report, in time order, none before the cutoff |
| EvaluationStore.SummaryCounts | backend/app/services/evaluation_store.py:63-76 | the counts add up to the rows and cover the same types as the latest rows |
| EvaluationStore.SummaryLatest | backend/app/services/evaluation_store.py:63-117 | every trend entry has a latest of its type no earlier than it |
| EvaluationStore.CollectRows | backend/app/services/evaluation_store.py:27-59 | the loop collects the specified rows |
| EvaluationStore.TallyTypes | backend/app/services/evaluation_store.py:63-76 | the loop computes the specified counts and latest rows |
| EvaluationStore.GroupSeries | backend/app/services/evaluation_store.py:78-81 | the loop groups the rows by type in order |
| EvaluationStore.RaiseAlerts | backend/app/services/evaluation_store.py:83-95 | the loop raises the specified alerts |
| EvaluationStore.GetSummary | backend/app/services/evaluation_store.py:22-119 | the method computes the specified summary |
| RunCompare.RiskRank | backend/scripts/compare_talent_visa_runs.py:12 | low, medium, high and critical rank 1 to 4 and any other label 0 |
| RunCompare.ConfidenceRank | backend/scripts/compare_talent_visa_runs.py:13 | low, medium and high rank 1 to 3 and any other label 0 |
| RunCompare.ChangeOf | backend/scripts/compare_talent_visa_runs.py:23-30 | the delta is candidate minus base and the direction is its sign |
| RunCompare.RiskDelta | backend/scripts/compare_talent_visa_runs.py:20-30 | the rank difference of the risk labels and its sign |
| RunCompare.ConfidenceDelta | backend/scripts/compare_talent_visa_runs.py:33-43 | the rank difference of the confidence labels and its sign |
| RunCompare.ChangeLaws | backend/scripts/compare_talent_visa_runs.py:23-30 | swapping the scores negates the delta and flips the direction; equal scores give the same |
| RunCompare.RiskDeltaLaws | backend/scripts/compare_talent_visa_runs.py:20-30 | the risk comparison is antisymmetric and same on equal labels |
| RunCompare.ConfidenceDeltaLaws | backend/scripts/compare_talent_visa_runs.py:33-43 | the confidence comparison is antisymmetric and same on equal labels |
| RunCompare.RiskDeltaChains | backend/scripts/compare_talent_visa_runs.py:20-30 | risk deltas add up along a chain of runs |
| RunCompare.RiskDeltaOfLevels | backend/scripts/compare_talent_visa_runs.py:20-30 | on the generator's risk labels the delta is the difference of the levels' ranks, zero only for equal levels |
| RunCompare.ConfidenceDeltaOfLevels | backend/scripts/compare_talent_visa_runs.py:33-43 | on the generator's confidence labels the direction is up exactly when the confidence rose |
| RunCompare.DeltaOf | backend/scripts/compare_talent_visa_runs.py:150-160 | adding each delta to the base's count gives the candidate's, and the label changes are the two comparisons |
| RunCompare.DeltaAntisymmetric | backend/scripts/compare_talent_visa_runs.py:150-160 | comparing the other way negates every delta and flips both directions |
| RunCompare.DeltaSelf | backend/scripts/compare_talent_visa_runs.py:150-160 | a run compared with itself shows no change |
| PipelineRun.SanitizeRunId | backend/scripts/run_talent_visa_pipeline.py:33 | only run-id characters, in order, at most 48, and the whole filtered id when it fits |
| PipelineRun.SanitizeKeepsClean | backend/scripts/run_talent_visa_pipeline.py:33 | a clean short id comes through unchanged |
| PipelineRun.SanitizeIdempotent | backend/scripts/run_talent_visa_pipeline.py:33 | sanitizing twice is sanitizing once |
| PipelineRun.SanitizeEmpty | backend/scripts/run_talent_visa_pipeline.py:33 | the sanitized id is empty exactly when the override has no run-id character |
| PipelineRun.ResolveRunId | backend/scripts/run_talent_visa_pipeline.py:31-35 | the sanitized override, or "run_" and the first 12 digest characters without one |
| PipelineRun.ResolvedIdChars | backend/scripts/run_talent_visa_pipeline.py:31-35 | with a hexadecimal digest the id is always of run-id characters and at most 48 long |
| PipelineRun.ValidateReportContract | backend/scripts/run_talent_visa_pipeline.py:38-51 | the contract holds exactly when every required key is present; otherwise the error names exactly the missing keys |
| PipelineRun.ContractMonotone | backend/scripts/run_talent_visa_pipeline.py:38-51 | extra keys never break the contract and dropping a required key always does |
| PipelineRun.GeneratedReportMeetsContract | backend/scripts/run_talent_visa_pipeline.py:38-51 | every report the generator builds meets the contract |
| WeeklyCycle.RunPrefix | backend/scripts/run_weekly_talent_visa_cycle.py:47-49 | the prefix's run-id characters stripped of '_' at both ends, or "weekly" when none are left |
| WeeklyCycle.BuildRunId | backend/scripts/run_weekly_talent_visa_cycle.py:43-50 | the trimmed run id when it is not blank, else the prefix, '_' and the time stamp |
| WeeklyCycle.GeneratedIdShape | backend/scripts/run_weekly_talent_visa_cycle.py:46-50 | a generated id is of run-id characters and starts with the prefix and '_' |
| WeeklyCycle.GivenIdKept | backend/scripts/run_weekly_talent_visa_cycle.py:44-45 | building again from a built id given explicitly changes nothing |
| WeeklyCycle.CheckedRunNameAsWritten | backend/scripts/run_weekly_talent_visa_cycle.py:97-100 | the script checks for the directory named by the id it built |
| WeeklyCycle.WrittenRunName | backend/scripts/run_talent_visa_pipeline.py:31-33 | the pipeline writes the directory named by the sanitized id |
| WeeklyCycle.CheckedNameMissesWrittenRun | backend/scripts/run_weekly_talent_visa_cycle.py:97-100 | for run id "a b" the script checks "a b" while the pipeline writes "ab" |
| WeeklyCycle.CurrentRunName | backend/scripts/run_weekly_talent_visa_cycle.py:97 | the corrected name is always a clean id of at most 48 characters |
| WeeklyCycle.CurrentRunNameIsWritten | backend/scripts/run_weekly_talent_visa_cycle.py:97-100 | the corrected name is the directory the pipeline writes for every input |
| WeeklyCycle.CorrectionOnlyWhenDirty | backend/scripts/run_weekly_talent_visa_cycle.py:97 | the correction changes the name exactly when the built id is not clean and short |
| WeeklyCycle.SourceOf | backend/scripts/run_weekly_talent_visa_cycle.py:73-90 | an input file wins; otherwise a blank handle is exit 1 and a handle is trimmed |
| WeeklyCycle.SourceRequired | backend/scripts/run_weekly_talent_visa_cycle.py:73-78 | the cycle goes on exactly with an input file or a non-blank handle, never with an empty handle |
| WeeklyCycle.RunDirs | backend/scripts/run_weekly_talent_visa_cycle.py:35-40 | the run directories sorted by modification time are a permutation of them |
| WeeklyCycle.PreviousRun | backend/scripts/run_weekly_talent_visa_cycle.py:65-66 | there is a previous run exactly when there is a run directory |
| WeeklyCycle.PreviousIsLatest | backend/scripts/run_weekly_talent_visa_cycle.py:65-66 | the previous run is one of the directories and none is newer |
| WeeklyCycle.ShouldCompare | backend/scripts/run_weekly_talent_visa_cycle.py:104-108 | the comparison runs only for an existing previous run other than the current one |
| WeeklyCycle.ComparisonOf | backend/scripts/run_weekly_talent_visa_cycle.py:104-112 | the comparison is made exactly when there is an existing previous run whose name differs from the current run's, and pairs the two |

## Left out

- Floating point: every float is an exact `real`. `round(x, k)` is modelled as round-half-even on exact values (`Common.Round`), so binary representation effects are not captured.
- Text formatting of numbers (`:.2f`, `:.2%`, `:.3f`) in evidence strings, alert messages and explanations is not modelled; alerts carry their cause as a datatype.
- Markdown and JSON writers (every `_build_markdown`, `_write_markdown_summary`, report files) are not modelled: they render results and decide nothing.
- Python regular expressions and Unicode: `_normalize_text`, `URL_RE`, `MENTION_RE` and `NON_WORD_RE` are specified functions over characters, and `urlparse` is replaced by a pre-split host and path. Each character class covers only part of Unicode:
  - `str.strip`, `str.isspace` and `\s` (Text.IsSpace) are Python's full whitespace set;
  - `str.lower` (Text.IsUpper, Text.LowerChar) changes only ASCII and Latin-1 capitals; other scripts keep their case;
  - `str.isalnum` (Text.IsAlnum) is ASCII letters and digits only;
  - `\w` (XIntelPosts.IsWordChar) is ASCII word characters, the Latin-1 letters and digits, and every other character from U+0100 on outside the whitespace, punctuation, symbol and emoji blocks, an approximation of Unicode's letter and digit classes.
- DetectApi.ElementAt: the case-insensitive `(?is)` match of "script" and "style" folds only A–Z. The extra folds of Python's `re` (for example 'ſ' to 's' and 'ı' to 'i') are not modelled, and the closing tag's name is compared case-insensitively in the same A–Z way.
- Network I/O is not modelled. X API responses, provider HTTP answers, webhook deliveries, and GitHub and Vercel responses are inputs, given as sequences or functions.
- Files, subprocesses (c2patool, the pipeline scripts, `git rev-parse`), SHA-256 and HMAC-SHA256 digests, `uuid4` and the clock are parameters. Only c2patool's command fallback order is kept.
- Date parsing (`_parse_datetime`, `_iso_to_dt`, `fromisoformat`) is a given `seconds` function. An unparsable timestamp that would raise in the source is not modelled.
- Concurrency is not modelled:
  - `asyncio.gather` of the three collection streams runs them one after another;
  - the rate limiter's lock is taken as making `check` atomic;
  - the scheduler's `start`, `stop`, `status` and `_run_loop` tasks and the worker loop are left out, and the scheduler's sleeps are returned as delays.
- Persistence: the SQL tables of the analysis and audit stores are in-memory sequences. Rows are ordered by creation time, with ties in insertion order, where SQL leaves the order open. Session handling, migrations and partial storage failures are not modelled.
- Set iteration order in `_build_cluster` is replaced by first-seen order of the post ids, then a stable sort by creation time.
- XIntelGraph.AccountsOf: `central_accounts` iterates the set of graph nodes before its stable sort by degree, so in the source accounts of equal degree come in hash order; the model keeps them in first-seen node order.
- Numeric signal analysis is taken as input because it is floating-point DSP:
  - the image detector's frequency, artifact and metadata analysis (numpy, PIL, EXIF);
  - the video detector's entropy and byte uniformity (`log2`, standard deviation);
  - the audio detector and the text detector's model.
- XIntelScores.Variance: `_std_dev` is compared with its limit through the variance and the squared limit, so the square root itself is not modelled.
- ProviderConsensus.DisagreementBounds: the consensus reports the square of the population standard deviation's scaled value instead of the value, because square roots have no exact real model. Its bounds and the agreement case are the same.
- TrustReport.Rationale: suspected-objective and drill-down entries store the objective. The rationale lines are a function of it and are not stored.
- TrustGenerate.StrategyFor: of the static strategy template only the varying parts are modelled, namely the goal line and the provenance cost line.
- `_why_now` is modelled only through its choice of timeline facts. Its wording is not modelled.
- The claims' representative texts are deduplicated on the full cleaned text, as in the source. Two clipped claims can therefore read the same.
- Velocity alerts consider every claim cluster, while the report shows only the first 10.
- `_normalize_posts` mapping, fetch pagination beyond the page loop, `expanduser`/`resolve` of paths and `_run_summary`'s file reading are not modelled; their results are inputs.
- `_evaluate_attribution` of the public benchmark is not part of this model. Live scoring (`_score_sample_live`, `_score_rows_live`) and the provider availability matrix are not modelled either, because they are HTTP clients.
- BenchmarkMetrics.Ece requires at least as many labels as scores: when there are more scores than labels, the source raises an IndexError.
- BenchmarkMetrics.Brier requires scores whenever there are labels: `mean` over an empty pairing raises a StatisticsError in the source, which is not modelled. Every caller passes lists of equal length.
- BenchmarkEval.ScoreRow: a transform of `None` becomes the key "None", as `str(None)` gives. A JSON boolean score, which Python also treats as a number, is not distinguished from a number.
- Dictionaries whose output order is only cosmetic, such as `per_transform` and the false-positive map, are modelled as maps or as sorted sequences.
- DatasetHealth.Report leaves out the `by_modality` and `top_domains` summaries: they only count rows for display and decide neither an alert nor the status.
- Calibration.FileName takes the last '/'-separated part after trailing slashes; `pathlib`'s dropping of "." components and doubled slashes is not modelled.
- Calibration.ScoreOf carries no contract of its own; what it computes for text, media and skipped samples is stated by Calibration.ScoreOfMeaning.
- The weekly cycle's orchestration in `run` is not modelled beyond the run id, input check, previous-run choice and comparison condition: it only calls subprocesses.
- Schemas (`models/x_intel.py`, `models/detection.py`) are mirrored as datatypes. Field bounds that pydantic enforces appear as preconditions.
- Settings that `core/config.py` does not define, such as rate limits and spend caps, are parameters.

## Findings

| source | as written | input that shows it | evidently intended | confidence | as-written member | corrected member |
|---|---|---|---|---|---|---|
| backend/scripts/run_weekly_talent_visa_cycle.py:97-100 | after the pipeline runs, the cycle looks for the directory named by the run id it built, but the pipeline sanitizes that id (`run_talent_visa_pipeline.py:31-35`): it keeps only letters, digits, '-' and '_' and cuts it to 48 characters | run id "a b": the pipeline writes "ab" and the cycle reports "run directory missing" and exits 1; any id longer than 48 characters fails the same way | look for the directory under the id as the pipeline resolves it | not executed | WeeklyCycle.CheckedRunNameAsWritten | WeeklyCycle.CurrentRunName |
