# A verified model of the Spectrum core

This project models, in Dafny, the algorithmic core of the Spectrum node: forward-secure signing,
Byzantine aggregation over binomial partitions, multicast over a seeded overlay, the certificate
equation, the Cardano chain cache, chain comparison, the authenticated state tree's storage, and the
vault transactions of the Ergo connector. Each part has a model that follows the code branch by
branch, and theorems about all inputs, all runs or all reachable states of that model.

Code that works step by step is modelled by methods and classes with loops, and each such method is
proved equal to a pure function or to a stated property; the theorems are then about that function.
Hashing, curve arithmetic and signatures are parameters: records of functions over abstract types.
Where a law is needed of them it is a named hypothesis (`SoundSigning`, `Laws`, `Injective`).

| file | models |
|---|---|
| `Kes.dfy` | key-evolving signatures: generation, update, signing, verification |
| `Partitioning.dfy` | binomial peer partitions and their orderings |
| `Contributions.dfy` | combining and verifying partial contributions |
| `HandelSpec.dfy`, `HandelNode.dfy` | the aggregation protocol: its steps as functions, and the node itself |
| `HandelSafety.dfy`, `HandelScoring.dfy`, `HandelBans.dfy`, `HandelEffects.dfy`, `HandelDissemination.dfy`, `HandelFairness.dfy` | invariants over runs of a node, scoring, bans and the scoring window, what each step leaves level by level, round robin and fast path, and fairness over runs |
| `HandelHonest.dfy`, `HandelNetwork.dfy`, `HandelSchedule.dfy`, `HandelPair.dfy` | networks of honest nodes: nothing is refused for good, reports are true, and the round ends everywhere or a level is stuck in the end; two hosts for which it ends |
| `HandelJam.dfy`, `HandelDeadlock.dfy` | stuck levels: a jam lasts for ever, and four honest hosts can reach one |
| `Multicast.dfy`, `MulticastFaults.dfy`, `Overlay.dfy` | the multicaster, networks of multicasters, multicasters among peers that send anything, and the overlay they run on |
| `Sigma.dfy` | aggregated Schnorr certificates with exclusion sets |
| `ChainCache.dfy`, `ChainCacheStore.dfy`, `ChainCacheDrain.dfy` | the key-value chain cache, its refinement of a bounded stack, the store itself, and what a drained store does |
| `ChainSync.dfy` | comparing a peer's chain status with the local chain |
| `VersionedStore.dfy`, `AvlStorage.dfy` | the versioned key-value store with its undo records, and saving, loading and rolling back the state tree in it |
| `Scalar.dfy`, `Vault.dfy` | scalar transport and vault transactions on Ergo |

## Main results

- *Signing.* For every height, seed and slot below `2^height`, generating, updating slot times,
  signing and rebuilding the root gives back the generated key; greedy subtraction and bit tests pick
  the same sides exactly when the slot is inside the tree or its low bits are all set. After any number
  of updates the retained seeds are the roots of disjoint subtrees that cover exactly the later leaves.
- *Partitions.* Two hosts given the same peers index all of them alike exactly when the fakes each of them
  drew balance: every real peer has equally many fakes of smaller priority on both sides. They then list
  each other at the same level. Partitions built by the code from unbalanced fakes are shown that do not.
- *Aggregation, one node.* In every run over partitions built by the code, a returned aggregate verifies
  and has at least the threshold weight, and no peer whose contributions verify is banned. For any
  picks, good or bad, the score a level's best reaches and the set of peers an aggregation bans are
  characterised exactly; a banned peer stays banned and nothing of it is kept in any run. Over every run,
  dissemination serves every peer of a level that has a last contacted peer; from the start of a level
  it does so exactly when the first peer had not reported at the first dissemination, or all report in
  the end.
- *Aggregation, the network.* With `2^k` honest hosts, no padding and a window that takes them all, over
  a network that delays, repeats and reorders messages: completion reports are true in every reachable
  state, and in every run in which hosts keep disseminating and what they queue arrives, within a stated
  number of stretches every host ends the round with a verified aggregate, or the last state has a stuck
  level: one that has contacted nobody and whose first peer has reported. Two hosts always have a run of
  the first kind. The second cannot be left out: from the construction of four honest hosts a state is
  reached in which two levels are stuck and from which two hosts never end the round, whatever is
  delivered and however often anyone disseminates.
- *Multicast.* At quiescence each host holds exactly the union of what the hosts that reach it started
  with; in any run the number of sends is bounded. Among peers that send whatever they like, a host holds,
  sends and hands out only what verifies, bans a parent exactly as often as a statement of its fails, and
  nobody else; hosts that follow the protocol never ban one another. The overlay built by the code mirrors
  every edge and lets the root of every pass reach everyone.
- *Certificates.* With all silent members listed, a certificate is accepted exactly when enough members
  responded and the listed commitments' proofs pass. The last stage lists only members that committed; its
  certificate is accepted exactly when, besides, the keys of the others vanish under the challenge.
- *Chain cache.* Over every allowed run the store never panics and represents a bounded stack. After
  the last block is taken the oldest-block record stays behind. For every append to such a store, when
  it panics and when it leaves the appended block in service is stated exactly. Another fork, at every
  depth, either panics at the eviction distance or moves the record to an abandoned block, and which of
  the two is decided by whether the store still remembers a child of the stale block.
- *Chain comparison.* Which verdict every status whatsoever gets, and a complete decision table for all
  pairs of hash-linked chains and all tail lengths. A peer exactly one full status ahead in consecutive slots is reported as a fork.
- *State tree.* Loading ends with exactly the stored tree and no stub. Saving reaches its unreachable arm
  exactly when a written node has a stub child, and writes exactly the new nodes if and only if the
  marks are closed upwards. After a save that also removes old labels the store holds the tree exactly
  when no unwritten node's label is missing; saving and loading is then the identity. A rollback goes
  through exactly when an update after the version left an undo record, and then gives every key the
  earliest value it had from that version on: the version's own state exactly when no later one has a key
  it lacks, and its tree in any case.
- *Ergo.* The scalar encoding succeeds exactly for scalars of at least `2^128` with non-zero low half,
  and is then inverted by the contract's decoding. Vault transactions are fixed input by input and output
  by output; deposits conserve tokens and nano-ergs, withdrawals nano-ergs, and a token exactly when no
  cell pays any of it.

## Model

| member | source | states |
|---|---|---|
| `Kes.LeftBranch` | spectrum-kes/src/composition_utils.rs:19-41 | the loop down the left spine returns the key pair of leaf 0 and the right siblings of its path, which are the seeds retained at leaf 0 |
| `Kes.SumCompositionPkGen` | spectrum-kes/src/composition_utils.rs:43-72 | loop and recursion together compute the recursive Merkle root over seeds |
| `Kes.InsertInVec` | spectrum-kes/src/composition_utils.rs:97-106 | the copied slice is appended in order |
| `Kes.KesGen` | spectrum-kes/src/lib.rs:48-100 | generation yields the secret of leaf 0 (hot keys, retained seeds, path key pairs) and the Merkle root as public key |
| `Bits.IncrementFlips` | spectrum-kes/src/lib.rs:117-120 | the number of ones in `n xor n+1` is one more than the trailing ones of `n`, the height of the subtree entered next |
| `Kes.NextSecret` | spectrum-kes/src/lib.rs:111-185 | before the last leaf the next secret is the current one with its last seed expanded, and the key pair stored above the entered subtree holds that subtree's root |
| `Kes.KesUpdate` | spectrum-kes/src/lib.rs:102-186 | an evolved secret becomes exactly the next one; the update fails exactly at the last leaf |
| `Kes.EnterSubtree` | spectrum-kes/src/lib.rs:134-175 | the generated subtree key equals the stored key pair and the key list keeps its length, so neither assertion of the branch fails |
| `Kes.Advance` | spectrum-kes/src/lib.rs:111-185 | both branches produce the secret with the entered subtree's hot keys, seeds and path keys |
| `Kes.KesSign` | spectrum-kes/src/lib.rs:188-225 | the signature lists, root first, the sibling chosen by greedy subtraction of powers of two |
| `Kes.SchemePkFromSignature` | spectrum-kes/src/composition_utils.rs:74-95 | the rebuilt key is the fold from the leaf upwards along the bits of the slot |
| `Kes.KesVerify` | spectrum-kes/src/lib.rs:227-257 | acceptance is the hot signature's validity and equality of fingerprints of the rebuilt and the given key |
| `Kes.GreedyIsBits` | spectrum-kes/src/lib.rs:188-225 | inside the tree, greedy subtraction and bit tests choose the same side at every level |
| `Kes.SidesAgree` | spectrum-kes/src/composition_utils.rs:74-95 | for every slot at all, the two choices agree exactly when the slot is inside the tree or congruent to the last leaf |
| `Kes.SignThenRebuild` | spectrum-kes/src/lib.rs:48-257 | generate, update to the slot, sign and rebuild: the rebuilt root is the generated public key and, with a sound leaf scheme, verification accepts |
| `Kes.RetainedEmpty` | spectrum-kes/src/lib.rs:111 | no seed is retained exactly at the last leaf |
| `Kes.RetainedTile` | spectrum-kes/src/lib.rs:111-185 | the retained subtrees adjoin one another, start right after the current leaf and end with the tree |
| `Kes.RetainedDerives` | spectrum-kes/src/lib.rs:111-185 | each retained seed derives exactly the leaf seeds of its own subtree |
| `Kes.TilesExact` | spectrum-kes/src/lib.rs:111-185 | retained subtrees are pairwise disjoint and cover exactly the leaves after the current one |
| `Kes.ForwardSecurity` | spectrum-kes/README.md:1-22 | after n updates the kept seeds derive exactly leaves n+1 to the last, none of them twice, and none of the past or present |
| `Partitioning.BinPartition` | spectrum-handel/src/partitioning.rs:211-234 | the bisection loop produces the levels, lowest first; a single node gets an extra empty level |
| `Partitioning.BinomialPartition` | spectrum-handel/src/partitioning.rs:211-234 | level sizes are 0, 1, 2, 4, …; the levels are disjoint, cover every index but the own one, and membership is symmetric |
| `Partitioning.Normalize` | spectrum-handel/src/partitioning.rs:237-247 | the result is the least power of two not below the input |
| `Partitioning.OrderedByVp` | spectrum-handel/src/partitioning.rs:177-188 | each level becomes a permutation of itself, ascending in the host's own priorities, equal ones in their old order |
| `Partitioning.OrderedByCvp` | spectrum-handel/src/partitioning.rs:190-207 | each level becomes a permutation of itself, ascending in the number of indices each peer prefers to the host, and the position looked up always exists |
| `Partitioning.RankCounts` | spectrum-handel/src/partitioning.rs:198-203 | the position looked up is that number |
| `Partitioning.HostRankExists` | spectrum-handel/src/partitioning.rs:190-207 | a host is listed at the level at which it lists a peer, so the position looked up is found |
| `Partitioning.TopLevelInhabited` | spectrum-handel/src/partitioning.rs:127-161 | with fewer fakes than half of the slots the top level holds a real peer |
| `Partitioning.NewPartitions` | spectrum-handel/src/partitioning.rs:127-173 | the peers are the real and the drawn ones sorted by priority; every level holds its real peers and no fake, ordered both ways, and the top level is inhabited |
| `Partitioning.SortPlaces` | spectrum-handel/src/partitioning.rs:142 | where the stable sort puts an element, whatever the keys: after all of smaller key and the earlier ones of equal key |
| `Partitioning.IndexOfPeer` | spectrum-handel/src/partitioning.rs:136-147 | a real peer's index is its place among the real peers plus the fakes of smaller priority |
| `Partitioning.IndicesAgreeIff` | spectrum-handel/src/partitioning.rs:383-395 | two hosts with the same real peers, in the same order or of distinct priorities, index all of them alike if and only if every real peer has equally many fakes of smaller priority on both sides |
| `Partitioning.CoherentAcrossHosts` | spectrum-handel/src/partitioning.rs:397-407 | hosts that index the real peers alike list each other at the same level, whatever the fakes |
| `Partitioning.BuildTwo` | spectrum-handel/src/partitioning.rs:383-407 | what two hosts construct from the same peers and their own fakes: same indices if and only if the drawn fakes balance, and then each lists the other at the same level |
| `Partitioning.PaddingBreaksCoherence` | spectrum-handel/src/partitioning.rs:131-147 | one fake before and one after three peers: one host lists the other at level 2 and is listed by it at level 1 |
| `Partitioning.BuildApart` | spectrum-handel/src/partitioning.rs:127-173 | the construction yields such partitions when the two hosts draw such fakes |
| `Sorting.SortCorrect` | spectrum-handel/src/partitioning.rs:177-207 | sorting by key permutes and orders |
| `Sorting.SortStable` | spectrum-handel/src/partitioning.rs:177-207 | entries of equal keys keep their order |
| `Sorting.SortCanonical` | spectrum-handel/src/partitioning.rs:127-161 | equal multisets sort to the same sequence when keys are distinct |
| `Contributions.Combine` | spectrum-sigma/src/lib.rs:115-132 | the inserting loop yields the union when the two agree on shared keys, and nothing otherwise |
| `Contributions.CombineCommutes` | spectrum-sigma/src/lib.rs:115-132 | combining is commutative, failures included |
| `Contributions.CombineAssociates` | spectrum-sigma/src/lib.rs:115-132 | combining three is the same from either side, for every three, whichever combination fails |
| `Contributions.CombineVerifies` | spectrum-sigma/src/lib.rs:178-190 | a combination verifies exactly when both parts do |
| `Contributions.CombineWeight` | spectrum-sigma/src/lib.rs:134-138 | weight never drops, and stays exactly when nothing new came in |
| `HandelNode.Node.constructor` | spectrum-handel/src/lib.rs:122-153 | the fresh node is in the initial state and satisfies the invariant |
| `HandelNode.Node.HandleContribution` | spectrum-handel/src/lib.rs:295-330 | an unknown peer changes nothing; kept exactly from a peer not banned at a level not completed, in the place of what waited from it; a completion report is taken in either way |
| `HandelNode.PickPrioritized` | spectrum-handel/src/lib.rs:158-179 | the picking loop is the specification's prioritisation |
| `HandelSafety.PrioritizeSources` | spectrum-handel/src/lib.rs:158-179 | everything picked was waiting, and nothing new waits afterwards |
| `HandelSafety.PrioritizeTakesFirst` | spectrum-handel/src/lib.rs:158-179 | the window is filled with the waiting contributions of highest priority, in order |
| `HandelSafety.PrioritizeLeaves` | spectrum-handel/src/lib.rs:158-179 | what still waits afterwards is exactly what was not picked |
| `HandelSafety.CombineAllExact` | spectrum-handel/src/lib.rs:218-225 | folding in keeps the aggregate, takes an individual contribution in exactly when it agrees with what the ones before it made, and adds nothing else |
| `HandelNode.CombineWithIndividuals` | spectrum-handel/src/lib.rs:219-225 | the loop folds in every individual contribution that still combines |
| `HandelNode.ScorePrioritized` | spectrum-handel/src/lib.rs:182-233 | the scoring loop, last pick first, is the specification's scoring, bans and window included |
| `HandelNode.JudgeCandidates` | spectrum-handel/src/lib.rs:235-258 | the verification loop is the specification's judging, lightest candidate first |
| `HandelNode.Node.AggregateLevel` | spectrum-handel/src/lib.rs:157-266 | one aggregation changes level, pending set, bans and window exactly as specified |
| `HandelNode.Node.RunAggregation` | spectrum-handel/src/lib.rs:157-267 | aggregation followed, on completion, by fast path and activation; the invariant is kept and the fast path's assertion holds |
| `HandelNode.Node.TryActivateLevel` | spectrum-handel/src/lib.rs:271-289 | a level starts from the best of the one below; empty levels are completed and skipped |
| `HandelNode.Node.PostFastPath` | spectrum-handel/src/lib.rs:333-387 | the outbox grows by one message per target |
| `HandelNode.Node.RunFastPath` | spectrum-handel/src/lib.rs:333-387 | as above, keeping the invariant |
| `HandelDissemination.FastPathExact` | spectrum-handel/src/lib.rs:339-362 | the targets are, each once and ascending, the peers the window passes over that have not reported the level complete |
| `HandelDissemination.FastPathFollows` | spectrum-handel/src/lib.rs:333-387 | the fast path queues the level's best and the own contribution, in ascending order and once each, for exactly the peers that are less than the window ahead of the last contact and have not reported |
| `HandelDissemination.SendAllReaches` | spectrum-handel/src/lib.rs:363-384 | every target in range gets exactly one envelope, in order |
| `HandelNode.SelectNext` | spectrum-handel/src/lib.rs:414-471 | the search loop returns the specification's next contact |
| `HandelNode.Node.DisseminateLevel` | spectrum-handel/src/lib.rs:391-510 | one level's turn: contact, remembered position, sent score and message |
| `HandelNode.Node.RunDissemination` | spectrum-handel/src/lib.rs:391-510 | every level above the own one gets its turn, keeping the invariant |
| `HandelDissemination.NextContactNearest` | spectrum-handel/src/lib.rs:416-459 | after a last contact the next one is the cyclically nearest peer not reported complete, if any |
| `HandelFairness.StepContacts` | spectrum-handel/src/lib.rs:622-688 | of all events only a dissemination moves a level's contact position, and it moves it to the next contact; a completed level keeps its best |
| `HandelFairness.QueuesIff` | spectrum-handel/src/lib.rs:391-510 | a dissemination queues a message of the level for a peer exactly when that peer is the next contact |
| `HandelFairness.RunContacts` | spectrum-handel/src/lib.rs:391-510 | over every run, a peer is queued a message exactly when round robin over the reports of that run contacts it |
| `HandelFairness.ReportLasts` | spectrum-handel/src/lib.rs:303-309 | a report seen at some dissemination of a run stands at its end |
| `HandelFairness.RoundRobinOverRun` | spectrum-handel/src/lib.rs:391-510 | from any state with a last contact, over any run with as many disseminations as peers, each peer is queued a message or has reported completion |
| `HandelFairness.StuckOverRun` | spectrum-handel/src/lib.rs:460-475 | at a level without a last contact whose first peer has reported, dissemination queues nothing for anyone in any run |
| `HandelFairness.FairFromStartOverRun` | spectrum-handel/src/lib.rs:391-475 | from the start of a level every peer is served exactly when the first one had not reported at the first dissemination of the run, or all have in the end |
| `HandelFairness.CompletedFrozen` | spectrum-handel/src/lib.rs:310-327 | a completed level keeps its best over every run |
| `HandelFairness.OwnNeverChanges` | spectrum-handel/src/lib.rs:555-560 | after any run the own contribution is the one the node started with |
| `HandelEffects.AggregationLeaves` | spectrum-handel/src/lib.rs:157-266 | exactly the picks no longer wait, the individual parts that verify are kept, and the level is completed exactly if it was or its best reaches the threshold |
| `HandelEffects.CompletionExact` | spectrum-handel/src/lib.rs:259-289 | a completing aggregation sends by the fast path and starts the levels above up to the first with peers, from its own best |
| `HandelEffects.ActivationExact` | spectrum-handel/src/lib.rs:271-289 | activation passes over empty levels as completed and starts the first with peers; all other levels stay |
| `HandelEffects.TimersExact` | spectrum-handel/src/lib.rs:643-662 | in one poll both timers do their work: what is queued, which levels become active, and with which best |
| `HandelEffects.ContactRecords` | spectrum-handel/src/lib.rs:476-493 | a contact records the level's score as sent to that peer if it is more than before |
| `HandelEffects.EveryRunTidy` | spectrum-handel/src/lib.rs:622-688 | over every run from the start nothing stays set aside between steps and no recorded score exceeds the level's |
| `HandelSafety.InitialOk` | spectrum-handel/src/lib.rs:122-153 | the initial state satisfies the invariant and distrusts nobody |
| `HandelSafety.CandidateExact` | spectrum-handel/src/lib.rs:201-233 | what a contribution is scored as: with the best if they agree, else with the individual contributions that still go in; its score is its weight |
| `HandelSafety.JudgeAllBest` | spectrum-handel/src/lib.rs:235-258 | the best stays or is replaced by a strictly heavier verifying candidate, at least as heavy as every verifying one; exactly the senders of failing ones are banned |
| `HandelSafety.CandidateVerifies` | spectrum-handel/src/lib.rs:199-233 | a sound contribution becomes a verifying candidate on both scoring paths |
| `HandelSafety.AggregateOk` | spectrum-handel/src/lib.rs:157-266 | aggregation keeps the invariant, bans no honest peer, and lowers no best score |
| `HandelSafety.ActivateOk` | spectrum-handel/src/lib.rs:271-289 | activation keeps the active levels a prefix and every stored best verified |
| `HandelSafety.DisseminateOk` | spectrum-handel/src/lib.rs:391-510 | dissemination keeps contact indices in range and sends only verifying contributions |
| `HandelSafety.StepOk` | spectrum-handel/src/lib.rs:622-688 | every event keeps the invariant, the trust in honest peers and all progress made |
| `HandelSafety.DeliverableIff` | spectrum-handel/src/lib.rs:157-387 | taking a message in neither indexes out of range nor divides by zero exactly when its level exists and, if that level has no peers and is open to the sender, its best misses the threshold |
| `HandelSafety.RunOk` | spectrum-handel/src/lib.rs:622-688 | so does every run: active levels are a prefix, bests verify with score equal to weight and never drop, completion stands, the window stays positive |
| `HandelSafety.PartitionedFits` | spectrum-handel/src/partitioning.rs:127-173 | partitions as constructed meet everything the protocol assumes |
| `HandelSafety.AggregateReachesThreshold` | spectrum-handel/src/lib.rs:526-568 | in any state of the invariant with an inhabited top level, a complete aggregate verifies and reaches the threshold over all slots |
| `HandelSafety.RoundTheorem` | spectrum-handel/src/lib.rs:526-568 | the same after every run over constructed partitions, together with: no honest peer is banned |
| `HandelSafety.HonestNodesNotBanned` | spectrum-handel/src/lib.rs:182-258 | a peer whose messages are all sent by a node running this protocol is never banned |
| `HandelSafety.SoundPicksCount` | spectrum-handel/src/lib.rs:182-258 | if everything picked verifies, the new best is at least as heavy as the old one combined with any one pick |
| `HandelScoring.ScoreAllInserts` | spectrum-handel/src/lib.rs:181-233 | the candidates are those the picks generate, inserted one by one in processing order |
| `HandelScoring.InsertAllFirst` | spectrum-handel/src/lib.rs:599-609 | what survives insertion is exactly the first candidate generated for each score |
| `HandelScoring.BestReachesIff` | spectrum-handel/src/lib.rs:181-258 | for any picks at all, the level's best reaches a score exactly when it had it, or some candidate first of its own score verifies and has it |
| `HandelBans.ScoringBansIff` | spectrum-handel/src/lib.rs:182-199 | scoring bans exactly the senders of picks whose individual part fails |
| `HandelBans.ScoringKeepsParts` | spectrum-handel/src/lib.rs:184-186 | and keeps exactly the individual parts that verify, in processing order |
| `HandelBans.AggregationBansIff` | spectrum-handel/src/lib.rs:182-258 | one aggregation bans exactly the senders of failing individual parts and of failing candidates that are first of their score |
| `HandelBans.StepBansIff` | spectrum-handel/src/lib.rs:622-688 | a poll bans nobody; a message bans exactly whom the aggregation it starts bans |
| `HandelBans.BadPartBanned` | spectrum-handel/src/lib.rs:187-199 | a message with a failing individual part, alone at an open level that lists its sender, gets the sender banned |
| `HandelBans.BannedIgnored` | spectrum-handel/src/lib.rs:295-330 | of a banned peer's message nothing but a completion report is taken in |
| `HandelBans.BannedForGood` | spectrum-handel/src/lib.rs:295-330 | over every run a banned peer stays banned and no further contribution of it waits anywhere |
| `HandelBans.ScoringWindow` | spectrum-handel/src/lib.rs:192-197 | scoring divides the window by the factor once per failing individual part, never below one |
| `HandelBans.JudgingWindow` | spectrum-handel/src/lib.rs:247-257 | candidates that verify multiply the window once each, up to the largest machine number; failing ones divide it |
| `HandelScoring.CollapseLosesSoundPick` | spectrum-handel/src/lib.rs:181-258 | in any state of the invariant, a sound and a broken contribution of equal score waiting together, with their individual parts: the sound one is used up, the sender of the broken one banned, the best does not grow, and only the individual parts are kept |
| `HandelScoring.CollapseInRun` | spectrum-handel/src/lib.rs:599-609 | from the start of a round four events lead there: two deliveries before the level starts, the sound one with its individual part as every node sends it, the level's activation, and a redelivery |
| `HandelHonest.AggregateLearns` | spectrum-handel/src/lib.rs:157-266 | among honest hosts, what waits from a peer of the level is learnt: the best gets at least as heavy as with it |
| `HandelHonest.InjectHonest` | spectrum-handel/src/lib.rs:622-640 | a message among honest hosts is always deliverable, takes nothing away, and is learnt if its level is open |
| `HandelHonest.PollNodeOk` | spectrum-handel/src/lib.rs:643-688 | a poll keeps a node honest: nobody banned, a completed level has started the next, all it holds or sends is part of the hosts' contributions |
| `HandelNetwork.NetStepOk` | spectrum-handel/src/lib.rs:622-688 | every step of the network keeps all hosts honest and takes nothing from any level of any host |
| `HandelNetwork.HearingLearns` | spectrum-handel/src/lib.rs:181-266 | a host that hears something and gains nothing knew it already and is short of the threshold |
| `HandelNetwork.LevelDone` | spectrum-handel/src/lib.rs:563-568 | when everybody open knows what the other side of a level knows, nobody is open there |
| `HandelNetwork.QuietMeansDone` | spectrum-handel/src/lib.rs:879-950 | a stretch in which everybody heard from everybody at the open levels and nothing was gained starts from a network that is done |
| `HandelNetwork.EveryoneCompletes` | spectrum-handel/src/lib.rs:879-950 | after more such stretches than there is to gain, every host has a complete aggregate |
| `HandelTruth.NetStepTrue` | spectrum-handel/src/lib.rs:303-309 | in every step of the network reports stay true: who is recorded or said to have completed a level has |
| `HandelSchedule.Project` | spectrum-handel/src/lib.rs:622-688 | what a network run does to one host is a run of that host over the events it sees |
| `HandelSchedule.WorkIsFair` | spectrum-handel/src/lib.rs:391-510 | if every host disseminates as often as its levels have peers, no level is stuck and what is queued arrives, everybody heard from everybody at the open levels |
| `HandelSchedule.StuckLasts` | spectrum-handel/src/lib.rs:460-475 | a level that has contacted nobody and whose first peer has reported stays so over every run |
| `HandelSchedule.StuckArises` | spectrum-handel/src/lib.rs:460-475 | a level whose first peer has reported when its first contact is due ends the run in that state |
| `HandelSchedule.RoundCompletes` | spectrum-handel/src/lib.rs:879-950 | from construction, every run with enough stretches in which hosts disseminate and what is queued arrives ends with every host holding an aggregate that verifies, consists of the hosts' contributions and reaches the threshold, or with a level stuck in its last state |
| `HandelPair.PairCompletes` | spectrum-handel/src/lib.rs:879-950 | any two hosts have such a run, and it ends with both aggregates and nothing stuck |
| `HandelJam.JamLasts` | spectrum-handel/src/lib.rs:460-475 | a group of hosts whose level is open and short of the threshold, and whose peers across have completed it and are stuck: no step of the network changes that |
| `HandelJam.JammedForever` | spectrum-handel/src/lib.rs:622-688 | nor does any run |
| `HandelDeadlock.HonestDeadlock` | spectrum-handel/src/lib.rs:879-950 | threshold 3/4, fast path window 1: from the construction of four honest hosts a run reaches a state from which no run lets hosts 0 and 2 hand out an aggregate |
| `HandelDeadlock.FourSeatsExist` | spectrum-handel/src/partitioning.rs:127-173 | any four distinct peers form such hosts |
| `HandelDeadlock.FourByPriority` | spectrum-handel/src/partitioning.rs:177-207 | and the order of their levels is one that priorities produce |
| `HandelNode.Node.GetOwnContribution` | spectrum-handel/src/lib.rs:555-560 | a valid node has one; it verifies and weighs what level 0 records |
| `HandelNode.Node.GetCompleteAggregate` | spectrum-handel/src/lib.rs:526-533 | what is handed out verifies and reaches the threshold |
| `HandelNode.Node.InjectMessage` | spectrum-handel/src/lib.rs:622-640 | a kept message triggers aggregation of its level; invariant and progress |
| `HandelNode.Node.RunTimers` | spectrum-handel/src/lib.rs:643-662 | dissemination and activation when their timers have fired |
| `HandelNode.Node.NextOutput` | spectrum-handel/src/lib.rs:664-688 | the oldest queued message goes out and leaves the queue; without one, exactly a completed top level hands out its best, verified at threshold weight |
| `HandelNode.Node.Poll` | spectrum-handel/src/lib.rs:643-688 | messages go out first come first served, an aggregate only when the outbox is empty, and it verifies at threshold weight |
| `Multicast.Multicaster.constructor` | spectrum-mcast/src/behaviour.rs:42-76 | nobody contacted and nothing queued at first |
| `Multicast.Multicaster.InjectMessage` | spectrum-mcast/src/behaviour.rs:84-121 | strangers change nothing; a failing statement only queues the ban of its sender; otherwise the new statement, when it is lost, and when the contacted set is cleared are stated case by case |
| `Multicast.Multicaster.AnnounceStatement` | spectrum-mcast/src/behaviour.rs:142-156 | each child not contacted since the last growth is queued once |
| `Multicast.Multicaster.PollOnce` | spectrum-mcast/src/behaviour.rs:123-165 | one action per poll, in queue order; exactly a time-out with a statement hands it over, keeping contacts and queue |
| `MulticastFaults.RunVerified` | spectrum-mcast/src/behaviour.rs:84-165 | over every run of a host, whatever arrives and from whom: all it holds, queues, sends or hands out verifies |
| `MulticastFaults.BansExact` | spectrum-mcast/src/behaviour.rs:84-120 | bans of a peer handed out or queued are as many as failing statements it sent as a parent, and none otherwise |
| `MulticastFaults.HeldWasTold` | spectrum-mcast/src/behaviour.rs:84-121 | an entry held was held at first or came from a parent in a statement that verifies |
| `MulticastFaults.StrangersIgnored` | spectrum-mcast/src/behaviour.rs:85 | dropping everything strangers send changes neither the host nor what its polls return |
| `MulticastFaults.HonestSafeAmongOthers` | spectrum-mcast/src/behaviour.rs:84-165 | in every network run with arbitrary packets from the others, hosts that follow the protocol hold and send only what verifies and never ban one another |
| `MulticastNetwork.NewSendsExact` | spectrum-mcast/src/behaviour.rs:142-156 | queued are exactly the children not contacted, with the current statement |
| `MulticastNetwork.InjectOk` | spectrum-mcast/src/behaviour.rs:84-121 | a delivered part of the truth is held afterwards, nothing held is lost, and growth re-opens the wave |
| `MulticastNetwork.RunOk` | spectrum-mcast/src/behaviour.rs:84-165 | in every reachable state hosts hold only what they could have heard, and whoever is marked contacted has or will get the statement |
| `MulticastNetwork.FlowsAlong` | spectrum-mcast/src/behaviour.rs:84-165 | at quiescence what one end of a path started with is held at the other end |
| `MulticastNetwork.QuiescentUnion` | spectrum-mcast/src/behaviour.rs:84-165 | at quiescence of any run a host holds exactly the union of the initial statements of the hosts that reach it |
| `MulticastNetwork.RunPaid` | spectrum-mcast/src/behaviour.rs:84-165 | in every state of a run each wave of sends is paid for by an entry gained |
| `MulticastNetwork.SendsBounded` | spectrum-mcast/src/behaviour.rs:84-165 | a host queues at most its number of children times one more than the entries to learn |
| `Overlay.BuildLinks` | spectrum-mcast/src/overlay.rs:103-146 | the level-by-level loop finds the heap parent and children of the host |
| `Overlay.ArrangedPermutes` | spectrum-mcast/src/overlay.rs:41-83 | arranging keeps exactly the peers and puts a fixed root first |
| `Overlay.ArrangedAscends` | spectrum-mcast/src/overlay.rs:47-55 | the arranged peers ascend, all of them or all but the fixed root |
| `Overlay.MakePasses` | spectrum-mcast/src/overlay.rs:41-83 | the passes accumulate the links of every shuffled heap |
| `Overlay.Make` | spectrum-mcast/src/overlay.rs:41-83 | the overlay is the accumulated links over the arranged peers |
| `Overlay.HeapCoherent` | spectrum-mcast/src/overlay.rs:103-146 | in one heap a host lists another as child exactly when it is that one's parent |
| `Overlay.OverlayCoherent` | spectrum-mcast/src/overlay.rs:41-83 | the same through all passes, for hosts that were given the peers in different orders |
| `Overlay.ArrangedCanonical` | spectrum-mcast/src/overlay.rs:41-83 | the arrangement does not depend on the order in which peers were given |
| `OverlayNetwork.EdgesMirrored` | spectrum-mcast/src/overlay.rs:41-83 | every edge of the built network is accepted by its target as a parent's |
| `OverlayNetwork.RootReaches` | spectrum-mcast/src/overlay.rs:103-146 | the root of the tree of every pass reaches every host |
| `OverlayNetwork.RootStatementEverywhere` | spectrum-mcast/src/overlay.rs:41-83 | at quiescence of any run over a built overlay, what the root of any pass started with is held by everyone |
| `Sigma.HonestResponse` | spectrum-sigma/src/crypto.rs:112-136 | a response computed as prescribed passes the response check |
| `Sigma.Verify` | spectrum-sigma/src/crypto.rs:138-190 | acceptance is the group equation, every listed proof passing, and at most as many listed as the threshold leaves |
| `Sigma.AggregatePkSum` | spectrum-sigma/src/crypto.rs:149-153 | the aggregate key is the sum of all weighted keys |
| `Sigma.EquationMeans` | spectrum-sigma/src/crypto.rs:153-175 | the equation over plain sums by index: keys not listed under the challenge of all keys and the commitment, plus the commitment, less those listed |
| `Sigma.ProofsListed` | spectrum-sigma/src/crypto.rs:176-187 | the listed proofs pass exactly when those of the listed members' commitments do |
| `Sigma.PartialXSum` | spectrum-sigma/src/crypto.rs:154-164 | the keys summed by the verifier are those of the members not listed |
| `Sigma.ExcludedYSum` | spectrum-sigma/src/crypto.rs:165-168 | the commitments summed from the list are those of the listed members that committed |
| `Sigma.RespondersCommitted` | spectrum-sigma/src/lib.rs:205-251 | a verifying response comes from a member that committed |
| `Sigma.ResponsesSum` | spectrum-sigma/src/crypto.rs:126-136 | responses that pass one by one sum to the responders' commitments plus their keys under the challenge |
| `Sigma.EquationIff` | spectrum-sigma/src/crypto.rs:138-190 | with committed members either heard or listed, the equation holds exactly when the remaining members' keys vanish under the challenge |
| `Sigma.CertificateAccepted` | spectrum-sigma/src/crypto.rs:138-190 | with all others listed, the certificate is accepted exactly when enough members responded and the listed commitments' proofs pass |
| `Sigma.StageCertificateIff` | spectrum-sigma/src/sigma_aggregation.rs:365-379 | the certificate of the last stage is accepted exactly when the keys of members that never committed vanish, not too many are listed, and every listed proof passes |
| `Sigma.StageCertificateAccepted` | spectrum-sigma/src/sigma_aggregation.rs:365-379 | when all members committed, exactly when enough responded and the proofs of the others pass |
| `Sigma.SilentMemberSpoils` | spectrum-sigma/src/sigma_aggregation.rs:365-379 | one member that never committed, with a key that does not vanish, makes the certificate fail |
| `Sigma.AggregateCommitment` | spectrum-sigma/src/sigma_aggregation.rs:302-352 | the sum over the map in any iteration order is the sum over committed members |
| `Sigma.AggregateResponse` | spectrum-sigma/src/crypto.rs:62-64 | the sum of responses in any iteration order acts on the generator as the sum over responders |
| `Sigma.ListExclusions` | spectrum-sigma/src/sigma_aggregation.rs:365-379 | the list names, each once, the members that committed and did not respond, with their commitments |
| `Sigma.CompleteResponses` | spectrum-sigma/src/sigma_aggregation.rs:365-379 | the certificate's two parts together |
| `Sigma.AggregateAndVerify` | spectrum-sigma/src/sigma_aggregation.rs:302-379 | the stages followed by verification accept exactly when the keys of members that never committed vanish, not too many are listed and every listed proof passes; with everybody committed and all proofs passing, exactly when enough responded |
| `ChainCacheStore.Cache.constructor` | spectrum-cardano-connector/src/rocksdb.rs:49-55 | an empty store |
| `ChainCacheStore.Cache.AppendBlock` | spectrum-cardano-connector/src/rocksdb.rs:57-204 | the puts, the eviction and its deletes change the store exactly as specified; a panic commits nothing |
| `ChainCacheStore.Cache.GetBestBlock` | spectrum-cardano-connector/src/rocksdb.rs:211-221 | on a store that represents a chain, the record of its last block; on a drained one, nothing |
| `ChainCacheStore.Cache.TakeBestBlock` | spectrum-cardano-connector/src/rocksdb.rs:223-316 | the reads and deletes change the store and build the block exactly as specified; without a best block nothing changes |
| `ChainCacheRefinement.AppendPushes` | spectrum-cardano-connector/src/rocksdb.rs:57-204 | on a represented chain an append never panics and leaves the pushed chain, without its oldest block if the depth was reached |
| `ChainCacheRefinement.EvictsFirst` | spectrum-cardano-connector/src/rocksdb.rs:129-185 | eviction removes the first block's data and nothing else the chain needs |
| `ChainCacheRefinement.EvictionExact` | spectrum-cardano-connector/src/rocksdb.rs:129-185 | key by key: everything of the first block is gone, the oldest record names the second, nothing else changes |
| `ChainCacheRefinement.FirstAppend` | spectrum-cardano-connector/src/rocksdb.rs:186-199 | the first block becomes both ends |
| `ChainCacheRefinement.TakeTxsReads` | spectrum-cardano-connector/src/rocksdb.rs:240-249 | distinct stored transactions come out in order and only their keys go |
| `ChainCacheRefinement.TakeTxsIff` | spectrum-cardano-connector/src/rocksdb.rs:240-249 | in any store, exactly when every transaction is there and none is named twice |
| `ChainCacheRefinement.TakeIff` | spectrum-cardano-connector/src/rocksdb.rs:223-316 | in any store: when exactly a take hands out nothing, when a block, and when it panics |
| `ChainCacheRefinement.TakeExact` | spectrum-cardano-connector/src/rocksdb.rs:223-316 | key by key: the last block's transactions are gone, the best record moves to the block before, nothing else changes |
| `ChainCacheRefinement.TakePops` | spectrum-cardano-connector/src/rocksdb.rs:223-316 | a take returns the last block with its transactions in order and leaves the chain without it |
| `ChainCacheRefinement.StepRefines` | spectrum-cardano-connector/src/rocksdb.rs:57-316 | one allowed operation does what the bounded stack does |
| `ChainCacheRefinement.RunRefines` | spectrum-cardano-connector/src/rocksdb.rs:57-316 | so does every allowed run, forks after rollback included, and no unwrap panics |
| `ChainCacheRefinement.CacheIsSuffix` | spectrum-cardano-connector/src/rocksdb.rs:43-47 | the chain held is always a suffix of the chain a node without the bound would hold |
| `ChainCacheRefinement.AppendsKeepLast` | spectrum-cardano-connector/src/rocksdb.rs:43-47 | appends alone keep exactly the last blocks up to the depth |
| `ChainCacheDrain.TakesDrain` | spectrum-cardano-connector/src/rocksdb.rs:223-316 | as many takes as blocks never panic and leave everything but transactions and the best record, the oldest record included |
| `ChainCacheDrain.AppendPanicsIff` | spectrum-cardano-connector/src/rocksdb.rs:121-204 | an append to any store with an oldest record panics exactly for a number below that record's, or at the eviction distance when the child link, the child's record or the transaction list of the oldest block is missing |
| `ChainCacheDrain.AppendAfterDrainIff` | spectrum-cardano-connector/src/rocksdb.rs:121-204 | for every append to a store with an oldest record: when exactly the store represents the appended block alone |
| `ChainCacheDrain.ReuseAfterDrainIff` | spectrum-cardano-connector/src/rocksdb.rs:57-316 | take the only block, append another one in its place: the store represents it exactly when it is the same block again |
| `ChainCacheDrain.ChildAfterDrainIff` | spectrum-cardano-connector/src/rocksdb.rs:57-316 | take the only block, append a child of it: the store represents the child exactly at depth one |
| `ChainCacheDrain.ForkAfterDrain` | spectrum-cardano-connector/src/rocksdb.rs:121-204 | at every depth, another fork over a stale record goes in up to the eviction distance and then panics exactly when no child of the stale block is remembered; otherwise the record moves to that child |
| `ChainCacheDrain.DrainThenFork` | spectrum-cardano-connector/src/rocksdb.rs:57-316 | from any represented chain, take everything and append another fork: a chain of several blocks never panics and leaves the oldest record on its abandoned second block |
| `ChainCacheDrain.DrainThenForkPanics` | spectrum-cardano-connector/src/rocksdb.rs:57-316 | from an empty store at every depth: append, take, append another fork past the depth; the last append panics |
| `ChainSync.CommonPoint` | spectrum-diffusion/src/service.rs:175-182 | the search returns the first entry of the tail that is in the local chain |
| `ChainSync.WantedSuffix` | spectrum-diffusion/src/service.rs:146-154 | what precedes the common point, oldest first |
| `ChainSync.CompareRemote` | spectrum-diffusion/src/service.rs:116-172 | for every status at all: an empty tail is shorter; nonsense exactly when the tail lists the local tip and the height is below its slot; when equal, when longer and with which suffix, and what shorter and fork name |
| `ChainSync.NewestCommon` | spectrum-diffusion/src/service.rs:175-182 | for hash-linked chains the point found is the newest shared block, if the tail reaches it |
| `ChainSync.SuffixCompletes` | spectrum-diffusion/src/service.rs:146-154 | local chain plus wanted suffix is the remote chain |
| `ChainSync.HonestVerdict` | spectrum-diffusion/src/service.rs:116-172 | the full decision table for all chains and all tail lengths |
| `ChainSync.ExtensionHandedOverIff` | spectrum-diffusion/src/service.rs:126-160 | for a remote chain that extends the local one: exactly when the suffix is handed over, and exactly when it is taken for a fork |
| `ChainSync.FullStatusAheadIsFork` | spectrum-diffusion/src/service.rs:127-166 | 256 further blocks in 256 consecutive slots are reported as a fork without a common point |
| `ChainSync.StatusExchange` | spectrum-diffusion/src/service.rs:62-71 | between nodes reporting their true status the table applies, nonsense never occurs, and equality is reported exactly for equal chains |
| `AvlTrees.StoredUnique` | spectrum-view/src/versioned_avl_storage.rs:55-73 | a label stands for at most one stored tree |
| `AvlLoading.Memory.constructor` | spectrum-view/src/versioned_avl_storage.rs:24-28 | no nodes in memory |
| `AvlLoading.Memory.Unpack` | spectrum-view/src/versioned_avl_storage.rs:61-63 | an unpacked node with stub children stands for the stored tree; existing nodes are untouched |
| `AvlLoading.Memory.LoadChild` | spectrum-view/src/versioned_avl_storage.rs:81-97 | a stub is replaced by a node for the same tree, any other child is kept |
| `AvlLoading.Memory.Expand` | spectrum-view/src/versioned_avl_storage.rs:80-107 | relinking the popped node changes what no node stands for, and moves the pending work to its children |
| `AvlLoading.RepRelinked` | spectrum-view/src/versioned_avl_storage.rs:99-104 | in-place replacement of children is invisible to every holder of a reference |
| `AvlLoading.Memory.LoadAllNodes` | spectrum-view/src/versioned_avl_storage.rs:77-109 | terminates with the root being exactly the stored tree, free of stubs |
| `AvlLoading.Memory.Get` | spectrum-view/src/versioned_avl_storage.rs:55-73 | found exactly when the key is stored, and then fully loaded |
| `AvlLoading.LoadedUnique` | spectrum-view/src/versioned_avl_storage.rs:77-109 | a loaded node shows one tree only |
| `AvlSaving.SerializeVisited` | spectrum-view/src/versioned_avl_storage.rs:111-144 | the stack loop emits what the recursive description says, top first and right before left; a popped stub is the unreachable arm |
| `AvlSaving.EmitsIff` | spectrum-view/src/versioned_avl_storage.rs:117-137 | the loop stays clear of its unreachable arm exactly when the top is no stub and no written node has a stub child |
| `AvlSaving.ClosedWritesIff` | spectrum-view/src/versioned_avl_storage.rs:117-137 | with marks closed upwards, exactly when no new node anywhere has a stub child |
| `AvlSaving.EmitsNewIffClosed` | spectrum-view/src/versioned_avl_storage.rs:117-137 | below the top exactly the new nodes are written, each once, if and only if the marks are closed upwards |
| `AvlSaving.SaveWritesNew` | spectrum-view/src/versioned_avl_storage.rs:111-144 | a whole save is the top node followed by all new nodes below it, a top leaf included |
| `VersionedStore.Store.constructor` | spectrum-view/src/versioned_avl_storage/versioned_storage.rs:90-109 | no entries, no records, no versions |
| `VersionedStore.Store.GetLastLsn` | spectrum-view/src/versioned_avl_storage/versioned_storage.rs:284-300 | the greatest serial number in use, 0 without records |
| `VersionedStore.Store.Update` | spectrum-view/src/versioned_avl_storage/versioned_storage.rs:127-214 | the loops change entries, undo records and versions exactly as specified, trimming included; an empty update does nothing |
| `VersionedStore.Store.RollbackTo` | spectrum-view/src/versioned_avl_storage/versioned_storage.rs:233-282 | the loop plays records back exactly as specified; a panic commits nothing |
| `Versioning.UpdateTracks` | spectrum-view/src/versioned_avl_storage/versioned_storage.rs:127-214 | after an update of a store whose numbers are in step, the records still lead from each kept version's state to the one before |
| `Versioning.RecordsIff` | spectrum-view/src/versioned_avl_storage/versioned_storage.rs:138-175 | an update leaves a record exactly when it removes or overwrites a key that was there |
| `Versioning.RollbackGives` | spectrum-view/src/versioned_avl_storage/versioned_storage.rs:233-282 | a rollback to a kept version goes through exactly when a later update left a record; every key then has the earliest value it had from that version on, and exactly the later records and versions are gone |
| `Versioning.RollbackRestoresIff` | spectrum-view/src/versioned_avl_storage/versioned_storage.rs:233-282 | the version's own state comes back exactly when no later state has a key it lacks |
| `Versioning.RollbackTracks` | spectrum-view/src/versioned_avl_storage/versioned_storage.rs:274-279 | the versions left are backed by their records again, the last one with what came back |
| `Versioning.InStepIff` | spectrum-view/src/versioned_avl_storage/versioned_storage.rs:284-300 | the next update continues the numbering exactly when nothing was ever recorded or a kept version has a record |
| `Versioning.EveryRunTracked` | spectrum-view/src/versioned_avl_storage/versioned_storage.rs:127-282 | over every run of updates and rollbacks from the empty store in which no update starts out of step, the kept versions stay backed by their records |
| `Versioning.RoomStaysInStep` | spectrum-view/src/versioned_avl_storage/versioned_storage.rs:181-191 | every run too short for trimming is in step |
| `Versioning.OutOfStep` | spectrum-view/src/versioned_avl_storage/versioned_storage.rs:127-282 | an update that starts out of step numbers its records from 1 again: a rollback over it to a version kept from before goes through exactly when it left more records than the number those versions end at, and then takes back only the records after that number |
| `Versioning.RecordLost` | spectrum-view/src/versioned_avl_storage/versioned_storage.rs:181-199 | five updates after which the numbering starts over: trimming takes the record just written, and rolling back to the kept version before it panics |
| `AvlSaving.StoredIff` | spectrum-view/src/versioned_avl_storage.rs:55-73 | in a well-keyed store a tree is stored exactly when all its labels are |
| `AvlSaving.LabelsSplit` | spectrum-view/src/versioned_avl_storage.rs:111-144 | the labels of a tree are those a save writes and those it does not |
| `AvlSaving.SaveThenStoredIff` | spectrum-view/src/versioned_avl_storage.rs:30-45 | after a save with removals the store holds the whole tree exactly when every unwritten node's label was there and not removed, or is written as well |
| `AvlRoundTrip.SaveAndReload` | spectrum-view/src/versioned_avl_storage.rs:30-73 | saving a tree through the versioned store while removing old labels and getting its root label back loads an equal tree |
| `AvlRoundTrip.RollbackAndReload` | spectrum-view/src/versioned_avl_storage.rs:47-73 | rolling back to a kept version goes through exactly when a later update left a record, and then loads the tree that version held |
| `Scalars.ScalarIsBigEndian` | spectrum-ergo-connector/src/script.rs:711-718 | summing shifted bytes is big-endian decoding |
| `Scalars.SplitValues` | spectrum-ergo-connector/src/script.rs:648-657 | cutting k bytes off the minimal encoding divides by 256^k |
| `Scalars.SignedRoundTrip` | spectrum-ergo-connector/src/script.rs:659-662 | minimal signed bytes read back as the same number |
| `Scalars.SignedMinimal` | spectrum-ergo-connector/src/script.rs:659-662 | the signed bytes leave the sign bit clear, and one byte less would not |
| `Scalars.EncodesIff` | spectrum-ergo-connector/src/script.rs:636-662 | encoding succeeds exactly for scalars of at least 2^128 whose low half is not zero |
| `Scalars.SmallScalarUnderflows` | spectrum-ergo-connector/src/ergo_connector.rs:816-821 | the length subtraction underflows exactly below 2^120 |
| `Scalars.EncodeDecode` | spectrum-ergo-connector/contracts/withdrawal_and_deposit.sc:117-141 | the contract's two reads recombine to the scalar |
| `Scalars.HalvesFit` | spectrum-ergo-connector/src/ergo_connector.rs:816-833 | each half of a 32-byte scalar takes at most 17 bytes |
| `Scalars.MultiplierIsPow` | spectrum-ergo-connector/contracts/withdrawal_and_deposit.sc:136-137 | the contract's constant is 256^16 |
| `Vault.MergeDeposit` | spectrum-ergo-connector/src/ergo_connector.rs:533-543 | the inner loops merge one deposit's tokens as specified, overflow included |
| `Vault.ProcessDeposits` | spectrum-ergo-connector/src/ergo_connector.rs:524-577 | the vault and all deposits are spent; 1,000,000 nano-ergs go to the miner, everything else and the merged tokens to the vault |
| `Vault.MergeConserves` | spectrum-ergo-connector/src/ergo_connector.rs:533-543 | for every id the merged amount is vault plus deposits; ids stay distinct and existing entries keep their place |
| `Vault.MergeSucceedsIff` | spectrum-ergo-connector/src/ergo_connector.rs:538 | the checked addition fails exactly when some token's total leaves the 64-bit range |
| `Vault.DepositConserves` | spectrum-ergo-connector/src/ergo_connector.rs:524-577 | the fee is exact, the rest is the vault's, and nano-ergs and every token in equal those out |
| `Vault.DepositPossibleIff` | spectrum-ergo-connector/src/ergo_connector.rs:524-577 | when a deposit transaction can be built |
| `Vault.BuildWithdrawal` | spectrum-ergo-connector/src/ergo_connector.rs:848-907 | the vault alone is spent; it keeps its token list and what fee and cells leave, every cell is paid in its place, the fee comes last |
| `Vault.WithdrawalConserves` | spectrum-ergo-connector/src/ergo_connector.rs:848-907 | nano-ergs in equal nano-ergs out; of every token as much more goes out than comes in as the cells pay, so it is conserved exactly when they pay none |
| `Vault.WithdrawalPossibleIff` | spectrum-ergo-connector/src/ergo_connector.rs:848-907 | when a withdrawal can be built: the fee and what is left reach the minimum of a box |

## Where code and documentation differ

- The cache's layout comment says the oldest record names the oldest block in the store
  (spectrum-cardano-connector/src/rocksdb.rs:40-42). After the last block is taken it names a block that
  is no longer there; the model follows the code.
- A peer that is ahead by a whole status is meant to be reported as longer; the code reports a fork in
  the one case `ChainSync.ExtensionHandedOverIff` singles out.
- The contribution a level keeps is meant to be the best one received; because candidates are a set
  ordered by score alone, `HandelScoring.CollapseInRun` reaches, from the start of a round, a state in
  which a sound one is displaced, and `HandelScoring.BestReachesIff` says exactly when the best reaches a
  score.
- Every level is meant to send to its peers in turn; at one whose first peer reports before the first
  contact dissemination never sends to anyone (`HandelFairness.StuckOverRun`), and a network of honest
  hosts can come to a halt that way (`HandelDeadlock.HonestDeadlock`).
- All hosts are meant to agree on the partitions; hosts that pad a peer set draw their own fakes, and agree
  exactly when those balance (`Partitioning.IndicesAgreeIff`, `Partitioning.BuildTwo`); without padding they
  always do, and `Partitioning.BuildApart` constructs partitions that do not.
- A rollback is meant to give back the state of a version. Keys inserted since then stay
  (`Versioning.RollbackRestoresIff`), a version with no record after it cannot be rolled back to
  (`Versioning.RollbackGives`), and once all records are trimmed the numbering starts over, after which
  records of kept versions are lost or passed over (`Versioning.OutOfStep`, `Versioning.RecordLost`).

## Left out

- Cryptography: curve arithmetic, hashing, ECDSA and Schnorr proofs are uninterpreted; nothing about their strength is claimed.
- Timers, wakers, channels, polling order and tracing: a poll takes as arguments which timers have fired.
- Machine widths: integers are unbounded except where stated (token amounts, the scoring window, peer counts up to 2^31). Signing computes `2u32.pow(leaf_high - 1)` (spectrum-kes/src/lib.rs:211), which overflows for trees of height 33 and above; the model does not show this.
- Kes.KesVerify: says nothing about unforgeability; soundness of the leaf scheme is the hypothesis `SoundSigning`.
- Partitioning.NewPartitions: the fakes are a parameter, distinct and new, in the order in which the source's set yields them; peer addresses are not modelled; more than 2^31 peers are excluded, where the source's doubling overflows.
- HandelNode.Node.InjectMessage: a message must be deliverable; the source panics on exactly the others (`HandelSafety.DeliverableIff`).
- HandelNode.Node.RunFastPath: with a non-zero window the level must have peers; the source takes a remainder by the level's size.
- HandelNode.Node.GetOwnContribution: the set of peers that already received the own contribution is never filled in the source, so the model always sends it.
- HandelSchedule.RoundCompletes: a stuck level need not block the round, so both outcomes may hold at once. The scoring window is at least the number of hosts, the threshold at most all of them, and their number a power of two.
- MulticastNetwork.QuiescentUnion: runs deliver every message eventually and in any order; lost messages, failing statements and polls after the time-out are not part of these runs but of those of `MulticastFaults`.
- DagMulticastingAsync, the variant that learns its statement later, would repeat the same argument.
- Sigma.Verify: the exclusion list may not be longer than the committee, since the source subtracts the two lengths.
- Sigma.AggregateAndVerify: committee positions are taken to equal peer indices, which holds without fake peers.
- Sigma aggregation's message stash, its polling and the earlier stages' hand-over are not modelled.
- ChainCacheRefinement.RunRefines: blocks must extend the best block by one number with fresh ids and transaction ids, and nothing is appended after the last block was taken; what happens then is stated separately.
- ChainCacheDrain.AppendPanicsIff: a number below the oldest counts as a panic, as the source's subtraction does with overflow checks; without them it wraps.
- ChainCacheRocksDB::exists and the connector's rollback loop: driven by the network, and slot keys of taken blocks stay behind.
- ChainSync.HonestVerdict: assumes that an id shared by two chains has the same past in both; block bodies and transport are not modelled.
- AvlSaving.SaveThenStoredIff: assumes an injective hash; the digest's height byte is not modelled.
- VersionedStore.Store: the width of serial numbers, the byte format of keys and records, and the prefixes that keep the three kinds of keys apart are not modelled; the iterator leaving the undo records is a panic, as reading any other key as one is.
- Versioning.EveryRunTracked: runs are followed up to the first update that starts out of step; that update and a rollback over it are stated exactly (`Versioning.OutOfStep`), operations after them are not followed.
- AvlLoading.Memory: nodes shared by reference are modelled as a map from node ids to cells that the methods reassign.
- Scalars.EncodesIff: treats the sign of zero as not positive, as the integer library the source uses does; the library itself is not part of this model.
- Vault.DepositConserves: the cap on the number of tokens in a box, registers, data inputs and scripts are not modelled; the minimum box value is a parameter.
- Vault.WithdrawalConserves: a withdrawal whose cells pay tokens is not refused, because the source builds it; that the ledger rejects it is not modelled.
- ErgoConnector's event handling, repositories and retries; `lottery_threshold` and `to_rational`; spectrum-network; the binaries; ledger and validation combinators: either input and output, or they would only add easy members.
