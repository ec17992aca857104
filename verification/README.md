# Verified models of Jarl and Provium

Jarl is a sans-I/O Raft core: one node is a bounded-log state machine that is told about time,
messages and proposals, and hands out transactions to save and messages to send. Provium's scalar
compiler lowers a subset of Rust with mutable locals to a small let-language with de Bruijn indices.
This project models both and proves what they are for.

## How it is organised

Three layers describe a node. `NodeModel` says what each operation does to the node's fields taken
as one value. `RaftNodes`, `LogStates`, `MembershipTables` and `ClusterHosts` are the objects of the
source, with fields and arrays that methods update in place; each method is proved to do to the object
what the function does to the value. Everything else is proved about the values.

* *Whole runs of a cluster whose voters do not change.* `Worlds` has nodes of either engine, disks and a
  network that may lose, duplicate and reorder; saves and crashes come at any time; there is no bound on
  voters, capacity or length. The fixed-voter engine and the engine behind `Cluster`, with its pre-votes,
  batches and quorum checks, are both covered; in the latter nobody proposes a configuration.
  `RaftHistory` is the same cluster in ghost terms: full logs, each term's log, ballots, acknowledgments.
  `RaftSafety` proves that every durable step keeps that history safe, the `Fixed…` modules prove that every
  operation of a node is such steps, and `WorldSafety`, `RunSafety` and `LeaderLogs` draw the conclusions,
  in terms of the run alone. A node with something unsaved is one operation past a saved one, so a crash
  simply forgets that operation. `ClusterRuns` shows that what a host does through the cluster API is such
  a run.
* *What an operation does, without the function that does it.* `NodeActs` says for every operation of an
  orderly node of either engine which error it reports, what becomes of the log, the term, the vote, the commit
  index, the positions and the timers, and exactly who is told what: a vote is granted if and only if the term is
  not older, the vote is free and the log no older; the commit index is the greatest one a quorum holds when its
  entry is of the leader's term; the values of a proposal land in their order. `CommitRules`, `Queues`,
  `LeaderActs`, `LeaderSteps`, `Ballots`, `Campaigns`, `FollowerActs`, `FollowerSteps`, `HandedOut` and `Clocks`
  have the parts, stated through quorums, positions and the queue rather than through `NodeModel`. `Duties` adds
  what a node never leaves undone along a whole life, and `ClusterActs` says the same of the cluster API.
* *One node of either engine, under any inputs at all.* `HostRuns` follows a node and its disk through
  any life, with whatever messages arrive from whomever, and uses `NodeHistory`, `LocalHistory`,
  `SlotTables`, `DynamicNodes`, `DynamicElections`, `DynamicOperations` and `SentMessages`.
* *Membership.* `Memberships`, `MembershipSets`, `MembershipChanges` and `QuorumIndexes` say what the slot
  arrays mean as sets; `Clusters` has the chain of configuration records, and `ClusterRuns` follows it along
  a node's whole life.
* *Log repair.* `LogRepair` and `RepairRuns`.
* *Journals.* `Words`, `FixedJournals` and `DynamicJournals` are the two payload formats, printer and parser;
  `JournalFiles` is the file of frames, its recovery, and writes that stop part-way.
* *Provium.* `ScalarIr` is the let-language and its evaluator, `RustOperators` what Rust's operators mean,
  independently of it, `ScalarSource` the accepted Rust with a store of mutable locals and those operators,
  `SourceTyping` which programs are well typed, `LoweringMeaning` and `LoweringCalls` why each lowering step is
  right, and `Lowering` the compiler itself, which refuses a well-typed program without recursion only for the
  size of its expansion.

Integers that are `u64` in the source are `U64`, with its checked, saturating and wrapping operations
written out. The mixing function behind the election jitter and the journals' checksum are parameters.

The comment on `propose_batch` (jarl/src/node.rs:587-588) says that messages still replicate one entry; the
dynamic engine sends up to sixteen, and the model follows the code.

## Model

| member | source | states |
|---|---|---|
| RunSafety.ElectionSafety | jarl/src/node.rs:862-898 | over a whole run with crashes, lost, duplicated and reordered messages, no two identities ever lead the same term, at the same time or at different ones, even if neither saved anything as leader (section 5.2 of the Raft paper) |
| RunSafety.StateMachineSafety | jarl/src/node.rs:922-1028 | one log explains everything any node ever exposes in a run: each committed entry sits there at its own index, and each snapshot is the replay of exactly its prefix (section 5.4.3) |
| LeaderLogs.LeaderCompleteness | jarl/src/node.rs:1007-1020 | a leader holds every entry that any node exposes as committed in an earlier term, whether before or after the leader's election, and every one exposed so far in its own term (section 5.4) |
| RunSafety.LogMatching | jarl/src/node.rs:922-972 | in every reachable world, two checkpoints that hold the same identity at an index hold the same entries, values included, everywhere below it that both still retain, whether they came one by one, in batches or under a snapshot (section 5.3) |
| LeaderLogs.DiskAdvances | jarl/src/explore.rs:48-82 | over a whole run, crashes included, every disk's term, commit and base only grow, votes stay in their term and committed entries stay until folded |
| FixedReplication.BatchSettles | jarl/src/node.rs:509-532 | a leader's batch of up to sixteen entries, accepted up to the first rejection, keeps the history safe, and the one answer sent for all of it is true |
| FixedOperations.PolledSim | jarl/src/node.rs:441-452 | a granted probe changes nothing in the history until a quorum of them starts a campaign in the next term |
| FixedOperations.NextPromise | jarl/src/node.rs:225-304 | every message handed out, single, batch or snapshot, says only what the leader's log, the ballots and the acknowledgments bear out |
| RunSafety.CleanIsDurable | jarl/src/node.rs:218-228 | in every reachable world a node with nothing to save is exactly what its disk holds, so everything it sends or exposes is durable |
| RunSafety.SaveIsCheckpoint | jarl/src/ready.rs:3-16 | in every reachable world, applying the pending transaction to the disk gives the node's whole new checkpoint |
| RunSafety.CrashRecovers | jarl/src/node.rs:83-108 | from every reachable world a crashed voter restarts from its disk without an error and stands exactly where the disk stands |
| WorldSafety.NextInv | jarl/src/explore.rs:48-82 | any step of any node, save, delivery or crash takes a world that stands in a safe history to one that stands in an extension of it |
| Worlds.OperateSim | jarl/src/node.rs:323-708 | whatever a saved node of either engine is asked to do, while no configuration is proposed, is a sequence of safe history steps of that voter alone, with any network that keeps its promises |
| RaftSafety.UpToDateCarries | jarl/src/node.rs:474-490 | the lexicographic vote check: a candidate at least as up to date as the voter stands on everything the voter acknowledged that may still be chosen (section 5.4.1) |
| RaftSafety.WinnerCarries | jarl/src/node.rs:491-498 | the winner of a majority stands on every entry of any earlier term that may still be chosen |
| RaftSafety.AcceptSafe | jarl/src/node.rs:922-972 | a follower replacing its log by its leader's prefix loses nothing that may be chosen and leaves the whole history safe |
| RaftSafety.CommittedAgree | jarl/src/node.rs:1007-1020 | two committed prefixes, chosen in whatever terms, never disagree |
| RepairRuns.ReachableIsRepairable | jarl/src/node.rs:974-1005 | in every reachable world, what a leader recorded as matched really is in the follower's log, and the follower's committed prefix is in the leader's |
| LogRepair.RetryMoves | jarl/src/node.rs:928-938 | each rejected request is retried strictly lower but above what matched, or jumps to just past the follower's snapshot |
| LogRepair.TakenRepairable | jarl/src/node.rs:533-565 | the leader's snapshot is never rejected by such a follower, whichever of the two snapshots is further on, and the pair can go on from its boundary |
| LogRepair.RepairEnds | jarl/src/node.rs:928-1005 | the exchanges end in a match, after one jump or fewer rejections than the distance to the follower's snapshot, with at most one snapshot of the leader's on the way |
| LogRepair.RepairEndsExactly | jarl/src/node.rs:928-1001 | some number of exchanges suffices if and only if the follower's snapshot lies below the last index a u64 can name or the leader's own snapshot reaches it |
| LogRepair.ExceptionExists | jarl/src/node.rs:928-1001 | two checkpoints that restore accepts and an attempt between them that no number of exchanges ends |
| LogRepair.ExchangeRetries | jarl/src/node.rs:257-297 | a rejected request between two nodes, single or batch, changes neither the follower nor `matched` and moves `next` as the repair argument says |
| LogRepair.ExchangeInstalls | jarl/src/node.rs:533-565 | a snapshot between two nodes is taken and acknowledged, and moves `matched` and `next` as the repair argument says |
| HostRuns.DiskAdvances | jarl/src/state.rs:157-189 | from any moment of a node's life to any later one, across crashes and under any messages, term, commit and base never decrease on disk, a vote never changes within its term, and committed entries stay until a newer snapshot covers them |
| HostRuns.AlwaysRestorable | jarl/src/state.rs:45-75 | at every moment the node's checkpoint and its disk are ones that restore accepts, unchanged |
| HostRuns.DeltaIsCheckpoint | jarl/src/ready.rs:3-16 | at every moment the pending transaction turns the disk into the node's checkpoint, applying it again changes nothing, its entries start at `truncate_from`, and it is empty when nothing is pending |
| HostRuns.LeadershipIsEarned | jarl/src/node.rs:441-498 | whoever becomes leader was really granted that very term by a quorum of its membership, itself included; grants of a probe never count |
| HostRuns.ProbesAskNext | jarl/src/node.rs:352-383 | a pending probe is always for the next term, by a follower that is a voter with its own slot |
| HostRuns.CacheIsCoherent | jarl/src/node.rs:806-849 | the cached membership is always the one in force at the end of the log, every member has exactly one slot, and a leader outside the voters exists only while its removal is uncommitted |
| HostRuns.PositionsStayInside | jarl/src/node.rs:974-1005 | a leader's `next` and `matched` stay within its log, so clamping never has its bounds the wrong way round |
| HostRuns.MessagesAreValid | jarl/src/node.rs:225-304 | every message handed out passes the receiver's validation, and a clean node with something queued always hands one out |
| NodeHistory.OperateGoes | jarl/src/node.rs:323-708 | any operation on a clean node moves its checkpoint forward, and what it marks as changed is all that changed |
| NodeActs.OperateActs | jarl/src/node.rs:323-708 | every operation of an orderly node of either engine does exactly what Acts says of it, which is stated without the functions that compute it |
| NodeActs.LifeActs | jarl/src/node.rs:323-708 | the same at every moment of any life of a node and its disk, across crashes and under any messages |
| NodeActs.LifeHandsOut | jarl/src/node.rs:225-304 | at every moment of a life, what is taken from a clean node is the head of its queue, rendered as Says says |
| NodeActs.BuiltStarts | jarl/src/node.rs:110-159 | a node starts as a follower of nobody, seated, with nothing to save or send, and with a wait in the election range |
| CommitRules.AdvanceRule | jarl/src/node.rs:1007-1020 | with t the greatest index a quorum holds, the commit index afterwards is t if t is higher and its entry is of the leader's own term, and is unchanged otherwise |
| CommitRules.TenureAdvances | jarl/src/node.rs:821-849 | a leader steps down exactly when it is no voter of the membership in force and that membership is committed |
| LeaderActs.AdmittedExactly | jarl/src/node.rs:593-622 | a batch is admitted exactly by an idle leader with room for its values and indices left; otherwise nothing changes and the error is the first that applies |
| LeaderActs.ProposalLands | jarl/src/node.rs:623-630 | an admitted batch leaves the old log followed by one entry per value: value k at last + 1 + k, in the leader's term |
| LeaderActs.ProposalAnnounced | jarl/src/node.rs:631-647 | an admitted batch is counted by its leader, committed by the commit rule and announced to every other member, and whoever is still a member keeps its positions |
| LeaderActs.BarrierActs | jarl/src/node.rs:900-920 | exactly when the last entry is of another term and there is room, an empty entry of the leader's term is put behind it and judged by the commit rule |
| LeaderActs.OfficeTaken | jarl/src/node.rs:885-898 | a new leader sends everybody on from the end of its log, counts nobody but itself as holding it, starts its checks over, puts a barrier behind its log and tells every other member |
| LeaderSteps.TickLeads | jarl/src/node.rs:323-351 | a leader resigns exactly when the check is due and it did not hear from a quorum; when a beat is due it puts a missing barrier and tells every other member, and otherwise only counts |
| LeaderSteps.AnswerTaken | jarl/src/node.rs:974-1005 | an acknowledgment past `matched` moves both positions and applies the commit rule; a refusal of the position last tried moves `next` to the hint, kept within bounds, and retries at once; anything else only counts as being heard from |
| LeaderSteps.FoldActs | jarl/src/node.rs:687-708 | after a compaction the snapshot stands for the entries up to the index, the log after it and its end are as they were, and a leader puts a missing barrier and tells every other member |
| LeaderSteps.FoldedExactly | jarl/src/node.rs:687-700 | a compaction is refused exactly while something is unsaved or unsent, or for an index not past the base or not committed, and then changes nothing |
| Ballots.VoteAnswered | jarl/src/node.rs:474-490 | the answer is yes and the vote the candidate's if and only if its term is not older, the vote is free or already its, and its last entry is of a later term or of the same term and no lower; otherwise the answer is no and the vote is as before; a newer term is taken over either way |
| Ballots.VoteSuppressed | jarl/src/node.rs:428-433 | while a leader was heard of recently, a request for a vote changes nothing and is not answered |
| Ballots.ProbeAnswered | jarl/src/node.rs:417-425 | a probe is granted if and only if its term is new, no leader was heard of recently and its log is no older; either way only the answer is queued |
| Ballots.CampaignActs | jarl/src/node.rs:862-883 | a campaign raises the term, votes for itself, counts that vote alone and asks every other voter, or takes office at once if that vote decides |
| Campaigns.ProbeActs | jarl/src/node.rs:352-383 | a probe leaves term and vote alone and asks every other voter, or becomes a campaign at once if the own vote decides |
| Campaigns.TickWaits | jarl/src/node.rs:352-385 | a node that does not lead waits until its deadline if it votes and for ever if not, then probes or stands for the next term, if there is one |
| Campaigns.VoteTaken | jarl/src/node.rs:491-498 | a granted vote of the candidate's term makes it leader exactly when it completes a quorum, and is otherwise counted |
| Campaigns.GrantTaken | jarl/src/node.rs:441-452 | a granted probe starts its campaign exactly when it completes a quorum and came with no newer term |
| FollowerSteps.RefusedExactly | jarl/src/node.rs:391-416 | a message is refused exactly while something is unsaved or unsent, or when it is misaddressed, invalid, or an answer from somebody without a slot; a refused one changes nothing |
| FollowerSteps.EntryHeard | jarl/src/node.rs:922-972 | a current single request makes the receiver follow its sender and is answered to it: a mismatch with where to try next, committed history contradicted, held already, no room, or replaced from that entry on, with the commit index raised to what is known to match |
| FollowerSteps.BatchHeard | jarl/src/node.rs:509-532 | a current batch is refused as its first entry is, or its longest acceptable prefix is held afterwards: the log is kept whole if it held them all and otherwise ends with the last of them, the answer is for it, and the commit index follows no further |
| FollowerSteps.SnapshotHeard | jarl/src/node.rs:533-565 | a current snapshot is refused exactly when it contradicts committed history, acknowledged when it is old, and otherwise becomes the start of the log, whose suffix stays exactly if the log held the snapshot's last entry |
| FollowerSteps.OldRequestRefused | jarl/src/node.rs:453-469 | a request of an older term changes nothing and is answered by a refusal that carries the newer term |
| HandedOut.HeadLeaves | jarl/src/node.rs:225-304 | the head of the queue leaves: votes and answers as queued; a request with the leader's own term and commit index, the identity before the peer's position and the entries from there, sixteen at most, one for the fixed engine; a snapshot if the position is folded |
| Clocks.OperateAges | jarl/src/node.rs:323-575 | the time since a leader was heard of grows with every tick, starts over with every current request of a leader, and is touched by nothing else |
| Duties.LeaderCommitsAll | jarl/src/node.rs:1007-1020 | along any life, at every moment a leader has committed everything of its own term that a quorum is known to hold |
| Duties.LeaderHasBarrier | jarl/src/node.rs:900-920 | along any life, a leader's log ends in its own term unless it is full or out of indices |
| Duties.LoneLeaderCommits | jarl/src/node.rs:1007-1020 | along any life, a leader that is the only voter has committed its whole log once that ends in its own term |
| Duties.LoneProposalCommits | jarl/src/node.rs:593-647 | a leader that is the only voter commits an admitted batch of commands at once |
| Duties.DiligentAt | jarl/src/node.rs:862-1020 | along any life, no leader leaves an own-term entry uncommitted that a quorum holds, no candidate waits with a quorum of votes, and no prober with a quorum of grants |
| LocalHistory.DeltaApplies | jarl/src/state.rs:101-113 | when all changes lie where the transaction says, applying it in the documented order gives the new checkpoint |
| DynamicOperations.OperateSound | jarl/src/node.rs:323-708 | any operation keeps the peer table, the votes, the positions and the queued messages of a node of either engine in order, and whoever starts leading has earned it |
| DynamicOperations.FoldInForce | jarl/src/cluster.rs:315-323 | compacting a configuration record into the snapshot changes neither the membership in force nor whether it is committed |
| SlotTables.FreeSlotExists | jarl/src/node.rs:821-849 | by pigeonhole, a member without a slot always finds one that nobody needs, so the `expect` cannot fire |
| SlotTables.RefreshedSeating | jarl/src/node.rs:821-849 | a refresh re-establishes the cache and the peer table from any table without duplicates; a member's slot stays as it was, and only a slot without a member starts over |
| SentMessages.WindowValid | jarl/src/node.rs:273-288 | the entries of a batch are a contiguous, term-ordered continuation of what precedes them, followed by nothing |
| SentMessages.NextMessageValid | jarl/src/node.rs:718-774 | what a sound node renders is valid, and rendering never comes up empty for something queued |
| Checkpoints.RestoreExactly | jarl/src/state.rs:45-75 | restore accepts exactly the contiguous, term-ordered checkpoints with sound metadata that fit, and returns them as they were |
| Checkpoints.TruncatedAt | jarl/src/state.rs:166-171 | truncation keeps exactly the entries before the given index |
| Machines.RecoveredIsReplay | jarl/src/node.rs:311-320 | installing a snapshot and applying the retained suffix gives the application state of the whole log |
| Restarts.RestartSim | jarl/src/node.rs:83-159 | restarting from what a voter has durably promised never fails and keeps every promise |
| LogStates.Restore | jarl/src/state.rs:45-75 | the loop over the slot array restores exactly what the specification restores, with the same error otherwise |
| LogStates.LogState.Push | jarl/src/state.rs:157-164 | a full array refuses and is unchanged; otherwise the log is longer by that entry, in the first empty slot |
| LogStates.LogState.Truncate | jarl/src/state.rs:166-171 | clears slots from the back and leaves exactly the entries before the index |
| LogStates.LogState.Install | jarl/src/state.rs:173-189 | rotating and clearing slots leaves the suffix past the snapshot if the log held its boundary, and nothing otherwise |
| LogStates.LogState.WriteFrom | jarl/src/state.rs:101-113 | the transaction has the changed snapshot and the entries from the first changed index on |
| LogStates.LogState.Grow | jarl/src/state.rs:115-131 | moving into a larger array changes nothing but the room |
| RaftNodes.RaftNode.constructor | jarl/src/node.rs:110-159 | a fresh node is a follower of nobody that has heard of no leader, with nothing to save or send, a wait in the election range, its membership in force from the log and every member seated |
| RaftNodes.RaftNode.Tick | jarl/src/node.rs:323-385 | from an orderly node: a leader resigns exactly when the check is due and no quorum was heard from, otherwise beats when it is time by telling every other member, and puts a missing barrier first; anyone else waits, or stands or probes once the deadline has passed; the checkpoint only advances |
| RaftNodes.RaftNode.Step | jarl/src/node.rs:391-575 | from an orderly node: the error exactly as the message and the node deserve, and otherwise what StepActs says of each kind of message, so a vote or a probe is granted if and only if the written-out conditions hold, an answer moves positions and commits by the commit rule, a request is taken or refused entry by entry, and exactly one answer is queued to whoever asked |
| RaftNodes.RaftNode.TakeMessage | jarl/src/node.rs:225-304 | the head of the queue leaves, rendered from the node as it is now: a request to a peer carries the leader's own term and commit index, the entry before and up to sixteen entries from the peer's position, or the snapshot; nothing leaves while something is unsaved |
| RaftNodes.RaftNode.ProposeMany | jarl/src/node.rs:593-647 | a refused batch changes nothing, for the first reason that applies; of an admitted one value k is the entry at last + 1 + k in the leader's term after the whole old log, the leader counts it, the commit rule is applied and every other member is told |
| RaftNodes.RaftNode.ProposeBatch | jarl/src/node.rs:587-591 | proposing only ever moves an orderly node's checkpoint forward |
| RaftNodes.RaftNode.PushInterrupted | jarl/src/node.rs:8-20 | a batch whose values panic part-way leaves the node exactly as it was |
| RaftNodes.RaftNode.Compact | jarl/src/node.rs:687-708 | only a committed index past the base is folded, and a refusal changes nothing; the snapshot stands exactly for the entries up to it, the rest of the log stays, and a leader goes on with a missing barrier and tells every other member |
| RaftNodes.RaftNode.Append | jarl/src/node.rs:922-972 | the object's answer and new fields are those of the value: conflict, no room, already held, or replaced from the entry on and committed no further than it |
| RaftNodes.RaftNode.AppendMany | jarl/src/node.rs:509-532 | the loop over a batch stops at the first rejection and answers for the last accepted entry, as the recursive specification does |
| RaftNodes.RaftNode.InstallSnapshot | jarl/src/node.rs:533-565 | a conflicting committed history is never replaced, an old snapshot may still compact a matching prefix, and otherwise the log starts over at the snapshot |
| RaftNodes.RaftNode.Replicated | jarl/src/node.rs:974-1005 | acknowledgments only raise `matched`, a current rejection moves `next`, and a stale one does nothing |
| RaftNodes.RaftNode.AdvanceCommit | jarl/src/node.rs:1007-1020 | the commit index becomes the greatest index a quorum holds if that is higher and its entry is of the leader's own term, and stays otherwise; it says whether it rose |
| RaftNodes.RaftNode.RefreshMembership | jarl/src/node.rs:821-849 | the loops over slots seat every member and a removed leader whose removal is committed steps down |
| RaftNodes.RaftNode.ResetElection | jarl/src/node.rs:776-785 | the new deadline lies in [election_ticks, 2 * election_ticks) |
| QuorumIndexes.QuorumIndexCounts | jarl/src/membership.rs:168-203 | for every membership, stable or joint, and every position map, the sorted index reaches t exactly when a quorum has reached t |
| Memberships.QuorumIsMajorities | jarl/src/membership.rs:190-203 | counting flags over slots is the rule of a majority of the voters and, in a joint configuration, a majority of the old voters too |
| Memberships.FlagsMeanSets | jarl/src/membership.rs:110-123 | someone votes exactly if in the voters or the old voters, is a member exactly if in any set, and a membership is joint exactly if it has old voters |
| MembershipSets.RestoreHolds | jarl/src/membership.rs:48-84 | restore succeeds exactly on nonempty voters, lists without duplicates, voters apart from learners and a union that fits, and then holds exactly those sets |
| MembershipSets.IncludedAllAdds | jarl/src/membership.rs:65-84 | including a list succeeds exactly when everybody fits, and adds exactly those identities to exactly that kind |
| MembershipChanges.EqualityIsSets | jarl/src/membership.rs:24-36 | equality holds exactly when the three sets are the same, whatever the slot layout |
| MembershipChanges.JointHolds | jarl/src/membership.rs:148-156 | joining succeeds exactly on two stable memberships whose union fits, and holds the target with the current voters as old ones |
| MembershipChanges.FinalizedSets | jarl/src/membership.rs:157-167 | finalizing keeps voters and learners, forgets the old voters, and frees the slots of those who were nothing else |
| MembershipChanges.JointThenFinal | jarl/src/membership.rs:148-167 | joining a target and finalizing gives back the target |
| MembershipChanges.WithLearnersHolds | jarl/src/membership.rs:133-147 | replacing learners succeeds exactly when nobody is listed twice or votes and everybody fits, and keeps the voters |
| MembershipChanges.QuorumsMeet | jarl/src/membership.rs:190-203 | any quorum of a configuration shares an identity with any quorum of the one that replaces it (section 6) |
| MembershipTables.Restore | jarl/src/membership.rs:48-64 | the loops over the lists and the slot array compute what the specification says, including every refusal |
| MembershipTables.JointWith | jarl/src/membership.rs:148-156 | the loop that adds old voters in place gives the joint membership or the right refusal |
| MembershipTables.QuorumPosition | jarl/src/membership.rs:168-188 | collecting, sorting and indexing gives the quorum index of the specification |
| Clusters.ChangeAvailableMeans | jarl/src/cluster.rs:226-254 | a change is available only at a leader whose latest membership is the committed one, is stable, and whose commit index has an entry of its own term |
| Clusters.LatestIsCommitted | jarl/src/cluster.rs:226-254 | when no record lies past the commit index, the membership at the commit index is the one in force |
| Clusters.ChangeSucceeds | jarl/src/cluster.rs:258-313 | every record the cluster API appends replaces the membership committed at that leader by one that may succeed it: other learners, a joint step, or its final step |
| Clusters.ChangeQuorumsMeet | jarl/src/cluster.rs:258-313 | every quorum of the appended record meets every quorum of the membership it replaces |
| Clusters.ChangeTakesForce | jarl/src/cluster.rs:258-313 | a change that is accepted is at once the membership of the node, at the next index |
| ClusterActs.CommandsDo | jarl/src/cluster.rs:178-208 | a batch of commands is admitted exactly when it fits with three slots to spare, and then command k is the entry at last + 1 + k; every refusal has the first reason that applies |
| ClusterActs.ChangeAllowedExactly | jarl/src/cluster.rs:226-313 | each of the three changes is allowed exactly under the written-out conditions, the caught-up rule among them, and is otherwise denied for the first reason that applies |
| ClusterActs.ChangeDoes | jarl/src/cluster.rs:258-313 | an allowed change appends the record that holds exactly the sets it should, judged and announced, and anything else changes nothing |
| ClusterRuns.RecordsChain | jarl/src/cluster.rs:258-313 | along any life of a cluster node, every configuration record it appends succeeds the one then committed and takes force at once |
| ClusterRuns.ChainQuorumsMeet | jarl/src/cluster.rs:258-313 | along any life, every quorum of such a record meets every quorum of the one it replaces |
| ClusterRuns.CommandsJustified | jarl/src/cluster.rs:196-208 | a batch admitted through the cluster API is one of the proposals that the whole-run results are about |
| ClusterRuns.FoldJustified | jarl/src/cluster.rs:317-323 | compacting with an exact application state makes an exact snapshot that carries the membership in force |
| ClusterHosts.Cluster.SetLearners | jarl/src/cluster.rs:258-269 | allowed exactly when a change is available, the learners are listed once, do not vote and fit beside the voters, and there is room for three entries; the new last entry is then the current voters with those learners, judged by the commit rule and announced, and otherwise nothing changes and the error is the first that applies |
| ClusterHosts.Cluster.Reconfigure | jarl/src/cluster.rs:278-296 | allowed exactly when a change is available, the target is stable, every new voter is caught up and there is room for three entries; the new last entry is then the target joint with the current voters, and otherwise nothing changes and the error is the first that applies |
| ClusterHosts.Cluster.FinishReconfiguration | jarl/src/cluster.rs:302-313 | allowed exactly when the joint record is committed and there is room; the new last entry is then the target without the old voters, and otherwise nothing changes and the error is the first that applies |
| ClusterHosts.Cluster.ProposeBatch | jarl/src/cluster.rs:196-208 | admitted exactly when three slots stay free for the protocol; command k is the entry at last + 1 + k in the leader's term, judged by the commit rule and announced, and otherwise nothing changes and the error is the first that applies |
| ClusterHosts.Cluster.Compact | jarl/src/cluster.rs:317-323 | the snapshot carries the membership at its own index, not the latest one |
| Words.WordsRoundTrip | jarl/examples/support/dynamic_journal.rs:26-36 | the words laid out as little-endian bytes are read back as those words |
| Words.LittleEndian | jarl/examples/support/dynamic_journal.rs:26-36 | byte k of a word is its k-th digit to the base 256 |
| FixedJournals.PrintedParses | jarl/examples/support/journal.rs:47-126 | parsing a printed transaction gives exactly that transaction |
| FixedJournals.HeadLayout | jarl/examples/support/journal.rs:47-59 | which word of a transaction says what, up to the list of entries |
| FixedJournals.ListLayout | jarl/examples/support/journal.rs:59-71 | which words say what about entry i |
| FixedJournals.ReplayIsNewState | jarl/examples/support/journal.rs:73-126 | replaying an encoded transaction on the saved state gives exactly the node's new state |
| FixedJournals.FrameLimitIsExact | jarl/examples/support/journal.rs:14 | every transaction fits the frame limit, and it is reached exactly by a full log with a snapshot and a truncation |
| FixedJournals.Encode | jarl/examples/support/journal.rs:47-71 | pushing words and laying them out gives the printed bytes |
| FixedJournals.Apply | jarl/examples/support/journal.rs:73-126 | the cursor accepts exactly the bytes that parse, applies them to the saved state and restores, with an error otherwise |
| DynamicJournals.MembershipBack | jarl/examples/support/dynamic_journal.rs:44-66 | a membership printed as three lists is read back as the same sets, whatever its slot layout was |
| DynamicJournals.HeadLayout | jarl/examples/support/dynamic_journal.rs:67-100 | which word of a transaction says what, the three lists of the snapshot's membership and the entries included |
| DynamicJournals.PrintedParses | jarl/examples/support/dynamic_journal.rs:67-156 | parsing a printed transaction gives that transaction up to equality of memberships |
| DynamicJournals.ReplayIsNewState | jarl/examples/support/dynamic_journal.rs:101-156 | replaying an encoded transaction on a state the journal holds up to equality of memberships gives the node's new state in the same sense |
| DynamicJournals.PayloadFits | jarl/examples/support/dynamic_journal.rs:17 | every transaction of a log within capacity fits the frame limit |
| DynamicJournals.EmittedCanBeSaved | jarl/examples/support/dynamic_journal.rs:226-245 | what a node emits is never refused for its contents |
| DynamicJournals.Encode | jarl/examples/support/dynamic_journal.rs:67-100 | pushing words and laying them out gives the printed bytes |
| DynamicJournals.Apply | jarl/examples/support/dynamic_journal.rs:101-156 | the cursor accepts exactly the bytes that parse, applies them to the saved state and restores, with an error otherwise |
| JournalFiles.RecoverFile | jarl/examples/support/dynamic_journal.rs:192-223 | for a complete header, whole frames and any proper prefix of a frame, recovery gives the fold over the whole frames and the place where the torn tail begins |
| JournalFiles.RecoveredScans | jarl/examples/support/dynamic_journal.rs:192-223 | on any bytes at all, what recovery accepts is a sequence of whole frames that apply one after the other, followed by fewer bytes than the next frame would need |
| JournalFiles.TornEnds | jarl/examples/support/dynamic_journal.rs:192-223 | a torn tail, wherever it was cut, is noticed and never replayed |
| JournalFiles.Open | jarl/examples/support/dynamic_journal.rs:164-223 | on any bytes at all, opening succeeds exactly when recovery does, cuts the torn tail off and holds the recovered state |
| JournalFiles.Journal.Save | jarl/examples/support/dynamic_journal.rs:226-245 | succeeds if and only if nothing had failed, the payload applies and is not too long, and the write is whole and synced; then the file is longer by exactly that frame and memory holds the new state; otherwise memory stays, the file holds exactly what was written, and nothing saved before is lost |
| ScalarIr.RenamingKeepsMeaning | provium/src/ir.rs:129-155 | renaming the free variables of an expression and rearranging its environment to match does not change its value or fault |
| ScalarIr.EvaluationIsTyped | provium/src/ir.rs:260-288 | a well-typed expression in a typed environment gives an in-range value of its type or an overflow, division or assertion fault |
| ScalarIr.ArithmeticStays | provium/src/ir.rs:200-259 | every operator on two words gives a truth value or a word in range, or faults honestly; which one is RustOperators.ArithmeticIsRusts |
| RustOperators.ArithmeticIsRusts | provium/src/ir.rs:200-259 | every operator at every width gives what Rust's gives, which is stated by the exact integer result, then checked, saturated or wrapped; by order; by quotient and remainder; bit by bit; and by doubling and halving |
| RustOperators.BinaryIsRusts | provium/src/ir.rs:200-259 | on operands of the operator's type the evaluator computes exactly Rust's result, and the source semantics uses only the latter |
| RustOperators.DivisionMeans | provium/src/ir.rs:200-259 | the quotient and the remainder are the numbers with a == q * b + r and r < b |
| RustOperators.BitsMean | provium/src/ir.rs:200-259 | bit i of a bitwise result is the operation on bits i of the operands |
| LoweringMeaning.RelatedAssign | provium/src/frontend.rs:199-247 | updating a mutable local in the store agrees with shadowing it by a new let, for every visible name |
| LoweringMeaning.AndRight | provium/src/frontend.rs:359-378 | a short-circuit conjunction lowered to an if has the same value, fault and effects on the store |
| LoweringCalls.XorIsAssign | provium/src/frontend.rs:199-247 | a compound assignment is the assignment it is normalised to, although Rust computes the right-hand side first |
| LoweringCalls.InlinedMeans | provium/src/frontend.rs:496-527 | a call inlined as lets around a renamed body is evaluating the arguments left to right and then the body on those values alone |
| LoweringCalls.CallRight | provium/src/frontend.rs:496-527 | an inlined call does what the source call does in a frame of its own |
| Lowering.Compiler.FunctionOf | provium/src/frontend.rs:165-198 | whatever it returns, cached or lowered now, does what the named function's source does |
| Lowering.Compiler.StmtsOf | provium/src/frontend.rs:199-247 | an accepted block is lowered to an expression that ends as the block does in every related store |
| Lowering.Compiler.ExprOf | provium/src/frontend.rs:285-545 | an accepted expression is well typed and lowered to one of the expected type that ends as the source does; a refusal blames an ill-typed part, a call that does not lead downwards, or the size of the expansion |
| Lowering.Compiler.CallOf | provium/src/frontend.rs:496-527 | an accepted call is inlined to an expression that ends as the call does |
| Lowering.Compiler.Compile | provium/src/frontend.rs:133-139 | every function in the result is well typed and does what its source does; a program whose functions are all well typed and whose calls lead downwards, no more than 32 functions deep, is refused only for the size of its expansion |
| Lowering.AcceptedRunsRight | provium/src/ir.rs:289-302 | an accepted function, run on arguments that fit, ends exactly as its source: the same in-range value of the declared type, or the same overflow, division or assertion fault, never a type or input fault |
| Lowering.RunRefusesInput | provium/src/ir.rs:289-302 | running refuses exactly the argument lists that do not fit the parameters |

## Left out

- RunSafety.StateMachineSafety: assumes what the documentation asks of the host, that a snapshot passed to `compact` is the exact application state through its index.
- LogRepair.RepairEnds: is about one leader and an unchanged follower; that a real run eventually offers such a period is liveness and is not claimed.
- Lowering.Compiler.Compile: does not say for which programs the expansion is too large, and of several faults does not say which one is reported; refusals carry a kind and no text or source position.
- Lowering.Compiler.ExprOf: an unsuffixed literal takes its type from the frontend's own rule, which the source semantics shares; that rustc infers the same type is not modelled.
- DynamicJournals.EmittedCanBeSaved: takes the pending changes of a node from a clean state; that a node's life always provides them is HostRuns.DeltaIsCheckpoint and NodeHistory.OperateGoes.
- Leader completeness through membership changes, which needs the configuration history of all nodes; what is proved is the chain of records at one leader and the intersection of their quorums.
- Liveness under real timing, and the statistics of the election jitter: the SplitMix64 mixing is a parameter and only the range of the deadline is kept.
- File handles, locks, fsync, threads, wakers and async adapters (jarl/src/host.rs and the example programs): a journal file is a sequence of bytes whose writes may stop part-way.
- The strength of the journals' checksum, which is any fixed function; the contents of the header, which are a parameter.
- FollowerSteps.EntryHeard: as in the source, when the step itself gives the sender's slot to a new member the answer is queued for whoever has the slot afterwards; BatchHeard and SnapshotHeard say the same, and at any other time the answer is for the sender.
- `Node::grow` and `Cluster::grow` for whole nodes, the getters, and the diagnostics `status` and `progress`.
- Payload destructors and panics of payload clones outside a proposed batch.
- The per-peer arrays of a node are fields of type `seq` that methods reassign; only the log's slot array and the membership's slot array are arrays.
- Const generics: the size of a membership is the length of its slot sequence, and hooks that return one of another size are excluded by a predicate instead of by the type.
- WorldSafety.NextInv: in the whole-run results every member is a voter and no configuration is proposed; learners, joiners and membership changes are covered for one node at a time.
- Messages of one engine sent to nodes of the other: a run's network only carries what its own nodes send.
- Syntax that the frontend does not accept is one refused constructor of the source language; attributes, patterns and types are resolved before it.
- Provium's method shape matchers, project, suite, cargo, coverage, configuration and extraction code, and the placeholder hubby crates.
