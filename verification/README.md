# Replicated storage and training: verified model

This project models, in Dafny, the parts of the repository on which everything else rests, and proves what they are
for:

* the **Raft engine** (`part2_3_replication/raft_node.py`): elections, replication with conflict backtracking, commit,
  crash and restart, the applier thread, and the waiters that decide what a client is told;
* the **key-value state machine** and its server (`kv_state_machine.py`, `raft_kv_server.py`): versions and
  tombstones, compare-and-swap, the bounded session table, snapshots, and reads and writes through the log;
* the **bulk-synchronous trainer** (`ml_coordinator.py`, `ml_worker.py`);
* the **gateway's call loop** (`part6_web/gateway/clients/raft_cluster.py`).

## How the model is built

**A node is written twice.** `RaftNode.dfy` gives each locked region of the running node as a function on values.
`RaftServer.dfy` is the node object, with the fields and loops of the source; each method's contract says that the
node it leaves behind is the one the function gives. `KvState.dfy` / `KvMachine.dfy`, `TrainingProtocol.dfy` /
`TrainingServers.dfy` and `Gateway.dfy` / `GatewayClient.dfy` are paired the same way. Theorems about runs are about
the functions.

**A cluster is a transition system** (`Cluster.dfy`): any number of nodes, a network that may drop, delay, reorder
and repeat messages, and one event per locked region, including taking a batch, applying one entry, resolving one
waiter, a timed-out call, and crash and restart. A crash keeps term, vote and log and loses everything else. Isolation
of a node is message loss. `Reachable` covers every run of every number of nodes, whenever replies are handled. A run
also carries a label, `trusted`, fixed at its start: it says that what leaders take for acknowledged can be relied on.
Runs of at most four nodes always have it; runs of more have it if every success is handled in the term its request was
sent in (`Cluster.Allowed`), and the label changes nothing else (`LateRuns.TrustIsLabel`). What is proved of elections,
logs, messages, backtracking and waiters holds in every run. Only what depends on commit decisions asks for
`s.h.trusted`.

**The proof keeps a history** that no step reads (`RaftCore.dfy`): `ledgers[t]` is the log the leader of term `t` has
had so far, and ballots, bids, acknowledgements and commit decisions are recorded as they happen. `RaftCore*.dfy`
proves ten small steps (adopt a term, yield, campaign, grant, lead, extend, accept, learn, decree, restart) keep the
core invariant; `Cluster*.dfy` shows every event of the real node is a chain of them.

**Safety is half of it.** `NodeDuties.dfy`, `KvHistory.dfy`, `GradientLaws.dfy` and the route lemmas of `Gateway.dfy` say
what the operations owe on every input, in terms that do not use their own definitions: which vote must be granted,
which index must be committed, what a read must find, what a gradient must be. `ClusterRecovery.dfy` and
`TrainingProgress.dfy` say that from every reachable state things can go on.

### Where the code departs from the Raft paper, and what that means

* A candidate that steps down to a leader of its own term forgets its vote (`raft_node.py:228-229, 522`) and may vote
  again in that term. "One vote per node and term" is therefore not an invariant. The weaker one that holds is that a
  node that voted for two candidates in a term was one of them, and never led that term. At most one leader per term
  still follows.
* A follower commits up to the end of its own log (`raft_node.py:271-272`), not up to the last entry it has verified.
  This is sound because the sender ships its whole suffix: every message carries entries at least up to the commit
  index it announces.
* Only a reply ever moves a leader's commit index (`raft_node.py:483`). A cluster of one node elects itself but hears no
  replies, so it never commits and every call runs out of time (`ClusterRecovery.AlwaysServesIff`); in any larger one,
  every group of more than half of the nodes can always serve again.
* The reply handler never looks at the term its request was sent in (`raft_node.py:471-497`).
  * For a **success**, this is harmless in clusters of at most **four** nodes, and no assumption is made. For larger
    clusters, what depends on commit decisions needs the assumption that successes are handled in the term their request
    was sent in, and needs it for every such size: `LateAcks.SafeIffSmall` shows that without it committed entries are
    safe exactly in clusters of at most four. One leader per term, log matching, the append rules and backtracking do
    not need it, and are proved without.
  * For a **rejection**, safety is not at stake in any cluster, but one from an earlier term can send a leader past the
    end of its log, where it has no message for that peer (`raft_node.py:441` raises). This cannot happen as long as
    replies are handled in their request's term, nor in clusters of two; it can in any larger one
    (`LateRejection.NextInLogIffTwo`).
  * The code nearly rules out both: an RPC gives up after 2.0 s (`raft_node.py:466`), no sooner than which another
    election starts (`raft_node.py:17, 316`), so only a thread that is held up after its reply has arrived, before it
    takes the lock, can handle the reply that late.

### Where the documentation says more than the code keeps

* `part2_3_replication/KV.md:62-69` promises exactly-once writes. The bounded table keeps that promise exactly as long
  as fewer than `max_sessions` other clients have executed a request since; `KvSessions.RecognisedIffRecent` is an
  if-and-only-if.
* `part6_web/README.md:108-110` says that a write answered `NOT_LEADER` on every attempt was appended to no log. A leader
  that appended and was then deposed answers `NOT_LEADER` too (`raft_node.py:529`), and the entry may be carried out all
  the same: `WorkingRun.RefusedButApplied` is such a run. What holds is that a node that redirects at once appends
  nothing (`KvServer.KvServicer.BeginCommit`).
* `DesignDoc_P45.md:46` says every shard is owned by exactly one worker. An extra worker, beyond the planned number,
  that is dealt shards owns some a second time. For given shards and worker ids, training is gradient descent whatever
  the rows are if and only if the ids do not outnumber `num_workers` or the shards do not (`ExtraWorkers.DescentIffFits`);
  for given rows it is enough that no extra slot owns one.

## Model

Rows that speak of commit decisions, committed or applied entries, answers and reads are about runs in which
acknowledgements can be relied on (`s.h.trusted`, see above). All other rows about a cluster hold in every run.

| member | source | states |
|---|---|---|
| RaftServer.RaftServer.constructor | part2_3_replication/raft_node.py:37-65 | a started node has what was on disk and nothing else, and an empty state machine |
| RaftServer.RaftServer.HandleRequestVote | part2_3_replication/raft_node.py:184-206 | the vote handler, in its own form, leaves the node the step function says, and grants exactly if the term is not stale, no one else has the vote, and the candidate's last entry is no older than its own |
| RaftServer.RaftServer.CandidateLogUpToDate | part2_3_replication/raft_node.py:544-549 | compares the last entries by term, then by index |
| RaftServer.RaftServer.StartElection | part2_3_replication/raft_node.py:321-334 | a node that does not lead stands in the next term, votes for itself and announces its last entry; a leader does nothing |
| RaftServer.RaftServer.HandleVoteReply | part2_3_replication/raft_node.py:355-363 | a higher term deposes; otherwise each peer's grant counts once, and only in the election it was asked in |
| RaftServer.RaftServer.DecideElection | part2_3_replication/raft_node.py:377-386 | leads exactly if it is still a candidate of the election's term and has a majority of votes |
| RaftServer.RaftServer.BecomeLeader | part2_3_replication/raft_node.py:389-406 | the loop over peers resets both tables, and one no-op of the new term is appended |
| RaftServer.RaftServer.MakeAppend | part2_3_replication/raft_node.py:434-444 | the message for a peer carries everything from its next index on, and the term of the entry before |
| RaftServer.RaftServer.HandleAppendEntries | part2_3_replication/raft_node.py:208-276 | term check, step-down, consistency check, append loop and commit rule together give exactly the step function's node and reply |
| RaftServer.RaftServer.FindConflictStart | part2_3_replication/raft_node.py:244-248 | the downward scan finds where the run of the conflicting term begins |
| RaftServer.RaftServer.TakeEntries | part2_3_replication/raft_node.py:253-265 | the in-place loop over the entries leaves the merged log |
| RaftServer.RaftServer.HandleAppendReply | part2_3_replication/raft_node.py:471-497 | match, next and commit indices after a reply, whatever term its request was sent in |
| RaftServer.RaftServer.FindLastOfTerm | part2_3_replication/raft_node.py:489-494 | the downward scan finds the leader's last entry of the conflicting term, or 0 |
| RaftServer.RaftServer.AdvanceCommitIndex | part2_3_replication/raft_node.py:499-515 | commits the highest index above the commit index that more than half of the nodes match and whose entry is of the current term, wherever in the log it is |
| RaftServer.RaftServer.BecomeFollower | part2_3_replication/raft_node.py:518-529 | takes the term, forgets the vote even if the term is the same, and fails every waiter |
| RaftServer.RaftServer.FailAllWaiters | part2_3_replication/raft_node.py:531-542 | exactly the calls with a pending waiter learn that this node does not lead; no waiter is left |
| RaftServer.RaftServer.AppendEntry | part2_3_replication/raft_node.py:130-161 | a leader appends one entry of its term and leaves a waiter for it; any other node refuses and changes nothing |
| RaftServer.RaftServer.GiveUp | part2_3_replication/raft_node.py:172-176 | a timed-out call takes away its own waiter only |
| RaftServer.RaftServer.TakeBatch | part2_3_replication/raft_node.py:562-570 | the loop takes every committed entry not yet taken, in order |
| RaftServer.RaftServer.ApplyNext | part2_3_replication/raft_node.py:572-581 | applies the next entry of the batch to the state machine; no-ops are not run |
| RaftServer.RaftServer.ResolveWaiter | part2_3_replication/raft_node.py:583-596 | hands the result over only if term, client and number are those of the applied entry |
| NodeDuties.VoteGrantedIff | part2_3_replication/raft_node.py:184-206 | a vote is granted exactly if the candidate's term is not stale, no other candidate has this node's vote in it, and the candidate's last entry is of a later term, or of the same and no lower an index; it is then recorded |
| NodeDuties.VoteAnswered | part2_3_replication/raft_node.py:184-206 | the one answer to a vote request carries the term the voter is in afterwards, granted or not |
| NodeDuties.VoteCounted | part2_3_replication/raft_node.py:355-363 | a vote reply of no higher term counts in the running election it was asked in, the first time its voter is heard, and changes nothing else |
| NodeDuties.LeaderBegins | part2_3_replication/raft_node.py:389-406 | a new leader names itself, has its log with one no-op of its term more, matches all of it, and starts every peer at the no-op with nothing matched |
| NodeDuties.AppendAnswered | part2_3_replication/raft_node.py:208-276 | a message is accepted exactly if its term is not stale and the entry before its first is in the log; a stale one changes nothing, any other makes its sender the known leader, and no candidate stays one |
| NodeDuties.HigherTermDeposes | part2_3_replication/raft_node.py:518-542 | a higher term in a vote request, a vote reply or an append reply makes any node its follower, with its waiting calls refused and nothing else changed |
| NodeDuties.CommitsHighest | part2_3_replication/raft_node.py:499-515 | the commit index moves to the highest index of the current term that more than half of the nodes match, wherever in the log that is, and never to another |
| NodeDuties.AcknowledgementCounts | part2_3_replication/raft_node.py:471-483 | an acknowledgement counts exactly as far as its request reached, touches no other peer's entry, and commits at once whatever is then held by more than half |
| NodeDuties.ClientEntry | part2_3_replication/raft_node.py:132-161 | a client's entry is next in line and of the leader's term, counts as held by the leader, and has a waiter with its identity |
| NodeDuties.ResolvesByIdentity | part2_3_replication/raft_node.py:583-596 | an applied entry hands its result to the waiter at its index if term, client and number are the same, refuses it if any differs, and touches no other |
| RaftLog.LogMatching | part2_3_replication/raft_node.py:235-265 | logs that agree on the term at an index agree on every entry up to it |
| RaftLog.MergeShape | part2_3_replication/raft_node.py:253-265 | the append loop leaves a log that has all the entries alone, and otherwise cuts at the first entry of another term and nowhere earlier |
| RaftLog.MergeTakesIn | part2_3_replication/raft_node.py:241-265 | after the consistency check, the loop leaves the leader's entries up to the end of the message, cutting only at a real conflict with the leader's log |
| RaftCoreVotes.CampaignKeeps | part2_3_replication/raft_node.py:321-334 | standing for election keeps the core invariant |
| RaftCoreVotes.GrantKeeps | part2_3_replication/raft_node.py:192-202 | granting a vote keeps it, although the voter may have voted before in the same term |
| RaftCoreVotes.YieldKeeps | part2_3_replication/raft_node.py:226-229 | a candidate's step-down that forgets its vote keeps it |
| RaftCoreVotes.UpToDateCarries | part2_3_replication/raft_node.py:544-549 | a candidate's log that passes the comparison holds every settled entry its voter has acknowledged |
| RaftCoreLedgers.FirstOfItsTerm | part2_3_replication/raft_node.py:377-386 | a candidate with a majority is the first leader of its term |
| RaftCoreLedgers.LeadKeeps | part2_3_replication/raft_node.py:389-406 | becoming leader keeps the core invariant: the new leader has every settled entry of every earlier term |
| RaftCoreLedgers.ExtendKeeps | part2_3_replication/raft_node.py:136-152 | a leader's own append keeps it |
| RaftCoreCommits.AcceptKeepsSettled | part2_3_replication/raft_node.py:253-265 | a follower's truncation never cuts an entry it has acknowledged that can still be, or has been, committed |
| RaftCoreCommits.AcceptVouched | part2_3_replication/raft_node.py:253-273 | truncation never reaches the follower's commit index |
| RaftCoreCommits.AcceptKeeps | part2_3_replication/raft_node.py:208-276 | taking in a message keeps the core invariant |
| RaftCoreCommits.MarksComparable | part2_3_replication/raft_node.py:499-515 | of any two commit decisions, whoever made them, one prefix contains the other |
| RaftCoreCommits.DecreeKeeps | part2_3_replication/raft_node.py:507-515 | committing an index of the current term that a majority holds keeps the core invariant |
| ClusterVotes.ElectKeeps | part2_3_replication/raft_node.py:321-334 | an election's start keeps the cluster invariant |
| ClusterVotes.VoteRequestKeeps | part2_3_replication/raft_node.py:184-206 | so does a vote request |
| ClusterVotes.VoteReplyKeeps | part2_3_replication/raft_node.py:355-363 | so does a vote reply; the integer count never exceeds the peers that really voted |
| ClusterVotes.DecideKeeps | part2_3_replication/raft_node.py:377-386 | so does the end of an election |
| ClusterAppends.SentAppendOk | part2_3_replication/raft_node.py:434-444 | a sent message is a stretch of the leader's log to its end, and announces no commit index beyond it |
| ClusterAppends.TakenIn | part2_3_replication/raft_node.py:235-265 | a follower that accepts has the leader's log of that term up to the end of the message |
| ClusterAppends.LearntVouched | part2_3_replication/raft_node.py:270-273 | the commit index a follower takes over is committed in its own log, and is the announced one |
| ClusterAppends.AppendKeeps | part2_3_replication/raft_node.py:208-276 | an append message keeps the cluster invariant, accepted or not |
| ClusterReplies.LateAckHarmless | part2_3_replication/raft_node.py:471-483 | in clusters of at most four, what an earlier term's acknowledgement covers is in the leader's log and none of it is of the current term |
| ClusterReplies.RecordMatchOk | part2_3_replication/raft_node.py:478-482 | every entry of the current term that the match table counts for a peer was acknowledged by that peer in this term |
| ClusterReplies.CommittableHeld | part2_3_replication/raft_node.py:507-511 | an index the commit loop accepts is held by a true majority |
| ClusterReplies.AppendReplyKeeps | part2_3_replication/raft_node.py:471-497 | a reply keeps the cluster invariant: a success handled in its request's term, any success in a cluster of at most four or in a run that does not rely on acknowledgements, and any rejection |
| ClusterReplies.CallKeeps | part2_3_replication/raft_node.py:132-161 | so does a client's append |
| ClusterClients.ResolveAnswers | part2_3_replication/raft_node.py:583-596 | the call that is answered is the one that appended the very entry applied, and gets that entry's result |
| ClusterClients.CrashKeeps | part2_3_replication/raft_node.py:623-636 | crash and restart keep the cluster invariant |
| ClusterSafety.ReachableInv | part2_3_replication/raft_node.py:184-636 | the cluster invariant holds in every reachable state; its part about commits, applying and answers wherever acknowledgements can be relied on |
| ClusterSafety.ElectionSafety | part2_3_replication/raft_node.py:321-386 | in every run, at most one node ever leads a term: a leader now and a leader of that term at any later time are the same node |
| ClusterSafety.LogsMatch | part2_3_replication/raft_node.py:235-265 | in every reachable state of every run, entry `i` sits at index `i + 1`, and two logs with the same term at an index are equal up to it |
| ClusterSafety.StateMachineSafety | part2_3_replication/raft_node.py:559-596 | what any two nodes have applied since their last restarts, at any two times of a run, is one a prefix of the other; applied and taken entries are exactly the log up to the last applied index |
| ClusterSafety.LeaderCompleteness | part2_3_replication/raft_node.py:499-515 | every leader of the deciding or a later term, at that or any later time of a run, has everything a commit decision covered |
| ClusterSafety.LeaderHasCommitted | part2_3_replication/raft_node.py:196-202 | what any node has committed is in the log of every leader of the node's term or a later one, at that or any later time of a run |
| ClusterSafety.MessagesCoverCommit | part2_3_replication/raft_node.py:434-444 | every message ever sent satisfies commit <= prev + entries, and what it announces is committed |
| ClusterSafety.CommitNeverCut | part2_3_replication/raft_node.py:257-273 | no event changes a log at or below the node's commit index, and only a crash lowers that index |
| DelayedMessages.AppendNonDestructive | part2_3_replication/raft_node.py:253-265 | in every run, an accepted message never removes an entry shared with the leader's log, and changes nothing when all its entries are there |
| DelayedMessages.LateAppendHarmless | part2_3_replication/raft_node.py:208-276 | in every run, a delayed or repeated message of the current term, reaching no further than what was acknowledged in it, is accepted and leaves the log as it is |
| LateAcks.LateAcksLoseCommit | part2_3_replication/raft_node.py:471-483 | for every number of nodes from five on, a run with two late acknowledgements ends with a committed entry missing from the leader of a later term |
| LateAcks.OneLateAckLosesCommit | part2_3_replication/raft_node.py:471-483 | if the number is odd, one late acknowledgement is enough |
| LateAcks.SafeIffSmall | part2_3_replication/raft_node.py:471-515 | with no assumption on when replies are handled, every leader of a node's term or a later one holds what the node has committed, in every state of every run, if and only if there are at most four nodes |
| Backtracking.HandlersBacktrack | part2_3_replication/raft_node.py:484-497 | one round trip of the handlers, with the leader's log growing between message and reply, is one step of the search and leaves the follower's log alone |
| Backtracking.RetryFound | part2_3_replication/raft_node.py:488-495 | if the leader has the conflicting term, the next try is exactly one past the common prefix, and is not rejected |
| Backtracking.RetrySkips | part2_3_replication/raft_node.py:241-251 | if it has not, the next try skips every entry of that term and stays past the common prefix |
| Backtracking.RetryProgress | part2_3_replication/raft_node.py:484-497 | every rejection strictly lowers the next index, never below the common prefix plus one |
| Backtracking.RoundIsRetry | part2_3_replication/raft_node.py:488-495 | entries the leader appends meanwhile do not change where a rejection moves the next index |
| Backtracking.SearchBounded | part2_3_replication/raft_node.py:235-251 | over any rounds of the three handlers in one leadership term, the leader appending at will, every rejection strictly lowers the next index, never below the common prefix plus one, and the rejections are no more than those of the search over the logs at its start |
| Backtracking.SearchBoundedInClusters | part2_3_replication/raft_node.py:235-251 | from any reachable state in which a node leads, wherever its next index points, such rounds with any other node contain at most one rejection more than the distinct terms past the common prefix in the follower's log |
| Backtracking.SearchesExist | part2_3_replication/raft_node.py:235-251 | such rounds exist: a follower with an empty log rejects a leader that appends meanwhile |
| NextIndex.NextInLogInTime | part2_3_replication/raft_node.py:434-497 | as long as replies are handled in the term of their request, no leader's next index for any member is ever past the end of its log plus one |
| NextIndex.InLogSends | part2_3_replication/raft_node.py:434-444 | while that is so, every leader has a message for every peer |
| LateRejection.LateRejectionPastLog | part2_3_replication/raft_node.py:484-497 | with three nodes or more, a run in which no success is handled late, but a rejection is, leaves a leader whose next index for a peer points past its log, so that it has no message for it |
| LateRejection.NextInLogIffTwo | part2_3_replication/raft_node.py:434-497 | next indices stay within leaders' logs in every run, whenever replies are handled, if and only if there are at most two nodes |
| ClusterRecovery.MajorityServes | part2_3_replication/raft_node.py:130-515 | from every reachable state, any group of at least two and more than half of the nodes can elect one of them, bring the others up to date whatever their logs hold, and answer a client, with everybody else standing still |
| ClusterRecovery.AlwaysServesIff | part2_3_replication/raft_node.py:130-515 | this is always possible, in every state of every run and for every such group, if and only if the cluster has two nodes or more |
| WorkingRun.WriteAnswered | part2_3_replication/raft_node.py:130-181 | the transition system can serve: a run in which a leader is elected and a client's write is replicated, committed, applied and answered |
| WorkingRun.RefusedButApplied | part2_3_replication/raft_node.py:518-542 | a run in which a call ends with "not leader" although its own entry is committed and applied |
| ClientGuarantees.NoFalseSuccess | part2_3_replication/raft_node.py:168-181 | a call that returned normally has its own entry committed at its index for ever, and returned the result of applying it after exactly the committed entries before it |
| ClientGuarantees.WaitersLead | part2_3_replication/raft_node.py:525-542 | a call waits only while its node leads in the call's term with the entry in its log |
| CallEndings.CallEnds | part2_3_replication/raft_node.py:168-181 | a call ends in one of three ways, each for its own reason: answered when its own entry is applied, refused when its node stops leading the entry's term, timed out when its wait runs out |
| CallEndings.LeaderHint | part2_3_replication/raft_node.py:85-92 | the leader a node names, and redirects clients to, has led a term the node has seen; a leader names itself |
| ClientGuarantees.LinearizableRead | part2_3_replication/raft_kv_server.py:118-133 | a read behind its barrier sees the state after a committed prefix that contains everything committed anywhere, and all any node had applied, when the read began |
| ClientGuarantees.WritesInOrder | part2_3_replication/raft_node.py:130-181 | if a call has returned normally before another is made, at any node, and that one returns too, the first one's entry has the smaller index and both stay committed |
| ExactlyOnce.ReadSeesAcknowledged | part2_3_replication/raft_kv_server.py:118-133 | a read sees every request acknowledged before it began, on any node, by a returned call or from a session table: in the prefix it looks at, the request has run, with that very result, or a newer one if the acknowledgement was "stale" |
| ExactlyOnce.ReadSeesReturned | part2_3_replication/raft_kv_server.py:118-133 | the same for untracked requests: the entry of every call that had returned normally is in the prefix the read looks at |
| ExactlyOnce.CommittedOnce | part2_3_replication/kv_state_machine.py:58-75 | a later committed copy of an executed request runs again only if at least `max_sessions` other clients have executed since, and exactly then as long as the client has not moved on; how many clients the log holds in all is immaterial |
| ExactlyOnce.RetriesAgree | part2_3_replication/raft_kv_server.py:61-80 | two normally returned calls for one request retried within its window, on any nodes at any times, return the same result; one returns "stale" only if the client has a newer request committed and executed, so every retry of its latest request returns the first result |
| ExactlyOnce.LookupIsCommitted | part2_3_replication/kv_state_machine.py:146-156 | any node's session answer is that of an executed, committed copy of the request, or "stale" for a newer one |
| ExactlyOnce.AcknowledgedRan | part2_3_replication/raft_kv_server.py:61-80 | behind every acknowledgement, by either route, is an executed committed request of the client: this one, with this result, or, if "stale", a newer one; no bound on clients is assumed |
| ExactlyOnce.AcknowledgedOnce | part2_3_replication/raft_kv_server.py:61-80 | all acknowledgements of a request retried within its window, over a whole run, carry one result; each is "stale" instead only if by then the client had moved on |
| KvServer.KvServicer.BeginCommit | part2_3_replication/raft_kv_server.py:61-78 | a known request is answered without touching the node; only a leader appends, once |
| KvServer.SuccessIsCommitted | part2_3_replication/raft_kv_server.py:73-80 | a success reply is worth this: the call's own entry is committed at its index for the rest of the run, and the result is that of running the command right after exactly the committed entries before it |
| KvServer.KvServicer.EndCommit | part2_3_replication/raft_kv_server.py:73-80 | the reply says whether the call still waits, was refused, ran out of time or succeeded; at a node of a cluster a success means that the call's own entry is carried out, whatever happens next |
| KvServer.KvServicer.BeginGet | part2_3_replication/raft_kv_server.py:118-130 | a linearizable read appends a no-op where this node leads and is refused otherwise |
| KvServer.KvServicer.ReadKey | part2_3_replication/raft_kv_server.py:131-133 | the reply holds the key's live value and version in the applied state |
| KvMachine.KvStateMachine.constructor | part2_3_replication/kv_state_machine.py:45-54 | a new state machine is empty |
| KvMachine.KvStateMachine.Apply | part2_3_replication/kv_state_machine.py:58-75 | the object applies a command as the specification function does; a remembered request changes nothing |
| KvMachine.KvStateMachine.ApplyOp | part2_3_replication/kv_state_machine.py:77-117 | the three operations' effect on values and tombstones, and their results; the command's key changes as a single register would and no other key changes |
| KvMachine.KvStateMachine.Write | part2_3_replication/kv_state_machine.py:119-124 | the new version continues the key's last one, live or deleted, and the tombstone goes |
| KvMachine.KvStateMachine.SessionResult | part2_3_replication/kv_state_machine.py:127-137 | the loop finds the client's session; an older number is "stale", a newer one unknown |
| KvMachine.KvStateMachine.Remember | part2_3_replication/kv_state_machine.py:139-144 | the client moves to the recent end, and eviction from the other end stops at the bound |
| KvMachine.KvStateMachine.LookupSession | part2_3_replication/kv_state_machine.py:146-156 | untracked requests are never known |
| KvMachine.KvStateMachine.Get | part2_3_replication/kv_state_machine.py:159-164 | a key's live value and version, or not found with version 0 |
| KvMachine.KvStateMachine.Snapshot | part2_3_replication/kv_state_machine.py:167-178 | the document taken restores to this very state |
| KvMachine.KvStateMachine.Restore | part2_3_replication/kv_state_machine.py:180-191 | succeeds exactly on documents that decode; one with a malformed value changes nothing, one with only a malformed session leaves new values and tombstones and the old sessions |
| KvVersions.SoundForever | part2_3_replication/kv_state_machine.py:77-124 | live keys and tombstones stay disjoint and versions positive over any log |
| KvVersions.VersionsDense | part2_3_replication/kv_state_machine.py:119-124 | the versions given to a key over any log are consecutive, through deletes and re-creations |
| KvVersions.SameVersionSameHistory | part2_3_replication/kv_state_machine.py:82-124 | the same version seen live at two points means that no command in between wrote or deleted the key |
| KvVersions.VersionCasSwapsOnce | part2_3_replication/kv_state_machine.py:91-114 | at most one compare-and-swap per key and expected version ever swaps |
| KvHistory.OperatesOnRegister | part2_3_replication/kv_state_machine.py:77-124 | one operation changes its own key's value and count of writes as a put, delete or compare-and-swap of a single register would, and no other key |
| KvHistory.StoreIsRegisters | part2_3_replication/kv_state_machine.py:77-124 | after any log, what a read finds under a key is a register of that key alone: the value last put or swapped in and not deleted since, with the number of its writes as version |
| KvHistory.ResultIsRegisters | part2_3_replication/kv_state_machine.py:77-117 | and a client whose command runs is told what that register says: the new version, whether the key was there, or whether the swap took effect and what the key holds |
| KvHistory.LastWriteWins | part2_3_replication/kv_state_machine.py:77-124 | a read finds the value of the last executed put or swap of the key that no later executed command touched; it finds nothing exactly if each of them has a later executed delete |
| KvSessions.SessionTableIsLru | part2_3_replication/kv_state_machine.py:127-144 | after any log, the table is the last executed request of each of the most recent clients, in order of execution |
| KvSessions.LookupByTable | part2_3_replication/kv_state_machine.py:127-156 | a lookup finds nothing for an untracked request or one newer than its client's entry in the table, the stored answer for the same number, and "stale" for an older one |
| KvSessions.TableBounded | part2_3_replication/kv_state_machine.py:139-144 | the table never exceeds its bound and holds each client once |
| KvSessions.RetryAnswered | part2_3_replication/kv_state_machine.py:58-75 | within the window, a repeat never runs again and is answered with the first result, or "stale" exactly if the client moved on |
| KvSessions.RecognisedIffRecent | part2_3_replication/kv_state_machine.py:127-144 | a client's latest request is recognised if and only if fewer than the bound of other clients have executed since; otherwise a retry runs again |
| KvSessions.ExecutedOnce | part2_3_replication/kv_state_machine.py:66-75 | with room for every client, a request executes at most once over any log |
| KvDedup.ExecutesIffFresh | part2_3_replication/kv_state_machine.py:66-75 | with room for every client, a tracked command runs if and only if its number exceeds all earlier ones of its client |
| KvDedup.DedupIsFiltering | part2_3_replication/kv_state_machine.py:58-75 | the store after a log is the store after running only the fresh and untracked commands, with no session table |
| KvDedup.SameRequestSameAnswer | part2_3_replication/kv_state_machine.py:66-75 | with room for every client, every later copy of a request gets the first copy's answer, or "stale" behind a newer executed request |
| KvDedup.AnswerSource | part2_3_replication/kv_state_machine.py:66-75 | the answer at any log position is that of the executed copy of the request; it is "stale" only behind an executed request of the same client with a larger number |
| KvDedup.CopiesAgree | part2_3_replication/kv_state_machine.py:66-75 | copies of a request that come within its window all get one answer, or "stale" behind a newer executed request |
| KvDedup.RoomIsInTime | part2_3_replication/kv_state_machine.py:139-144 | with room for every client, every copy of a request comes within its window |
| KvDedup.LookupIsAnAnswer | part2_3_replication/kv_state_machine.py:146-156 | a session lookup gives the answer an executed copy of the request got |
| Base64.DecodeEncode | part2_3_replication/kv_state_machine.py:33-41 | every byte string survives being encoded as base64 text and decoded |
| Base64.GroupIsBits | part2_3_replication/kv_state_machine.py:33-41 | three bytes become four characters that spell their 24 bits, six at a time, first byte first |
| Base64.Alphabet | part2_3_replication/kv_state_machine.py:33-41 | the characters are the standard alphabet: upper case, lower case, digits, + and / |
| Base64.TestVectors | part2_3_replication/kv_state_machine.py:33-41 | the encoding of the empty string to six bytes, padding included, is that of section 10 of RFC 4648 |
| Base64.DecodesInFours | part2_3_replication/kv_state_machine.py:33-41 | text that is not in whole groups of four does not decode |
| KvSnapshot.DecodeEncodeResult | part2_3_replication/kv_state_machine.py:33-41 | a result dictionary survives its JSON form if and only if it holds no dictionary that already looks encoded |
| KvSnapshot.RestoreSnapshot | part2_3_replication/kv_state_machine.py:167-191 | values, versions, tombstones, session results and eviction order all come back |
| KvSnapshot.SnapshotTransparent | part2_3_replication/kv_state_machine.py:167-191 | prefix, snapshot, restore and suffix give the state, and the next result, of the whole log |
| Training.SlicesPartition | part4_5_compute/ml_coordinator.py:105 | whatever is summed over shards, the strided slices count every shard exactly once |
| Training.ExtraSliceRepeats | part4_5_compute/ml_coordinator.py:105 | a slot beyond the planned ones repeats shards, unless there is none left for it |
| GradientLaws.DotIsInner | part4_5_compute/ml_worker.py:73-81 | the loop's dot product is the inner product of weights and features |
| GradientLaws.RowGradient | part4_5_compute/ml_worker.py:73-81 | one row's gradient is its features times the sigmoid at that inner product minus the label |
| GradientLaws.SingleWeightGradient | part4_5_compute/ml_worker.py:73-81 | at weights with one component other than zero, the sigmoid is asked at that weight times its feature |
| GradientLaws.GradientAdds | part4_5_compute/ml_worker.py:73-81 | the gradient of some rows and some more is the sum of the two |
| GradientLaws.GradientMonotone | part4_5_compute/ml_worker.py:73-81 | for any sigmoid that never decreases and any rows, the gradient is monotone: the inner product of a step with the change of the gradient along it is never negative, as for a convex loss |
| GradientLaws.LoadTwice | part4_5_compute/ml_worker.py:54-71 | loading the same shards again adds no row |
| GradientLaws.ResponseTaken | part4_5_compute/ml_worker.py:99-116 | for every epoch it has not computed, a worker with shards is ready to report the gradient of its rows at the weights it was sent, once; an end stops it |
| TrainingSafety.BarrierCovers | part4_5_compute/ml_coordinator.py:120-137 | when the barrier opens, and no extra slot owns a row, the collected totals and counts are those of all rows of all shards |
| TrainingSafety.BarrierDescends | part4_5_compute/ml_coordinator.py:130-141 | the barrier's step is then one step of full-batch gradient descent |
| TrainingSafety.HandleKeeps | part4_5_compute/ml_coordinator.py:96-118 | any request, however old or often repeated, keeps the coordinator's invariant and gets a correct response, unless it closes an epoch in which an extra slot owns a row |
| TrainingSafety.TakeShardsKeeps | part4_5_compute/ml_worker.py:54-71 | a worker handed its slice has exactly the rows of that slice, each once |
| TrainingSafety.ReceiveKeeps | part4_5_compute/ml_worker.py:99-116 | after any response, what a worker is about to report is its slice's gradient at the reported epoch's weights |
| TrainingSafety.TrainingIsDescent | part4_5_compute/ml_coordinator.py:96-152 | if no slot beyond the planned ones owns a row, then over every run the weights are the epoch-th iterate of gradient descent, and training ends exactly at the last epoch |
| TrainingSafety.NothingBlocked | part4_5_compute/ml_worker.py:83-118 | however many workers there are, the transition system's side conditions never hold back a request or a response |
| TrainingProgress.HeartbeatAdds | part4_5_compute/ml_coordinator.py:96-118 | while an epoch lasts, a heartbeat adds at most its sender's next slot and its sender's first report for the epoch, and touches nobody else's |
| TrainingProgress.CanAlwaysFinishIff | part4_5_compute/ml_coordinator.py:96-152 | from every reachable state, whatever has died or got lost, training can run on to exactly its last epoch, if and only if there are as many worker ids as workers planned and there is a shard |
| ExtraWorkers.CountedOnce | part4_5_compute/ml_coordinator.py:120-137 | a barrier counts every row once if and only if no slot beyond the planned ones owns a row |
| ExtraWorkers.ExtraWorkerSkews | part4_5_compute/ml_coordinator.py:101-141 | for any number of planned workers, more shards than that and more worker ids than that, and any sigmoid that is one half at 0, some rows let a reachable state have weights that are no iterate |
| ExtraWorkers.DescentIffFits | part4_5_compute/ml_coordinator.py:96-152 | for given shards, planned number and worker ids, the weights are an iterate in every reachable state for all rows if and only if the ids do not outnumber the plan or the shards do not |
| TrainingServers.MLCoordinator.constructor | part4_5_compute/ml_coordinator.py:54-69 | training starts at zero weights and epoch 0 |
| TrainingServers.MLCoordinator.Contributors | part4_5_compute/ml_coordinator.py:92-93 | the shard-owning workers in registration order |
| TrainingServers.MLCoordinator.Aggregate | part4_5_compute/ml_coordinator.py:130-137 | the accumulation loops compute every component's total and the row count, skipping gradients of the wrong length |
| TrainingServers.MLCoordinator.MaybeStep | part4_5_compute/ml_coordinator.py:120-152 | steps exactly if every worker is registered and every owner has reported; then the whole new state |
| TrainingServers.MLCoordinator.HandleHeartbeat | part4_5_compute/ml_coordinator.py:96-118 | registration, collection, step and response together are the protocol's function |
| TrainingServers.MLWorker.LoadShards | part4_5_compute/ml_worker.py:54-71 | appends the rows of the shards not read before |
| TrainingServers.MLWorker.Gradient | part4_5_compute/ml_worker.py:73-81 | the nested loops compute the gradient of the loaded rows and their number; for one row that is its features times its error |
| TrainingServers.MLWorker.NextRequest | part4_5_compute/ml_worker.py:87-92 | a computed gradient is sent again until it is replaced |
| TrainingServers.MLWorker.OnResponse | part4_5_compute/ml_worker.py:99-116 | one pass of the loop body is the protocol's function |
| Redirects.RedirectFollowed | part6_web/gateway/clients/raft_cluster.py:212-219 | from the text a server writes, the gateway finds the node it points to: by address if known, else by an id in range, else none |
| Redirects.RedirectByField | part6_web/gateway/clients/raft_cluster.py:186 | a refusal is a redirect exactly if its first field, before a colon, says that the node does not lead |
| Redirects.ByAddressExact | part6_web/gateway/clients/raft_cluster.py:212-219 | among different addresses, the lookup finds the very node an address belongs to |
| Redirects.MessageSplits | part2_3_replication/raft_kv_server.py:57-59 | the three fields of the text come back, colons inside the address included |
| Gateway.CandidateIsNearest | part6_web/gateway/clients/raft_cluster.py:221-226 | the next node is the nearest that has not failed; none is left only if all have failed |
| Gateway.RedirectTaken | part6_web/gateway/clients/raft_cluster.py:189-219 | a redirect to another node that has not failed is followed there, by address or else by id, with the failures kept, unless three have been followed in a row |
| Gateway.FailsOver | part6_web/gateway/clients/raft_cluster.py:221-228 | after any other retryable reply the next node is the nearest in order that has not failed; if all have, the failures are forgotten and it is the very next |
| Gateway.NeverRecontacted | part6_web/gateway/clients/raft_cluster.py:189-199 | at every attempt the node contacted is none of those that failed since the last clear |
| Gateway.AllFailedBetween | part6_web/gateway/clients/raft_cluster.py:221-228 | between two contacts of a node of which the first failed, every node failed since the last clear |
| Gateway.NoFourRedirects | part6_web/gateway/clients/raft_cluster.py:189-196 | whatever the replies, of any four attempts in a row at least one does not end with a redirect that is followed |
| Gateway.RedirectRun | part6_web/gateway/clients/raft_cluster.py:189-196 | the counter before an attempt is the length of the run of followed redirects right before it |
| Gateway.AfterPause | part6_web/gateway/clients/raft_cluster.py:200-204 | every pause, at the least jitter, uses up one of the pauses that still fit before the deadline |
| Gateway.PausesByDeadline | part6_web/gateway/clients/raft_cluster.py:156-204 | how many pauses fit before any deadline: four while the backoff doubles, then one per quarter second |
| GatewayClient.PausesSpread | part6_web/gateway/clients/raft_cluster.py:200 | the jitter spreads pauses evenly from half the backoff to all of it |
| GatewayClient.RaftCluster.NextNode | part6_web/gateway/clients/raft_cluster.py:221-228 | the loop finds the nearest node that has not failed, or clears the failures |
| GatewayClient.RaftCluster.Call | part6_web/gateway/clients/raft_cluster.py:154-210 | the loop terminates; attempts are at most four times one more than the pauses that fit; only a final reply ends it early, and it gives up only when no time is left for another pause; a write with a failed attempt is never reported as not applied; the leader hint moves only to the node that answered |

## Left out

Assumptions of the model:

- In clusters of five nodes and more, what depends on commit decisions is proved for runs in which successes are handled in their request's term (`Cluster.Allowed`), as stated above.
- A call counts as returned once its waiter is resolved; a wait that runs out at that very moment may still turn it into a timeout, at any later time in the model.
- State is on disk at the end of each locked region; a crash in the middle of a write is not modelled.
- `apply_fn` is set and total; an exception inside it is not modelled.
- Integers are unbounded, where the wire format has 64 bits.
- A leader whose next index for a peer points past its log raises in the source; here it sends nothing. (`NextIndex.dfy` says when this can happen. A next index of 0 never occurs.)
- Base64 is modelled in full; JSON text, hex and protobuf are taken to be lossless, and a snapshot is the tree its JSON text stands for.
- The gateway's replies, clock delays and jitter are parameters. The clock is only assumed never to run backwards and to advance by at least each sleep.
- Training is over the reals, with the sigmoid as a parameter; every row is assumed to have the coordinator's dimension, and shard files to be readable and to have distinct names. Reading a shard is one step.

Parts of the repository that are not modelled:

- `handle_install_snapshot` (`raft_node.py:278-309`): nothing sends it, and it breaks the layout by which entry `i` sits at index `i + 1`, which is proved of everything else.
- The reading "503 means nothing was applied" (`part6_web/README.md:108-110`), which is false (`WorkingRun.RefusedButApplied`). Of a call that gives up, only what is stated for `GatewayClient.RaftCluster.Call` is proved.
- Liveness of elections and of replication, which depends on timing and randomness; timers, heartbeat threads and logging. What is proved is that a good run is always possible (`ClusterRecovery.AlwaysServesIff`, `TrainingProgress.CanAlwaysFinishIff`).
- The coordinator's `restore` and checkpoints: after a restore a worker given other shards keeps its old rows.
- Malformed compare-and-swap payloads, which raise inside `apply_fn`.
- KvMachine.KvStateMachine.Restore: counts base64 text with characters outside the alphabet as malformed, where the source's decoder skips such characters; text the source itself writes has none.
- The `_snapshot` operation inside `apply`, which only an installed snapshot would use.
- Digits outside ASCII in redirect ids, which `isdigit` accepts.
- Primary-backup replication, the file servers and their clients, the encrypted transport, the file-system servicer on top of Raft, and the web routes, schemas and ETag helpers: input and output, or only easy claims.
