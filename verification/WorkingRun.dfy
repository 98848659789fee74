/**
 The transition system can do what a cluster is for: a run of two nodes in which one is elected, a client's write is
 replicated, committed and applied, and the client is answered.  In another run of the two, the client is told that the
 node does not lead, and its write is committed and applied all the same.
 */
module WorkingRun {
  import opened Wrappers
  import opened RaftLog
  import opened Quorums
  import opened RaftCore
  import opened RaftNode
  import opened Cluster
  import opened ClusterInv
  import opened ClusterSafety
  import Kv = KvState

  const WRITE := Kv.Command(Kv.Put([]), "key", "client", 1)
  const FIRST := Entry(1, 1, NOOP)
  const SECOND := Entry(1, 2, WRITE)
  const ASK := VoteRequest(1, 0, 0, 0)
  const GRANTED := VoteReply(ASK, 1, 1, true)
  const CANDIDATE := FRESH.(role := Candidate, term := 1, vote := Some(0), election := Some(Election(1, 1, {1})))
  const ELECTABLE := CANDIDATE.(election := Some(Election(1, 2, {})))
  const VOTER := FRESH.(term := 1, vote := Some(0))
  const LEADER := FRESH.(role := Leader, term := 1, vote := Some(0), leaderId := Some(0), log := [FIRST],
                         next := map[1 := 1, 0 := 2], matched := map[1 := 0, 0 := 1])
  const ASKED := LEADER.(log := [FIRST, SECOND], next := map[1 := 1, 0 := 3], matched := map[1 := 0, 0 := 2],
                         waiters := map[2 := Waiter(1, "client", 1, 0)], calls := [RaftNode.Call(SECOND, Waiting)])
  const SHIPPED := AppendRequest(1, 0, 1, 0, 0, [FIRST, SECOND], 0)
  const HELD := AppendReply(SHIPPED, 1, true, 0, 0)
  const FOLLOWER := VOTER.(leaderId := Some(0), log := [FIRST, SECOND])
  const COMMITTED := ASKED.(next := map[1 := 3, 0 := 3], matched := map[1 := 2, 0 := 2], commit := 2)
  const TAKEN := COMMITTED.(lastApplied := 2, queue := [(1, FIRST), (2, SECOND)])
  const HALFWAY := TAKEN.(queue := [(2, SECOND)], applied := [FIRST])

  // The other run: node 1 takes over before node 0 has heard that its write is replicated.
  const THIRD := Entry(2, 3, NOOP)
  const ASK_AGAIN := VoteRequest(2, 1, 2, 1)
  const GRANTED_AGAIN := VoteReply(ASK_AGAIN, 0, 2, true)
  const RIVAL := FOLLOWER.(role := Candidate, term := 2, vote := Some(1), leaderId := None,
                           election := Some(Election(2, 1, {0})))
  const RIVAL_ELECTABLE := RIVAL.(election := Some(Election(2, 2, {})))
  const DEPOSED := ASKED.(role := Follower, term := 2, vote := Some(1), waiters := map[],
                          calls := [RaftNode.Call(SECOND, NotLeader)])
  const SUCCESSOR := RIVAL.(role := Leader, leaderId := Some(1), election := None, log := [FIRST, SECOND, THIRD],
                            next := map[0 := 3, 1 := 4], matched := map[0 := 0, 1 := 3])
  const SHIPPED_BACK := AppendRequest(2, 1, 0, 2, 1, [THIRD], 0)
  const HELD_BACK := AppendReply(SHIPPED_BACK, 2, true, 0, 0)
  const JOINED := DEPOSED.(leaderId := Some(1), log := [FIRST, SECOND, THIRD])
  const SETTLED := SUCCESSOR.(next := map[0 := 4, 1 := 4], matched := map[0 := 3, 1 := 3], commit := 3)
  const SETTLED_TAKEN := SETTLED.(lastApplied := 3, queue := [(1, FIRST), (2, SECOND), (3, THIRD)])

  // ------------------------------------------------------ what each handler does

  lemma Stood()
    ensures StartElection(FRESH, 0, {1}) == CANDIDATE
    ensures HandleVoteRequest(FRESH, ASK) == (VOTER, true)
    ensures HandleVoteReply(CANDIDATE, GRANTED) == ELECTABLE
  {
    assert FailCalls([], map[]) == [];
    assert {1} - {1} == {};
  }

  lemma Elected()
    ensures DecideElection(ELECTABLE, 0, {1}) == LEADER
  {
    hide Reset;
    ResetOne(1);
    ResetOne(0);
    assert [] + [FIRST] == [FIRST];
  }

  lemma ResetOne(value: nat)
    ensures Reset(map[], {1}, value) == map[1 := value]
  {
  }

  lemma Shipped()
    ensures MakeAppend(ASKED, 0, 1) == Some(SHIPPED)
  {
    hide MakeAppend;
    assert 1 in ASKED.next && ASKED.next[1] == 1;
    WholeLog(ASKED, 0, 1);
  }

  lemma WholeLog(x: Node, me: nat, to: nat)
    requires x.role.Leader? && to in x.next && x.next[to] == 1
    ensures MakeAppend(x, me, to) == Some(AppendRequest(x.term, me, to, 0, 0, x.log, x.commit))
  {
    assert x.log[0..] == x.log;
  }

  lemma Written()
    ensures Append(LEADER, 0, WRITE) == ASKED
  {
    assert [FIRST] + [SECOND] == [FIRST, SECOND];
    assert LastIndex([FIRST]) == 1;
  }

  lemma Replicated()
    ensures LaidOut(VOTER.log) && HandleAppend(VOTER, SHIPPED) == (FOLLOWER, HELD)
  {
    hide Merge;
    MergeAtEnd([], [FIRST, SECOND]);
    assert [] + [FIRST, SECOND] == [FIRST, SECOND];
  }

  lemma Counted()
    ensures HandleAppendReply(ASKED, 2, HELD) == COMMITTED
  {
    var x := RecordMatch(ASKED, 1, 2);
    assert x.matched == map[1 := 2, 0 := 2];
    assert Reached(x.matched, 2) == {0, 1};
    assert Committable(x, 2, 2);
  }

  lemma Answering(max: nat)
    ensures TakeBatch(COMMITTED) == TAKEN
    ensures ApplyNext(TAKEN, max).resolving.Some? && ApplyNext(TAKEN, max).log == [FIRST, SECOND]
    ensures ApplyNext(HALFWAY, max).resolving.Some? && ApplyNext(HALFWAY, max).log == [FIRST, SECOND]
    ensures Resolve(ApplyNext(TAKEN, max)) == HALFWAY
    ensures Resolve(ApplyNext(HALFWAY, max)).calls == [RaftNode.Call(SECOND, Answered(Some(Kv.Wrote(1))))]
  {
    var log := [FIRST, SECOND];
    assert Batch(log, 2, 2) == [];
    assert Batch(log, 1, 2) == [(2, SECOND)];
    assert Batch(log, 0, 2) == [(1, FIRST)] + [(2, SECOND)];
    assert TAKEN.queue[1..] == [(2, SECOND)];
  }

  // ---------------------------------------------------------------------- the run

  lemma Does(s: Sys, e: Event) returns (s': Sys)
    requires Reachable(s) && Enabled(s, e) && Allowed(s, e)
    ensures s' == Next(s, e) && Reachable(s') && s'.h.trusted == s.h.trusted
  {
    hide Enabled, Allowed, Next, Reachable;
    s' := Next(s, e);
    assert RunFrom(s', []) && RunFrom(s, [e]) && StateAfter(s, [e]) == s' by {
      assert [e][1..] == [];
    }
    ReachableAfter(s, [e]);
  }

  lemma TwoIds(s: Sys)
    requires |s.nodes| == 2
    ensures Peers(s, 0) == {1} && Peers(s, 1) == {0}
  {
  }

  lemma Electing(max: nat) returns (s: Sys)
    ensures Reachable(s) && s.h.trusted && s.nodes == [LEADER, VOTER]
  {
    hide Reachable, StartElection, HandleVoteRequest, HandleVoteReply, DecideElection, Ids;
    Stood();
    Elected();
    s := Init(2, max, true);
    StartReachable(max);
    TwoIds(s);
    s := Does(s, Elect(0));
    assert s.nodes == [CANDIDATE, FRESH] && ASK in s.net.voteRequests;
    s := Does(s, OnVoteRequest(1, ASK));
    assert s.nodes == [CANDIDATE, VOTER] && GRANTED in s.net.voteReplies;
    s := Does(s, OnVoteReply(0, GRANTED));
    assert s.nodes == [ELECTABLE, VOTER];
    TwoIds(s);
    s := Does(s, Decide(0));
  }

  lemma StartReachable(max: nat)
    ensures Reachable(Init(2, max, true)) && Init(2, max, true).nodes == [FRESH, FRESH]
  {
    assert RunsTo(2, max, true, [], Init(2, max, true));
  }

  /** The write is on both nodes; the leader has yet to handle the acknowledgement. */
  lemma Replicating(max: nat) returns (s: Sys)
    ensures Reachable(s) && s.h.trusted && s.nodes == [ASKED, FOLLOWER] && HELD in s.net.appendReplies
  {
    hide Reachable, Append, HandleAppend, MakeAppend, HandleAppendReply, Ids;
    Written();
    Shipped();
    Replicated();
    s := Electing(max);
    s := Does(s, Event.Call(0, WRITE));
    assert s.nodes == [ASKED, VOTER];
    TwoNodes(s);
    s := Does(s, Send(0, 1));
    assert SHIPPED in s.net.appends;
    s := Does(s, OnAppend(1, SHIPPED));
  }

  lemma TwoNodes(s: Sys)
    requires |s.nodes| == 2
    ensures 1 in Peers(s, 0) && 0 in Peers(s, 1)
  {
  }

  /** A client's write is answered, with the version it created. */
  lemma WriteAnswered(max: nat) returns (s: Sys)
    ensures Reachable(s) && s.h.trusted && |s.nodes| == 2
    ensures s.nodes[0].calls == [RaftNode.Call(SECOND, Answered(Some(Kv.Wrote(1))))]
  {
    hide Reachable, TakeBatch, Resolve, ApplyNext, HandleAppendReply;
    Counted();
    s := Replicating(max);
    s := Does(s, OnAppendReply(0, HELD));
    assert s.nodes == [COMMITTED, FOLLOWER];
    Answering(s.max);
    s := Does(s, Take(0));
    s := Does(s, ApplyOne(0));
    s := Does(s, Notify(0));
    s := Does(s, ApplyOne(0));
    s := Does(s, Notify(0));
  }

  // -------------------------------------------------- refused, and applied all the same

  lemma StoodAgain()
    ensures StartElection(FOLLOWER, 1, {0}) == RIVAL
    ensures HandleVoteRequest(ASKED, ASK_AGAIN) == (DEPOSED, true)
    ensures HandleVoteReply(RIVAL, GRANTED_AGAIN) == RIVAL_ELECTABLE
  {
    assert Pending(ASKED.waiters, 0) by { assert ASKED.waiters[2].call == 0; }
    assert FailCalls(ASKED.calls, ASKED.waiters) == [RaftNode.Call(SECOND, NotLeader)];
    assert {0} - {0} == {};
  }

  lemma ElectedAgain()
    ensures DecideElection(RIVAL_ELECTABLE, 1, {0}) == SUCCESSOR
  {
    assert Reset(map[], {0}, 3) == map[0 := 3] && Reset(map[], {0}, 0) == map[0 := 0];
    assert [FIRST, SECOND] + [THIRD] == [FIRST, SECOND, THIRD];
  }

  lemma ReplicatedBack()
    ensures MakeAppend(SUCCESSOR, 1, 0) == Some(SHIPPED_BACK)
    ensures LaidOut(DEPOSED.log) && HandleAppend(DEPOSED, SHIPPED_BACK) == (JOINED, HELD_BACK)
  {
    hide Merge;
    assert [FIRST, SECOND, THIRD][2..] == [THIRD];
    MergeAtEnd([FIRST, SECOND], [THIRD]);
    assert [FIRST, SECOND] + [THIRD] == [FIRST, SECOND, THIRD];
  }

  lemma CountedBack()
    ensures HandleAppendReply(SUCCESSOR, 2, HELD_BACK) == SETTLED
  {
    var x := RecordMatch(SUCCESSOR, 0, 3);
    assert x.matched == map[0 := 3, 1 := 3];
    assert Reached(x.matched, 3) == {0, 1};
    assert Committable(x, 2, 3);
  }

  lemma AppliedBack(max: nat)
    ensures TakeBatch(SETTLED) == SETTLED_TAKEN
    ensures var x := ApplyNext(SETTLED_TAKEN, max); x.resolving.Some? && x.log == SETTLED.log
    ensures var x := Resolve(ApplyNext(SETTLED_TAKEN, max));
            && x.queue == [(2, SECOND), (3, THIRD)] && x.resolving == None && x.log == SETTLED.log
            && x.machine == Kv.EMPTY && x.applied == [FIRST]
            && ApplyNext(x, max).applied == [FIRST, SECOND] && "key" in ApplyNext(x, max).machine.store.live
  {
    var log := [FIRST, SECOND, THIRD];
    assert Batch(log, 3, 3) == [];
    assert Batch(log, 2, 3) == [(3, THIRD)];
    assert Batch(log, 1, 3) == [(2, SECOND)] + [(3, THIRD)];
    assert Batch(log, 0, 3) == [(1, FIRST)] + [(2, SECOND), (3, THIRD)];
    assert SETTLED_TAKEN.queue[1..] == [(2, SECOND), (3, THIRD)];
  }

  lemma TakingOver(max: nat) returns (s: Sys)
    ensures Reachable(s) && s.h.trusted && s.nodes == [DEPOSED, SUCCESSOR]
  {
    hide Reachable, StartElection, HandleVoteRequest, HandleVoteReply, DecideElection, Ids;
    StoodAgain();
    ElectedAgain();
    s := Replicating(max);
    TwoIds(s);
    s := Does(s, Elect(1));
    assert s.nodes == [ASKED, RIVAL] && ASK_AGAIN in s.net.voteRequests;
    s := Does(s, OnVoteRequest(0, ASK_AGAIN));
    assert s.nodes == [DEPOSED, RIVAL] && GRANTED_AGAIN in s.net.voteReplies;
    s := Does(s, OnVoteReply(1, GRANTED_AGAIN));
    assert s.nodes == [DEPOSED, RIVAL_ELECTABLE];
    TwoIds(s);
    s := Does(s, Decide(1));
  }

  lemma Settling(max: nat) returns (s: Sys)
    ensures Reachable(s) && s.h.trusted && s.nodes == [JOINED, SETTLED]
  {
    hide Reachable, HandleAppend, MakeAppend, HandleAppendReply, Ids;
    ReplicatedBack();
    CountedBack();
    s := TakingOver(max);
    TwoNodes(s);
    s := Does(s, Send(1, 0));
    assert SHIPPED_BACK in s.net.appends;
    s := Does(s, OnAppend(0, SHIPPED_BACK));
    assert s.nodes == [JOINED, SUCCESSOR] && HELD_BACK in s.net.appendReplies;
    s := Does(s, OnAppendReply(1, HELD_BACK));
  }

  /**
   A call refused with "not leader" may have been carried out: node 0's only call has ended so, its own entry is
   committed, and node 1 has applied it.
   */
  lemma RefusedButApplied(max: nat) returns (s: Sys)
    ensures Reachable(s) && |s.nodes| == 2
    ensures s.nodes[0].calls == [RaftNode.Call(SECOND, NotLeader)] && SECOND.cmd == WRITE
    ensures |s.h.decided| > 1 && s.h.decided[1] == SECOND && s.nodes[1].applied == [FIRST, SECOND]
    ensures Kv.Get(s.nodes[1].machine, WRITE.key) != None
  {
    hide Reachable, TakeBatch, ApplyNext, Resolve, Inv;
    s := Settling(max);
    AppliedBack(s.max);
    s := Does(s, Take(1));
    assert s.nodes[1] == SETTLED_TAKEN;
    s := Does(s, ApplyOne(1));
    s := Does(s, Notify(1));
    s := Does(s, ApplyOne(1));
    ReachableInv(s);
    AppliedIsDecided(s, 1);
  }
}
