/** Acknowledgements, commit decisions and client entries keep the cluster invariant. */
module ClusterReplies {
  import opened RaftLog
  import opened Quorums
  import opened RaftCore
  import opened RaftCoreFrames
  import opened RaftCoreVotes
  import opened RaftCoreLedgers
  import opened RaftCoreCommits
  import opened RaftNode
  import opened Cluster
  import opened ClusterInv
  import opened ClusterVotes
  import opened ClusterAppends
  import Kv = KvState

  // ------------------------------------------------------- acknowledgements

  /**
   An acknowledgement from an earlier term of the same leader: in a cluster of at most four, the leader and
   the acknowledger together block every majority, so what was acknowledged is in the leader's log now, and
   none of it is of the current term.
   */
  lemma LateAckHarmless(c: Core, i: nat, p: nat, t: nat, len: nat)
    requires CoreInv(c) && |c.members| <= 4 && i < |c.members| && p != i
    requires Leads(c.h, t, i) && OwnEntry(c.h, t, len) && Acked(c.h, p, t) >= len
    requires c.members[i].role.Leader? && c.members[i].term != t
    ensures t < c.members[i].term && len <= |c.members[i].log|
    ensures forall k: nat :: k < len ==> c.members[i].log[k].term < c.members[i].term
  {
    hide CoreInv;
    TheLedger(c, t);
    TheMember(c, i);
    TheAck(c, p, t);
    SubsetCount({i, p}, Hopefuls(c, t, len));
    assert Settled(c, t, len);
    TheLater(c, t, c.members[i].term, len);
  }

  lemma TimelyAck(c: Core, i: nat, p: nat, len: nat)
    requires CoreInv(c) && i < |c.members| && c.members[i].role.Leader?
    requires Acked(c.h, p, c.members[i].term) >= len
    ensures len <= |c.members[i].log|
  {
    hide CoreInv;
    TheMember(c, i);
    if len > 0 { TheAck(c, p, c.members[i].term); }
  }

  lemma MatchRecorded(h: History, n: nat, x: Node, peer: nat, len: nat)
    requires LeaderOk(h, n, x) && peer < n
    requires h.trusted ==>
               len <= |x.log|
               && forall k: nat :: k < len && x.log[k].term == x.term ==> Acked(h, peer, x.term) > k
    ensures LeaderOk(h, n, RecordMatch(x, peer, len))
  {
    hide Acked;
    var y := RecordMatch(x, peer, len);
    if h.trusted && y.role.Leader? {
      forall p: nat | p in y.matched ensures MatchedOk(h, y, p) {
        if y.matched == x.matched || p != peer { assert MatchedOk(h, x, p); }
      }
    }
  }

  /** Whatever an allowed acknowledgement makes the leader count as matched is really acknowledged. */
  lemma RecordMatchOk(s: Sys, i: nat, r: AppendReply)
    requires Inv(s) && i < |s.nodes| && r in s.net.appendReplies && r.request.leader == i
    requires s.nodes[i].role.Leader? && r.success
    requires Enabled(s, OnAppendReply(i, r)) && Allowed(s, OnAppendReply(i, r))
    ensures LeaderOk(s.h, |s.nodes|, RecordMatch(s.nodes[i], r.request.to, r.request.prev + |r.request.entries|))
  {
    hide CoreInv, NodesOk, ServiceOk, TallyOk, LeaderOk, RecordMatch, Vouched, MemberOk;
    var x, c, q := s.nodes[i], AsCore(s), r.request;
    var len := q.prev + |q.entries|;
    TheNode(s, i);
    assert AppendReplyOk(s.h, s.net, r) && AppendOk(s.h, q);
    TheAck(c, q.to, q.term);
    if q.term == x.term {
      TimelyAck(c, i, q.to, len);
    } else if s.h.trusted {
      LateAckHarmless(c, i, q.to, q.term, len);
    }
    MatchRecorded(s.h, |s.nodes|, x, q.to, len);
  }

  lemma {:induction false} AdvanceSound(x: Node, n: nat, index: nat)
    ensures var k := AdvanceFrom(x, n, index);
            k == x.commit || (x.commit < k <= index && Committable(x, n, k))
    ensures forall j: nat :: AdvanceFrom(x, n, index) < j <= index ==> !Committable(x, n, j)
    decreases index
  {
    if index > x.commit && !Committable(x, n, index) {
      AdvanceSound(x, n, index - 1);
    }
  }

  /** A committable index of a leader whose matches are sound is held by a majority. */
  lemma CommittableHeld(c: Core, i: nat, x: Node, k: nat)
    requires i < |c.members| && x.role.Leader? && LeaderOk(c.h, |c.members|, x) && Committable(x, |c.members|, k)
    requires c.h.trusted
    ensures |Holders(c, x.term, k)| >= Majority(|c.members|)
  {
    forall p | p in Reached(x.matched, k) ensures p in Holders(c, x.term, k) {
      assert MatchedOk(c.h, x, p);
      assert x.log[k - 1].term == x.term;
    }
    SubsetCount(Reached(x.matched, k), Holders(c, x.term, k));
  }

  /** A node whose commit index, match and next tables change. */
  lemma LeaderNode(c: Core, c': Core, i: nat, x: Node, y: Node, max: nat)
    requires NodeOk(c, i, x, max) && Evolves(c, c')
    requires y == x.(commit := y.commit, matched := y.matched, next := y.next)
    requires c.h.trusted ==> x.commit <= y.commit <= |y.log|
    requires LeaderOk(c.h, |c.members|, y)
    ensures NodeOk(c', i, y, max)
  {
    hide ServiceOk;
    TallyFrame(c, c', i, x);
    LeaderFrame(c, c', y);
    ServiceSame(c.h, c'.h, x, y, max);
  }

  lemma CommitIndexOk(s: Sys, i: nat)
    requires Inv(s) && i < |s.nodes|
    ensures s.h.trusted ==> s.nodes[i].commit <= |s.nodes[i].log|
    ensures LastIndex(s.nodes[i].log) == |s.nodes[i].log|
  {
    TheNode(s, i);
  }

  /** A commit index that moves is decided by a majority, in the leader's own term. */
  lemma AdvanceDecrees(c: Core, i: nat, x: Node)
    requires CoreInv(c) && i < |c.members| && x.role.Leader? && LeaderOk(c.h, |c.members|, x)
    requires c.members[i] == AsMember(x) && LastIndex(x.log) == |x.log|
    requires c.h.trusted ==> x.commit <= |x.log|
    ensures var y := AdvanceCommit(x, |c.members|);
            && x.commit <= y.commit && (c.h.trusted || y.commit > x.commit ==> y.commit <= |x.log|)
            && (y.commit > x.commit ==> DecreeStep(c, i, y.commit))
  {
    hide CoreInv, LeaderOk, Holders, MemberOk, Vouched;
    AdvanceSound(x, |c.members|, |x.log|);
    var k := AdvanceCommit(x, |c.members|).commit;
    if k > x.commit && c.h.trusted {
      CommittableHeld(c, i, x, k);
      LeaderLedger(c, i);
    }
  }

  lemma SuccessCore(s: Sys, i: nat, r: AppendReply)
    requires Inv(s) && i < |s.nodes| && r in s.net.appendReplies && r.request.leader == i
    requires s.nodes[i].role.Leader? && r.success && r.term <= s.nodes[i].term
    requires Enabled(s, OnAppendReply(i, r)) && Allowed(s, OnAppendReply(i, r))
    ensures var c, c' := AsCore(s), AsCore(AfterAppendReply(s, i, r));
            CoreInv(c') && Evolves(c, c')
    ensures var x, y := s.nodes[i], HandleAppendReply(s.nodes[i], |s.nodes|, r);
            && y == x.(commit := y.commit, matched := y.matched, next := y.next)
            && x.commit <= y.commit && (s.h.trusted ==> y.commit <= |y.log|) && LeaderOk(s.h, |s.nodes|, y)
  {
    hide CoreInv, NodesOk, NodeOk, NetOk, LeaderOk, Evolves, MemberOk, Holders, Committable, AdvanceFrom, DecreeStep;
    var c, n, x := AsCore(s), |s.nodes|, s.nodes[i];
    var x1 := RecordMatch(x, r.request.to, r.request.prev + |r.request.entries|);
    var y := AdvanceCommit(x1, n);
    TheNode(s, i);
    CommitIndexOk(s, i);
    RecordMatchOk(s, i, r);
    assert AsMember(x1) == AsMember(x);
    AdvanceDecrees(c, i, x1);
    CoreOfPut(s, i, y);
    LeaderSame(s.h, n, x1, y);
    if y.commit > x.commit {
      DecreeKeeps(c, i, y.commit);
      DecreeEvolves(c, i, y.commit);
      assert AsCore(AfterAppendReply(s, i, r)) == Decree(c, i, y.commit);
    } else {
      assert AsCore(AfterAppendReply(s, i, r)).members == c.members;
      ReflexiveEvolves(c);
    }
  }

  lemma SuccessKeeps(s: Sys, i: nat, r: AppendReply)
    requires Inv(s) && i < |s.nodes| && r in s.net.appendReplies && r.request.leader == i
    requires s.nodes[i].role.Leader? && r.success && r.term <= s.nodes[i].term
    requires Enabled(s, OnAppendReply(i, r)) && Allowed(s, OnAppendReply(i, r))
    ensures Inv(AfterAppendReply(s, i, r))
  {
    hide CoreInv, Inv, NodesOk, NodeOk, NetOk, LeaderOk, Evolves, MemberOk, HandleAppendReply;
    var s', x := AfterAppendReply(s, i, r), s.nodes[i];
    TheNode(s, i);
    SuccessCore(s, i, r);
    InvNet(s);
    NetFrame(AsCore(s), AsCore(s'), s.net, s'.net);
    LeaderNode(AsCore(s), AsCore(s'), i, x, s'.nodes[i], s.max);
    InvFromParts(s, s', i);
  }

  lemma BacktrackPositive(log: Log, conflictIndex: nat, conflictTerm: nat)
    requires conflictTerm > 0 ==> conflictIndex >= 1
    ensures Backtrack(log, conflictIndex, conflictTerm) >= 1
  {
  }

  /** A rejection, late or not, only moves a next index. */
  lemma RejectKeeps(s: Sys, i: nat, r: AppendReply)
    requires Inv(s) && i < |s.nodes| && r in s.net.appendReplies
    requires s.nodes[i].role.Leader? && !r.success && r.term <= s.nodes[i].term
    ensures Inv(AfterAppendReply(s, i, r))
  {
    hide CoreInv, NodeOk, Evolves;
    var s', c, c' := AfterAppendReply(s, i, r), AsCore(s), AsCore(AfterAppendReply(s, i, r));
    var x := s.nodes[i];
    var y := HandleAppendReply(x, |s.nodes|, r);
    TheNode(s, i);
    CommitIndexOk(s, i);
    CoreOfPut(s, i, y);
    assert AppendReplyOk(s.h, s.net, r);
    BacktrackPositive(x.log, r.conflictIndex, r.conflictTerm);
    assert c'.members == c.members;
    ReflexiveEvolves(c);
    NextNode(c, i, x, r.request.to, Backtrack(x.log, r.conflictIndex, r.conflictTerm), s.max);
    InvFromParts(s, s', i);
  }

  lemma NextNode(c: Core, i: nat, x: Node, to: nat, next: nat, max: nat)
    requires NodeOk(c, i, x, max) && next >= 1
    ensures NodeOk(c, i, x.(next := x.next[to := next]), max)
  {
    hide ServiceOk;
    var y := x.(next := x.next[to := next]);
    ServiceSame(c.h, c.h, x, y, max);
    if c.h.trusted && y.role.Leader? {
      forall p: nat | p in y.matched ensures MatchedOk(c.h, y, p) { assert MatchedOk(c.h, x, p); }
    }
  }

  lemma AppendReplyKeeps(s: Sys, i: nat, r: AppendReply)
    requires Enabled(s, OnAppendReply(i, r)) && Allowed(s, OnAppendReply(i, r)) && Inv(s)
    ensures Inv(AfterAppendReply(s, i, r))
  {
    hide Inv, AfterAppendReply;
    var x := s.nodes[i];
    if r.term > x.term {
      ReplyStepDown(s, i, r);
    } else if !x.role.Leader? {
      NoLeaderNoEffect(s, i, r);
    } else if r.success {
      SuccessKeeps(s, i, r);
    } else {
      RejectKeeps(s, i, r);
    }
  }

  lemma NoLeaderNoEffect(s: Sys, i: nat, r: AppendReply)
    requires i < |s.nodes| && r.term <= s.nodes[i].term && !s.nodes[i].role.Leader?
    ensures AfterAppendReply(s, i, r) == s
  {
    assert Put(s, i, s.nodes[i]) == s;
  }

  lemma ReplyStepDown(s: Sys, i: nat, r: AppendReply)
    requires Inv(s) && i < |s.nodes| && r.term > s.nodes[i].term
    ensures Inv(AfterAppendReply(s, i, r))
  {
    hide CoreInv, NodeOk, NetOk;
    var s', c, c' := AfterAppendReply(s, i, r), AsCore(s), AsCore(AfterAppendReply(s, i, r));
    var x := s.nodes[i];
    TheNode(s, i);
    AdoptKeeps(c, i, r.term);
    CoreOfPut(s, i, BecomeFollower(x, r.term));
    assert c' == Adopt(c, i, r.term);
    assert Evolves(c, c') by {
      forall p: nat, t: nat ensures AckedLater(c, c', p, t) {}
    }
    NetFrame(c, c', s.net, s'.net);
    StepDownOk(c, c', i, x, s.max, r.term);
    InvFromParts(s, s', i);
  }

  // -------------------------------------------------------------- client calls

  lemma CallClients(h: History, h': History, x: Node, i: nat, max: nat, cmd: Kv.Command)
    requires ServiceOk(h, x, max) && h'.trusted == h.trusted
    requires x.role.Leader? && LaidOut(x.log) && LastIndex(x.log) == |x.log|
    ensures ServiceOk(h', Append(x, i, cmd), max)
  {
    var y := Append(x, i, cmd);
    if h.trusted {
      ApplierSame(x, y, max);
      forall k: nat | k < |y.calls| ensures AnswerOk(y, max, k) {
        if k < |x.calls| { assert AnswerOk(x, max, k); }
      }
    }
    forall w: nat | w in y.waiters ensures WaiterOk(y, w) {
      if w != |x.log| + 1 { assert WaiterOk(x, w); }
    }
    forall k: nat | k < |y.calls| ensures CallOk(y, k) {
      if k < |x.calls| {
        assert CallOk(x, k);
        if x.calls[k].outcome.Waiting? { assert WaiterOk(x, x.calls[k].entry.index); }
      }
    }
  }

  lemma CallLeader(h: History, n: nat, i: nat, x: Node, cmd: Kv.Command)
    requires LeaderOk(h, n, x) && x.role.Leader? && i < n && LastIndex(x.log) == |x.log|
    requires Acked(h, i, x.term) > |x.log|
    ensures LeaderOk(h, n, Append(x, i, cmd))
  {
    var y := Append(x, i, cmd);
    if h.trusted {
      forall p: nat | p in y.matched ensures MatchedOk(h, y, p) {
        if p != i { assert MatchedOk(h, x, p); }
      }
    }
  }

  lemma CallNode(c: Core, c': Core, i: nat, x: Node, max: nat, cmd: Kv.Command)
    requires NodeOk(c, i, x, max) && Evolves(c, c') && i < |c.members| && x.role.Leader?
    requires LaidOut(x.log) && LastIndex(x.log) == |x.log| && Acked(c'.h, i, x.term) > |x.log|
    ensures NodeOk(c', i, Append(x, i, cmd), max)
  {
    hide ServiceOk;
    var y := Append(x, i, cmd);
    CallClients(c.h, c'.h, x, i, max, cmd);
    TallyFrame(c, c', i, x);
    LeaderFrame(c, c', x);
    CallLeader(c'.h, |c'.members|, i, x, cmd);
  }

  lemma CallKeeps(s: Sys, i: nat, cmd: Kv.Command)
    requires Inv(s) && i < |s.nodes| && s.nodes[i].role.Leader?
    ensures Inv(AfterCall(s, i, cmd))
  {
    hide CoreInv, NodeOk, NetOk;
    var s', c, c' := AfterCall(s, i, cmd), AsCore(s), AsCore(AfterCall(s, i, cmd));
    var x := s.nodes[i];
    var e := Entry(x.term, |x.log| + 1, cmd);
    TheNode(s, i);
    CoreOfPut(s, i, Append(x, i, cmd));
    ExtendKeeps(c, i, e);
    ExtendStep(c, i, e);
    assert c' == Extend(c, i, e);
    NetFrame(c, c', s.net, s'.net);
    CallNode(c, c', i, x, s.max, cmd);
    InvFromParts(s, s', i);
  }
}
