/** The events of an election keep the cluster invariant. */
module ClusterVotes {
  import opened Wrappers
  import opened RaftLog
  import opened Quorums
  import opened RaftCore
  import opened RaftCoreFrames
  import opened RaftCoreVotes
  import opened RaftCoreLedgers
  import opened RaftNode
  import opened Cluster
  import opened ClusterInv

  lemma CoreOfPut(s: Sys, i: nat, x: Node)
    requires i < |s.nodes|
    ensures AsCore(Put(s, i, x)).members == AsCore(s).members[i := AsMember(x)]
  {
  }

  /** Put the parts of the invariant together after an event at node `i`. */
  lemma InvFromParts(s: Sys, s': Sys, i: nat)
    requires Inv(s) && CoreInv(AsCore(s')) && Evolves(AsCore(s), AsCore(s')) && s'.max == s.max
    requires NetOk(s'.h, s'.net)
    requires i < |s.nodes| == |s'.nodes| && s'.nodes == s.nodes[i := s'.nodes[i]]
    requires NodeOk(AsCore(s'), i, s'.nodes[i], s.max)
    ensures Inv(s')
  {
    hide CoreInv, NetOk, NodeOk, Evolves;
    NodesFrame(s, s', i);
  }

  lemma FailCallsAll(x: Node)
    requires ClientsOk(x)
    ensures var calls := FailCalls(x.calls, x.waiters);
            && |calls| == |x.calls|
            && forall k: nat :: k < |calls| ==>
                 calls[k].entry == x.calls[k].entry
                 && calls[k].outcome == if x.calls[k].outcome.Waiting? then NotLeader else x.calls[k].outcome
  {
    forall k: nat | k < |x.calls| && x.calls[k].outcome.Waiting? ensures Pending(x.waiters, k) {
      assert CallOk(x, k);
      assert x.waiters[x.calls[k].entry.index].call == k;
    }
  }

  /** Stepping down fails every waiting call. */
  lemma StepDownService(h: History, h': History, x: Node, max: nat, term: nat)
    requires ServiceOk(h, x, max) && h'.trusted == h.trusted
    ensures ServiceOk(h', BecomeFollower(x, term), max)
    ensures forall k: nat :: k < |x.calls| ==> !BecomeFollower(x, term).calls[k].outcome.Waiting?
  {
    var y := BecomeFollower(x, term);
    FailCallsAll(x);
    forall k: nat | k < |y.calls| && h.trusted ensures AnswerOk(y, max, k) {
      assert AnswerOk(x, max, k);
    }
  }

  /** Stepping down leaves the rest of a node in order. */
  lemma StepDownOk(c: Core, c': Core, i: nat, x: Node, max: nat, term: nat)
    requires NodeOk(c, i, x, max) && Evolves(c, c') && x.term <= term
    ensures NodeOk(c', i, BecomeFollower(x, term), max)
    ensures forall k: nat :: k < |x.calls| ==> !BecomeFollower(x, term).calls[k].outcome.Waiting?
  {
    hide ServiceOk;
    StepDownService(c.h, c'.h, x, max, term);
    TallyFrame(c, c', i, x);
    LeaderFrame(c, c', x);
  }

  // ------------------------------------------------------------------- Elect

  lemma ElectTally(c: Core, c': Core, i: nat, term: nat, peers: set<nat>)
    requires i < |c'.members| && Ballot(i, term, i) in c'.h.ballots && i !in peers
    ensures |Voters(c', term, i) - peers| >= 1
  {
    assert i in Voters(c', term, i) - peers;
    SubsetCount({i}, Voters(c', term, i) - peers);
  }

  /** A candidacy only adds to the history, since a term is new to the member that stands in it. */
  lemma CampaignEvolves(c: Core, i: nat)
    requires CoreInv(c) && i < |c.members|
    ensures Evolves(c, Campaign(c, i))
  {
    hide CoreInv;
    var b := Bid(c.members[i].term + 1, i);
    if b in c.h.bids { TheBid(c, b); }
    forall p: nat, t: nat ensures AckedLater(c, Campaign(c, i), p, t) {}
  }

  lemma ElectKeeps(s: Sys, i: nat)
    requires Inv(s) && i < |s.nodes|
    ensures Inv(AfterElect(s, i))
  {
    hide CoreInv, NodesOk, Evolves, ServiceOk, TallyOk, LeaderOk, Voters;
    var s', c, c' := AfterElect(s, i), AsCore(s), AsCore(AfterElect(s, i));
    var x := s.nodes[i];
    TheNode(s, i);
    if !x.role.Leader? {
      var y := StartElection(x, i, Peers(s, i));
      CoreOfPut(s, i, y);
      CampaignKeeps(c, i);
      assert c' == Campaign(c, i);
      CampaignEvolves(c, i);
      ElectNet(s, i);
      ElectNode(c, c', i, x, y, s.max, Peers(s, i));
      InvFromParts(s, s', i);
    }
  }

  lemma ElectNet(s: Sys, i: nat)
    requires NetOk(s.h, s.net) && i < |s.nodes| && !s.nodes[i].role.Leader?
    requires Evolves(AsCore(s), AsCore(AfterElect(s, i)))
    ensures NetOk(AfterElect(s, i).h, AfterElect(s, i).net)
  {
    hide Evolves, NetOk;
    NetFrame(AsCore(s), AsCore(AfterElect(s, i)), s.net, AfterElect(s, i).net);
  }

  lemma ElectNode(c: Core, c': Core, i: nat, x: Node, y: Node, max: nat, peers: set<nat>)
    requires NodeOk(c, i, x, max) && Evolves(c, c') && !x.role.Leader? && i < |c'.members| && i !in peers
    requires y == StartElection(x, i, peers) && Ballot(i, y.term, i) in c'.h.ballots
    ensures NodeOk(c', i, y, max)
  {
    hide ServiceOk, LeaderOk, Evolves;
    EvolvesSize(c, c');
    ServiceIdle(c.h, c'.h, x, y, max);
    ElectTally(c, c', i, y.term, peers);
    LeaderFrame(c, c', x);
    FollowerSame(c'.h, |c'.members|, x, y);
  }

  lemma FollowerSame(h: History, n: nat, x: Node, y: Node)
    requires LeaderOk(h, n, x) && !y.role.Leader? && y.matched == x.matched && y.next == x.next
    ensures LeaderOk(h, n, y)
  {
  }

  // ----------------------------------------------------------- OnVoteRequest

  lemma VoteRequestKeeps(s: Sys, i: nat, r: VoteRequest)
    requires Inv(s) && i < |s.nodes| && r in s.net.voteRequests
    ensures Inv(AfterVoteRequest(s, i, r))
  {
    hide CoreInv, NodeOk, NetOk, Evolves, HandleVoteRequest;
    var s', c, c' := AfterVoteRequest(s, i, r), AsCore(s), AsCore(AfterVoteRequest(s, i, r));
    TheNode(s, i);
    VoteRequestCore(s, i, r);
    VoteRequestNet(s, i, r);
    VoteRequestNode(c, c', i, s.nodes[i], s.max, r);
    InvFromParts(s, s', i);
  }

  lemma VoteRequestNet(s: Sys, i: nat, r: VoteRequest)
    requires Inv(s) && i < |s.nodes|
    requires Evolves(AsCore(s), AsCore(AfterVoteRequest(s, i, r)))
    ensures NetOk(AfterVoteRequest(s, i, r).h, AfterVoteRequest(s, i, r).net)
  {
    hide CoreInv, NodesOk, Evolves, NetOk, UpToDate, FailCalls;
    var s' := AfterVoteRequest(s, i, r);
    var (y, granted) := HandleVoteRequest(s.nodes[i], r);
    assert granted ==> y.term == r.term;
    NetFrame(AsCore(s), AsCore(s'), s.net, s'.net);
  }

  lemma VoteRequestCore(s: Sys, i: nat, r: VoteRequest)
    requires Inv(s) && i < |s.nodes| && r in s.net.voteRequests
    ensures CoreInv(AsCore(AfterVoteRequest(s, i, r)))
    ensures Evolves(AsCore(s), AsCore(AfterVoteRequest(s, i, r)))
  {
    hide CoreInv, NodeOk, NodesOk, Evolves, UpToDate, FailCalls;
    var s', c, c' := AfterVoteRequest(s, i, r), AsCore(s), AsCore(AfterVoteRequest(s, i, r));
    var x := s.nodes[i];
    var (y, granted) := HandleVoteRequest(x, r);
    TheNode(s, i);
    CoreOfPut(s, i, y);
    assert VoteRequestOk(s.h, r);
    var c1 := if r.term > x.term then Adopt(c, i, r.term) else c;
    if r.term > x.term { AdoptKeeps(c, i, r.term); }
    if granted {
      GrantableBid(s, i, r);
      GrantKeeps(c1, i, r.candidate);
    }
    assert c' == if granted then Grant(c1, i, r.candidate) else c1;
    VoteEvolves(c, c1, i, r.term, r.candidate);
  }

  /** A vote is granted only to a candidacy that is up to date. */
  lemma GrantableBid(s: Sys, i: nat, r: VoteRequest)
    requires VoteRequestOk(s.h, r) && i < |s.nodes| && HandleVoteRequest(s.nodes[i], r).1
    ensures var x := s.nodes[i]; var bid := s.h.bids[Bid(r.term, r.candidate)];
            && UpToDate(LastIndex(bid), LastTerm(bid), x.log) && r.term >= x.term
            && (r.term == x.term ==> x.vote == None || x.vote == Some(r.candidate))
  {
    hide UpToDate, FailCalls;
  }

  lemma VoteEvolves(c: Core, c1: Core, i: nat, term: nat, candidate: nat)
    requires i < |c.members| && c1 == if term > c.members[i].term then Adopt(c, i, term) else c
    ensures Evolves(c, c1) && Evolves(c, Grant(c1, i, candidate))
  {
    forall p: nat, t: nat ensures AckedLater(c, c1, p, t) && AckedLater(c, Grant(c1, i, candidate), p, t) {}
  }

  /** Only the vote changes. */
  lemma VoteOnly(c: Core, i: nat, x: Node, max: nat, vote: Option<nat>)
    requires NodeOk(c, i, x, max)
    ensures NodeOk(c, i, x.(vote := vote), max)
  {
    hide ServiceOk, LeaderOk;
    var y := x.(vote := vote);
    ServiceSame(c.h, c.h, x, y, max);
    LeaderSame(c.h, |c.members|, x, y);
  }

  lemma VoteRequestNode(c: Core, c': Core, i: nat, x: Node, max: nat, r: VoteRequest)
    requires NodeOk(c, i, x, max) && Evolves(c, c')
    ensures NodeOk(c', i, HandleVoteRequest(x, r).0, max)
  {
    hide NodeOk, Evolves, BecomeFollower, UpToDate;
    if r.term > x.term {
      StepDownOk(c, c', i, x, max, r.term);
      VoteOnly(c', i, BecomeFollower(x, r.term), max, Some(r.candidate));
    } else {
      NodeEvolves(c, c', i, x, max);
      VoteOnly(c', i, x, max, Some(r.candidate));
    }
  }

  lemma NodeEvolves(c: Core, c': Core, i: nat, x: Node, max: nat)
    requires NodeOk(c, i, x, max) && Evolves(c, c')
    ensures NodeOk(c', i, x, max)
  {
    hide ApplierOk, ClientsOk, AnswersOk, LeaderOk;
    TallyFrame(c, c', i, x);
    LeaderFrame(c, c', x);
  }

  // ------------------------------------------------------------- OnVoteReply

  lemma VoteReplyKeeps(s: Sys, i: nat, r: VoteReply)
    requires Inv(s) && i < |s.nodes| && r in s.net.voteReplies && r.request.candidate == i
    ensures Inv(Put(s, i, HandleVoteReply(s.nodes[i], r)))
  {
    hide CoreInv;
    var x := s.nodes[i];
    var y := HandleVoteReply(x, r);
    var s', c, c' := Put(s, i, y), AsCore(s), AsCore(Put(s, i, y));
    TheNode(s, i);
    CoreOfPut(s, i, y);
    assert VoteReplyOk(s.h, r);
    if r.term > x.term {
      AdoptKeeps(c, i, r.term);
      assert c' == Adopt(c, i, r.term);
    } else {
      assert c'.members == c.members;
    }
    assert Evolves(c, c') by {
      forall p: nat, t: nat ensures AckedLater(c, c', p, t) {}
    }
    NetFrame(c, c', s.net, s'.net);
    if r.term > x.term {
      StepDownOk(c, c', i, x, s.max, r.term);
    } else {
      if r.granted { TheBallot(c, Ballot(r.voter, r.request.term, i)); }
      VoteReplyNode(c, i, x, s.max, r);
    }
    InvFromParts(s, s', i);
  }

  /** Counting a granted vote counts a voter that was not counted before. */
  lemma VoteReplyNode(c: Core, i: nat, x: Node, max: nat, r: VoteReply)
    requires NodeOk(c, i, x, max) && r.term <= x.term && r.request.candidate == i
    requires r.granted ==> r.voter < |c.members| && Ballot(r.voter, r.request.term, i) in c.h.ballots
    ensures NodeOk(c, i, HandleVoteReply(x, r), max)
  {
    hide ServiceOk, LeaderOk;
    var y := HandleVoteReply(x, r);
    ServiceSame(c.h, c.h, x, y, max);
    LeaderSame(c.h, |c.members|, x, y);
    if x.election.Some? && x.election.value.term == r.request.term && r.voter in x.election.value.awaiting {
      assert r.granted ==> r.voter in Voters(c, x.election.value.term, i);
      CountOne(Voters(c, x.election.value.term, i), x.election.value.awaiting, r.voter, r.granted);
    }
  }

  lemma CountOne(voters: set<nat>, awaiting: set<nat>, voter: nat, granted: bool)
    requires voter in awaiting && (granted ==> voter in voters)
    ensures |voters - (awaiting - {voter})| >= |voters - awaiting| + if granted then 1 else 0
  {
    var before, after := voters - awaiting, voters - (awaiting - {voter});
    if granted {
      assert after == before + {voter};
    } else {
      SubsetCount(before, after);
    }
  }

  // ------------------------------------------------------------------ Decide

  /** A new leader's match table starts from what was acknowledged: nothing by the others, its own log by itself. */
  lemma NewLeaderMatched(h: History, n: nat, i: nat, x: Node, peers: set<nat>)
    requires LeaderOk(h, n, x) && i < n && peers == Ids(n) - {i} && Acked(h, i, x.term) > |x.log|
    requires LastIndex(x.log) == |x.log|
    ensures LeaderOk(h, n, BecomeLeader(x, i, peers))
  {
    var y := BecomeLeader(x, i, peers);
    NewLeaderMaps(x, n, i, peers);
    if h.trusted {
      forall p: nat | p in y.matched ensures MatchedOk(h, y, p) {
        assert p == i ==> y.matched[p] == |x.log| + 1;
      }
    }
  }

  lemma NewLeaderMaps(x: Node, n: nat, i: nat, peers: set<nat>)
    requires (forall p: nat :: p in x.next ==> x.next[p] >= 1) && (forall p: nat :: p in x.matched ==> p < n)
    requires i < n && peers == Ids(n) - {i}
    ensures var y := BecomeLeader(x, i, peers);
            && (forall p: nat :: p in y.matched ==> p < n && (p == i || y.matched[p] == 0))
            && (forall p: nat :: p in y.next ==> y.next[p] >= 1)
  {
    hide Ids;
    OwnIds(n, i, peers);
  }

  lemma OwnIds(n: nat, i: nat, peers: set<nat>)
    requires i < n && peers == Ids(n) - {i}
    ensures forall p: nat :: p in peers <==> p < n && p != i
  {
  }

  lemma NewLeaderNode(c: Core, c': Core, i: nat, x: Node, max: nat, peers: set<nat>)
    requires NodeOk(c, i, x, max) && Evolves(c, c') && i < |c.members| && x.role.Candidate?
    requires LastIndex(x.log) == |x.log|
    requires peers == Ids(|c.members|) - {i} && Acked(c'.h, i, x.term) > |x.log|
    ensures NodeOk(c', i, BecomeLeader(x.(election := None), i, peers), max)
  {
    hide ServiceOk, LeaderOk, Evolves;
    var y := BecomeLeader(x.(election := None), i, peers);
    EvolvesSize(c, c');
    ServiceIdle(c.h, c'.h, x, y, max);
    LeaderSame(c.h, |c.members|, x, x.(election := None));
    LeaderFrame(c, c', x.(election := None));
    NewLeaderMatched(c'.h, |c'.members|, i, x.(election := None), peers);
  }

  lemma EvolvesSize(c: Core, c': Core)
    requires Evolves(c, c')
    ensures |c'.members| == |c.members| && c'.h.trusted == c.h.trusted
  {
  }

  lemma DecideKeeps(s: Sys, i: nat)
    requires Inv(s) && i < |s.nodes|
    ensures Inv(AfterDecide(s, i))
  {
    hide Inv;
    if DecideElection(s.nodes[i], i, Peers(s, i)).role.Leader? && !s.nodes[i].role.Leader? {
      DecideLead(s, i);
    } else {
      DecideNoLead(s, i);
    }
  }

  lemma DecideNoLead(s: Sys, i: nat)
    requires Inv(s) && i < |s.nodes|
    requires !(DecideElection(s.nodes[i], i, Peers(s, i)).role.Leader? && !s.nodes[i].role.Leader?)
    ensures Inv(AfterDecide(s, i))
  {
    hide CoreInv, NodeOk, NetOk, Evolves, BecomeLeader;
    var x := s.nodes[i];
    var y := DecideElection(x, i, Peers(s, i));
    var s', c, c' := AfterDecide(s, i), AsCore(s), AsCore(AfterDecide(s, i));
    CoreOfPut(s, i, y);
    TheNode(s, i);
    BecomesLeader(x.(election := None), i, Peers(s, i));
    assert y == x.(election := None) || y == x;
    assert c'.members == c.members;
    ReflexiveEvolves(c);
    DecideNode(c, i, x, s.max, Peers(s, i));
    InvFromParts(s, s', i);
  }

  lemma BecomesLeader(x: Node, i: nat, peers: set<nat>)
    ensures BecomeLeader(x, i, peers).role.Leader? && BecomeLeader(x, i, peers).term == x.term
  {
  }

  lemma DecideNode(c: Core, i: nat, x: Node, max: nat, peers: set<nat>)
    requires NodeOk(c, i, x, max)
    ensures NodeOk(c, i, x.(election := None), max)
  {
    hide ServiceOk, LeaderOk;
    var y := x.(election := None);
    ServiceSame(c.h, c.h, x, y, max);
    LeaderSame(c.h, |c.members|, x, y);
  }

  /** A won election has a majority of voters behind it. */
  lemma DecideMajority(c: Core, i: nat, x: Node, max: nat, peers: set<nat>)
    requires NodeOk(c, i, x, max) && i < |c.members| && peers == Ids(|c.members|) - {i}
    requires x.election.Some? && x.election.value.votes >= Majority(|peers| + 1)
    ensures |Voters(c, x.election.value.term, i)| >= Majority(|c.members|)
  {
    hide ServiceOk, LeaderOk;
    var e := x.election.value;
    SubsetCount(Voters(c, e.term, i) - e.awaiting, Voters(c, e.term, i));
    assert Ids(|c.members|) == peers + {i};
  }

  lemma DecideLead(s: Sys, i: nat)
    requires Inv(s) && i < |s.nodes|
    requires DecideElection(s.nodes[i], i, Peers(s, i)).role.Leader? && !s.nodes[i].role.Leader?
    ensures Inv(AfterDecide(s, i))
  {
    hide CoreInv, NodeOk, NetOk, Evolves;
    var x := s.nodes[i];
    var y := DecideElection(x, i, Peers(s, i));
    var s', c, c' := AfterDecide(s, i), AsCore(s), AsCore(AfterDecide(s, i));
    TheNode(s, i);
    CoreOfPut(s, i, y);
    var e, entry := x.election.value, Entry(x.term, |x.log| + 1, NOOP);
    DecideMajority(c, i, x, s.max, Peers(s, i));
    LeadKeeps(c, i, entry);
    LeadStep(c, i, entry);
    assert c' == Lead(c, i, entry);
    NetFrame(c, c', s.net, s'.net);
    NewLeaderNode(c, c', i, x, s.max, Peers(s, i));
    InvFromParts(s, s', i);
  }
}
