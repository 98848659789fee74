/** The events of log replication keep the cluster invariant. */
module ClusterAppends {
  import opened Wrappers
  import opened RaftLog
  import opened RaftCore
  import opened RaftCoreFrames
  import opened RaftCoreVotes
  import opened RaftCoreCommits
  import opened RaftNode
  import opened Cluster
  import opened ClusterInv
  import opened ClusterVotes

  // -------------------------------------------------------------------- Send

  /** A leader's log is the ledger of its term and ends in an entry of that term. */
  lemma LeaderLedger(c: Core, i: nat)
    requires CoreInv(c) && i < |c.members| && c.members[i].role.Leader?
    ensures var m := c.members[i];
            && Leads(c.h, m.term, i) && m.term in c.h.ledgers && c.h.ledgers[m.term] == m.log
            && OwnEntry(c.h, m.term, |m.log|) && Vouched(c.h, m.log, m.commit, m.term)
  {
    hide CoreInv;
    TheMember(c, i);
    TheLedger(c, c.members[i].term);
  }

  /** A stretch of a ledger to its end is a message that its leader may have sent. */
  lemma StretchOk(h: History, r: AppendRequest)
    requires r.to != r.leader && Leads(h, r.term, r.leader) && r.term in h.ledgers
    requires var l := h.ledgers[r.term];
             && OwnEntry(h, r.term, |l|) && Vouched(h, l, r.commit, r.term)
             && r.prev + |r.entries| == |l| && r.prevTerm == (if r.prev > 0 then l[r.prev - 1].term else 0)
             && forall k: nat :: k < |r.entries| ==> r.entries[k] == l[r.prev + k]
    ensures AppendOk(h, r) && (h.trusted ==> r.commit <= r.prev + |r.entries|)
  {
  }

  lemma Suffix(x: Node, i: nat, to: nat)
    requires MakeAppend(x, i, to).Some?
    ensures var r := MakeAppend(x, i, to).value;
            && x.role.Leader? && r.term == x.term && r.leader == i && r.to == to && r.commit == x.commit
            && r.prev + |r.entries| == |x.log| && r.prevTerm == (if r.prev > 0 then x.log[r.prev - 1].term else 0)
            && forall k: nat :: k < |r.entries| ==> r.entries[k] == x.log[r.prev + k]
  {
  }

  /** Every message carries at least as many entries as it carries commit index. */
  lemma SentAppendOk(s: Sys, i: nat, to: nat)
    requires Inv(s) && i < |s.nodes| && to != i && MakeAppend(s.nodes[i], i, to).Some?
    ensures var r := MakeAppend(s.nodes[i], i, to).value;
            AppendOk(s.h, r) && (s.h.trusted ==> r.commit <= r.prev + |r.entries|)
  {
    hide CoreInv, NetOk, NodesOk, NodeOk, AppendOk, LedgerOk, OwnEntry, Vouched, MakeAppend;
    TheNode(s, i);
    Suffix(s.nodes[i], i, to);
    LeaderLedger(AsCore(s), i);
    StretchOk(s.h, MakeAppend(s.nodes[i], i, to).value);
  }

  lemma SendKeeps(s: Sys, i: nat, to: nat)
    requires Inv(s) && i < |s.nodes| && to != i
    ensures Inv(AfterSend(s, i, to))
  {
    hide CoreInv, NodeOk, Evolves, AppendOk, MakeAppend;
    var s' := AfterSend(s, i, to);
    if MakeAppend(s.nodes[i], i, to).Some? {
      SentAppendOk(s, i, to);
      assert AsCore(s') == AsCore(s);
      ReflexiveEvolves(AsCore(s));
      NetFrame(AsCore(s), AsCore(s'), s.net, s'.net);
      TheNode(s, i);
      InvFromParts(s, s', i);
    }
  }

  // ---------------------------------------------------------------- OnAppend

  function FollowingCore(c: Core, i: nat, x: Node, r: AppendRequest): Core
    requires i < |c.members|
  {
    if r.term > x.term then Adopt(c, i, r.term) else if x.role.Candidate? then Yield(c, i) else c
  }

  /** No leader ever receives a message of its own term: it would be from itself. */
  lemma FollowingOk(s: Sys, i: nat, r: AppendRequest)
    requires Inv(s) && i < |s.nodes| && r in s.net.appends && r.to == i && r.term >= s.nodes[i].term
    ensures var y := Following(s.nodes[i], r);
            && y.role.Follower? && y.term == r.term && y.log == s.nodes[i].log
            && NodeOk(AsCore(s), i, y, s.max) && Evolves(AsCore(s), FollowingCore(AsCore(s), i, s.nodes[i], r))
            && CoreInv(FollowingCore(AsCore(s), i, s.nodes[i], r))
            && FollowingCore(AsCore(s), i, s.nodes[i], r)
            == AsCore(s).(members := AsCore(s).members[i := AsMember(y)])
  {
    hide CoreInv;
    var x, c := s.nodes[i], AsCore(s);
    TheNode(s, i);
    assert AppendOk(s.h, r);
    ReflexiveEvolves(c);
    if r.term > x.term {
      AdoptKeeps(c, i, r.term);
      StepDownOk(c, c, i, x, s.max, r.term);
    } else if x.role.Candidate? {
      YieldKeeps(c, i);
      StepDownOk(c, c, i, x, s.max, r.term);
    }
    assert Evolves(c, FollowingCore(c, i, x, r)) by {
      forall p: nat, t: nat ensures AckedLater(c, FollowingCore(c, i, x, r), p, t) {}
    }
    LeaderIdOnly(c, i, if r.term > x.term || x.role.Candidate? then BecomeFollower(x, r.term) else x, s.max, r.leader);
  }

  lemma LeaderIdOnly(c: Core, i: nat, x: Node, max: nat, leader: nat)
    requires NodeOk(c, i, x, max)
    ensures NodeOk(c, i, x.(leaderId := Some(leader)), max)
  {
    hide ServiceOk, LeaderOk;
    var y := x.(leaderId := Some(leader));
    ServiceSame(c.h, c.h, x, y, max);
    LeaderSame(c.h, |c.members|, x, y);
  }

  lemma AppendKeeps(s: Sys, i: nat, r: AppendRequest)
    requires Inv(s) && i < |s.nodes| && r in s.net.appends && r.to == i && LaidOut(s.nodes[i].log)
    ensures Inv(AfterAppend(s, i, r))
  {
    var reply := HandleAppend(s.nodes[i], r).1;
    if reply.success {
      AppendAccepted(s, i, r);
    } else {
      AppendRejected(s, i, r);
    }
  }

  lemma {:induction false} FirstOfTermPositive(log: Log, ci: nat, t: nat)
    requires 1 <= ci <= |log| + 1
    ensures 1 <= FirstOfTerm(log, ci, t) <= ci
  {
    if ci > 1 && log[ci - 2].term == t {
      FirstOfTermPositive(log, ci - 1, t);
    }
  }

  lemma RejectionOk(x: Node, r: AppendRequest)
    requires LaidOut(x.log) && !HandleAppend(x, r).1.success
    ensures HandleAppend(x, r).1.request == r
    ensures HandleAppend(x, r).1.conflictTerm > 0 ==> HandleAppend(x, r).1.conflictIndex >= 1
    ensures HandleAppend(x, r).1.conflictIndex <= r.prev
    ensures HandleAppend(x, r).0 == if r.term < x.term then x else Following(x, r)
  {
    if r.term >= x.term && r.prev > 0 && LastIndex(x.log) >= r.prev {
      FirstOfTermPositive(x.log, r.prev, x.log[r.prev - 1].term);
    }
  }

  lemma AppendRejected(s: Sys, i: nat, r: AppendRequest)
    requires Inv(s) && i < |s.nodes| && r in s.net.appends && r.to == i && LaidOut(s.nodes[i].log)
    requires !HandleAppend(s.nodes[i], r).1.success
    ensures Inv(AfterAppend(s, i, r))
  {
    hide CoreInv, NodeOk, HandleAppend;
    var x := s.nodes[i];
    var (y, reply) := HandleAppend(x, r);
    var s', c, c' := AfterAppend(s, i, r), AsCore(s), AsCore(AfterAppend(s, i, r));
    RejectionOk(x, r);
    TheNode(s, i);
    CoreOfPut(s, i, y);
    ReflexiveEvolves(c);
    if r.term < x.term {
      assert c' == c;
    } else {
      FollowingOk(s, i, r);
      assert c' == FollowingCore(c, i, x, r);
      NodeSameCore(c, c', i, y, s.max);
    }
    NetFrame(c, c', s.net, s'.net);
    InvFromParts(s, s', i);
  }

  lemma NodeSameCore(c: Core, c': Core, i: nat, x: Node, max: nat)
    requires NodeOk(c, i, x, max) && Evolves(c, c')
    ensures NodeOk(c', i, x, max)
  {
    TallyFrame(c, c', i, x);
    LeaderFrame(c, c', x);
  }

  lemma AcceptsAppend(x: Node, r: AppendRequest)
    requires LaidOut(x.log) && HandleAppend(x, r).1.success
    ensures var y := HandleAppend(x, r).0;
            && r.term >= x.term && r.prev <= |x.log|
            && (r.prev > 0 ==> x.log[r.prev - 1].term == r.prevTerm)
            && y.log == Merge(x.log, r.prev, r.entries)
            && y == Following(x, r).(log := y.log, commit := y.commit)
            && y.commit == if r.commit > x.commit then Min(r.commit, LastIndex(y.log)) else x.commit
  {
  }

  /** A message that fits the follower's log makes it hold the sender's log up to the message's end. */
  lemma FitsLedger(h: History, log: Log, r: AppendRequest) returns (d: nat)
    requires AppendOk(h, r) && Backed(log, h.ledgers) && Backed(h.ledgers[r.term], h.ledgers)
    requires r.prev <= |log| && (r.prev > 0 ==> log[r.prev - 1].term == r.prevTerm)
    ensures var len, log' := r.prev + |r.entries|, Merge(log, r.prev, r.entries);
            && OwnEntry(h, r.term, len) && TakesIn(log, h.ledgers[r.term], len, log', d)
            && len <= |log'| && Agree(log', h.ledgers[r.term], len)
  {
    hide Backed, Vouched, Merge;
    var leader, len := h.ledgers[r.term], r.prev + |r.entries|;
    assert r.entries == leader[r.prev..len];
    d := MergeTakesIn(log, leader, r.prev, len, h.ledgers);
  }

  lemma LedgerBacked(c: Core, r: AppendRequest)
    requires CoreInv(c) && AppendOk(c.h, r)
    ensures Backed(c.h.ledgers[r.term], c.h.ledgers)
  {
    hide CoreInv;
    TheLedger(c, r.term);
  }

  /** What a follower does on success, in terms of the ledger of the message's term. */
  lemma TakenIn(s: Sys, i: nat, r: AppendRequest) returns (d: nat)
    requires Inv(s) && i < |s.nodes| && r in s.net.appends && r.to == i && LaidOut(s.nodes[i].log)
    requires HandleAppend(s.nodes[i], r).1.success
    ensures var x, y := s.nodes[i], HandleAppend(s.nodes[i], r).0; var len := r.prev + |r.entries|;
            && r.term >= x.term
            && AcceptStep(FollowingCore(AsCore(s), i, x, r), i, len, y.log, d)
            && len <= |y.log| && Agree(y.log, s.h.ledgers[r.term], len)
  {
    hide CoreInv, NodesOk, NodeOk, HandleAppend, Evolves, AppendOk, OwnEntry, TakesIn, Merge, Agree, Backed,
         FollowingCore, Following;
    var x := s.nodes[i];
    assert AppendOk(s.h, r);
    TheNode(s, i);
    AcceptsAppend(x, r);
    FollowingOk(s, i, r);
    LedgerBacked(AsCore(s), r);
    d := FitsLedger(s.h, x.log, r);
  }

  lemma AcceptedIndexed(c: Core, i: nat, len: nat, log: Log, d: nat)
    requires CoreInv(c) && AcceptStep(c, i, len, log, d)
    ensures LastIndex(log) == |log|
  {
    hide CoreInv;
    AcceptMember(c, i, len, log, d);
    assert Accept(c, i, len, log).members[i].log == log;
  }

  lemma LedgerVouches(h: History, r: AppendRequest, log: Log)
    requires AppendOk(h, r) && (h.trusted ==> r.commit <= |log|)
    requires Agree(log, h.ledgers[r.term], r.prev + |r.entries|)
    ensures h.trusted ==> r.commit <= r.prev + |r.entries|
    ensures Vouched(h, log, r.commit, r.term)
  {
    if r.commit > 0 && h.trusted {
      var l := h.ledgers[r.term];
      var m :| m in h.marks && Covers(h, m, l, r.commit, r.term);
      assert Covers(h, m, log, r.commit, r.term);
    }
  }

  /** The commit index a follower takes from a message is committed in its own log. */
  lemma LearntVouched(s: Sys, i: nat, r: AppendRequest)
    requires Inv(s) && i < |s.nodes| && r in s.net.appends && r.to == i && LaidOut(s.nodes[i].log)
    requires HandleAppend(s.nodes[i], r).1.success
    ensures var x, y := s.nodes[i], HandleAppend(s.nodes[i], r).0;
            && y == Following(x, r).(log := y.log, commit := y.commit)
            && Vouched(s.h, y.log, y.commit, r.term)
            && (s.h.trusted ==>
                  && Agree(x.log, y.log, x.commit) && x.commit <= y.commit <= |y.log|
                  && (r.commit > x.commit ==> y.commit == r.commit) && (r.commit <= x.commit ==> y.commit == x.commit))
  {
    hide CoreInv, NodesOk, NodeOk, HandleAppend, AcceptStep, Merge, FollowingCore, Evolves, AppendOk;
    var x, c := s.nodes[i], AsCore(s);
    var y, len := HandleAppend(x, r).0, r.prev + |r.entries|;
    var c1 := FollowingCore(c, i, x, r);
    var d := TakenIn(s, i, r);
    FollowingOk(s, i, r);
    AcceptsAppend(x, r);
    AcceptVouched(c1, i, len, y.log, d);
    AcceptedIndexed(c1, i, len, y.log, d);
    assert AppendOk(s.h, r);
    assert c1.members[i] == AsMember(Following(x, r));
    if s.h.trusted {
      FitsCommit(s.h, r);
      if r.commit > x.commit {
        LedgerVouches(s.h, r, y.log);
      }
    }
  }

  lemma FitsCommit(h: History, r: AppendRequest)
    requires AppendOk(h, r) && h.trusted
    ensures r.commit <= r.prev + |r.entries|
  {
  }

  lemma AcceptedNode(c: Core, c': Core, i: nat, x: Node, y: Node, max: nat)
    requires NodeOk(c, i, x, max) && Evolves(c, c') && x.role.Follower?
    requires y == x.(log := y.log, commit := y.commit)
    requires c.h.trusted ==> Agree(x.log, y.log, x.commit) && x.commit <= y.commit <= |y.log|
    ensures NodeOk(c', i, y, max)
  {
    hide ServiceOk;
    TallyFrame(c, c', i, x);
    LeaderFrame(c, c', x);
    ServiceIdle(c.h, c'.h, x, y, max);
  }

  /** Following, taking in and learning the commit index, as steps of the core. */
  function AcceptedCore(c: Core, i: nat, x: Node, y: Node, r: AppendRequest): Core
    requires i < |c.members|
  {
    Learn(Accept(FollowingCore(c, i, x, r), i, r.prev + |r.entries|, y.log), i, y.commit)
  }

  lemma AcceptedCoreOk(s: Sys, i: nat, r: AppendRequest)
    requires Inv(s) && i < |s.nodes| && r in s.net.appends && r.to == i && LaidOut(s.nodes[i].log)
    requires HandleAppend(s.nodes[i], r).1.success
    ensures var c, c' := AsCore(s), AcceptedCore(AsCore(s), i, s.nodes[i], HandleAppend(s.nodes[i], r).0, r);
            CoreInv(c') && Evolves(c, c') && Acked(c'.h, i, r.term) >= r.prev + |r.entries|
  {
    hide CoreInv, NodesOk, NodeOk, NetOk, HandleAppend, AcceptStep, FollowingCore, Following, Agree, Vouched;
    var x, y, c := s.nodes[i], HandleAppend(s.nodes[i], r).0, AsCore(s);
    var c1, len := FollowingCore(c, i, x, r), r.prev + |r.entries|;
    AcceptsAppend(x, r);
    FollowingOk(s, i, r);
    var d := TakenIn(s, i, r);
    LearntVouched(s, i, r);
    AcceptKeeps(c1, i, len, y.log, d);
    var c2 := Accept(c1, i, len, y.log);
    AcceptEvolves(c1, i, len, y.log, d);
    AcceptedTerm(c, i, x, r);
    LearnAfter(c, c1, c2, i, y.log, y.commit, r.term);
  }

  lemma AcceptedTerm(c: Core, i: nat, x: Node, r: AppendRequest)
    requires i < |c.members| && c.members[i] == AsMember(x) && r.term >= x.term
    ensures FollowingCore(c, i, x, r).members[i].term == r.term && FollowingCore(c, i, x, r).h == c.h
  {
  }

  lemma LearnAfter(c: Core, c1: Core, c2: Core, i: nat, log: Log, commit: nat, term: nat)
    requires Evolves(c, c1) && Evolves(c1, c2) && CoreInv(c2) && c1.h == c.h
    requires i < |c2.members| && c2.members[i].log == log && c2.members[i].term == term
    requires Vouched(c.h, log, commit, term)
    ensures CoreInv(Learn(c2, i, commit)) && Evolves(c, Learn(c2, i, commit))
  {
    hide CoreInv;
    VouchedFrame(c1, c2, log, log, commit, term, term);
    LearnKeeps(c2, i, commit);
    forall p: nat, t: nat ensures AckedLater(c, Learn(c2, i, commit), p, t) {
      assert AckedLater(c, c1, p, t) && AckedLater(c1, c2, p, t);
    }
  }

  lemma AcceptedIsCore(s: Sys, i: nat, r: AppendRequest)
    requires Inv(s) && i < |s.nodes| && r in s.net.appends && r.to == i && LaidOut(s.nodes[i].log)
    requires HandleAppend(s.nodes[i], r).1.success
    ensures AsCore(AfterAppend(s, i, r)) == AcceptedCore(AsCore(s), i, s.nodes[i], HandleAppend(s.nodes[i], r).0, r)
  {
    hide CoreInv, NodesOk, NodeOk, NetOk, HandleAppend, Inv, Agree, Vouched, Following, FollowingCore, Evolves;
    var x, y := s.nodes[i], HandleAppend(s.nodes[i], r).0;
    AcceptsAppend(x, r);
    FollowingOk(s, i, r);
    CoreOfPut(s, i, y);
    assert AsCore(AfterAppend(s, i, r)).members == AsCore(s).members[i := AsMember(y)];
  }

  lemma AppendAccepted(s: Sys, i: nat, r: AppendRequest)
    requires Inv(s) && i < |s.nodes| && r in s.net.appends && r.to == i && LaidOut(s.nodes[i].log)
    requires HandleAppend(s.nodes[i], r).1.success
    ensures Inv(AfterAppend(s, i, r))
  {
    hide CoreInv, NodesOk, NodeOk, NetOk, HandleAppend, Inv, Agree, Vouched, FollowingCore, Evolves, AcceptedCore;
    var x := s.nodes[i];
    var (y, reply) := HandleAppend(x, r);
    var s', c, c' := AfterAppend(s, i, r), AsCore(s), AsCore(AfterAppend(s, i, r));
    AcceptsAppend(x, r);
    FollowingOk(s, i, r);
    LearntVouched(s, i, r);
    AcceptedCoreOk(s, i, r);
    AcceptedIsCore(s, i, r);
    ReplyAcked(x, r);
    InvNet(s);
    NetFrame(c, c', s.net, s'.net);
    AcceptedNode(c, c', i, Following(x, r), y, s.max);
    InvFromParts(s, s', i);
  }

  lemma ReplyAcked(x: Node, r: AppendRequest)
    requires LaidOut(x.log) && HandleAppend(x, r).1.success
    ensures var reply := HandleAppend(x, r).1; reply.request == r && reply.conflictTerm == 0 && reply.conflictIndex == 0
  {
  }

  lemma InvNet(s: Sys)
    requires Inv(s)
    ensures NetOk(s.h, s.net)
  {
  }
}
