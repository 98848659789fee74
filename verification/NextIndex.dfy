/**
 Whether a leader can always say what its log has for a peer.  A next index past the log makes the source raise
 instead.  It never happens as long as replies are handled in the term of their request, nor in clusters of two; in any
 larger one a rejection handled terms later can do it.
 */
module NextIndex {
  import opened Wrappers
  import opened RaftLog
  import opened Quorums
  import opened RaftCore
  import opened RaftCoreFrames
  import opened RaftNode
  import opened Cluster
  import opened ClusterInv
  import opened ClusterAppends
  import opened ClusterSafety
  import opened LateRuns
  import Kv = KvState

  /** A leader has a next index for every member, and none is past its log. */
  ghost predicate TableOk(x: Node, n: nat) {
    x.role.Leader? ==> forall p: nat | p < n :: p in x.next && x.next[p] <= |x.log| + 1
  }

  ghost predicate NextInLog(s: Sys) {
    forall i: nat | i < |s.nodes| :: TableOk(s.nodes[i], |s.nodes|)
  }

  /** Then every leader has a message for every peer. */
  lemma InLogSends(s: Sys, i: nat, to: nat)
    requires Reachable(s) && NextInLog(s) && i < |s.nodes| && s.nodes[i].role.Leader? && to in Peers(s, i)
    ensures MakeAppend(s.nodes[i], i, to).Some?
  {
    hide Reachable, Inv, ServiceOk, TallyOk, MemberOk;
    ReachableInv(s);
    TheNode(s, i);
    assert TableOk(s.nodes[i], |s.nodes|);
  }

  /** A reply that a leader takes to heart answers a request of its present term. */
  predicate InTime(s: Sys, e: Event)
    requires Enabled(s, e)
  {
    e.OnAppendReply? && s.nodes[e.i].role.Leader? && e.reply.term <= s.nodes[e.i].term ==>
      e.reply.request.term == s.nodes[e.i].term
  }

  ghost predicate AllInTime(s: Sys, events: seq<Event>)
    requires RunFrom(s, events)
    decreases |events|
  {
    events == [] || (InTime(s, events[0]) && AllInTime(Next(s, events[0]), events[1..]))
  }

  // --------------------------------------------------------- what a reply can point to

  /** Neither what the reply acknowledges nor where it sends the leader back to is past the log. */
  predicate ReplyFits(x: Node, r: AppendReply) {
    r.request.prev + |r.request.entries| <= |x.log| && r.conflictIndex <= |x.log|
  }

  lemma RequestFits(s: Sys, i: nat, r: AppendReply)
    requires Inv(s) && Enabled(s, OnAppendReply(i, r))
    ensures var q := r.request;
            && Leads(s.h, q.term, i) && q.term in s.h.ledgers && q.prev + |q.entries| <= |s.h.ledgers[q.term]|
            && r.conflictIndex <= q.prev
  {
    hide CoreInv, NodesOk;
    assert AppendReplyOk(s.h, s.net, r) && AppendOk(s.h, r.request);
  }

  lemma InTimeFits(s: Sys, i: nat, r: AppendReply)
    requires Inv(s) && Enabled(s, OnAppendReply(i, r)) && s.nodes[i].role.Leader? && r.request.term == s.nodes[i].term
    ensures ReplyFits(s.nodes[i], r)
  {
    hide Inv, Vouched, OwnEntry;
    RequestFits(s, i, r);
    TheNode(s, i);
  }

  /** With one or two members, a leader's log settles with every entry it takes, so its next terms begin with it. */
  lemma SmallFits(s: Sys, i: nat, r: AppendReply)
    requires Inv(s) && |s.nodes| <= 2 && Enabled(s, OnAppendReply(i, r)) && s.nodes[i].role.Leader?
    ensures ReplyFits(s.nodes[i], r)
  {
    hide CoreInv, NetOk, NodesOk, NodeOk, Vouched, Voters;
    var c, t := AsCore(s), r.request.term;
    RequestFits(s, i, r);
    TheNode(s, i);
    TheLedger(c, t);
    var k := |s.h.ledgers[t]|;
    SubsetCount({i}, Hopefuls(c, t, k));
    assert Settled(c, t, k);
    TheLater(c, t, s.nodes[i].term, k);
  }

  // ------------------------------------------------------------------------ every event

  lemma ReplyTable(x: Node, n: nat, r: AppendReply)
    requires TableOk(x, n) && (x.role.Leader? && r.term <= x.term ==> ReplyFits(x, r))
    ensures TableOk(HandleAppendReply(x, n, r), n)
  {
    hide AdvanceFrom, FailCalls;
    if x.role.Leader? && r.term <= x.term && !r.success {
      LastInLog(x.log, |x.log|, r.conflictTerm);
    }
  }

  lemma {:induction false} LastInLog(log: Log, i: nat, t: nat)
    requires i <= |log|
    ensures LastOfTerm(log, i, t) <= i
  {
    if i > 0 && log[i - 1].term != t { LastInLog(log, i - 1, t); }
  }

  lemma LeadTable(x: Node, i: nat, n: nat, peers: set<nat>)
    requires i < n && peers == Ids(n) - {i} && LastIndex(x.log) == |x.log|
    ensures TableOk(BecomeLeader(x, i, peers), n)
  {
    hide Ids, Reset;
    FullTable(x.next, n, i, |x.log| + 1, |x.log| + 2);
  }

  lemma DecideTable(x: Node, i: nat, n: nat, peers: set<nat>)
    requires TableOk(x, n) && i < n && peers == Ids(n) - {i} && LastIndex(x.log) == |x.log|
    ensures TableOk(DecideElection(x, i, peers), n)
  {
    hide Ids, BecomeLeader;
    if x.election.Some? { LeadTable(x.(election := None), i, n, peers); }
  }

  lemma VoteTable(x: Node, n: nat, i: nat, peers: set<nat>)
    requires TableOk(x, n)
    ensures TableOk(StartElection(x, i, peers), n)
    ensures forall r: VoteRequest :: TableOk(HandleVoteRequest(x, r).0, n)
    ensures forall r: VoteReply :: TableOk(HandleVoteReply(x, r), n)
  {
    hide FailCalls;
  }

  lemma CallTable(x: Node, i: nat, n: nat, cmd: Kv.Command)
    requires TableOk(x, n) && LastIndex(x.log) == |x.log|
    ensures TableOk(Append(x, i, cmd), n)
  {
  }

  /** No leader's log is touched by a message. */
  lemma AppendTable(s: Sys, i: nat, r: AppendRequest)
    requires Inv(s) && Enabled(s, OnAppend(i, r)) && TableOk(s.nodes[i], |s.nodes|)
    ensures TableOk(HandleAppend(s.nodes[i], r).0, |s.nodes|)
  {
    hide Inv, HandleAppend, FollowingCore, Evolves, CoreInv, NodeOk, Following;
    var x := s.nodes[i];
    if HandleAppend(x, r).1.success {
      AcceptsAppend(x, r);
      FollowingOk(s, i, r);
    } else {
      RejectionOk(x, r);
      if r.term >= x.term { FollowingOk(s, i, r); }
    }
  }

  lemma StepTable(s: Sys, e: Event)
    requires Inv(s) && Enabled(s, e) && TableOk(s.nodes[e.i], |s.nodes|)
    requires InTime(s, e) || |s.nodes| <= 2
    ensures TableOk(NodeAfter(s, e), |s.nodes|)
  {
    hide Inv, Ids, StartElection, HandleVoteRequest, HandleVoteReply, DecideElection, HandleAppend, HandleAppendReply,
         Append, TableOk, ReplyFits;
    var x, n := s.nodes[e.i], |s.nodes|;
    TheNode(s, e.i);
    match e
    case Elect(i) => VoteTable(x, n, i, Peers(s, i));
    case OnVoteRequest(i, r) => VoteTable(x, n, i, Peers(s, i));
    case OnVoteReply(i, r) => VoteTable(x, n, i, Peers(s, i));
    case Decide(i) => DecideTable(x, i, n, Peers(s, i));
    case OnAppend(i, r) => AppendTable(s, i, r);
    case OnAppendReply(i, r) =>
      if x.role.Leader? && r.term <= x.term {
        if n <= 2 { SmallFits(s, i, r); } else { InTimeFits(s, i, r); }
      }
      ReplyTable(x, n, r);
    case Call(i, cmd) => CallTable(x, i, n, cmd);
    case _ => SameTable(s, e);
  }

  lemma SameTable(s: Sys, e: Event)
    requires Enabled(s, e) && TableOk(s.nodes[e.i], |s.nodes|)
    requires e.Send? || e.Expire? || e.Take? || e.ApplyOne? || e.Notify? || e.Crash?
    ensures TableOk(NodeAfter(s, e), |s.nodes|)
  {
    hide Batch;
  }

  lemma StepInLog(s: Sys, e: Event)
    requires Inv(s) && Enabled(s, e) && NextInLog(s) && (InTime(s, e) || |s.nodes| <= 2)
    ensures NextInLog(Next(s, e))
  {
    hide Inv, InTime, TableOk, Next, NodeAfter;
    OneNode(s, e);
    StepTable(s, e);
  }

  lemma {:induction false} RunInLog(s: Sys, events: seq<Event>)
    requires Inv(s) && NextInLog(s) && RunFrom(s, events) && (AllInTime(s, events) || |s.nodes| <= 2)
    ensures NextInLog(StateAfter(s, events))
    decreases |events|
  {
    hide Inv, NextInLog, Next, Enabled, Allowed, InTime;
    if events != [] {
      StepKeeps(s, events[0]);
      StepInLog(s, events[0]);
      StepRemembers(s, events[0]);
      RunInLog(Next(s, events[0]), events[1..]);
    }
  }

  /** As long as replies are handled in the term of their request, no leader's next index is ever past its log. */
  lemma NextInLogInTime(n: nat, max: nat, timely: bool, events: seq<Event>, s: Sys)
    requires RunsTo(n, max, timely, events, s) && AllInTime(Init(n, max, timely), events)
    ensures NextInLog(s)
  {
    hide Inv, RunFrom, StateAfter, AllInTime;
    InitInv(n, max, timely);
    RunInLog(Init(n, max, timely), events);
  }
}
