/**
 Late and repeated append messages.  What a node has acknowledged in its current term stays in its log for as
 long as it stays in that term, so a message that brings nothing newer leaves the log alone.
 */
module DelayedMessages {
  import opened Wrappers
  import opened RaftLog
  import opened RaftCore
  import opened RaftCoreFrames
  import opened RaftCoreCommits
  import opened RaftNode
  import opened Cluster
  import opened ClusterInv
  import opened ClusterVotes
  import opened ClusterAppends
  import opened ClusterSafety
  import Kv = KvState

  /** The node's log holds what the node has acknowledged in its current term. */
  ghost predicate HoldsAcked(h: History, p: nat, x: Node) {
    x.term in h.ledgers ==> Agree(x.log, h.ledgers[x.term], Acked(h, p, x.term))
  }

  ghost predicate AllHoldAcked(s: Sys) {
    forall p: nat | p < |s.nodes| :: HoldsAcked(s.h, p, s.nodes[p])
  }

  /** A node that is new to a term has acknowledged nothing in it. */
  lemma NoAckAhead(s: Sys, p: nat, t: nat)
    requires Inv(s) && p < |s.nodes| && (t > s.nodes[p].term || t !in s.h.ledgers)
    ensures Acked(s.h, p, t) == 0
  {
    hide CoreInv, NetOk, NodesOk;
    if Acked(s.h, p, t) > 0 { TheAck(AsCore(s), p, t); }
  }

  // ------------------------------------------------ events that leave logs alone

  predicate Quiet(s: Sys, e: Event)
    requires Enabled(s, e)
  {
    match e
    case Decide(i) => !(NodeAfter(s, e).role.Leader? && !s.nodes[i].role.Leader?)
    case Call(_, _) => false
    case OnAppend(i, r) => !HandleAppend(s.nodes[i], r).1.success
    case _ => true
  }

  lemma QuietHistory(s: Sys, e: Event)
    requires Enabled(s, e) && Quiet(s, e)
    ensures Next(s, e).h.ledgers == s.h.ledgers && Next(s, e).h.acks == s.h.acks
  {
    hide StartElection, HandleVoteRequest, HandleVoteReply, DecideElection, HandleAppend, HandleAppendReply,
         TakeBatch, ApplyNext, Resolve, CrashRestart, GiveUp, MakeAppend;
  }

  /** The log is the same and the term no lower. */
  ghost predicate SameLog(x: Node, y: Node) {
    y.log == x.log && y.term >= x.term
  }

  lemma QuietVote(x: Node, r: VoteRequest, v: VoteReply)
    ensures SameLog(x, HandleVoteRequest(x, r).0) && SameLog(x, HandleVoteReply(x, v))
  {
  }

  lemma QuietElection(x: Node, me: nat, peers: set<nat>)
    ensures SameLog(x, StartElection(x, me, peers))
    ensures var y := DecideElection(x, me, peers); (y.role.Leader? && !x.role.Leader?) || SameLog(x, y)
  {
  }

  lemma QuietReply(x: Node, n: nat, r: AppendReply)
    ensures SameLog(x, HandleAppendReply(x, n, r))
  {
    hide AdvanceFrom, Backtrack, FailCalls;
  }

  lemma QuietNode(s: Sys, e: Event)
    requires Enabled(s, e) && Quiet(s, e)
    ensures SameLog(s.nodes[e.i], NodeAfter(s, e))
  {
    hide StartElection, HandleVoteRequest, HandleVoteReply, DecideElection, HandleAppend, HandleAppendReply, Batch;
    var x := s.nodes[e.i];
    match e
    case OnAppend(_, r) => RejectionOk(x, r);
    case OnAppendReply(_, r) => QuietReply(x, |s.nodes|, r);
    case OnVoteRequest(_, r) => QuietVote(x, r, VoteReply(r, 0, 0, false));
    case OnVoteReply(_, r) => QuietVote(x, r.request, r);
    case _ => QuietElection(x, e.i, Peers(s, e.i));
  }

  lemma QuietKeeps(s: Sys, e: Event)
    requires Inv(s) && AllHoldAcked(s) && Enabled(s, e) && Quiet(s, e)
    ensures AllHoldAcked(Next(s, e))
  {
    hide Inv, Next, NodeAfter, Enabled, Quiet;
    QuietHistory(s, e);
    QuietNode(s, e);
    OneNode(s, e);
    InRange(s, e);
    forall p: nat | p < |s.nodes|
      ensures HoldsAcked(Next(s, e).h, p, Next(s, e).nodes[p])
    {
      assert HoldsAcked(s.h, p, s.nodes[p]);
      var t := Next(s, e).nodes[p].term;
      if t > s.nodes[p].term { NoAckAhead(s, p, t); }
    }
  }

  lemma InRange(s: Sys, e: Event)
    requires Enabled(s, e)
    ensures e.i < |s.nodes| && LaidOut(s.nodes[e.i].log)
  {
  }

  // ------------------------------------------------------ events that write a log

  lemma DecideHolds(s: Sys, i: nat)
    requires Inv(s) && AllHoldAcked(s) && Enabled(s, Decide(i)) && !Quiet(s, Decide(i))
    ensures AllHoldAcked(Next(s, Decide(i)))
  {
    hide CoreInv, NetOk, NodesOk, NodeOk, MemberOk, BecomeLeader;
    var x, c, s' := s.nodes[i], AsCore(s), Next(s, Decide(i));
    var y := DecideElection(x, i, Peers(s, i));
    TheNode(s, i);
    BecomesLeader(x.(election := None), i, Peers(s, i));
    DecideMajority(c, i, x, s.max, Peers(s, i));
    FirstOfTheTerm(c, i);
    TheLedger(c, x.term);
    forall p: nat | p < |s'.nodes|
      ensures HoldsAcked(s'.h, p, s'.nodes[p])
    {
      assert HoldsAcked(s.h, p, s.nodes[p]);
      NoAckAhead(s, p, y.term);
    }
  }

  lemma CallHolds(s: Sys, i: nat, cmd: Kv.Command)
    requires Inv(s) && AllHoldAcked(s) && Enabled(s, Event.Call(i, cmd))
    ensures AllHoldAcked(Next(s, Event.Call(i, cmd)))
  {
    hide CoreInv, NetOk, NodesOk, NodeOk, OwnEntry, Vouched;
    var x, s' := s.nodes[i], Next(s, Event.Call(i, cmd));
    TheNode(s, i);
    LeaderLedger(AsCore(s), i);
    forall p: nat | p < |s'.nodes|
      ensures HoldsAcked(s'.h, p, s'.nodes[p])
    {
      assert HoldsAcked(s.h, p, s.nodes[p]);
    }
  }

  lemma AppendHolds(s: Sys, i: nat, r: AppendRequest)
    requires Inv(s) && AllHoldAcked(s) && Enabled(s, OnAppend(i, r)) && HandleAppend(s.nodes[i], r).1.success
    ensures AllHoldAcked(Next(s, OnAppend(i, r)))
  {
    hide Inv, HandleAppend, TakesIn, AcceptStep, FollowingCore;
    var x, s' := s.nodes[i], Next(s, OnAppend(i, r));
    var y, len := HandleAppend(x, r).0, r.prev + |r.entries|;
    AcceptsAppend(x, r);
    var d := TakenShape(s, i, r);
    forall p: nat | p < |s'.nodes|
      ensures HoldsAcked(s'.h, p, s'.nodes[p])
    {
      assert HoldsAcked(s.h, p, s.nodes[p]);
      if p == i && Acked(s.h, i, r.term) >= len {
        if r.term > x.term { NoAckAhead(s, i, r.term); }
        CutBeyond(x.log, s.h.ledgers[r.term], len, y.log, d, Acked(s.h, i, r.term));
      }
    }
  }

  /** What an accepted message does to the log, by the ledger of its term. */
  lemma TakenShape(s: Sys, i: nat, r: AppendRequest) returns (d: nat)
    requires Inv(s) && Enabled(s, OnAppend(i, r)) && HandleAppend(s.nodes[i], r).1.success
    ensures var x, y, len := s.nodes[i], HandleAppend(s.nodes[i], r).0, r.prev + |r.entries|;
            && r.term in s.h.ledgers && r.term >= x.term && y.term == r.term
            && TakesIn(x.log, s.h.ledgers[r.term], len, y.log, d) && Agree(y.log, s.h.ledgers[r.term], len)
            && 0 < len
  {
    hide CoreInv, NodesOk, NodeOk, HandleAppend, TakesIn, Merge, FollowingCore, Vouched;
    AcceptsAppend(s.nodes[i], r);
    FollowingOk(s, i, r);
    d := TakenIn(s, i, r);
    assert AppendOk(s.h, r);
  }

  // ---------------------------------------------------------------------- runs

  lemma StepHolds(s: Sys, e: Event)
    requires Inv(s) && AllHoldAcked(s) && Enabled(s, e)
    ensures AllHoldAcked(Next(s, e))
  {
    hide Inv, AllHoldAcked, Next, Enabled;
    if Quiet(s, e) {
      QuietKeeps(s, e);
    } else {
      match e
      case Decide(i) => DecideHolds(s, i);
      case Call(i, cmd) => CallHolds(s, i, cmd);
      case OnAppend(i, r) => AppendHolds(s, i, r);
    }
  }

  lemma {:induction false} RunHolds(s: Sys, events: seq<Event>)
    requires Inv(s) && AllHoldAcked(s) && RunFrom(s, events)
    ensures AllHoldAcked(StateAfter(s, events))
    decreases |events|
  {
    hide Inv, AllHoldAcked, Next, Enabled, Allowed;
    if events != [] {
      StepKeeps(s, events[0]);
      StepHolds(s, events[0]);
      RunHolds(Next(s, events[0]), events[1..]);
    }
  }

  lemma ReachableHolds(s: Sys)
    requires Reachable(s)
    ensures AllHoldAcked(s)
  {
    hide Inv, RunFrom, StateAfter;
    var n: nat, max: nat, timely: bool, events: seq<Event> :| RunsTo(n, max, timely, events, s);
    InitInv(n, max, timely);
    RunHolds(Init(n, max, timely), events);
  }

  /**
   An accepted append never removes an entry the follower shares with the leader's log, and ends with the
   leader's entries up to the end of the message.
   */
  lemma AppendNonDestructive(s: Sys, i: nat, r: AppendRequest, k: nat)
    requires Reachable(s) && Enabled(s, OnAppend(i, r)) && HandleAppend(s.nodes[i], r).1.success
    ensures var x, y, len := s.nodes[i], HandleAppend(s.nodes[i], r).0, r.prev + |r.entries|;
            && r.term in s.h.ledgers
            && Agree(y.log, s.h.ledgers[r.term], len)
            && (Agree(x.log, s.h.ledgers[r.term], k) ==> Agree(x.log, y.log, k))
            && (Agree(x.log, s.h.ledgers[r.term], len) ==> y.log == x.log)
  {
    hide Inv, HandleAppend, Enabled, Reachable;
    InRange(s, OnAppend(i, r));
    ReachableInv(s);
    var d := TakenShape(s, i, r);
    var x, y, len := s.nodes[i], HandleAppend(s.nodes[i], r).0, r.prev + |r.entries|;
    if Agree(x.log, s.h.ledgers[r.term], k) {
      CutBeyond(x.log, s.h.ledgers[r.term], len, y.log, d, k);
    }
  }

  /**
   A late or repeated message of the current term is harmless: one that reaches no further than what the node
   has acknowledged in this term is accepted and leaves the log as it is, so it never shrinks it.
   */
  lemma LateAppendHarmless(s: Sys, i: nat, r: AppendRequest)
    requires Reachable(s) && Enabled(s, OnAppend(i, r)) && r.term == s.nodes[i].term
    requires r.prev + |r.entries| <= Acked(s.h, i, r.term)
    ensures HandleAppend(s.nodes[i], r).1.success && HandleAppend(s.nodes[i], r).0.log == s.nodes[i].log
  {
    hide Inv, HandleAppend, Reachable;
    ReachableInv(s);
    ReachableHolds(s);
    assert HoldsAcked(s.h, i, s.nodes[i]);
    LateAccepted(s, i, r);
    AppendNonDestructive(s, i, r, 0);
  }

  lemma LateAccepted(s: Sys, i: nat, r: AppendRequest)
    requires Inv(s) && Enabled(s, OnAppend(i, r)) && r.term == s.nodes[i].term
    requires HoldsAcked(s.h, i, s.nodes[i]) && r.prev + |r.entries| <= Acked(s.h, i, r.term)
    ensures HandleAppend(s.nodes[i], r).1.success
    ensures r.term in s.h.ledgers && Agree(s.nodes[i].log, s.h.ledgers[r.term], r.prev + |r.entries|)
  {
    hide CoreInv, NodesOk, NodeOk, Merge, FirstOfTerm, FailCalls, Vouched;
    TheNode(s, i);
    assert AppendOk(s.h, r);
  }
}
