/**
 How calls end, and whom a node points to.  A call changes its outcome for one of three reasons only, each with its own
 outcome; and the leader a node names has led, in a term it has seen.
 */
module CallEndings {
  import opened Wrappers
  import opened RaftLog
  import opened RaftCore
  import opened RaftCoreFrames
  import opened Quorums
  import opened RaftNode
  import opened Cluster
  import opened ClusterInv
  import opened ClusterSafety
  import opened NodeDuties
  import ClusterAppends
  import ClusterClients
  import Kv = KvState

  // ------------------------------------------------------------------ how calls end

  /** Why call `k` of node `x` has changed its outcome with event `e`, which leaves the node as `y`. */
  ghost predicate Explained(e: Event, x: Node, y: Node, k: nat)
    requires k < |x.calls| && k < |y.calls|
  {
    match y.calls[k].outcome
    case Waiting => false
    case Answered(result) =>
      // its own entry was applied, with this result
      && e.Notify? && x.resolving.Some?
      && x.resolving.value.entry == x.calls[k].entry && x.resolving.value.result == result
    case NotLeader =>
      // its node led in the entry's term and no longer does
      x.calls[k].outcome.Waiting? && x.role.Leader? && x.term == x.calls[k].entry.term && !y.role.Leader?
    case TimedOut => e.Expire? && e.call == k
  }

  /** Nothing happens to the calls, or the waiting ones are refused as the node steps down. */
  ghost predicate CallsHold(x: Node, y: Node) {
    |y.calls| == |x.calls| && forall k: nat | k < |x.calls| :: CallHolds(x, y, k)
  }

  ghost predicate CallHolds(x: Node, y: Node, k: nat)
    requires k < |x.calls| && k < |y.calls|
  {
    y.calls[k] == x.calls[k]
    || (x.calls[k].outcome.Waiting? && y.calls[k] == x.calls[k].(outcome := NotLeader) && !y.role.Leader?)
  }

  lemma DownHolds(x: Node, y: Node, term: nat)
    requires SteppedDown(x, y, term)
    ensures CallsHold(x, y)
  {
    forall k: nat | k < |x.calls| ensures CallHolds(x, y, k) {
      if y.calls[k] != x.calls[k] {
        assert y.calls[k].entry == x.calls[k].entry && y.calls[k].outcome == NotLeader;
      }
    }
  }

  lemma SameHolds(x: Node, y: Node)
    requires y.calls == x.calls
    ensures CallsHold(x, y)
  {
  }

  lemma VotesHold(x: Node, r: VoteRequest, v: VoteReply)
    ensures CallsHold(x, HandleVoteRequest(x, r).0) && CallsHold(x, HandleVoteReply(x, v))
  {
    hide FailCalls, CallsHold, SteppedDown, UpToDate;
    HigherTermDeposes(x, 0, r, v, AppendReply(AppendRequest(0, 0, 0, 0, 0, [], 0), 0, false, 0, 0));
    if r.term > x.term {
      DownHolds(x, HandleVoteRequest(x, r).0, r.term);
    } else {
      SameHolds(x, HandleVoteRequest(x, r).0);
    }
    if v.term > x.term {
      DownHolds(x, HandleVoteReply(x, v), v.term);
    } else {
      SameHolds(x, HandleVoteReply(x, v));
    }
  }

  lemma AppendsHold(x: Node, r: AppendRequest)
    requires LaidOut(x.log)
    ensures CallsHold(x, HandleAppend(x, r).0)
  {
    hide FailCalls, Merge, FirstOfTerm, CallsHold, SteppedDown;
    var y := HandleAppend(x, r).0;
    AppendAnswered(x, r);
    if r.term > x.term || (r.term == x.term && x.role.Candidate?) {
      DownHolds(x, y.(log := x.log, commit := x.commit), r.term);
      OnlyCalls(x, y.(log := x.log, commit := x.commit), y);
    } else {
      SameHolds(x, y);
    }
  }

  lemma OnlyCalls(x: Node, y: Node, z: Node)
    requires CallsHold(x, y) && z.calls == y.calls && z.role == y.role
    ensures CallsHold(x, z)
  {
    forall k: nat | k < |x.calls| ensures CallHolds(x, z, k) { assert CallHolds(x, y, k); }
  }

  lemma RepliesHold(x: Node, n: nat, r: AppendReply)
    ensures CallsHold(x, HandleAppendReply(x, n, r))
  {
    hide FailCalls, CallsHold, SteppedDown, AdvanceFrom, Backtrack;
    var v := VoteReply(VoteRequest(0, 0, 0, 0), 0, 0, false);
    HigherTermDeposes(x, n, v.request, v, r);
    if r.term > x.term {
      DownHolds(x, HandleAppendReply(x, n, r), r.term);
    } else {
      SameHolds(x, HandleAppendReply(x, n, r));
    }
  }

  /** Handlers of messages, and elections, end calls only by stepping down. */
  lemma MessagesHold(s: Sys, e: Event)
    requires Enabled(s, e) && !e.Call? && !e.Expire? && !e.Notify? && !e.Crash?
    ensures CallsHold(s.nodes[e.i], NodeAfter(s, e))
  {
    hide StartElection, HandleVoteRequest, HandleVoteReply, DecideElection, HandleAppend, HandleAppendReply, CallsHold,
         Batch, Ids;
    var x := s.nodes[e.i];
    match e
    case OnVoteRequest(_, r) => VotesHold(x, r, VoteReply(r, 0, 0, false));
    case OnVoteReply(_, r) => VotesHold(x, r.request, r);
    case OnAppend(_, r) => AppendsHold(x, r);
    case OnAppendReply(_, r) => RepliesHold(x, |s.nodes|, r);
    case Elect(i) => ElectionHolds(x, i, Peers(s, i));
    case Decide(i) => ElectionHolds(x, i, Peers(s, i));
    case Send(_, _) => SameHolds(x, x);
    case Take(_) => SameHolds(x, TakeBatch(x));
    case ApplyOne(_) => SameHolds(x, ApplyNext(x, s.max));
    case _ =>
  }

  lemma ElectionHolds(x: Node, me: nat, peers: set<nat>)
    ensures CallsHold(x, StartElection(x, me, peers)) && CallsHold(x, DecideElection(x, me, peers))
  {
    hide CallsHold, Reset;
    SameHolds(x, StartElection(x, me, peers));
    SameHolds(x, DecideElection(x, me, peers));
  }

  /**
   A call's outcome changes only when its own entry has been applied, when its node stops leading, or when its wait runs
   out, and says which it was.  A wait that runs out always shows.
   */
  lemma CallEnds(s: Sys, e: Event, i: nat, k: nat)
    requires Reachable(s) && s.h.trusted && Enabled(s, e) && i < |s.nodes| && k < |s.nodes[i].calls| && e != Crash(i)
    ensures |Next(s, e).nodes| == |s.nodes|
    ensures var x, y := s.nodes[i], Next(s, e).nodes[i];
            && k < |y.calls| && y.calls[k].entry == x.calls[k].entry
            && (y.calls[k] != x.calls[k] ==> e.i == i && Explained(e, x, y, k))
            && (e == Expire(i, k) ==> y.calls[k].outcome == TimedOut)
  {
    hide Inv, Reachable, NodeAfter, Next, Enabled, ApplierOk, AnswersOk, LaidOut, CallsHold;
    ReachableInv(s);
    OneNode(s, e);
    EnabledHere(s, e);
    if e.i == i {
      TheNode(s, i);
      WaitingLeads(s, i, k);
      var x, y := s.nodes[i], NodeAfter(s, e);
      match e
      case Call(_, cmd) => CallAdds(s, i, cmd);
      case Expire(_, call) => ExpireTells(s, i, call);
      case Notify(_) => NotifyTells(s, i, k);
      case _ => MessagesExplain(s, e, k);
    }
  }

  /** A waiting call's node leads in the entry's term. */
  lemma WaitingLeads(s: Sys, i: nat, k: nat)
    requires Inv(s) && i < |s.nodes| && k < |s.nodes[i].calls|
    ensures var x := s.nodes[i];
            x.calls[k].outcome.Waiting? ==> x.role.Leader? && x.term == x.calls[k].entry.term
  {
    hide CoreInv, NetOk;
    TheNode(s, i);
    if s.nodes[i].calls[k].outcome.Waiting? {
      assert CallOk(s.nodes[i], k);
      assert WaiterOk(s.nodes[i], s.nodes[i].calls[k].entry.index);
    }
  }

  lemma MessagesExplain(s: Sys, e: Event, k: nat)
    requires Enabled(s, e) && !e.Call? && !e.Expire? && !e.Notify? && !e.Crash? && k < |s.nodes[e.i].calls|
    requires var x := s.nodes[e.i]; x.calls[k].outcome.Waiting? ==> x.role.Leader? && x.term == x.calls[k].entry.term
    ensures var x, y := s.nodes[e.i], NodeAfter(s, e);
            && k < |y.calls| && y.calls[k].entry == x.calls[k].entry
            && (y.calls[k] != x.calls[k] ==> Explained(e, x, y, k))
  {
    hide NodeAfter, Enabled;
    EnabledHere(s, e);
    MessagesHold(s, e);
    assert CallHolds(s.nodes[e.i], NodeAfter(s, e), k);
  }

  lemma EnabledHere(s: Sys, e: Event)
    requires Enabled(s, e)
    ensures e.i < |s.nodes|
  {
  }

  lemma CallAdds(s: Sys, i: nat, cmd: Kv.Command)
    requires Enabled(s, Event.Call(i, cmd))
    ensures var x, y := s.nodes[i], NodeAfter(s, Event.Call(i, cmd));
            |y.calls| == |x.calls| + 1 && forall k: nat | k < |x.calls| :: y.calls[k] == x.calls[k]
  {
  }

  lemma ExpireTells(s: Sys, i: nat, call: nat)
    requires Enabled(s, Expire(i, call))
    ensures var x, y := s.nodes[i], NodeAfter(s, Expire(i, call));
            && |y.calls| == |x.calls| && y.calls[call] == x.calls[call].(outcome := TimedOut)
            && forall k: nat | k < |x.calls| && k != call :: y.calls[k] == x.calls[k]
  {
  }

  lemma NotifyTells(s: Sys, i: nat, k: nat)
    requires Inv(s) && s.h.trusted && Enabled(s, Notify(i)) && k < |s.nodes[i].calls|
    ensures var x, y := s.nodes[i], NodeAfter(s, Notify(i));
            && k < |y.calls| && y.calls[k].entry == x.calls[k].entry
            && (y.calls[k] != x.calls[k] ==> Explained(Notify(i), x, y, k))
  {
    hide CoreInv, NetOk, ApplierOk, AnswersOk, Resolve;
    var x := s.nodes[i];
    TheNode(s, i);
    ClusterClients.ResolveRest(x);
    if x.resolving.value.index in x.waiters {
      ClusterClients.ResolveAnswers(x, s.max);
    }
  }

  // ------------------------------------------------------------- whom a node points to

  /** A known leader has led a term this node has seen; a leader knows itself, and a candidate knows of none. */
  ghost predicate HintOk(h: History, me: nat, x: Node) {
    && (x.leaderId.Some? ==> exists t: nat :: t <= x.term && Leads(h, t, x.leaderId.value))
    && (x.role.Leader? ==> x.leaderId == Some(me)) && (x.role.Candidate? ==> x.leaderId == None)
  }

  ghost predicate HintsOk(s: Sys) {
    forall i: nat | i < |s.nodes| :: HintOk(s.h, i, s.nodes[i])
  }

  lemma HintStays(h: History, h': History, me: nat, x: Node, y: Node)
    requires HintOk(h, me, x) && y.leaderId == x.leaderId && y.term >= x.term
    requires (y.role.Leader? ==> x.role.Leader?) && (y.role.Candidate? ==> x.role.Candidate?)
    requires forall t: nat :: t in h.leaders ==> t in h'.leaders && h'.leaders[t] == h.leaders[t]
    ensures HintOk(h', me, y)
  {
    if x.leaderId.Some? {
      var t: nat :| t <= x.term && Leads(h, t, x.leaderId.value);
      assert t <= y.term && Leads(h', t, y.leaderId.value);
    }
  }

  /** Only three events name a leader: standing for election, winning it, and a message of a leader. */
  lemma HintMoves(s: Sys, e: Event)
    requires Enabled(s, e)
    ensures var x, y := s.nodes[e.i], NodeAfter(s, e);
            && (e.Crash? || y.term >= x.term)
            && (y.leaderId == x.leaderId || y.leaderId == None || e.Decide? || e.OnAppend?)
            && (y.role.Leader? ==> x.role.Leader? || e.Decide?)
            && (y.role.Candidate? ==> y.leaderId == None || (x.role.Candidate? && y.leaderId == x.leaderId))
            && (y.leaderId == None ==> !y.role.Leader? || x.leaderId == None)
            && (e.Decide? ==> y == x.(election := None) || y == x
                              || (y.role.Leader? && y.leaderId == Some(e.i) && y.term == x.term && !x.role.Leader?))
  {
    hide FailCalls, Merge, FirstOfTerm, AdvanceFrom, Batch, Reset, Backtrack, Ids, UpToDate, LaidOut;
    if e.OnAppend? { AppendMoves(s, e.i, e.append); }
  }

  lemma AppendMoves(s: Sys, i: nat, r: AppendRequest)
    requires Enabled(s, OnAppend(i, r))
    ensures var x, y := s.nodes[i], HandleAppend(s.nodes[i], r).0;
            && y.term >= x.term && (y.role.Leader? ==> x.role.Leader?)
            && (r.term < x.term ==> y == x)
            && (r.term >= x.term ==> y.leaderId == Some(r.leader) && y.term == r.term && !y.role.Candidate?)
  {
    hide FailCalls, Merge, FirstOfTerm;
  }

  lemma HintNext(s: Sys, e: Event)
    requires Inv(s) && HintsOk(s) && Enabled(s, e) && Allowed(s, e)
    ensures HintsOk(Next(s, e))
  {
    hide Inv, Next, NodeAfter, Allowed, HintOk;
    OneNode(s, e);
    EnabledHere(s, e);
    StepRemembers(s, e);
    forall i: nat | i < |Next(s, e).nodes|
      ensures HintOk(Next(s, e).h, i, Next(s, e).nodes[i])
    {
      assert HintOk(s.h, i, s.nodes[i]);
      if i == e.i {
        HintHere(s, e);
      } else {
        HintStays(s.h, Next(s, e).h, i, s.nodes[i], s.nodes[i]);
      }
    }
  }

  lemma HintHere(s: Sys, e: Event)
    requires Inv(s) && Enabled(s, e) && HintOk(s.h, e.i, s.nodes[e.i])
    requires forall t: nat :: t in s.h.leaders ==>
               t in Next(s, e).h.leaders && Next(s, e).h.leaders[t] == s.h.leaders[t]
    ensures HintOk(Next(s, e).h, e.i, NodeAfter(s, e))
  {
    hide Inv, NodeAfter, Next, Enabled;
    EnabledHere(s, e);
    HintMoves(s, e);
    var x, y, h' := s.nodes[e.i], NodeAfter(s, e), Next(s, e).h;
    if e.Crash? {
      CrashForgets(s, e.i);
    } else if y.leaderId == x.leaderId && (y.role.Leader? ==> x.role.Leader?)
              && (y.role.Candidate? ==> x.role.Candidate?) {
      HintStays(s.h, h', e.i, x, y);
    } else if e.OnAppend? {
      AppendNames(s, e.i, e.append);
      var t := e.append.term;
      assert t <= y.term && Leads(h', t, y.leaderId.value);
    } else if e.Decide? {
      DecideNames(s, e.i);
      assert Leads(h', y.term, e.i);
    }
  }

  lemma CrashForgets(s: Sys, i: nat)
    requires Enabled(s, Crash(i))
    ensures var y := NodeAfter(s, Crash(i)); y.leaderId == None && y.role.Follower?
  {
  }

  lemma AppendNames(s: Sys, i: nat, r: AppendRequest)
    requires Inv(s) && Enabled(s, OnAppend(i, r))
    ensures Leads(s.h, r.term, r.leader)
    ensures var x, y := s.nodes[i], NodeAfter(s, OnAppend(i, r));
            if r.term < x.term then y == x
            else y.leaderId == Some(r.leader) && y.term == r.term && y.role.Follower?
  {
    hide CoreInv, NodesOk, NodeOk, HandleAppend, Evolves;
    assert AppendOk(s.h, r);
    AppendMoves(s, i, r);
    if r.term >= s.nodes[i].term {
      ClusterAppends.FollowingOk(s, i, r);
      if HandleAppend(s.nodes[i], r).1.success {
        ClusterAppends.AcceptsAppend(s.nodes[i], r);
      } else {
        ClusterAppends.RejectionOk(s.nodes[i], r);
      }
    }
  }

  lemma DecideNames(s: Sys, i: nat)
    requires Enabled(s, Decide(i))
    ensures var x, y := s.nodes[i], NodeAfter(s, Decide(i));
            y.role.Leader? && !x.role.Leader? ==> Leads(Next(s, Decide(i)).h, y.term, i)
  {
    hide DecideElection;
  }

  lemma {:induction false} RunHints(s: Sys, events: seq<Event>)
    requires Inv(s) && HintsOk(s) && RunFrom(s, events)
    ensures HintsOk(StateAfter(s, events))
    decreases |events|
  {
    hide Inv, HintsOk, Next, Enabled, Allowed;
    if events != [] {
      StepKeeps(s, events[0]);
      HintNext(s, events[0]);
      RunHints(Next(s, events[0]), events[1..]);
    }
  }

  /**
   The leader a node names, and redirects clients to, has led a term this node has seen; a leader names itself, and a
   candidate nobody.
   */
  lemma LeaderHint(s: Sys, i: nat)
    requires Reachable(s) && i < |s.nodes|
    ensures HintOk(s.h, i, s.nodes[i])
  {
    hide Inv, RunFrom, StateAfter, HintOk;
    var n: nat, max: nat, timely: bool, events: seq<Event> :| RunsTo(n, max, timely, events, s);
    InitInv(n, max, timely);
    NoHints(n, max, timely);
    RunHints(Init(n, max, timely), events);
  }

  lemma NoHints(n: nat, max: nat, timely: bool)
    ensures HintsOk(Init(n, max, timely))
  {
  }
}
