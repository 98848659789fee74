/**
 The safety theorems, over every run of a cluster of any size.  Those that speak of commits ask for a trusted history:
 a cluster of at most four, or one in which successes are handled in their request's term.
 */
module ClusterSafety {
  import opened Wrappers
  import opened RaftLog
  import opened Quorums
  import opened RaftCore
  import opened RaftCoreFrames
  import RaftCoreLedgers
  import opened RaftCoreCommits
  import opened RaftNode
  import opened Cluster
  import opened ClusterInv
  import opened ClusterVotes
  import opened ClusterAppends
  import opened ClusterReplies
  import opened ClusterClients

  // ---------------------------------------------------------------- every run

  lemma InitInv(n: nat, max: nat, timely: bool)
    ensures Inv(Init(n, max, timely))
  {
    var c := AsCore(Init(n, max, timely));
    forall i: nat | i < n ensures MemberOk(c.members[i], i, c.h) {}
    forall v: nat, t: nat, a: nat, b: nat ensures TwiceOk(c.h, v, t, a, b) {}
    forall p: nat, t: nat, k: nat ensures KeptOk(c, p, t, k) {}
    forall b: Ballot, t: nat, k: nat ensures CarriedOk(c, b, t, k) {}
    forall t: nat, u: nat, k: nat ensures LaterOk(c, t, u, k) {}
    assert FRESH.applied == FRESH.log[..0];
  }

  lemma StepKeeps(s: Sys, e: Event)
    requires Inv(s) && Enabled(s, e) && Allowed(s, e)
    ensures Inv(Next(s, e))
  {
    hide Inv, AfterElect, AfterVoteRequest, AfterDecide, AfterSend, AfterAppend, AfterAppendReply, AfterCall;
    match e
    case Elect(i) => ElectKeeps(s, i);
    case OnVoteRequest(i, r) => VoteRequestKeeps(s, i, r);
    case OnVoteReply(i, r) => VoteReplyKeeps(s, i, r);
    case Decide(i) => DecideKeeps(s, i);
    case Send(i, to) => SendKeeps(s, i, to);
    case OnAppend(i, r) => AppendKeeps(s, i, r);
    case OnAppendReply(i, r) => AppendReplyKeeps(s, i, r);
    case Call(i, cmd) => CallKeeps(s, i, cmd);
    case Expire(i, call) => ExpireKeeps(s, i, call);
    case Take(i) => TakeKeeps(s, i);
    case ApplyOne(i) => ApplyKeeps(s, i);
    case Notify(i) => NotifyKeeps(s, i);
    case Crash(i) => CrashKeeps(s, i);
  }

  lemma {:induction false} RunKeeps(s: Sys, events: seq<Event>)
    requires Inv(s) && RunFrom(s, events)
    ensures Inv(StateAfter(s, events))
    decreases |events|
  {
    hide Inv;
    if events != [] {
      StepKeeps(s, events[0]);
      RunKeeps(Next(s, events[0]), events[1..]);
    }
  }

  /** The invariant holds in every reachable state. */
  lemma ReachableInv(s: Sys)
    requires Reachable(s)
    ensures Inv(s)
  {
    hide Inv;
    var n: nat, max: nat, timely: bool, events: seq<Event> :| RunsTo(n, max, timely, events, s);
    InitInv(n, max, timely);
    RunKeeps(Init(n, max, timely), events);
  }

  lemma {:induction false} RunConcat(s: Sys, a: seq<Event>, b: seq<Event>)
    requires RunFrom(s, a) && RunFrom(StateAfter(s, a), b)
    ensures RunFrom(s, a + b) && StateAfter(s, a + b) == StateAfter(StateAfter(s, a), b)
    decreases |a|
  {
    hide Enabled, Allowed, Next;
    if a == [] {
      assert a + b == b;
    } else {
      RunConcat(Next(s, a[0]), a[1..], b);
      assert (a + b)[1..] == a[1..] + b;
    }
  }

  /** What a run leads to from a reachable state is reachable. */
  lemma ReachableAfter(s: Sys, events: seq<Event>)
    requires Reachable(s) && RunFrom(s, events)
    ensures Reachable(StateAfter(s, events)) && StateAfter(s, events).h.trusted == s.h.trusted
  {
    hide RunFrom, StateAfter, Inv;
    ReachableInv(s);
    RunRemembers(s, events);
    var n: nat, max: nat, timely: bool, before: seq<Event> :| RunsTo(n, max, timely, before, s);
    RunConcat(Init(n, max, timely), before, events);
    assert RunsTo(n, max, timely, before + events, StateAfter(s, events));
  }

  // ----------------------------------------------------- what never changes back

  /**
   From `s` to `s'`, whoever led a term still is its leader, and commit decisions stay; so does what they covered, if
   acknowledgements can be relied on.
   */
  ghost predicate Remembers(s: Sys, s': Sys) {
    && |s'.nodes| == |s.nodes| && s'.max == s.max
    && (forall t: nat :: t in s.h.leaders ==> t in s'.h.leaders && s'.h.leaders[t] == s.h.leaders[t])
    && s.h.marks <= s'.h.marks && s'.h.trusted == s.h.trusted
    && (s.h.trusted ==> Agree(s.h.decided, s'.h.decided, |s.h.decided|))
  }

  lemma DecideRemembers(s: Sys, i: nat)
    requires Inv(s) && i < |s.nodes|
    ensures Remembers(s, AfterDecide(s, i))
  {
    hide CoreInv, NetOk, NodeOk, MemberOk, BecomeLeader;
    var x, c := s.nodes[i], AsCore(s);
    var y := DecideElection(x, i, Peers(s, i));
    TheNode(s, i);
    BecomesLeader(x.(election := None), i, Peers(s, i));
    if y.role.Leader? && !x.role.Leader? {
      DecideMajority(c, i, x, s.max, Peers(s, i));
      FirstOfTheTerm(c, i);
    }
  }

  lemma FirstOfTheTerm(c: Core, i: nat)
    requires CoreInv(c) && i < |c.members| && c.members[i].role.Candidate?
    requires |Voters(c, c.members[i].term, i)| >= Majority(|c.members|)
    ensures c.members[i].term !in c.h.leaders
  {
    hide CoreInv;
    RaftCoreLedgers.FirstOfItsTerm(c, i);
    TheLedger(c, c.members[i].term);
  }

  lemma ReplyRemembers(s: Sys, i: nat, r: AppendReply)
    requires Inv(s) && Enabled(s, OnAppendReply(i, r)) && Allowed(s, OnAppendReply(i, r))
    ensures Remembers(s, AfterAppendReply(s, i, r))
  {
    hide CoreInv, NodeOk, NetOk, LeaderOk, Evolves;
    var n, c, x := |s.nodes|, AsCore(s), s.nodes[i];
    TheNode(s, i);
    CommitIndexOk(s, i);
    if r.success && x.role.Leader? && r.term <= x.term {
      var x1 := RecordMatch(x, r.request.to, r.request.prev + |r.request.entries|);
      var y := AdvanceCommit(x1, n);
      RecordMatchOk(s, i, r);
      AdvanceSound(x1, n, |x.log|);
      if y.commit > x.commit && s.h.trusted {
        TheMember(c, i);
        CommittableHeld(c, i, x1, y.commit);
        DecreeEvolves(c, i, y.commit);
      }
    }
  }

  lemma StepRemembers(s: Sys, e: Event)
    requires Inv(s) && Enabled(s, e) && Allowed(s, e)
    ensures Remembers(s, Next(s, e))
  {
    match e
    case Decide(i) => DecideRemembers(s, i);
    case OnAppendReply(i, r) => ReplyRemembers(s, i, r);
    case _ =>
      hide Inv;
      OtherRemembers(s, e);
  }

  lemma OtherRemembers(s: Sys, e: Event)
    requires Enabled(s, e) && !e.Decide? && !e.OnAppendReply?
    ensures Remembers(s, Next(s, e))
  {
    hide StartElection, HandleVoteRequest, HandleVoteReply, MakeAppend, HandleAppend, Append, GiveUp, TakeBatch,
         ApplyNext, Resolve, CrashRestart;
  }

  lemma {:induction false} RunRemembers(s: Sys, events: seq<Event>)
    requires Inv(s) && RunFrom(s, events)
    ensures Remembers(s, StateAfter(s, events))
    decreases |events|
  {
    hide Inv, Remembers, Next, Enabled, Allowed;
    if events == [] {
      RemembersSelf(s);
    } else {
      StepKeeps(s, events[0]);
      StepRemembers(s, events[0]);
      RunRemembers(Next(s, events[0]), events[1..]);
      RemembersTransitive(s, Next(s, events[0]), StateAfter(s, events));
    }
  }

  lemma RemembersSelf(s: Sys)
    ensures Remembers(s, s)
  {
  }

  lemma RemembersTransitive(a: Sys, b: Sys, c: Sys)
    requires Remembers(a, b) && Remembers(b, c)
    ensures Remembers(a, c)
  {
  }

  // ------------------------------------------------------------- the theorems

  /** At most one node ever leads a term: a leader now and a leader of that term at any later time are the same. */
  lemma ElectionSafety(s: Sys, events: seq<Event>, i: nat, j: nat)
    requires Reachable(s) && RunFrom(s, events)
    requires i < |s.nodes| && j < |s.nodes| && s.nodes[i].role.Leader?
    ensures var s' := StateAfter(s, events);
            j < |s'.nodes| && (s'.nodes[j].role.Leader? && s'.nodes[j].term == s.nodes[i].term ==> i == j)
  {
    hide Inv, Reachable;
    ReachableInv(s);
    RunKeeps(s, events);
    RunRemembers(s, events);
    TheNode(s, i);
    TheNode(StateAfter(s, events), j);
  }

  /** Two logs with the same term at an index are the same up to it. */
  lemma LogsMatch(s: Sys, i: nat, j: nat, k: nat)
    requires Reachable(s) && i < |s.nodes| && j < |s.nodes|
    requires k < |s.nodes[i].log| && k < |s.nodes[j].log| && s.nodes[i].log[k].term == s.nodes[j].log[k].term
    ensures s.nodes[i].log[..k + 1] == s.nodes[j].log[..k + 1]
    ensures LaidOut(s.nodes[i].log)
  {
    hide Inv, Reachable;
    ReachableInv(s);
    TheNode(s, i);
    TheNode(s, j);
    LogMatching(s.nodes[i].log, s.nodes[j].log, s.h.ledgers, k);
  }

  /** A node's committed entries are the cluster's committed entries. */
  lemma CommittedIsDecided(s: Sys, i: nat)
    requires Inv(s) && s.h.trusted && i < |s.nodes|
    ensures Agree(s.nodes[i].log, s.h.decided, s.nodes[i].commit)
  {
    hide CoreInv, NodeOk, NetOk;
    TheNode(s, i);
    var x := s.nodes[i];
    if x.commit > 0 {
      var m :| m in s.h.marks && Covers(s.h, m, x.log, x.commit, x.term);
      TheMark(AsCore(s), m);
    }
  }

  lemma AppliedIsDecided(s: Sys, i: nat)
    requires Inv(s) && s.h.trusted && i < |s.nodes|
    ensures |s.nodes[i].applied| <= |s.h.decided| && s.nodes[i].applied == s.h.decided[..|s.nodes[i].applied|]
  {
    hide CoreInv, NetOk;
    TheNode(s, i);
    CommittedIsDecided(s, i);
    var x := s.nodes[i];
    assert x.applied == x.log[..|x.applied|];
    assert forall k: nat :: k < |x.applied| ==> x.applied[k] == s.h.decided[k];
  }

  lemma NothingSkipped(s: Sys, i: nat)
    requires Inv(s) && s.h.trusted && i < |s.nodes|
    ensures ApplierOk(s.nodes[i], s.max)
  {
    hide CoreInv, NetOk, ApplierOk, ClientsOk, AnswersOk, LeaderOk, TallyOk;
    TheNode(s, i);
  }

  /**
   State machine safety: what any node has applied since its last restart and what any node, the same or
   another, has applied at any later time are one a prefix of the other.  Nothing is skipped: applied
   entries and those taken for applying are exactly the log up to the last applied index.
   */
  lemma StateMachineSafety(s: Sys, events: seq<Event>, i: nat, j: nat)
    requires Reachable(s) && s.h.trusted && RunFrom(s, events) && i < |s.nodes| && j < |s.nodes|
    ensures var s' := StateAfter(s, events);
            && j < |s'.nodes|
            && (s.nodes[i].applied <= s'.nodes[j].applied || s'.nodes[j].applied <= s.nodes[i].applied)
    ensures var x := s.nodes[i];
            && x.lastApplied <= x.commit <= |x.log|
            && |x.applied| + |x.queue| == x.lastApplied
            && x.applied == x.log[..|x.applied|]
            && forall k: nat :: k < |x.queue| ==> x.queue[k] == (|x.applied| + k + 1, x.log[|x.applied| + k])
  {
    hide Inv, Reachable, CoreInv, RunFrom, StateAfter;
    ReachableInv(s);
    RunKeeps(s, events);
    RunRemembers(s, events);
    AppliedIsDecided(s, i);
    AppliedIsDecided(StateAfter(s, events), j);
    NothingSkipped(s, i);
    var d' := StateAfter(s, events).h.decided;
    var a := s.nodes[i].applied;
    assert a == d'[..|a|];
  }

  /**
   Leader completeness: once the leader of a term has committed a prefix of its log, every leader of that or a later
   term, then or at any later time, has those entries.
   */
  lemma LeaderCompleteness(s: Sys, events: seq<Event>, m: Mark, i: nat)
    requires Reachable(s) && s.h.trusted && RunFrom(s, events) && m in s.h.marks && i < |StateAfter(s, events).nodes|
    requires var y := StateAfter(s, events).nodes[i]; y.role.Leader? && y.term >= m.term
    ensures var y := StateAfter(s, events).nodes[i];
            m.len <= |s.h.decided| && m.len <= |y.log| && y.log[..m.len] == s.h.decided[..m.len]
  {
    hide Inv, CoreInv, Reachable, RunFrom, StateAfter;
    ReachableInv(s);
    RunKeeps(s, events);
    RunRemembers(s, events);
    MarkDecided(s, m);
    LeaderHasMark(StateAfter(s, events), m, i);
  }

  lemma MarkDecided(s: Sys, m: Mark)
    requires Inv(s) && s.h.trusted && m in s.h.marks
    ensures m.len <= |s.h.decided|
  {
    hide CoreInv;
    TheMark(AsCore(s), m);
  }

  lemma LeaderHasMark(s: Sys, m: Mark, i: nat)
    requires Inv(s) && s.h.trusted && m in s.h.marks && i < |s.nodes|
    requires s.nodes[i].role.Leader? && s.nodes[i].term >= m.term
    ensures Agree(s.nodes[i].log, s.h.decided, m.len)
  {
    hide CoreInv, NodesOk, NodeOk, NetOk, Vouched, Holders, Hopefuls;
    var c := AsCore(s);
    TheNode(s, i);
    TheMark(c, m);
    MarkSettled(c, m);
    TheLater(c, m.term, s.nodes[i].term, m.len);
  }

  lemma CommittedByMark(s: Sys, j: nat) returns (m: Mark)
    requires Inv(s) && s.h.trusted && j < |s.nodes| && s.nodes[j].commit > 0
    ensures m in s.h.marks && m.term <= s.nodes[j].term && s.nodes[j].commit <= m.len
  {
    hide CoreInv, NodeOk, NetOk;
    TheNode(s, j);
    var y := s.nodes[j];
    m :| m in s.h.marks && Covers(s.h, m, y.log, y.commit, y.term);
  }

  /**
   What any node has committed is, from then on, in the log of every leader of the node's term or a later one, at
   whatever later time it leads.
   */
  lemma LeaderHasCommitted(s: Sys, events: seq<Event>, j: nat, i: nat)
    requires Reachable(s) && s.h.trusted && RunFrom(s, events) && j < |s.nodes|
    requires i < |StateAfter(s, events).nodes|
    requires var y := StateAfter(s, events).nodes[i]; y.role.Leader? && y.term >= s.nodes[j].term
    ensures var x, y := s.nodes[j], StateAfter(s, events).nodes[i];
            && x.commit <= |x.log| && x.commit <= |y.log|
            && y.log[..x.commit] == x.log[..x.commit]
  {
    hide Inv, CoreInv, Reachable, RunFrom, StateAfter;
    ReachableInv(s);
    CommittedIsDecided(s, j);
    if s.nodes[j].commit > 0 {
      var m := CommittedByMark(s, j);
      LeaderCompleteness(s, events, m, i);
      MarkDecided(s, m);
    }
  }

  /** Every append message ever sent carries entries at least up to the commit index it announces. */
  lemma MessagesCoverCommit(s: Sys, r: AppendRequest)
    requires Reachable(s) && s.h.trusted && r in s.net.appends
    ensures r.commit <= r.prev + |r.entries|
    ensures r.commit <= |s.h.decided| && r.term in s.h.ledgers && Agree(s.h.ledgers[r.term], s.h.decided, r.commit)
  {
    hide Inv, CoreInv, Reachable, NodeOk;
    ReachableInv(s);
    MessageVouched(s, r);
  }

  lemma MessageVouched(s: Sys, r: AppendRequest)
    requires Inv(s) && s.h.trusted && r in s.net.appends
    ensures AppendOk(s.h, r) && Agree(s.h.ledgers[r.term], s.h.decided, r.commit)
  {
    hide CoreInv, NodesOk;
    assert AppendOk(s.h, r);
    if r.commit > 0 {
      var m :| m in s.h.marks && Covers(s.h, m, s.h.ledgers[r.term], r.commit, r.term);
      TheMark(AsCore(s), m);
    }
  }

  // ----------------------------------------------------- commit indices hold

  ghost predicate HoldsCommit(x: Node, y: Node) {
    Agree(x.log, y.log, x.commit) && (y.incarnation == x.incarnation ==> x.commit <= y.commit)
  }

  lemma AppendHoldsCommit(s: Sys, i: nat, r: AppendRequest)
    requires Inv(s) && s.h.trusted && Enabled(s, OnAppend(i, r))
    ensures HoldsCommit(s.nodes[i], HandleAppend(s.nodes[i], r).0)
  {
    hide Inv, HandleAppend;
    CommitIndexOk(s, i);
    if HandleAppend(s.nodes[i], r).1.success {
      LearntVouched(s, i, r);
    } else {
      RejectionOk(s.nodes[i], r);
    }
  }

  lemma ReplyHoldsCommit(x: Node, n: nat, r: AppendReply)
    ensures HandleAppendReply(x, n, r).log == x.log && x.commit <= HandleAppendReply(x, n, r).commit
  {
    AdvanceSound(RecordMatch(x, r.request.to, r.request.prev + |r.request.entries|), n, LastIndex(x.log));
  }

  lemma ElectionHoldsCommit(x: Node, me: nat, peers: set<nat>, r: VoteRequest, v: VoteReply)
    requires x.commit <= |x.log|
    ensures HoldsCommit(x, StartElection(x, me, peers)) && HoldsCommit(x, HandleVoteRequest(x, r).0)
    ensures HoldsCommit(x, HandleVoteReply(x, v)) && HoldsCommit(x, DecideElection(x, me, peers))
  {
  }

  /** No event ever cuts a node's log at or below its commit index, and only a crash lowers the commit index. */
  lemma CommitNeverCut(s: Sys, e: Event, i: nat)
    requires Reachable(s) && s.h.trusted && Enabled(s, e) && Allowed(s, e) && i < |s.nodes|
    ensures |Next(s, e).nodes| == |s.nodes|
    ensures HoldsCommit(s.nodes[i], Next(s, e).nodes[i])
  {
    hide Inv, Next, Reachable, StartElection, HandleVoteRequest, HandleVoteReply, DecideElection, HandleAppend,
         HandleAppendReply;
    ReachableInv(s);
    CommitIndexOk(s, i);
    OneNode(s, e);
    var x := s.nodes[e.i];
    var r := VoteRequest(0, 0, 0, 0);
    if e.i == i {
      match e
      case OnAppend(_, q) => AppendHoldsCommit(s, i, q);
      case OnAppendReply(_, q) => ReplyHoldsCommit(x, |s.nodes|, q);
      case OnVoteRequest(_, q) => ElectionHoldsCommit(x, i, Peers(s, i), q, VoteReply(q, 0, 0, false));
      case OnVoteReply(_, q) => ElectionHoldsCommit(x, i, Peers(s, i), q.request, q);
      case _ => ElectionHoldsCommit(x, i, Peers(s, i), r, VoteReply(r, 0, 0, false));
    }
  }
}
