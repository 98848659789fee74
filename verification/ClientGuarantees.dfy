/** What clients of the cluster are promised, over every run: no false success, ordered writes, linearizable reads. */
module ClientGuarantees {
  import opened Wrappers
  import opened RaftLog
  import opened RaftCore
  import opened RaftCoreFrames
  import opened RaftNode
  import opened Cluster
  import opened ClusterInv
  import opened ClusterSafety
  import RaftCoreCommits
  import Kv = KvState

  // ---------------------------------------------- calls across the events of a run

  /** Within one incarnation of a node, calls keep their identity and applied entries stay applied. */
  ghost predicate SameLife(x: Node, y: Node) {
    && x.incarnation <= y.incarnation
    && (x.incarnation == y.incarnation ==>
          && |x.calls| <= |y.calls|
          && (forall k: nat :: k < |x.calls| ==> y.calls[k].entry == x.calls[k].entry)
          && x.applied <= y.applied)
  }

  lemma StepDownLife(x: Node, term: nat)
    ensures SameLife(x, BecomeFollower(x, term)) && BecomeFollower(x, term).applied == x.applied
    ensures |BecomeFollower(x, term).calls| == |x.calls| && BecomeFollower(x, term).incarnation == x.incarnation
  {
  }

  lemma ElectionLife(x: Node, me: nat, peers: set<nat>, request: VoteRequest, reply: VoteReply)
    ensures SameLife(x, StartElection(x, me, peers)) && SameLife(x, HandleVoteRequest(x, request).0)
    ensures SameLife(x, HandleVoteReply(x, reply)) && SameLife(x, DecideElection(x, me, peers))
  {
    hide BecomeFollower;
    StepDownLife(x, request.term);
    StepDownLife(x, reply.term);
  }

  lemma ReplicationLife(x: Node, n: nat, request: AppendRequest, reply: AppendReply)
    requires LaidOut(x.log)
    ensures SameLife(x, HandleAppend(x, request).0) && SameLife(x, HandleAppendReply(x, n, reply))
  {
    hide BecomeFollower;
    StepDownLife(x, request.term);
    StepDownLife(x, reply.term);
  }

  lemma ClientLife(x: Node, me: nat, cmd: Kv.Command, call: nat, max: nat)
    ensures SameLife(x, Append(x, me, cmd)) && SameLife(x, TakeBatch(x)) && SameLife(x, CrashRestart(x))
    ensures call < |x.calls| ==> SameLife(x, GiveUp(x, call))
    ensures x.queue != [] ==> SameLife(x, ApplyNext(x, max))
    ensures x.resolving.Some? ==> SameLife(x, Resolve(x))
  {
  }

  lemma NodeLife(s: Sys, e: Event, i: nat)
    requires Enabled(s, e) && i < |s.nodes|
    ensures |Next(s, e).nodes| == |s.nodes| && SameLife(s.nodes[i], Next(s, e).nodes[i])
  {
    hide Next, StartElection, HandleVoteRequest, HandleVoteReply, DecideElection, HandleAppend, HandleAppendReply,
         Append, GiveUp, TakeBatch, ApplyNext, Resolve, CrashRestart;
    OneNode(s, e);
    var x := s.nodes[e.i];
    match e
    case OnVoteRequest(_, r) => ElectionLife(x, e.i, Peers(s, e.i), r, AnyVoteReply(r));
    case OnVoteReply(_, r) => ElectionLife(x, e.i, Peers(s, e.i), r.request, r);
    case OnAppend(_, r) => ReplicationLife(x, |s.nodes|, r, AnyAppendReply(r));
    case OnAppendReply(_, r) => ReplicationLife(x, |s.nodes|, r.request, r);
    case Call(_, cmd) => ClientLife(x, e.i, cmd, 0, s.max);
    case Expire(_, call) => ClientLife(x, e.i, NOOP, call, s.max);
    case _ =>
      var r := VoteRequest(0, 0, 0, 0);
      ElectionLife(x, e.i, Peers(s, e.i), r, AnyVoteReply(r));
      ClientLife(x, e.i, NOOP, 0, s.max);
  }

  function AnyVoteReply(r: VoteRequest): VoteReply { VoteReply(r, 0, 0, false) }

  function AnyAppendReply(r: AppendRequest): AppendReply { AppendReply(r, 0, false, 0, 0) }

  lemma {:induction false} RunLife(s: Sys, events: seq<Event>, i: nat)
    requires RunFrom(s, events) && i < |s.nodes|
    ensures |StateAfter(s, events).nodes| == |s.nodes|
    ensures SameLife(s.nodes[i], StateAfter(s, events).nodes[i])
    decreases |events|
  {
    if events != [] {
      hide Enabled, Allowed, Next;
      NodeLife(s, events[0], i);
      RunLife(Next(s, events[0]), events[1..], i);
    }
  }

  // ------------------------------------------------------------- no false success

  /**
   A call that returns normally returned for its very own entry: that entry is committed at its index, now and
   for ever, on every node that gets there, and the result is that of applying it after exactly the committed
   entries before it.
   */
  lemma NoFalseSuccess(s: Sys, events: seq<Event>, i: nat, k: nat)
    requires Reachable(s) && s.h.trusted && RunFrom(s, events) && i < |s.nodes| && k < |s.nodes[i].calls|
    requires s.nodes[i].calls[k].outcome.Answered?
    ensures var call, s' := s.nodes[i].calls[k], StateAfter(s, events); var at := call.entry.index;
            && 0 < at <= |s'.h.decided|
            && s'.h.decided[at - 1] == call.entry
            && call.outcome.result == ResultAt(s.max, s'.h.decided, at - 1)
            && forall j: nat :: j < |s'.nodes| && at <= s'.nodes[j].commit ==>
                                  at <= |s'.nodes[j].log| && s'.nodes[j].log[at - 1] == call.entry
  {
    hide Inv, Reachable, CoreInv;
    ReachableInv(s);
    RunKeeps(s, events);
    RunRemembers(s, events);
    TheNode(s, i);
    AppliedIsDecided(s, i);
    var x, call, s' := s.nodes[i], s.nodes[i].calls[k], StateAfter(s, events);
    assert AnswerOk(x, s.max, k);
    var at := call.entry.index;
    assert x.applied[..at - 1] == s'.h.decided[..at - 1];
    forall j: nat | j < |s'.nodes| && at <= s'.nodes[j].commit
      ensures at <= |s'.nodes[j].log| && s'.nodes[j].log[at - 1] == call.entry
    {
      CommittedIsDecided(s', j);
    }
  }

  /** Only a leader keeps a client waiting, and only for an entry of its own term still in its log. */
  lemma WaitersLead(s: Sys, i: nat, k: nat)
    requires Reachable(s) && i < |s.nodes| && k < |s.nodes[i].calls| && s.nodes[i].calls[k].outcome.Waiting?
    ensures var x := s.nodes[i]; var e := x.calls[k].entry;
            && x.role.Leader? && e.term == x.term && 0 < e.index <= |x.log| && x.log[e.index - 1] == e
            && e.index in x.waiters && x.waiters[e.index].call == k
  {
    hide Inv, Reachable, CoreInv;
    ReachableInv(s);
    TheNode(s, i);
    assert CallOk(s.nodes[i], k);
    assert WaiterOk(s.nodes[i], s.nodes[i].calls[k].entry.index);
  }

  // ---------------------------------------------------- the order of reads and writes

  /** Every committed entry was in the ledger of the term that created it when it was committed. */
  lemma CommittedWasLogged(s: Sys, k: nat)
    requires Inv(s) && s.h.trusted && k < |s.h.decided|
    ensures s.h.decided[k].term in s.h.ledgers && k < |s.h.ledgers[s.h.decided[k].term]|
  {
    hide CoreInv, NodesOk, NetOk;
    var c := AsCore(s);
    RaftCoreCommits.TheDecided(c);
    var m :| m in s.h.marks && m.len == |s.h.decided|;
    TheMark(c, m);
    TheLedger(c, m.term);
    assert Anchored(s.h.ledgers[m.term], s.h.ledgers, k);
  }

  /** A leader's new entry lies beyond everything committed so far. */
  lemma NewEntryIsBehind(s: Sys, i: nat, d: Log)
    requires Inv(s) && s.h.trusted && i < |s.nodes| && s.nodes[i].role.Leader?
    requires Agree(s.h.decided, d, |s.h.decided|) && |s.nodes[i].log| < |d|
    requires d[|s.nodes[i].log|].term == s.nodes[i].term
    ensures |s.h.decided| <= |s.nodes[i].log|
  {
    hide CoreInv, NodeOk, NetOk;
    TheNode(s, i);
    if |s.h.decided| > |s.nodes[i].log| {
      CommittedWasLogged(s, |s.nodes[i].log|);
    }
  }

  lemma TheAnswer(x: Node, max: nat, k: nat)
    requires AnswersOk(x, max) && k < |x.calls|
    ensures AnswerOk(x, max, k)
  {
  }

  /**
   In `s` node `i` appends `cmd` for a client, and when `events` have happened that call has returned normally, in the
   same life of the node.
   */
  ghost predicate Returns(s: Sys, i: nat, cmd: Kv.Command, events: seq<Event>) {
    && Enabled(s, Event.Call(i, cmd)) && RunFrom(Next(s, Event.Call(i, cmd)), events)
    && var s', k := StateAfter(Next(s, Event.Call(i, cmd)), events), |s.nodes[i].calls|;
    && |s'.nodes| == |s.nodes| && s'.nodes[i].incarnation == s.nodes[i].incarnation
    && k < |s'.nodes[i].calls| && s'.nodes[i].calls[k].outcome.Answered?
  }

  ghost function Afterwards(s: Sys, i: nat, cmd: Kv.Command, events: seq<Event>): (s': Sys)
    requires Returns(s, i, cmd, events)
    ensures |s'.nodes| == |s.nodes| > i && |s.nodes[i].calls| < |s'.nodes[i].calls|
  {
    StateAfter(Next(s, Event.Call(i, cmd)), events)
  }

  /** A call that returns stands behind everything committed when it began, and is applied with all of it before. */
  lemma BehindCommitted(s: Sys, i: nat, cmd: Kv.Command, events: seq<Event>)
    requires Reachable(s) && s.h.trusted && Returns(s, i, cmd, events)
    ensures var s' := Afterwards(s, i, cmd, events); var x' := s'.nodes[i]; var e := x'.calls[|s.nodes[i].calls|].entry;
            && e == Entry(s.nodes[i].term, |s.nodes[i].log| + 1, cmd)
            && |s.h.decided| < e.index <= |x'.applied| && x'.applied[e.index - 1] == e
            && x'.applied <= s'.h.decided && s.h.decided < x'.applied
            && x'.machine == Replay(s.max, x'.applied)
  {
    hide Inv, Reachable, CoreInv, NodesOk, ClientsOk, AnswersOk, LeaderOk, TallyOk, RunFrom, StateAfter, MemberOk;
    var e, k := Event.Call(i, cmd), |s.nodes[i].calls|;
    var s1 := Next(s, e);
    var s' := StateAfter(s1, events);
    ReachableInv(s);
    StepKeeps(s, e);
    RunKeeps(s1, events);
    StepRemembers(s, e);
    RunRemembers(s1, events);
    RunLife(s1, events, i);
    TheNode(s, i);
    TheNode(s', i);
    AppliedIsDecided(s', i);
    var x' := s'.nodes[i];
    TheAnswer(x', s'.max, k);
    assert x'.calls[k].entry == Entry(s.nodes[i].term, |s.nodes[i].log| + 1, cmd);
    assert x'.applied[|s.nodes[i].log|] == s'.h.decided[|s.nodes[i].log|];
    NewEntryIsBehind(s, i, s'.h.decided);
    assert s.h.decided == x'.applied[..|s.h.decided|];
  }

  /**
   Linearizable reads.  `s` is the moment a read appends its barrier at node `i`; `events` lead to a moment at
   which the barrier call has returned normally, in the same life of the node, and the read looks at the state
   machine.  What it sees is the state after a committed prefix, and that prefix contains every entry committed
   anywhere by the time the read began: so every write any node had applied, and hence acknowledged, by then.
   */
  lemma LinearizableRead(s: Sys, i: nat, events: seq<Event>, key: Kv.Key)
    requires Reachable(s) && s.h.trusted && Returns(s, i, NOOP, events)
    ensures var s' := Afterwards(s, i, NOOP, events); var prefix := s'.nodes[i].applied;
            && Kv.Get(s'.nodes[i].machine, key) == Kv.Get(Replay(s.max, prefix), key)
            && prefix <= s'.h.decided
            && s.h.decided < prefix
            && forall j: nat :: j < |s.nodes| ==> s.nodes[j].applied < prefix
  {
    hide Inv, Reachable, Returns, Afterwards, Replay;
    BehindCommitted(s, i, NOOP, events);
    ReachableInv(s);
    var prefix := Afterwards(s, i, NOOP, events).nodes[i].applied;
    forall j: nat | j < |s.nodes| ensures s.nodes[j].applied < prefix {
      AppliedIsDecided(s, j);
      assert s.nodes[j].applied == prefix[..|s.nodes[j].applied|];
    }
  }

  /**
   Writes keep their real-time order: if a call had returned normally in `s0`, and later another one is made, at any
   node, and returns normally too, then both entries are committed for good and the first has the smaller index.
   */
  lemma WritesInOrder(s0: Sys, j: nat, k: nat, earlier: seq<Event>, i: nat, cmd: Kv.Command, events: seq<Event>)
    requires Reachable(s0) && s0.h.trusted
    requires j < |s0.nodes| && k < |s0.nodes[j].calls| && s0.nodes[j].calls[k].outcome.Answered?
    requires RunFrom(s0, earlier) && Returns(StateAfter(s0, earlier), i, cmd, events)
    ensures var s := StateAfter(s0, earlier); var s' := Afterwards(s, i, cmd, events);
            var first, second := s0.nodes[j].calls[k].entry, s'.nodes[i].calls[|s.nodes[i].calls|].entry;
            && 0 < first.index < second.index <= |s'.h.decided|
            && s'.h.decided[first.index - 1] == first && s'.h.decided[second.index - 1] == second
  {
    hide Reachable, RunFrom, StateAfter, Returns, Afterwards, Replay, ResultAt;
    var s := StateAfter(s0, earlier);
    ReachableAfter(s0, earlier);
    NoFalseSuccess(s0, earlier, j, k);
    BehindCommitted(s, i, cmd, events);
  }
}
