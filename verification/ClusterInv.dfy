/** What holds of every reachable state of a cluster: the core invariant, and facts about messages and nodes. */
module ClusterInv {
  import opened Wrappers
  import opened RaftLog
  import opened Quorums
  import opened RaftCore
  import opened RaftCoreFrames
  import opened RaftNode
  import opened Cluster
  import Kv = KvState

  function AsCore(s: Sys): Core {
    Core(seq(|s.nodes|, i requires 0 <= i < |s.nodes| => AsMember(s.nodes[i])), s.h)
  }

  // ------------------------------------------------------- applied entries

  /** The state machine after a node has applied `entries`; the applier skips no-ops. */
  function Replay(max: nat, entries: seq<Entry>): Kv.State {
    if entries == [] then Kv.EMPTY
    else
      var n := |entries| - 1;
      if entries[n].cmd.op.Noop? then Replay(max, entries[..n])
      else Kv.Apply(Replay(max, entries[..n]), max, entries[n].cmd).0
  }

  /** The result of applying entry `k` right after the entries before it. */
  function ResultAt(max: nat, entries: seq<Entry>, k: nat): Option<Kv.Result>
    requires k < |entries|
  {
    if entries[k].cmd.op.Noop? then None
    else Some(Kv.Apply(Replay(max, entries[..k]), max, entries[k].cmd).1)
  }

  // ------------------------------------------------------------------ nodes

  ghost predicate ApplierOk(x: Node, max: nat) {
    && x.lastApplied <= x.commit <= |x.log|
    && |x.applied| + |x.queue| == x.lastApplied
    && x.applied == x.log[..|x.applied|]
    && (forall k: nat :: k < |x.queue| ==> x.queue[k] == (|x.applied| + k + 1, x.log[|x.applied| + k]))
    && x.machine == Replay(max, x.applied)
    && (x.resolving.Some? ==>
          && x.applied != []
          && x.resolving.value.index == |x.applied|
          && x.resolving.value.entry == x.applied[|x.applied| - 1]
          && x.resolving.value.result == ResultAt(max, x.applied, |x.applied| - 1))
  }

  /** A waiter exists only while its node leads in the waiter's term, for an entry in the node's log. */
  ghost predicate WaiterOk(x: Node, index: nat)
    requires index in x.waiters
  {
    var w := x.waiters[index];
    && x.role.Leader? && w.term == x.term
    && 0 < index <= |x.log| && w.call < |x.calls|
    && x.calls[w.call] == RaftNode.Call(x.log[index - 1], Waiting)
    && SameEntry(w, x.log[index - 1])
  }

  /** A call that still waits has its waiter. */
  ghost predicate CallOk(x: Node, k: nat)
    requires k < |x.calls|
  {
    var call := x.calls[k];
    call.outcome.Waiting? ==> call.entry.index in x.waiters && x.waiters[call.entry.index].call == k
  }

  ghost predicate ClientsOk(x: Node) {
    && (forall index: nat | index in x.waiters :: WaiterOk(x, index))
    && (forall k: nat | k < |x.calls| :: CallOk(x, k))
  }

  /** A call that was answered has had its own entry applied, with that result. */
  ghost predicate AnswerOk(x: Node, max: nat, k: nat)
    requires k < |x.calls|
  {
    var call := x.calls[k];
    call.outcome.Answered? ==>
      && 0 < call.entry.index <= |x.applied|
      && x.applied[call.entry.index - 1] == call.entry
      && call.outcome.result == ResultAt(max, x.applied, call.entry.index - 1)
  }

  ghost predicate AnswersOk(x: Node, max: nat) {
    forall k: nat | k < |x.calls| :: AnswerOk(x, max, k)
  }

  /** The integer vote count never exceeds the peers that granted their vote and have been counted. */
  ghost predicate TallyOk(c: Core, i: nat, x: Node) {
    x.election.Some? ==>
      var e := x.election.value;
      e.term <= x.term && i !in e.awaiting && e.votes <= |Voters(c, e.term, i) - e.awaiting|
  }

  /** What the leader counts as matched, in entries of its own term, really was acknowledged in its term. */
  ghost predicate MatchedOk(h: History, x: Node, p: nat)
    requires p in x.matched
  {
    x.matched[p] <= |x.log| &&
    forall k: nat :: k < |x.log| && k < x.matched[p] && x.log[k].term == x.term ==> Acked(h, p, x.term) > k
  }

  ghost predicate LeaderOk(h: History, n: nat, x: Node) {
    && (h.trusted && x.role.Leader? ==> forall p: nat | p in x.matched :: MatchedOk(h, x, p))
    && (forall p: nat :: p in x.next ==> x.next[p] >= 1)
    && (forall p: nat :: p in x.matched ==> p < n)
  }

  /** Whom a node keeps waiting; and, as far as acknowledgements can be relied on, what it has applied and answered. */
  ghost predicate ServiceOk(h: History, x: Node, max: nat) {
    ClientsOk(x) && (h.trusted ==> ApplierOk(x, max) && AnswersOk(x, max))
  }

  ghost predicate NodeOk(c: Core, i: nat, x: Node, max: nat) {
    ServiceOk(c.h, x, max) && TallyOk(c, i, x) && LeaderOk(c.h, |c.members|, x)
  }

  // --------------------------------------------------------------- messages

  ghost predicate VoteRequestOk(h: History, r: VoteRequest) {
    && Bid(r.term, r.candidate) in h.bids
    && r.lastIndex == LastIndex(h.bids[Bid(r.term, r.candidate)])
    && r.lastTerm == LastTerm(h.bids[Bid(r.term, r.candidate)])
  }

  ghost predicate VoteReplyOk(h: History, r: VoteReply) {
    r.granted ==> Ballot(r.voter, r.request.term, r.request.candidate) in h.ballots
  }

  /** An append message carries a stretch of its term's ledger, to the end it had when sent, and no commit beyond it. */
  ghost predicate AppendOk(h: History, r: AppendRequest) {
    && Leads(h, r.term, r.leader) && r.to != r.leader && r.term in h.ledgers
    && var l := h.ledgers[r.term]; var len := r.prev + |r.entries|;
    && len <= |l|
    && (forall k: nat :: k < |r.entries| ==> r.entries[k] == l[r.prev + k])
    && r.prevTerm == (if r.prev > 0 then l[r.prev - 1].term else 0)
    && OwnEntry(h, r.term, len)
    && (h.trusted ==> r.commit <= len) && Vouched(h, l, r.commit, r.term)
  }

  ghost predicate AppendReplyOk(h: History, net: Network, r: AppendReply) {
    && r.request in net.appends
    && (r.success ==> Acked(h, r.request.to, r.request.term) >= r.request.prev + |r.request.entries|)
    && (r.conflictTerm > 0 ==> r.conflictIndex >= 1) && r.conflictIndex <= r.request.prev
  }

  ghost predicate NetOk(h: History, net: Network) {
    && (forall r: VoteRequest | r in net.voteRequests :: VoteRequestOk(h, r))
    && (forall r: VoteReply | r in net.voteReplies :: VoteReplyOk(h, r))
    && (forall r: AppendRequest | r in net.appends :: AppendOk(h, r))
    && (forall r: AppendReply | r in net.appendReplies :: AppendReplyOk(h, net, r))
  }

  ghost predicate NodesOk(s: Sys) {
    forall i: nat | i < |s.nodes| :: NodeOk(AsCore(s), i, s.nodes[i], s.max)
  }

  ghost predicate Inv(s: Sys) {
    CoreInv(AsCore(s)) && NetOk(s.h, s.net) && NodesOk(s)
  }

  // ----------------------------------------------------------------- frames

  lemma AppendFrame(c: Core, c': Core, r: AppendRequest)
    requires Evolves(c, c') && AppendOk(c.h, r)
    ensures AppendOk(c'.h, r)
  {
    var l, l' := c.h.ledgers[r.term], c'.h.ledgers[r.term];
    VouchedFrame(c, c', l, l', r.commit, r.term, r.term);
  }

  lemma NetFrame(c: Core, c': Core, net: Network, net': Network)
    requires Evolves(c, c') && NetOk(c.h, net)
    requires net.appends <= net'.appends
    requires forall r: VoteRequest :: r in net'.voteRequests && r !in net.voteRequests ==> VoteRequestOk(c'.h, r)
    requires forall r: VoteReply :: r in net'.voteReplies && r !in net.voteReplies ==> VoteReplyOk(c'.h, r)
    requires forall r: AppendRequest :: r in net'.appends && r !in net.appends ==> AppendOk(c'.h, r)
    requires forall r: AppendReply :: r in net'.appendReplies && r !in net.appendReplies ==>
               AppendReplyOk(c'.h, net', r)
    ensures NetOk(c'.h, net')
  {
    forall r: VoteRequest | r in net'.voteRequests ensures VoteRequestOk(c'.h, r) {
      if r in net.voteRequests { assert VoteRequestOk(c.h, r); }
    }
    forall r: VoteReply | r in net'.voteReplies ensures VoteReplyOk(c'.h, r) {
      if r in net.voteReplies { assert VoteReplyOk(c.h, r); }
    }
    forall r: AppendRequest | r in net'.appends ensures AppendOk(c'.h, r) {
      if r in net.appends {
        assert AppendOk(c.h, r);
        AppendFrame(c, c', r);
      }
    }
    forall r: AppendReply | r in net'.appendReplies ensures AppendReplyOk(c'.h, net', r) {
      if r in net.appendReplies {
        assert AppendReplyOk(c.h, net, r);
        assert AckedLater(c, c', r.request.to, r.request.term);
      }
    }
  }

  lemma TallyFrame(c: Core, c': Core, i: nat, x: Node)
    requires Evolves(c, c') && TallyOk(c, i, x)
    ensures TallyOk(c', i, x)
  {
    if x.election.Some? {
      var e := x.election.value;
      SubsetCount(Voters(c, e.term, i) - e.awaiting, Voters(c', e.term, i) - e.awaiting);
    }
  }

  lemma LeaderFrame(c: Core, c': Core, x: Node)
    requires Evolves(c, c') && LeaderOk(c.h, |c.members|, x)
    ensures LeaderOk(c'.h, |c'.members|, x)
  {
    if c.h.trusted && x.role.Leader? {
      forall p: nat | p in x.matched ensures MatchedOk(c'.h, x, p) {
        assert MatchedOk(c.h, x, p);
        assert AckedLater(c, c', p, x.term);
      }
    }
  }

  /** The applier's bookkeeping only depends on the log up to the commit index. */
  lemma ApplierSame(x: Node, y: Node, max: nat)
    requires ApplierOk(x, max)
    requires y.lastApplied == x.lastApplied && y.applied == x.applied && y.queue == x.queue
    requires y.machine == x.machine && y.resolving == x.resolving
    requires Agree(x.log, y.log, x.commit) && x.commit <= y.commit <= |y.log|
    ensures ApplierOk(y, max)
  {
    assert y.log[..|y.applied|] == x.log[..|x.applied|];
  }

  /** A change that does not touch what a leader's bookkeeping depends on. */
  lemma LeaderSame(h: History, n: nat, x: Node, y: Node)
    requires LeaderOk(h, n, x)
    requires y.role == x.role && y.term == x.term && y.log == x.log && y.matched == x.matched && y.next == x.next
    ensures LeaderOk(h, n, y)
  {
    if h.trusted && y.role.Leader? {
      forall p: nat | p in y.matched ensures MatchedOk(h, y, p) { assert MatchedOk(h, x, p); }
    }
  }

  /** A change that does not touch what the clients' bookkeeping depends on. */
  lemma ClientsSame(x: Node, y: Node)
    requires ClientsOk(x)
    requires y.role == x.role && y.term == x.term && y.log == x.log && y.waiters == x.waiters && y.calls == x.calls
    ensures ClientsOk(y)
  {
    forall w: nat | w in y.waiters ensures WaiterOk(y, w) { assert WaiterOk(x, w); }
    forall k: nat | k < |y.calls| ensures CallOk(y, k) { assert CallOk(x, k); }
  }

  lemma AnswersSame(x: Node, y: Node, max: nat)
    requires AnswersOk(x, max) && y.applied == x.applied && y.calls == x.calls
    ensures AnswersOk(y, max)
  {
    forall k: nat | k < |y.calls| ensures AnswerOk(y, max, k) { assert AnswerOk(x, max, k); }
  }

  /** Only a leader has waiters, or calls still waiting. */
  lemma OnlyLeadersWait(x: Node)
    requires ClientsOk(x) && !x.role.Leader?
    ensures x.waiters == map[]
    ensures forall k: nat :: k < |x.calls| ==> !x.calls[k].outcome.Waiting?
  {
    assert forall w: nat :: w in x.waiters ==> WaiterOk(x, w);
    forall k: nat | k < |x.calls| ensures !x.calls[k].outcome.Waiting? { assert CallOk(x, k); }
  }

  /** For a node without waiters and waiting calls, the clients' bookkeeping does not depend on the log. */
  lemma ClientsIdle(x: Node, y: Node)
    requires ClientsOk(x) && !x.role.Leader? && y.waiters == x.waiters && y.calls == x.calls
    ensures ClientsOk(y)
  {
    OnlyLeadersWait(x);
    forall k: nat | k < |y.calls| ensures CallOk(y, k) { assert CallOk(x, k); }
  }

  /** A change that touches neither log nor waiters, and at most raises the commit index. */
  lemma ServiceSame(h: History, h': History, x: Node, y: Node, max: nat)
    requires ServiceOk(h, x, max) && h'.trusted == h.trusted
    requires y.role == x.role && y.term == x.term && y.log == x.log && y.applied == x.applied
    requires y.waiters == x.waiters && y.calls == x.calls
    requires y.lastApplied == x.lastApplied && y.queue == x.queue
    requires y.machine == x.machine && y.resolving == x.resolving
    requires y.commit == x.commit || (h.trusted ==> x.commit <= y.commit <= |y.log|)
    ensures ServiceOk(h', y, max)
  {
    ClientsSame(x, y);
    if h.trusted {
      ApplierSame(x, y, max);
      AnswersSame(x, y, max);
    }
  }

  /** A change of the log beyond the commit index, at a node that does not lead. */
  lemma ServiceIdle(h: History, h': History, x: Node, y: Node, max: nat)
    requires ServiceOk(h, x, max) && h'.trusted == h.trusted && !x.role.Leader?
    requires y.applied == x.applied && y.waiters == x.waiters && y.calls == x.calls
    requires y.lastApplied == x.lastApplied && y.queue == x.queue
    requires y.machine == x.machine && y.resolving == x.resolving
    requires h.trusted && x.commit <= |x.log| ==> Agree(x.log, y.log, x.commit) && x.commit <= y.commit <= |y.log|
    ensures ServiceOk(h', y, max)
  {
    ClientsIdle(x, y);
    if h.trusted {
      ApplierSame(x, y, max);
      AnswersSame(x, y, max);
    }
  }

  lemma NodesFrame(s: Sys, s': Sys, i: nat)
    requires NodesOk(s) && Evolves(AsCore(s), AsCore(s')) && s'.max == s.max
    requires i < |s.nodes| == |s'.nodes| && s'.nodes == s.nodes[i := s'.nodes[i]]
    requires NodeOk(AsCore(s'), i, s'.nodes[i], s.max)
    ensures NodesOk(s')
  {
    forall j: nat | j < |s'.nodes| ensures NodeOk(AsCore(s'), j, s'.nodes[j], s'.max) {
      if j != i {
        hide ApplierOk, ClientsOk, AnswersOk;
        assert NodeOk(AsCore(s), j, s.nodes[j], s.max);
        TallyFrame(AsCore(s), AsCore(s'), j, s.nodes[j]);
        LeaderFrame(AsCore(s), AsCore(s'), s.nodes[j]);
      }
    }
  }

  lemma TheNode(s: Sys, i: nat)
    requires Inv(s) && i < |s.nodes|
    ensures NodeOk(AsCore(s), i, s.nodes[i], s.max)
    ensures AsCore(s).members[i] == AsMember(s.nodes[i])
    ensures MemberOk(AsMember(s.nodes[i]), i, s.h)
    ensures LaidOut(s.nodes[i].log) && LastIndex(s.nodes[i].log) == |s.nodes[i].log|
  {
    TheMember(AsCore(s), i);
  }
}
