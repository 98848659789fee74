/**
 What the handlers owe: the votes that must be granted, the indices that must be committed, the messages that must
 depose, written in terms of the message and the node before it alone.
 */
module NodeDuties {
  import opened Wrappers
  import opened RaftLog
  import opened RaftCore
  import opened RaftNode
  import opened Quorums
  import opened Cluster
  import ClusterReplies
  import Kv = KvState

  // ------------------------------------------------------------------------ votes

  /** The candidate's last entry is of a later term than the voter's, or of the same and no shorter a log. */
  predicate AtLeastAsLong(r: VoteRequest, log: Log) {
    var (index, term) := if log == [] then (0, 0) else (log[|log| - 1].index, log[|log| - 1].term);
    r.lastTerm > term || (r.lastTerm == term && r.lastIndex >= index)
  }

  /**
   A vote is granted exactly if the candidate's term is not stale, this node has not voted for another candidate in it,
   and the candidate's log is at least as up to date; a granted vote is recorded in the candidate's term.
   */
  lemma VoteGrantedIff(x: Node, r: VoteRequest)
    ensures var (y, granted) := HandleVoteRequest(x, r);
            && (granted <==>
                  && (r.term > x.term || (r.term == x.term && (x.vote == None || x.vote == Some(r.candidate))))
                  && AtLeastAsLong(r, x.log))
            && (granted ==> y.vote == Some(r.candidate) && y.term == r.term)
            && (!granted ==> y.vote == if r.term > x.term then None else x.vote)
  {
  }

  /** The one answer a vote request gets tells the voter's term afterwards, granted or not. */
  lemma VoteAnswered(s: Sys, i: nat, r: VoteRequest)
    requires Enabled(s, OnVoteRequest(i, r))
    ensures var s', x := Next(s, OnVoteRequest(i, r)), s.nodes[i];
            s'.net.voteReplies == s.net.voteReplies
                                  + {VoteReply(r, i, if r.term > x.term then r.term else x.term,
                                               HandleVoteRequest(x, r).1)}
  {
    hide FailCalls, UpToDate;
  }

  /**
   A vote reply of no higher term counts in the running election it was asked in, and there only the first time its
   voter is heard: a grant adds one vote, a refusal none, and either way that voter is not waited for again.
   */
  lemma VoteCounted(x: Node, r: VoteReply)
    requires r.term <= x.term
    ensures var y := HandleVoteReply(x, r);
            && y == x.(election := y.election)
            && (y.election.Some? <==> x.election.Some?)
            && (x.election.Some? ==>
                  var e, e' := x.election.value, y.election.value;
                  var heard := e.term == r.request.term && r.voter in e.awaiting;
                  && e'.term == e.term
                  && (forall v: nat :: v in e'.awaiting <==> v in e.awaiting && !(heard && v == r.voter))
                  && e'.votes - e.votes == if heard && r.granted then 1 else 0)
  {
  }

  /** The leader knows of its own log in full, stands by the others where the election left them, and names itself. */
  lemma LeaderBegins(x: Node, me: nat, peers: set<nat>)
    requires LastIndex(x.log) == |x.log| && me !in peers
    ensures var y := BecomeLeader(x, me, peers);
            && y.role.Leader? && y.leaderId == Some(me) && y.term == x.term
            && |y.log| == |x.log| + 1 && y.log[..|x.log|] == x.log
            && y.log[|x.log|] == Entry(x.term, |x.log| + 1, NOOP)
            && me in y.matched && y.matched[me] == |y.log| && me in y.next && y.next[me] == |y.log| + 1
            && forall p: nat :: p in peers ==>
                 p in y.matched && y.matched[p] == 0 && p in y.next && y.next[p] == |x.log| + 1
  {
  }

  // -------------------------------------------------------------------- step down

  /** Follower of term `term`, with no vote given in it, every waiting call refused and no other call touched. */
  ghost predicate SteppedDown(x: Node, y: Node, term: nat) {
    && y.role.Follower? && y.term == term && y.waiters == map[] && y.log == x.log && y.commit == x.commit
    && |y.calls| == |x.calls|
    && forall k: nat :: k < |x.calls| ==>
         && y.calls[k].entry == x.calls[k].entry
         && (x.calls[k].outcome.Waiting? && (exists i :: i in x.waiters && x.waiters[i].call == k) ==>
               y.calls[k].outcome == NotLeader)
         && (y.calls[k] == x.calls[k]
             || (x.calls[k].outcome.Waiting? && exists i :: i in x.waiters && x.waiters[i].call == k))
  }

  lemma StepsDown(x: Node, term: nat)
    ensures SteppedDown(x, BecomeFollower(x, term), term) && BecomeFollower(x, term).vote == None
  {
    forall k: nat | k < |x.calls|
      ensures Pending(x.waiters, k) <==> exists i :: i in x.waiters && x.waiters[i].call == k
    {
    }
  }

  /** Whatever message or reply brings a higher term makes the node a follower of it. */
  lemma HigherTermDeposes(x: Node, n: nat, a: VoteRequest, b: VoteReply, c: AppendReply)
    ensures a.term > x.term ==> SteppedDown(x, HandleVoteRequest(x, a).0, a.term)
    ensures b.term > x.term ==> SteppedDown(x, HandleVoteReply(x, b), b.term) && HandleVoteReply(x, b).vote == None
    ensures c.term > x.term ==>
              SteppedDown(x, HandleAppendReply(x, n, c), c.term) && HandleAppendReply(x, n, c).vote == None
  {
    hide FailCalls, SteppedDown;
    StepsDown(x, a.term);
    StepsDown(x, b.term);
    StepsDown(x, c.term);
    SameButVote(x, BecomeFollower(x, a.term), a.term, Some(a.candidate));
  }

  lemma SameButVote(x: Node, y: Node, term: nat, vote: Option<nat>)
    requires SteppedDown(x, y, term)
    ensures SteppedDown(x, y.(vote := vote), term)
  {
  }

  // -------------------------------------------------------------- append messages

  /**
   A message is accepted exactly if its term is not stale and the entry before its first is in the log.  A stale one
   changes nothing; any other makes its sender the known leader, and no candidate stays one.  The answer carries the
   term the node is in afterwards.
   */
  lemma AppendAnswered(x: Node, r: AppendRequest)
    requires LaidOut(x.log)
    ensures var (y, reply) := HandleAppend(x, r);
            && (reply.success <==>
                  && r.term >= x.term
                  && (r.prev == 0 || (r.prev <= |x.log| && x.log[r.prev - 1].term == r.prevTerm)))
            && reply.request == r && reply.term == y.term == (if r.term > x.term then r.term else x.term)
            && (r.term < x.term ==> y == x)
            && (r.term >= x.term ==> y.leaderId == Some(r.leader) && !y.role.Candidate?)
            && (r.term > x.term || (r.term == x.term && x.role.Candidate?) ==>
                  SteppedDown(x, y.(log := x.log, commit := x.commit), r.term) && y.vote == None)
            && (!reply.success ==> y.log == x.log && y.commit == x.commit)
            && (reply.success ==>
                  y.commit == if r.commit <= x.commit then x.commit else Min(r.commit, LastIndex(y.log)))
  {
    hide FailCalls, Merge, FirstOfTerm, SteppedDown;
    StepsDown(x, r.term);
    if r.term > x.term || (r.term == x.term && x.role.Candidate?) {
      var y := HandleAppend(x, r).0;
      SameButLeader(x, BecomeFollower(x, r.term), r.term, y.(log := x.log, commit := x.commit));
    }
  }

  lemma SameButLeader(x: Node, y: Node, term: nat, z: Node)
    requires SteppedDown(x, y, term) && z == y.(leaderId := z.leaderId)
    ensures SteppedDown(x, z, term)
  {
  }

  // ------------------------------------------------------------------------ commit

  /** Index `index` holds an entry of the node's term, and the nodes in `holders` are more than half of `n`. */
  predicate Due(x: Node, n: nat, index: nat, holders: set<nat>) {
    0 < index <= |x.log| && x.log[index - 1].term == x.term && 2 * |holders| > n
  }

  function Matching(x: Node, index: nat): set<nat> {
    set p | p in x.matched && x.matched[p] >= index
  }

  /** The commit index moves to the highest index that is due, wherever in the log that is, and to no other. */
  lemma CommitsHighest(x: Node, n: nat)
    requires LastIndex(x.log) == |x.log|
    ensures var y := AdvanceCommit(x, n);
            && y == x.(commit := y.commit) && y.commit >= x.commit
            && (forall index: nat :: Due(x, n, index, Matching(x, index)) ==> index <= y.commit)
            && (y.commit > x.commit ==> Due(x, n, y.commit, Matching(x, y.commit)))
  {
    ClusterReplies.AdvanceSound(x, n, |x.log|);
    forall index: nat
      ensures Matching(x, index) == Reached(x.matched, index)
      ensures Due(x, n, index, Matching(x, index)) <==> Committable(x, n, index)
    {
    }
  }

  /** Who holds the log up to `index` once the acknowledgement is counted. */
  function Holding(x: Node, r: AppendReply, index: nat): set<nat> {
    Matching(x, index) + if r.request.prev + |r.request.entries| >= index then {r.request.to} else {}
  }

  /**
   An acknowledgement counts as far as its request's entries reach, and every index that is then due is committed, at
   once and however many entries come after it.
   */
  lemma AcknowledgementCounts(x: Node, n: nat, r: AppendReply)
    requires LastIndex(x.log) == |x.log| && x.role.Leader? && r.success && r.term <= x.term
    ensures var y, to, len := HandleAppendReply(x, n, r), r.request.to, r.request.prev + |r.request.entries|;
            && y == x.(matched := y.matched, next := y.next, commit := y.commit)
            && (forall p: nat :: p != to ==>
                  && (p in y.matched <==> p in x.matched) && (p in y.matched ==> y.matched[p] == x.matched[p])
                  && (p in y.next <==> p in x.next) && (p in y.next ==> y.next[p] == x.next[p]))
            && (len > (if to in x.matched then x.matched[to] else 0) ==>
                  to in y.matched && y.matched[to] == len && to in y.next && y.next[to] == len + 1)
            && (len <= (if to in x.matched then x.matched[to] else 0) ==> y.matched == x.matched && y.next == x.next)
            && (forall index: nat :: Due(x, n, index, Holding(x, r, index)) ==> index <= y.commit)
            && (y.commit > x.commit ==> Due(x, n, y.commit, Holding(x, r, y.commit)))
  {
    hide AdvanceFrom, Matching, RecordMatch;
    var x1 := RecordMatch(x, r.request.to, r.request.prev + |r.request.entries|);
    Recording(x, r.request.to, r.request.prev + |r.request.entries|);
    CommitsHighest(x1, n);
    forall index: nat | index > 0
      ensures Matching(x1, index) == Holding(x, r, index)
    {
      RecordedMatching(x, r, index);
    }
  }

  lemma Recording(x: Node, to: nat, len: nat)
    ensures var x1 := RecordMatch(x, to, len); var known := if to in x.matched then x.matched[to] else 0;
            && x1 == x.(matched := x1.matched, next := x1.next)
            && (len <= known ==> x1 == x)
            && (len > known ==> x1.matched == x.matched[to := len] && x1.next == x.next[to := len + 1])
  {
  }

  lemma RecordedMatching(x: Node, r: AppendReply, index: nat)
    requires index > 0
    ensures Matching(RecordMatch(x, r.request.to, r.request.prev + |r.request.entries|), index) == Holding(x, r, index)
  {
  }

  // ----------------------------------------------------------------------- clients

  /** A client's entry is of the leader's term and next in line; the leader counts as holding it, and keeps a waiter. */
  lemma ClientEntry(x: Node, me: nat, cmd: Kv.Command)
    requires LastIndex(x.log) == |x.log|
    ensures var y, e := Append(x, me, cmd), Entry(x.term, |x.log| + 1, cmd);
            && y.log == x.log + [e] && y.calls == x.calls + [RaftNode.Call(e, Waiting)]
            && me in y.matched && y.matched[me] == |y.log| && me in y.next && y.next[me] == |y.log| + 1
            && e.index in y.waiters && y.waiters[e.index] == Waiter(x.term, cmd.client, cmd.num, |x.calls|)
            && (forall p: nat :: p != me ==> (p in y.matched <==> p in x.matched) && (p in y.next <==> p in x.next))
            && (forall p: nat :: p != me && p in x.matched ==> y.matched[p] == x.matched[p])
            && (forall p: nat :: p != me && p in x.next ==> y.next[p] == x.next[p])
  {
  }

  /**
   An applied entry resolves the waiter at its index: with the result if term, client and number are those the waiter
   was left for, and with a refusal if any of the three differs.
   */
  lemma ResolvesByIdentity(x: Node)
    requires x.resolving.Some?
    ensures var r, y := x.resolving.value, Resolve(x);
            && y.resolving == None && r.index !in y.waiters && |y.calls| == |x.calls|
            && (forall i: nat :: i != r.index && i in x.waiters ==> i in y.waiters && y.waiters[i] == x.waiters[i])
            && (forall k: nat :: k < |x.calls| && !(r.index in x.waiters && x.waiters[r.index].call == k) ==>
                  y.calls[k] == x.calls[k])
            && (r.index in x.waiters && x.waiters[r.index].call < |x.calls| ==>
                  var w := x.waiters[r.index];
                  && y.calls[w.call].entry == x.calls[w.call].entry
                  && (w.term == r.entry.term && w.client == r.entry.cmd.client && w.num == r.entry.cmd.num ==>
                        y.calls[w.call].outcome == Answered(r.result))
                  && (w.term != r.entry.term || w.client != r.entry.cmd.client || w.num != r.entry.cmd.num ==>
                        y.calls[w.call].outcome == NotLeader))
  {
  }
}
