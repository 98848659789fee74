/**
 The node object: the fields, handlers and loops of the running server.  Each method is one locked region;
 its contract says that the node it leaves behind is the one that the step functions of RaftNode.dfy give.
 */
module RaftServer {
  import opened Wrappers
  import opened RaftLog
  import opened RaftCore
  import N = RaftNode
  import Kv = KvState
  import opened KvMachine
  import opened NodeDuties

  lemma BatchStep(log: Log, from: nat, upto: nat)
    requires from < upto
    ensures N.Batch(log, from, upto)
         == (if from < |log| then [(from + 1, log[from])] else []) + N.Batch(log, from + 1, upto)
  {
  }

  lemma BatchDone(log: Log, upto: nat)
    ensures N.Batch(log, upto, upto) == []
  {
  }

  class RaftServer {
    const me: nat
    const peers: set<nat>
    const machine: KvStateMachine
    const incarnation: nat

    // durable
    var currentTerm: nat
    var votedFor: Option<nat>
    var log: Log

    // volatile
    var commitIndex: nat
    var lastApplied: nat
    var role: Role
    var leaderId: Option<nat>
    var nextIndex: map<nat, nat>
    var matchIndex: map<nat, nat>
    var waiters: map<nat, N.Waiter>
    var calls: seq<N.Call>
    var election: Option<N.Election>
    var queue: seq<(nat, Entry)>
    var resolving: Option<N.Resolving>
    var applied: seq<Entry>

    /** Start a process: an empty state machine, and whatever the last incarnation left on disk. */
    constructor (me: nat, peers: set<nat>, maxSessions: nat, term: nat, vote: Option<nat>, log: Log, incarnation: nat)
      ensures this.me == me && this.peers == peers && fresh(machine) && machine.maxSessions == maxSessions
      ensures View() == N.FRESH.(term := term, vote := vote, log := log, incarnation := incarnation)
    {
      this.me, this.peers, this.incarnation := me, peers, incarnation;
      machine := new KvStateMachine(maxSessions);
      currentTerm, votedFor, this.log := term, vote, log;
      commitIndex, lastApplied, role, leaderId := 0, 0, Follower, None;
      nextIndex, matchIndex, waiters, calls := map[], map[], map[], [];
      election, queue, resolving, applied := None, [], None, [];
    }

    /** The node as a value. */
    function View(): N.Node
      reads this, machine
    {
      N.Node(role, currentTerm, votedFor, log, commitIndex, lastApplied, leaderId, nextIndex, matchIndex,
             waiters, calls, election, queue, resolving, applied, machine.View(), incarnation)
    }

    // ------------------------------------------------------------- step down

    method BecomeFollower(term: nat)
      modifies this
      ensures View() == N.BecomeFollower(old(View()), term)
    {
      role, currentTerm, votedFor := Follower, term, None;
      FailAllWaiters();
    }

    /** Resolve every pending waiter with "not the leader". */
    method FailAllWaiters()
      modifies `calls, `waiters
      ensures calls == N.FailCalls(old(calls), old(waiters)) && waiters == map[]
    {
      ghost var calls0 := calls;
      var todo := waiters.Keys;
      while todo != {}
        invariant todo <= waiters.Keys && waiters == old(waiters) && |calls| == |calls0|
        invariant forall k: nat :: k < |calls| ==>
                    calls[k] == if calls0[k].outcome.Waiting?
                                   && (exists i :: i in waiters && i !in todo && waiters[i].call == k)
                                then calls0[k].(outcome := N.NotLeader) else calls0[k]
      {
        var i :| i in todo;
        var k := waiters[i].call;
        if k < |calls| && calls[k].outcome.Waiting? {
          calls := calls[k := calls[k].(outcome := N.NotLeader)];
        }
        todo := todo - {i};
      }
      assert forall k: nat :: k < |calls| ==> calls[k] == N.FailCalls(calls0, waiters)[k];
      waiters := map[];
    }

    // ------------------------------------------------------------- elections

    method HandleRequestVote(r: N.VoteRequest) returns (term: nat, granted: bool)
      modifies this
      ensures (View(), granted) == N.HandleVoteRequest(old(View()), r) && term == currentTerm
      ensures granted <==>
                && (r.term > old(currentTerm)
                    || (r.term == old(currentTerm) && (old(votedFor) == None || old(votedFor) == Some(r.candidate))))
                && AtLeastAsLong(r, old(log))
    {
      VoteGrantedIff(View(), r);
      hide AtLeastAsLong;
      if r.term > currentTerm {
        BecomeFollower(r.term);
      }
      granted := false;
      if r.term >= currentTerm && (votedFor == None || votedFor == Some(r.candidate)) {
        var upToDate := CandidateLogUpToDate(r.lastIndex, r.lastTerm);
        if upToDate {
          granted := true;
          votedFor := Some(r.candidate);
        }
      }
      term := currentTerm;
    }

    method CandidateLogUpToDate(lastIndex: nat, lastTerm: nat) returns (b: bool)
      ensures b <==> UpToDate(lastIndex, lastTerm, log)
    {
      if lastTerm != LastTerm(log) {
        return lastTerm > LastTerm(log);
      }
      b := lastIndex >= LastIndex(log);
    }

    method StartElection() returns (request: Option<N.VoteRequest>)
      modifies this
      ensures View() == N.StartElection(old(View()), me, peers)
      ensures request == if old(role).Leader? then None
                         else Some(N.VoteRequest(currentTerm, me, LastIndex(log), LastTerm(log)))
    {
      hide LastIndex, LastTerm, KvStateMachine.View;
      if role.Leader? {
        return None;
      }
      role, currentTerm, votedFor, leaderId := Candidate, currentTerm + 1, Some(me), None;
      election := Some(N.Election(currentTerm, 1, peers));
      request := Some(N.VoteRequest(currentTerm, me, LastIndex(log), LastTerm(log)));
    }

    method HandleVoteReply(r: N.VoteReply)
      modifies this
      ensures View() == N.HandleVoteReply(old(View()), r)
    {
      if r.term > currentTerm {
        BecomeFollower(r.term);
        return;
      }
      if election.Some? && election.value.term == r.request.term && r.voter in election.value.awaiting {
        var e := election.value;
        var votes := e.votes;
        if r.granted {
          votes := votes + 1;
        }
        election := Some(N.Election(e.term, votes, e.awaiting - {r.voter}));
      }
    }

    method DecideElection()
      modifies this
      ensures View() == N.DecideElection(old(View()), me, peers)
    {
      if election.None? {
        return;
      }
      var e := election.value;
      election := None;
      if role != Candidate || currentTerm != e.term {
        return;
      }
      if e.votes >= (|peers| + 1) / 2 + 1 {
        BecomeLeader();
      }
    }

    method BecomeLeader()
      modifies this
      ensures View() == N.BecomeLeader(old(View()), me, peers)
    {
      hide N.Reset, LastIndex, KvStateMachine.View;
      ghost var x := View();
      role, leaderId := Leader, Some(me);
      var last := LastIndex(log);
      ResetPeers(last);
      log := log + [Entry(currentTerm, last + 1, N.NOOP)];
      matchIndex, nextIndex := matchIndex[me := last + 1], nextIndex[me := last + 2];
      assert View() == x.(role := role, leaderId := leaderId, next := nextIndex, matched := matchIndex, log := log);
    }

    method ResetPeers(last: nat)
      modifies `nextIndex, `matchIndex
      ensures nextIndex == N.Reset(old(nextIndex), peers, last + 1)
      ensures matchIndex == N.Reset(old(matchIndex), peers, 0)
    {
      var todo := peers;
      ghost var next0, match0 := nextIndex, matchIndex;
      while todo != {}
        invariant todo <= peers
        invariant nextIndex.Keys == next0.Keys + (peers - todo)
        invariant forall p :: p in nextIndex ==> nextIndex[p] == if p in peers - todo then last + 1 else next0[p]
        invariant matchIndex.Keys == match0.Keys + (peers - todo)
        invariant forall p :: p in matchIndex ==> matchIndex[p] == if p in peers - todo then 0 else match0[p]
      {
        var p :| p in todo;
        nextIndex := nextIndex[p := last + 1];
        matchIndex := matchIndex[p := 0];
        todo := todo - {p};
      }
    }

    // ----------------------------------------------------------- replication

    /** The message for a peer; None where the source returns or raises before sending. */
    method MakeAppend(to: nat) returns (r: Option<N.AppendRequest>)
      ensures r == N.MakeAppend(View(), me, to)
    {
      if role != Leader {
        return None;
      }
      var next := if to in nextIndex then nextIndex[to] else 1;
      if next == 0 || next - 1 > |log| {
        return None;
      }
      var prev := next - 1;
      var prevTerm := if prev > 0 then log[prev - 1].term else 0;
      r := Some(N.AppendRequest(currentTerm, me, to, prev, prevTerm, log[prev..], commitIndex));
    }

    method HandleAppendEntries(r: N.AppendRequest) returns (reply: N.AppendReply)
      requires N.LaidOut(log)
      modifies this
      ensures (View(), reply) == N.HandleAppend(old(View()), r)
    {
      hide N.FirstOfTerm, Merge, N.Following;
      if r.term < currentTerm {
        return N.AppendReply(r, currentTerm, false, 0, 0);
      }
      Follow(r);
      if r.prev > 0 {
        if LastIndex(log) < r.prev {
          return N.AppendReply(r, currentTerm, false, LastIndex(log) + 1, 0);
        }
        var existingTerm := log[r.prev - 1].term;
        if existingTerm != r.prevTerm {
          var ci := FindConflictStart(r.prev, existingTerm);
          return N.AppendReply(r, currentTerm, false, ci, existingTerm);
        }
      }
      TakeEntries(r.prev, r.entries);
      if r.commit > commitIndex {
        commitIndex := if r.commit < LastIndex(log) then r.commit else LastIndex(log);
      }
      reply := N.AppendReply(r, currentTerm, true, 0, 0);
    }

    /** Step down to the sender of a message that is not of an earlier term. */
    method Follow(r: N.AppendRequest)
      modifies this
      ensures View() == N.Following(old(View()), r) && log == old(log)
    {
      if r.term > currentTerm {
        BecomeFollower(r.term);
      } else if role == Candidate {
        BecomeFollower(r.term);
      }
      leaderId := Some(r.leader);
    }

    method FindConflictStart(prev: nat, term: nat) returns (ci: nat)
      requires prev <= |log| + 1
      ensures ci == N.FirstOfTerm(log, prev, term)
    {
      ci := prev;
      while ci > 1 && log[ci - 2].term == term
        invariant ci <= prev
        invariant N.FirstOfTerm(log, ci, term) == N.FirstOfTerm(log, prev, term)
      {
        ci := ci - 1;
      }
    }

    /** Append the entries from position `prev` on, cutting the log at the first one that conflicts. */
    method TakeEntries(prev: nat, entries: seq<Entry>)
      requires prev <= |log|
      modifies `log
      ensures log == Merge(old(log), prev, entries)
    {
      var insertAt := prev;
      for n := 0 to |entries|
        invariant insertAt == prev + n && insertAt <= |log|
        invariant Merge(log, insertAt, entries[n..]) == Merge(old(log), prev, entries)
      {
        var entry := entries[n];
        assert entries[n..][0] == entry && entries[n..][1..] == entries[n + 1..];
        if insertAt < |log| {
          if log[insertAt].term != entry.term {
            log := log[..insertAt];
            log := log + [entry];
          }
        } else {
          log := log + [entry];
        }
        insertAt := insertAt + 1;
      }
    }

    method HandleAppendReply(r: N.AppendReply)
      requires N.LaidOut(log)
      modifies this
      ensures View() == N.HandleAppendReply(old(View()), |peers| + 1, r)
    {
      if r.term > currentTerm {
        BecomeFollower(r.term);
        return;
      }
      if role != Leader {
        return;
      }
      var peer := r.request.to;
      if r.success {
        var newMatch := r.request.prev + |r.request.entries|;
        if newMatch > (if peer in matchIndex then matchIndex[peer] else 0) {
          matchIndex := matchIndex[peer := newMatch];
          nextIndex := nextIndex[peer := newMatch + 1];
        }
        AdvanceCommitIndex();
      } else if r.conflictTerm > 0 {
        var found := FindLastOfTerm(r.conflictTerm);
        nextIndex := nextIndex[peer := if found > 0 then found + 1 else r.conflictIndex];
      } else {
        nextIndex := nextIndex[peer := if r.conflictIndex > 1 then r.conflictIndex else 1];
      }
    }

    method FindLastOfTerm(term: nat) returns (found: nat)
      ensures found == N.LastOfTerm(log, |log|, term)
    {
      var i: nat := |log|;
      while i > 0
        invariant i <= |log|
        invariant N.LastOfTerm(log, i, term) == N.LastOfTerm(log, |log|, term)
      {
        if log[i - 1].term == term {
          return i;
        }
        i := i - 1;
      }
      found := 0;
    }

    /** How many members, by the match table, hold the log up to `index`. */
    method CountMatching(index: nat) returns (count: nat)
      ensures count == |N.Reached(matchIndex, index)|
    {
      count := 0;
      var todo := matchIndex.Keys;
      ghost var seen: set<nat> := {};
      while todo != {}
        invariant todo <= matchIndex.Keys
        invariant seen == (set p | p in matchIndex && p !in todo && matchIndex[p] >= index) && count == |seen|
      {
        var p :| p in todo;
        if matchIndex[p] >= index {
          count := count + 1;
          seen := seen + {p};
        }
        todo := todo - {p};
      }
      assert seen == N.Reached(matchIndex, index);
    }

    /** Commit the highest index above the commit index that is on a majority and of the current term. */
    method AdvanceCommitIndex()
      requires N.LaidOut(log)
      modifies `commitIndex
      ensures View() == N.AdvanceCommit(old(View()), |peers| + 1)
      // it is the highest index that is due
      ensures forall index: nat :: Due(old(View()), |peers| + 1, index, Matching(old(View()), index)) ==>
                index <= commitIndex
      ensures commitIndex == old(commitIndex)
              || Due(old(View()), |peers| + 1, commitIndex, Matching(old(View()), commitIndex))
    {
      assert LastIndex(log) == |log|;
      CommitsHighest(View(), |peers| + 1);
      hide Due, Matching;
      var idx: nat := LastIndex(log);
      while idx > commitIndex
        invariant View() == old(View())
        invariant idx <= LastIndex(log)
        invariant N.AdvanceFrom(View(), |peers| + 1, idx) == N.AdvanceFrom(View(), |peers| + 1, LastIndex(log))
      {
        var count := CountMatching(idx);
        if count >= (|peers| + 1) / 2 + 1 && idx <= |log| && log[idx - 1].term == currentTerm {
          commitIndex := idx;
          return;
        }
        idx := idx - 1;
      }
    }

    // --------------------------------------------------------------- clients

    /** The locked part of a client append; None where it raises because this node does not lead. */
    method AppendEntry(cmd: Kv.Command) returns (call: Option<nat>)
      modifies this
      ensures old(role).Leader? ==> call == Some(|old(calls)|) && View() == N.Append(old(View()), me, cmd)
      ensures !old(role).Leader? ==> call == None && View() == old(View())
    {
      hide LastIndex, KvStateMachine.View;
      if role != Leader {
        return None;
      }
      ghost var x := View();
      var idx := LastIndex(log) + 1;
      var entry := Entry(currentTerm, idx, cmd);
      log := log + [entry];
      matchIndex := matchIndex[me := idx];
      nextIndex := nextIndex[me := idx + 1];
      call := Some(|calls|);
      waiters := waiters[idx := N.Waiter(currentTerm, cmd.client, cmd.num, |calls|)];
      calls := calls + [N.Call(entry, N.Waiting)];
      assert View() == x.(log := log, matched := matchIndex, next := nextIndex, waiters := waiters, calls := calls);
    }

    method GiveUp(call: nat)
      requires call < |calls|
      modifies `calls, `waiters
      ensures View() == N.GiveUp(old(View()), call)
    {
      var idx := calls[call].entry.index;
      if idx in waiters && waiters[idx].call == call {
        waiters := waiters - {idx};
      }
      calls := calls[call := calls[call].(outcome := N.TimedOut)];
    }

    // --------------------------------------------------------------- applier

    /** Take everything committed and not yet applied. */
    method TakeBatch()
      requires lastApplied <= commitIndex
      modifies `queue, `lastApplied
      ensures View() == N.TakeBatch(old(View()))
    {
      hide N.Batch;
      var batch: seq<(nat, Entry)> := [];
      while lastApplied < commitIndex
        invariant old(lastApplied) <= lastApplied <= commitIndex
        invariant batch + N.Batch(log, lastApplied, commitIndex) == N.Batch(log, old(lastApplied), commitIndex)
        invariant View() == old(View()).(lastApplied := lastApplied)
      {
        BatchStep(log, lastApplied, commitIndex);
        lastApplied := lastApplied + 1;
        if 1 <= lastApplied <= |log| {
          batch := batch + [(lastApplied, log[lastApplied - 1])];
        }
      }
      BatchDone(log, lastApplied);
      queue := batch;
    }

    /** Run the next entry of the batch on the state machine; no-ops are not run. */
    method ApplyNext()
      requires queue != []
      modifies this, machine
      ensures View() == N.ApplyNext(old(View()), machine.maxSessions)
    {
      var (index, entry) := queue[0];
      queue := queue[1..];
      var result: Option<Kv.Result> := None;
      if !entry.cmd.op.Noop? {
        var r := machine.Apply(entry.cmd);
        result := Some(r);
      }
      applied := applied + [entry];
      resolving := Some(N.Resolving(index, entry, result));
    }

    /** Hand the result to the waiter at the index, if it waits for the entry applied there. */
    method ResolveWaiter()
      requires resolving.Some?
      modifies `resolving, `waiters, `calls
      ensures View() == N.Resolve(old(View()))
    {
      var r := resolving.value;
      resolving := None;
      if r.index in waiters {
        var w := waiters[r.index];
        var same := w.term == r.entry.term && w.client == r.entry.cmd.client && w.num == r.entry.cmd.num;
        if w.call < |calls| {
          calls := calls[w.call := calls[w.call].(outcome := if same then N.Answered(r.result) else N.NotLeader)];
        }
        waiters := waiters - {r.index};
      }
    }
  }
}
