/**
 The client-facing server on top of a node: answer a known request from the session table, redirect if this
 node does not lead, otherwise append and wait.  The wait itself is the call's outcome, filled in by the node.
 */
module KvServer {
  import opened Wrappers
  import opened RaftLog
  import opened RaftCore
  import N = RaftNode
  import opened Cluster
  import opened ClusterInv
  import opened ClientGuarantees
  import Kv = KvState
  import opened RaftServer
  import opened KvMachine

  /** How far a write has got when the request thread stops holding the lock. */
  datatype Progress = Known(result: Kv.Result) | Redirected(leader: Option<nat>) | Appended(call: nat)

  /** What a request is answered; an error carries no result. */
  datatype Reply = Success(result: Option<Kv.Result>) | NotLeaderError | TimeoutError

  datatype GetReply = Found(value: Kv.Bytes, version: nat) | Missing

  /** What a blocked write answers once its call has ended; None while it waits. */
  function ReplyOf(outcome: N.Outcome): Option<Reply> {
    match outcome
    case Waiting => None
    case Answered(result) => Some(Success(result))
    case NotLeader => Some(NotLeaderError)
    case TimedOut => Some(TimeoutError)
  }

  /** After `events`, entry `e` is committed at its index; run right after the entries before, it gives `result`. */
  ghost predicate CarriedOut(s: Sys, events: seq<Event>, e: Entry, result: Kv.Result)
    requires RunFrom(s, events)
  {
    var d := StateAfter(s, events).h.decided;
    && 0 < e.index <= |d| && d[e.index - 1] == e && !e.cmd.op.Noop?
    && result == Kv.Apply(Replay(s.max, d[..e.index - 1]), s.max, e.cmd).1
  }

  /**
   What a success reply is worth: the call's own entry is committed at its index for the rest of the run, and the
   result in the reply is that of running the command right after exactly the committed entries before it.
   */
  lemma SuccessIsCommitted(s: Sys, events: seq<Event>, i: nat, k: nat, result: Kv.Result)
    requires Reachable(s) && s.h.trusted && RunFrom(s, events)
    requires i < |s.nodes| && k < |s.nodes[i].calls|
    requires ReplyOf(s.nodes[i].calls[k].outcome) == Some(Success(Some(result)))
    ensures CarriedOut(s, events, s.nodes[i].calls[k].entry, result)
  {
    hide Reachable, RunFrom, StateAfter, Replay;
    NoFalseSuccess(s, events, i, k);
  }

  class KvServicer {
    const raft: RaftServer

    constructor (raft: RaftServer)
      ensures this.raft == raft
    {
      this.raft := raft;
    }

    /** First half of a write. Only the append changes the node, and only a leader without a known answer appends. */
    method BeginCommit(cmd: Kv.Command) returns (p: Progress)
      modifies raft
      ensures var x, known := old(raft.View()), Kv.LookupSession(old(raft.View()).machine.sessions, cmd.client, cmd.num);
              && p == (if known.Some? then Known(known.value)
                       else if x.role.Leader? then Appended(|x.calls|) else Redirected(x.leaderId))
              && raft.View() == if p.Appended? then N.Append(x, raft.me, cmd) else x
    {
      var cached := raft.machine.LookupSession(cmd.client, cmd.num);
      if cached.Some? {
        return Known(cached.value);
      }
      if raft.role != Leader {
        return Redirected(raft.leaderId);
      }
      var call := raft.AppendEntry(cmd);
      p := Appended(call.value);
    }

    /**
     Second half: the blocked call wakes up, or runs out of time.  If this node is node `i` of a cluster in state `s`,
     a success means that the call's own entry is carried out, whatever happens from there on.
     */
    method EndCommit(call: nat) returns (r: Option<Reply>)
      requires call < |raft.calls|
      ensures r == ReplyOf(raft.calls[call].outcome)
      // a call that waits is not answered yet; one refused or out of time is told which, and given no result
      ensures raft.calls[call].outcome == N.Waiting <==> r == None
      ensures raft.calls[call].outcome == N.NotLeader <==> r == Some(NotLeaderError)
      ensures raft.calls[call].outcome == N.TimedOut <==> r == Some(TimeoutError)
      ensures forall s: Sys, i: nat, events: seq<Event>, result: Kv.Result ::
                Reachable(s) && s.h.trusted && i < |s.nodes| && s.nodes[i] == raft.View()
                && RunFrom(s, events) && r == Some(Success(Some(result))) ==>
                  CarriedOut(s, events, raft.calls[call].entry, result)
    {
      hide Reachable, RunFrom, CarriedOut;
      forall s: Sys, i: nat, events: seq<Event>, result: Kv.Result |
        Reachable(s) && s.h.trusted && i < |s.nodes| && s.nodes[i] == raft.View()
        && RunFrom(s, events) && ReplyOf(raft.calls[call].outcome) == Some(Success(Some(result)))
        ensures CarriedOut(s, events, raft.calls[call].entry, result)
      {
        SuccessIsCommitted(s, events, i, call, result);
      }
      match raft.calls[call].outcome
      case Waiting => r := None;
      case Answered(result) => r := Some(Success(result));
      case NotLeader => r := Some(NotLeaderError);
      case TimedOut => r := Some(TimeoutError);
    }

    /** First half of a linearizable read: the barrier; None where this node does not lead. */
    method BeginGet() returns (call: Option<nat>)
      modifies raft
      ensures old(raft.role).Leader? ==>
                call == Some(|old(raft.calls)|) && raft.View() == N.Append(old(raft.View()), raft.me, N.NOOP)
      ensures !old(raft.role).Leader? ==> call == None && raft.View() == old(raft.View())
    {
      if raft.role != Leader {
        return None;
      }
      call := raft.AppendEntry(N.NOOP);
    }

    /** Second half, once the barrier has returned: look at the applied state. */
    method ReadKey(key: Kv.Key) returns (r: GetReply)
      ensures r == match Kv.Get(raft.View().machine, key)
                   case Some(v) => Found(v.value, v.version)
                   case None => Missing
    {
      var value, version, found := raft.machine.Get(key);
      r := if found then Found(value, version) else Missing;
    }
  }
}
