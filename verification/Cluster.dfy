/**
 A whole cluster: its nodes, every message ever sent, and the events that can happen.  A message stays
 available for ever, so it may be delivered late, in any order, more than once, or never.  The history is
 carried along for the proofs; no event's node-level effect depends on it.
 */
module Cluster {
  import opened Wrappers
  import opened RaftLog
  import opened Quorums
  import opened RaftCore
  import opened RaftNode
  import Kv = KvState

  datatype Network = Network(
    voteRequests: set<VoteRequest>, voteReplies: set<VoteReply>,
    appends: set<AppendRequest>, appendReplies: set<AppendReply>)

  /** `max` is the bound on remembered client sessions, the same on every node. */
  datatype Sys = Sys(nodes: seq<Node>, net: Network, h: History, max: nat)

  datatype Event =
    | Elect(i: nat)                             // election timeout
    | OnVoteRequest(i: nat, voteRequest: VoteRequest)
    | OnVoteReply(i: nat, voteReply: VoteReply)
    | Decide(i: nat)
    | Send(i: nat, to: nat)
    | OnAppend(i: nat, append: AppendRequest)
    | OnAppendReply(i: nat, reply: AppendReply)
    | Call(i: nat, cmd: Kv.Command)             // a client entry or a read barrier is appended
    | Expire(i: nat, call: nat)                 // even if the call was resolved a moment before
    | Take(i: nat)
    | ApplyOne(i: nat)
    | Notify(i: nat)
    | Crash(i: nat)

  function Peers(s: Sys, i: nat): set<nat> {
    Ids(|s.nodes|) - {i}
  }

  function Put(s: Sys, i: nat, x: Node): Sys
    requires i < |s.nodes|
  {
    s.(nodes := s.nodes[i := x])
  }

  predicate Enabled(s: Sys, e: Event) {
    e.i < |s.nodes| && LaidOut(s.nodes[e.i].log) &&
    match e
    case Elect(i) => true
    case OnVoteRequest(i, r) => r in s.net.voteRequests && r.candidate != i
    case OnVoteReply(i, r) => r in s.net.voteReplies && r.request.candidate == i
    case Decide(i) => true
    case Send(i, to) => to in Peers(s, i)
    case OnAppend(i, r) => r in s.net.appends && r.to == i
    case OnAppendReply(i, r) => r in s.net.appendReplies && r.request.leader == i
    case Call(i, cmd) => s.nodes[i].role.Leader?
    case Expire(i, call) => call < |s.nodes[i].calls|
    case Take(i) => s.nodes[i].queue == [] && s.nodes[i].resolving.None? && s.nodes[i].lastApplied < s.nodes[i].commit
    case ApplyOne(i) => s.nodes[i].queue != [] && s.nodes[i].resolving.None?
    case Notify(i) => s.nodes[i].resolving.Some?
    case Crash(i) => true
  }

  /**
   What makes acknowledgements something to rely on: in clusters of five and more, a success is handled in the term
   in which its request was sent.  Clusters of at most four need no assumption.  Runs whose history is not trusted
   are not restricted at all.
   */
  predicate Allowed(s: Sys, e: Event)
    requires Enabled(s, e)
  {
    s.h.trusted ==> |s.nodes| <= 4 || !Late(s, e)
  }

  /** A success is handled in another term than its request's. */
  predicate Late(s: Sys, e: Event)
    requires Enabled(s, e)
  {
    e.OnAppendReply? && e.reply.success && s.nodes[e.i].term != e.reply.request.term
  }

  // ------------------------------------------------------------- the events

  function AfterElect(s: Sys, i: nat): Sys
    requires i < |s.nodes|
  {
    var x := s.nodes[i];
    var y := StartElection(x, i, Peers(s, i));
    if x.role.Leader? then s
    else
      Put(s, i, y).(
        net := s.net.(voteRequests := s.net.voteRequests + {VoteRequest(y.term, i, LastIndex(y.log), LastTerm(y.log))}),
        h := s.h.(bids := s.h.bids[Bid(y.term, i) := y.log], ballots := s.h.ballots + {Ballot(i, y.term, i)}))
  }

  function AfterVoteRequest(s: Sys, i: nat, r: VoteRequest): Sys
    requires i < |s.nodes|
  {
    var (y, granted) := HandleVoteRequest(s.nodes[i], r);
    Put(s, i, y).(
      net := s.net.(voteReplies := s.net.voteReplies + {VoteReply(r, i, y.term, granted)}),
      h := if granted then s.h.(ballots := s.h.ballots + {Ballot(i, y.term, r.candidate)}) else s.h)
  }

  function AfterDecide(s: Sys, i: nat): Sys
    requires i < |s.nodes|
  {
    var x := s.nodes[i];
    var y := DecideElection(x, i, Peers(s, i));
    if y.role.Leader? && !x.role.Leader? then
      Put(s, i, y).(h := Acknowledge(
        s.h.(ledgers := s.h.ledgers[y.term := y.log], leaders := s.h.leaders[y.term := i]), i, y.term, |y.log|))
    else Put(s, i, y)
  }

  function AfterSend(s: Sys, i: nat, to: nat): Sys
    requires i < |s.nodes|
  {
    match MakeAppend(s.nodes[i], i, to)
    case None => s
    case Some(r) => s.(net := s.net.(appends := s.net.appends + {r}))
  }

  function AfterAppend(s: Sys, i: nat, r: AppendRequest): Sys
    requires i < |s.nodes| && LaidOut(s.nodes[i].log)
  {
    var (y, reply) := HandleAppend(s.nodes[i], r);
    Put(s, i, y).(
      net := s.net.(appendReplies := s.net.appendReplies + {reply}),
      h := if reply.success then Acknowledge(s.h, i, y.term, r.prev + |r.entries|) else s.h)
  }

  function AfterAppendReply(s: Sys, i: nat, r: AppendReply): Sys
    requires i < |s.nodes|
  {
    var x := s.nodes[i];
    var y := HandleAppendReply(x, |s.nodes|, r);
    if y.commit > x.commit && y.commit <= |y.log| then
      Put(s, i, y).(h := s.h.(
        marks := s.h.marks + {Mark(y.term, y.commit)},
        decided := if |s.h.decided| < y.commit then y.log[..y.commit] else s.h.decided))
    else Put(s, i, y)
  }

  function AfterCall(s: Sys, i: nat, cmd: Kv.Command): Sys
    requires i < |s.nodes|
  {
    var y := Append(s.nodes[i], i, cmd);
    Put(s, i, y).(h := Acknowledge(s.h.(ledgers := s.h.ledgers[y.term := y.log]), i, y.term, |y.log|))
  }

  function Next(s: Sys, e: Event): Sys
    requires Enabled(s, e)
  {
    match e
    case Elect(i) => AfterElect(s, i)
    case OnVoteRequest(i, r) => AfterVoteRequest(s, i, r)
    case OnVoteReply(i, r) => Put(s, i, HandleVoteReply(s.nodes[i], r))
    case Decide(i) => AfterDecide(s, i)
    case Send(i, to) => AfterSend(s, i, to)
    case OnAppend(i, r) => AfterAppend(s, i, r)
    case OnAppendReply(i, r) => AfterAppendReply(s, i, r)
    case Call(i, cmd) => AfterCall(s, i, cmd)
    case Expire(i, call) => Put(s, i, GiveUp(s.nodes[i], call))
    case Take(i) => Put(s, i, TakeBatch(s.nodes[i]))
    case ApplyOne(i) => Put(s, i, ApplyNext(s.nodes[i], s.max))
    case Notify(i) => Put(s, i, Resolve(s.nodes[i]))
    case Crash(i) => Put(s, i, CrashRestart(s.nodes[i]))
  }

  /** The node an event happens at, afterwards. */
  function NodeAfter(s: Sys, e: Event): Node
    requires Enabled(s, e)
  {
    var x := s.nodes[e.i];
    match e
    case Elect(i) => StartElection(x, i, Peers(s, i))
    case OnVoteRequest(i, r) => HandleVoteRequest(x, r).0
    case OnVoteReply(i, r) => HandleVoteReply(x, r)
    case Decide(i) => DecideElection(x, i, Peers(s, i))
    case Send(_, _) => x
    case OnAppend(i, r) => HandleAppend(x, r).0
    case OnAppendReply(i, r) => HandleAppendReply(x, |s.nodes|, r)
    case Call(i, cmd) => Append(x, i, cmd)
    case Expire(i, call) => GiveUp(x, call)
    case Take(i) => TakeBatch(x)
    case ApplyOne(i) => ApplyNext(x, s.max)
    case Notify(i) => Resolve(x)
    case Crash(i) => CrashRestart(x)
  }

  /** An event changes one node. */
  lemma OneNode(s: Sys, e: Event)
    requires Enabled(s, e)
    ensures Next(s, e).nodes == s.nodes[e.i := NodeAfter(s, e)]
  {
    hide StartElection, HandleVoteRequest, HandleVoteReply, DecideElection, HandleAppend, HandleAppendReply, Append,
         GiveUp, TakeBatch, ApplyNext, Resolve, CrashRestart;
    if e.Elect? && s.nodes[e.i].role.Leader? {
      LeaderKeepsOff(s.nodes[e.i], e.i, Peers(s, e.i));
    }
    assert s.nodes[e.i := s.nodes[e.i]] == s.nodes;
  }

  lemma LeaderKeepsOff(x: Node, me: nat, peers: set<nat>)
    requires x.role.Leader?
    ensures StartElection(x, me, peers) == x
  {
  }

  /**
   A cluster of `n` nodes before anything has happened.  `timely` says whether the run that follows is one in which
   successes are handled in their request's term; up to four nodes, acknowledgements can be relied on either way.
   */
  function Init(n: nat, max: nat, timely: bool): Sys {
    Sys(seq(n, i => FRESH), Network({}, {}, {}, {}), NO_HISTORY.(trusted := timely || n <= 4), max)
  }

  // -------------------------------------------------------------- runs

  /** A run: each event happens in the state the earlier ones led to. */
  ghost predicate RunFrom(s: Sys, events: seq<Event>)
    decreases |events|
  {
    events == [] ||
    (Enabled(s, events[0]) && Allowed(s, events[0]) && RunFrom(Next(s, events[0]), events[1..]))
  }

  ghost function StateAfter(s: Sys, events: seq<Event>): Sys
    requires RunFrom(s, events)
    decreases |events|
  {
    if events == [] then s else StateAfter(Next(s, events[0]), events[1..])
  }

  /**
   Reached by some run of some cluster.  With a trusted history these are all runs of at most four nodes and the timely
   runs of more; without the condition they are all runs whatever.
   */
  ghost predicate Reachable(s: Sys) {
    exists n: nat, max: nat, timely: bool, events: seq<Event> :: RunsTo(n, max, timely, events, s)
  }

  ghost predicate RunsTo(n: nat, max: nat, timely: bool, events: seq<Event>, s: Sys) {
    RunFrom(Init(n, max, timely), events) && StateAfter(Init(n, max, timely), events) == s
  }
}
