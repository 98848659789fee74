/**
 One cluster member as a value, and what each of its handlers does to it.  Every function here is one
 locked region of the running node; the node object with its loops is in RaftServer.dfy.
 */
module RaftNode {
  import opened Wrappers
  import opened RaftLog
  import opened RaftCore
  import opened Quorums
  import Kv = KvState

  /** What a blocked client call is waiting for: the identity of the entry it appended. */
  datatype Waiter = Waiter(term: nat, client: string, num: int, call: nat)

  datatype Outcome = Waiting | Answered(result: Option<Kv.Result>) | NotLeader | TimedOut

  /** One call of `append_entry`: the entry it appended, and how it has ended so far. */
  datatype Call = Call(entry: Entry, outcome: Outcome)

  /** A running vote count. `awaiting` are the peers whose reply has not been handled. */
  datatype Election = Election(term: nat, votes: nat, awaiting: set<nat>)

  /** An entry already applied whose waiter has not been resolved yet. */
  datatype Resolving = Resolving(index: nat, entry: Entry, result: Option<Kv.Result>)

  datatype Node = Node(
    role: Role, term: nat, vote: Option<nat>, log: Log, commit: nat,
    lastApplied: nat, leaderId: Option<nat>,
    next: map<nat, nat>, matched: map<nat, nat>,
    waiters: map<nat, Waiter>, calls: seq<Call>,
    election: Option<Election>,
    queue: seq<(nat, Entry)>, resolving: Option<Resolving>,
    applied: seq<Entry>, machine: Kv.State,
    incarnation: nat)

  datatype VoteRequest = VoteRequest(term: nat, candidate: nat, lastIndex: nat, lastTerm: nat)

  datatype VoteReply = VoteReply(request: VoteRequest, voter: nat, term: nat, granted: bool)

  datatype AppendRequest = AppendRequest(
    term: nat, leader: nat, to: nat, prev: nat, prevTerm: nat, entries: seq<Entry>, commit: nat)

  datatype AppendReply = AppendReply(
    request: AppendRequest, term: nat, success: bool, conflictIndex: nat, conflictTerm: nat)

  const NOOP := Kv.Command(Kv.Noop, "", "", 0)

  const FRESH := Node(Follower, 0, None, [], 0, 0, None, map[], map[], map[], [], None, [], None, [], Kv.EMPTY, 0)

  function AsMember(x: Node): Member {
    Member(x.role, x.term, x.vote, x.log, x.commit)
  }

  /** Entry `i` sits at index `i + 1`. */
  predicate LaidOut(log: Log) {
    forall i :: 0 <= i < |log| ==> log[i].index == i + 1
  }

  // ------------------------------------------------------------ step down

  predicate Pending(waiters: map<nat, Waiter>, call: nat) {
    exists i :: i in waiters && waiters[i].call == call
  }

  /** Every call with a pending waiter learns that this node is not the leader. */
  function FailCalls(calls: seq<Call>, waiters: map<nat, Waiter>): seq<Call> {
    seq(|calls|, k requires 0 <= k < |calls| =>
      if calls[k].outcome.Waiting? && Pending(waiters, k) then calls[k].(outcome := NotLeader) else calls[k])
  }

  function BecomeFollower(x: Node, term: nat): Node {
    x.(role := Follower, term := term, vote := None, waiters := map[], calls := FailCalls(x.calls, x.waiters))
  }

  // ------------------------------------------------------------ elections

  function StartElection(x: Node, me: nat, peers: set<nat>): Node {
    if x.role.Leader? then x
    else
      x.(role := Candidate, term := x.term + 1, vote := Some(me), leaderId := None,
         election := Some(Election(x.term + 1, 1, peers)))
  }

  function HandleVoteRequest(x: Node, r: VoteRequest): (Node, bool) {
    var y := if r.term > x.term then BecomeFollower(x, r.term) else x;
    if r.term >= y.term && (y.vote == None || y.vote == Some(r.candidate)) && UpToDate(r.lastIndex, r.lastTerm, y.log)
    then (y.(vote := Some(r.candidate)), true)
    else (y, false)
  }

  function HandleVoteReply(x: Node, r: VoteReply): Node {
    if r.term > x.term then BecomeFollower(x, r.term)
    else if x.election.Some? && x.election.value.term == r.request.term && r.voter in x.election.value.awaiting then
      var e := x.election.value;
      x.(election := Some(Election(e.term, if r.granted then e.votes + 1 else e.votes, e.awaiting - {r.voter})))
    else x
  }

  /** The end of an election: lead if still a candidate of its term with enough votes. */
  function DecideElection(x: Node, me: nat, peers: set<nat>): Node {
    if x.election.None? then x
    else
      var y := x.(election := None);
      if x.role.Candidate? && x.term == x.election.value.term && x.election.value.votes >= Majority(|peers| + 1)
      then BecomeLeader(y, me, peers)
      else y
  }

  /** A table with the entries of all peers set to `value`. */
  function Reset(table: map<nat, nat>, peers: set<nat>, value: nat): map<nat, nat> {
    map p | p in table.Keys + peers :: if p in peers then value else table[p]
  }

  function BecomeLeader(x: Node, me: nat, peers: set<nat>): Node {
    var last := LastIndex(x.log);
    x.(role := Leader, leaderId := Some(me),
       next := Reset(x.next, peers, last + 1)[me := last + 2],
       matched := Reset(x.matched, peers, 0)[me := last + 1],
       log := x.log + [Entry(x.term, last + 1, NOOP)])
  }

  // ---------------------------------------------------------- replication

  /**
   The message a leader sends to a peer: everything from the peer's next index on.  None if this node does
   not lead, or if the next index points past the log, where the source raises and sends nothing.
   */
  function MakeAppend(x: Node, me: nat, to: nat): Option<AppendRequest> {
    var next := if to in x.next then x.next[to] else 1;
    if !x.role.Leader? || next == 0 || next - 1 > |x.log| then None
    else
      var prev := next - 1;
      Some(AppendRequest(x.term, me, to, prev, if prev > 0 then x.log[prev - 1].term else 0, x.log[prev..], x.commit))
  }

  /** Walk down from index `ci` while the entry before it is of term `t`. */
  function FirstOfTerm(log: Log, ci: nat, t: nat): nat
    requires ci <= |log| + 1
  {
    if ci > 1 && log[ci - 2].term == t then FirstOfTerm(log, ci - 1, t) else ci
  }

  function Min(a: nat, b: nat): nat {
    if a < b then a else b
  }

  /** The node as it takes in a message that is not of an earlier term: it steps down if it has to. */
  function Following(x: Node, r: AppendRequest): Node {
    (if r.term > x.term || x.role.Candidate? then BecomeFollower(x, r.term) else x).(leaderId := Some(r.leader))
  }

  function HandleAppend(x: Node, r: AppendRequest): (Node, AppendReply)
    requires LaidOut(x.log)
  {
    if r.term < x.term then (x, AppendReply(r, x.term, false, 0, 0))
    else
      var z := Following(x, r);
      if r.prev > 0 && LastIndex(z.log) < r.prev then
        (z, AppendReply(r, z.term, false, LastIndex(z.log) + 1, 0))
      else if r.prev > 0 && z.log[r.prev - 1].term != r.prevTerm then
        var t := z.log[r.prev - 1].term;
        (z, AppendReply(r, z.term, false, FirstOfTerm(z.log, r.prev, t), t))
      else
        var log := Merge(z.log, r.prev, r.entries);
        var commit := if r.commit > z.commit then Min(r.commit, LastIndex(log)) else z.commit;
        (z.(log := log, commit := commit), AppendReply(r, z.term, true, 0, 0))
  }

  /** The last index below or at `i` whose entry is of term `t`, or 0. */
  function LastOfTerm(log: Log, i: nat, t: nat): nat
    requires i <= |log|
  {
    if i == 0 then 0 else if log[i - 1].term == t then i else LastOfTerm(log, i - 1, t)
  }

  /** Where a rejection moves a peer's next index. */
  function Backtrack(log: Log, conflictIndex: nat, conflictTerm: nat): nat {
    if conflictTerm > 0 then
      var found := LastOfTerm(log, |log|, conflictTerm);
      if found > 0 then found + 1 else conflictIndex
    else if conflictIndex > 1 then conflictIndex else 1
  }

  function Reached(matched: map<nat, nat>, index: nat): set<nat> {
    set p | p in matched && matched[p] >= index
  }

  predicate Committable(x: Node, n: nat, index: nat) {
    && 0 < index <= |x.log| && x.log[index - 1].term == x.term
    && |Reached(x.matched, index)| >= Majority(n)
  }

  /** The highest committable index from `index` down to just above the commit index, else the commit index. */
  function AdvanceFrom(x: Node, n: nat, index: nat): nat
    decreases index
  {
    if index <= x.commit then x.commit
    else if Committable(x, n, index) then index
    else AdvanceFrom(x, n, index - 1)
  }

  function AdvanceCommit(x: Node, n: nat): Node {
    x.(commit := AdvanceFrom(x, n, LastIndex(x.log)))
  }

  function RecordMatch(x: Node, peer: nat, index: nat): Node {
    if index > (if peer in x.matched then x.matched[peer] else 0) then
      x.(matched := x.matched[peer := index], next := x.next[peer := index + 1])
    else x
  }

  /** The reply handler; it does not look at the term the request was sent in. */
  function HandleAppendReply(x: Node, n: nat, r: AppendReply): Node {
    if r.term > x.term then BecomeFollower(x, r.term)
    else if !x.role.Leader? then x
    else if r.success then
      AdvanceCommit(RecordMatch(x, r.request.to, r.request.prev + |r.request.entries|), n)
    else x.(next := x.next[r.request.to := Backtrack(x.log, r.conflictIndex, r.conflictTerm)])
  }

  // -------------------------------------------------------------- clients

  /** A leader appends a client's entry and leaves a waiter for it. */
  function Append(x: Node, me: nat, cmd: Kv.Command): Node {
    var index := LastIndex(x.log) + 1;
    var e := Entry(x.term, index, cmd);
    x.(log := x.log + [e], matched := x.matched[me := index], next := x.next[me := index + 1],
       waiters := x.waiters[index := Waiter(x.term, cmd.client, cmd.num, |x.calls|)],
       calls := x.calls + [Call(e, Waiting)])
  }

  /** The wait of a call runs out; it raises even if its waiter is resolved before the lock is taken. */
  function GiveUp(x: Node, call: nat): Node
    requires call < |x.calls|
  {
    var index := x.calls[call].entry.index;
    x.(calls := x.calls[call := x.calls[call].(outcome := TimedOut)],
       waiters := if index in x.waiters && x.waiters[index].call == call then x.waiters - {index} else x.waiters)
  }

  // -------------------------------------------------------------- applier

  /** The committed entries after index `from`, with their indices, up to index `upto`. */
  function Batch(log: Log, from: nat, upto: nat): seq<(nat, Entry)>
    decreases upto - from
  {
    if from >= upto then []
    else (if from < |log| then [(from + 1, log[from])] else []) + Batch(log, from + 1, upto)
  }

  function TakeBatch(x: Node): Node {
    x.(lastApplied := x.commit, queue := Batch(x.log, x.lastApplied, x.commit))
  }

  function ApplyNext(x: Node, max: nat): Node
    requires x.queue != []
  {
    var (index, e) := x.queue[0];
    var (machine, result) := if e.cmd.op.Noop? then (x.machine, None)
                             else var (m, r) := Kv.Apply(x.machine, max, e.cmd); (m, Some(r));
    x.(queue := x.queue[1..], applied := x.applied + [e], machine := machine,
       resolving := Some(Resolving(index, e, result)))
  }

  predicate SameEntry(w: Waiter, e: Entry) {
    w.term == e.term && w.client == e.cmd.client && w.num == e.cmd.num
  }

  /** Hand the result to the waiter at the applied index, if its entry is the one applied there. */
  function Resolve(x: Node): Node
    requires x.resolving.Some?
  {
    var r, y := x.resolving.value, x.(resolving := None);
    if r.index in x.waiters then
      var w := x.waiters[r.index];
      y.(waiters := x.waiters - {r.index},
         calls := if w.call < |x.calls| then
                    x.calls[w.call := x.calls[w.call].(outcome := if SameEntry(w, r.entry) then Answered(r.result)
                                                                  else NotLeader)]
                  else x.calls)
    else y
  }

  // -------------------------------------------------------------- crashes

  /** Crash and restart: what was on disk survives, everything else starts over. */
  function CrashRestart(x: Node): Node {
    FRESH.(term := x.term, vote := x.vote, log := x.log, incarnation := x.incarnation + 1)
  }
}
