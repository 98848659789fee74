/**
 Runs in which replies may be handled late, and the pieces they are made of: elections, messages to several members,
 and replies counted by a leader, in a cluster of any size.
 */
module LateRuns {
  import opened Wrappers
  import opened RaftLog
  import opened Quorums
  import opened RaftCore
  import opened RaftNode
  import opened Cluster
  import ClusterReplies
  import Kv = KvState

  // ---------------------------------------------------------- runs with late successes

  /** How many of the events are acknowledgements handled in another term than their request's. */
  ghost function LateCount(s: Sys, events: seq<Event>): nat
    requires RunFrom(s, events)
    decreases |events|
  {
    if events == [] then 0
    else (if Late(s, events[0]) then 1 else 0) + LateCount(Next(s, events[0]), events[1..])
  }

  /** `s` is reached from `s0` by a run with exactly `late` late acknowledgements. */
  ghost predicate Reaches(s0: Sys, s: Sys, late: nat) {
    && s.h.trusted == s0.h.trusted
    && exists events :: RunFrom(s0, events) && StateAfter(s0, events) == s && LateCount(s0, events) == late
  }

  lemma {:induction false} RunNext(s: Sys, events: seq<Event>, e: Event)
    requires RunFrom(s, events) && Enabled(StateAfter(s, events), e) && Allowed(StateAfter(s, events), e)
    ensures RunFrom(s, events + [e]) && StateAfter(s, events + [e]) == Next(StateAfter(s, events), e)
    ensures LateCount(s, events + [e]) == LateCount(s, events) + if Late(StateAfter(s, events), e) then 1 else 0
    decreases |events|
  {
    hide Enabled, Allowed, Late, Next;
    if events == [] {
      assert [e][1..] == [] && events + [e] == [e];
    } else {
      assert (events + [e])[1..] == events[1..] + [e];
      RunNext(Next(s, events[0]), events[1..], e);
    }
  }

  lemma Step(s0: Sys, s: Sys, late: nat, e: Event)
    requires Reaches(s0, s, late) && Enabled(s, e) && (Late(s, e) ==> !s0.h.trusted)
    ensures Reaches(s0, Next(s, e), late + if Late(s, e) then 1 else 0)
  {
    hide Enabled, Late, Next;
    var events :| RunFrom(s0, events) && StateAfter(s0, events) == s && LateCount(s0, events) == late;
    RunNext(s0, events, e);
    TrustStays(s, e);
  }

  lemma TrustStays(s: Sys, e: Event)
    requires Enabled(s, e)
    ensures Next(s, e).h.trusted == s.h.trusted
  {
    hide StartElection, HandleVoteRequest, HandleVoteReply, DecideElection, MakeAppend, HandleAppend, HandleAppendReply,
         Append, GiveUp, TakeBatch, ApplyNext, Resolve, CrashRestart;
  }

  lemma ReachesSelf(s: Sys)
    ensures Reaches(s, s, 0)
  {
    assert RunFrom(s, []) && StateAfter(s, []) == s && LateCount(s, []) == 0;
  }

  lemma ReachesRunsTo(n: nat, max: nat, timely: bool, s: Sys, late: nat)
    requires Reaches(Init(n, max, timely), s, late)
    ensures exists events :: RunsTo(n, max, timely, events, s)
  {
    hide RunFrom, StateAfter, LateCount;
    var s0 := Init(n, max, timely);
    var events :| RunFrom(s0, events) && StateAfter(s0, events) == s && LateCount(s0, events) == late;
    assert RunsTo(n, max, timely, events, s);
  }

  // --------------------------------------------- trust is a label and nothing more

  function Labelled(s: Sys, trusted: bool): Sys {
    s.(h := s.h.(trusted := trusted))
  }

  lemma LabelAck(h: History, p: nat, term: nat, len: nat, trusted: bool)
    ensures Acknowledge(h.(trusted := trusted), p, term, len) == Acknowledge(h, p, term, len).(trusted := trusted)
  {
  }

  lemma LabelEnabled(s: Sys, e: Event, trusted: bool)
    requires Enabled(s, e)
    ensures Enabled(Labelled(s, trusted), e) && Late(Labelled(s, trusted), e) == Late(s, e)
  {
  }

  lemma LabelElection(s: Sys, i: nat, r: VoteRequest, trusted: bool)
    requires i < |s.nodes|
    ensures AfterElect(Labelled(s, trusted), i) == Labelled(AfterElect(s, i), trusted)
    ensures AfterVoteRequest(Labelled(s, trusted), i, r) == Labelled(AfterVoteRequest(s, i, r), trusted)
    ensures AfterDecide(Labelled(s, trusted), i) == Labelled(AfterDecide(s, i), trusted)
  {
    hide StartElection, HandleVoteRequest, DecideElection, Ids, Acknowledge;
    var y := DecideElection(s.nodes[i], i, Peers(s, i));
    LabelAck(s.h.(ledgers := s.h.ledgers[y.term := y.log], leaders := s.h.leaders[y.term := i]), i, y.term, |y.log|,
             trusted);
  }

  lemma LabelSend(s: Sys, i: nat, to: nat, trusted: bool)
    requires i < |s.nodes|
    ensures AfterSend(Labelled(s, trusted), i, to) == Labelled(AfterSend(s, i, to), trusted)
  {
    hide MakeAppend;
  }

  lemma LabelAppend(s: Sys, i: nat, r: AppendRequest, trusted: bool)
    requires i < |s.nodes| && LaidOut(s.nodes[i].log)
    ensures AfterAppend(Labelled(s, trusted), i, r) == Labelled(AfterAppend(s, i, r), trusted)
  {
    hide HandleAppend, Acknowledge;
    LabelAck(s.h, i, HandleAppend(s.nodes[i], r).0.term, r.prev + |r.entries|, trusted);
  }

  lemma LabelCall(s: Sys, i: nat, cmd: Kv.Command, trusted: bool)
    requires i < |s.nodes|
    ensures AfterCall(Labelled(s, trusted), i, cmd) == Labelled(AfterCall(s, i, cmd), trusted)
  {
    hide Append, Acknowledge;
    var y := Append(s.nodes[i], i, cmd);
    LabelAck(s.h.(ledgers := s.h.ledgers[y.term := y.log]), i, y.term, |y.log|, trusted);
  }

  lemma LabelReply(s: Sys, i: nat, r: AppendReply, trusted: bool)
    requires i < |s.nodes|
    ensures AfterAppendReply(Labelled(s, trusted), i, r) == Labelled(AfterAppendReply(s, i, r), trusted)
  {
    hide HandleAppendReply;
  }

  lemma LabelNext(s: Sys, e: Event, trusted: bool)
    requires Enabled(s, e)
    ensures Enabled(Labelled(s, trusted), e) && Late(Labelled(s, trusted), e) == Late(s, e)
    ensures Next(Labelled(s, trusted), e) == Labelled(Next(s, e), trusted)
  {
    hide AfterElect, AfterVoteRequest, AfterDecide, AfterSend, AfterAppend, AfterAppendReply, AfterCall, Enabled, Late,
         HandleVoteReply, GiveUp, TakeBatch, ApplyNext, Resolve, CrashRestart, LaidOut;
    LabelEnabled(s, e, trusted);
    TheEnabled(s, e);
    match e
    case Elect(i) => LabelElection(s, i, VoteRequest(0, 0, 0, 0), trusted);
    case OnVoteRequest(i, r) => LabelElection(s, i, r, trusted);
    case Decide(i) => LabelElection(s, i, VoteRequest(0, 0, 0, 0), trusted);
    case Send(i, to) => LabelSend(s, i, to, trusted);
    case OnAppend(i, r) => LabelAppend(s, i, r, trusted);
    case OnAppendReply(i, r) => LabelReply(s, i, r, trusted);
    case Call(i, cmd) => LabelCall(s, i, cmd, trusted);
    case _ =>
  }

  lemma TheEnabled(s: Sys, e: Event)
    requires Enabled(s, e)
    ensures e.i < |s.nodes| && LaidOut(s.nodes[e.i].log)
  {
  }

  /**
   The trusted runs are the unrestricted ones without late acknowledgements: a run stays a run, with the same states,
   when the label changes, as long as no acknowledgement is late where the new label forbids it.
   */
  lemma {:induction false} TrustIsLabel(s: Sys, events: seq<Event>, trusted: bool)
    requires RunFrom(s, events) && (!trusted || LateCount(s, events) == 0)
    ensures RunFrom(Labelled(s, trusted), events)
    ensures StateAfter(Labelled(s, trusted), events) == Labelled(StateAfter(s, events), trusted)
    decreases |events|
  {
    hide Enabled, Late, Next, Labelled;
    if events != [] {
      LabelNext(s, events[0], trusted);
      TrustIsLabel(Next(s, events[0]), events[1..], trusted);
      LabelTrusts(s, trusted);
    }
  }

  lemma LabelTrusts(s: Sys, trusted: bool)
    ensures Labelled(s, trusted).h.trusted == trusted
  {
  }

  // ------------------------------------------------------------- the cast of a run

  /** The members' logs, one by one; nobody is past term `t`. */
  ghost predicate Cast(s: Sys, t: nat, logs: seq<Log>) {
    && |s.nodes| == |logs|
    && forall p: nat | p < |logs| :: Plays(s.nodes[p], t, logs[p], |logs|)
  }

  ghost predicate Plays(x: Node, t: nat, log: Log, n: nat) {
    x.log == log && LaidOut(log) && x.term <= t && x.matched.Keys <= Ids(n)
  }

  ghost predicate Uncommitted(s: Sys) {
    forall p: nat | p < |s.nodes| :: s.nodes[p].commit == 0
  }

  /** Only the members in `who` differ, and no reply is lost. */
  ghost predicate Touches(s: Sys, s': Sys, who: set<nat>) {
    && |s'.nodes| == |s.nodes| && s.net.appendReplies <= s'.net.appendReplies
    && forall p: nat | p < |s.nodes| :: p in who || s'.nodes[p] == s.nodes[p]
  }

  function Members(vs: seq<nat>): set<nat> {
    set v | v in vs
  }

  ghost predicate Distinct(vs: seq<nat>) {
    forall i, j :: 0 <= i < j < |vs| ==> vs[i] != vs[j]
  }

  /** Members of the cluster, other than `c`, each once. */
  ghost predicate Others(vs: seq<nat>, c: nat, n: nat) {
    Distinct(vs) && forall v: nat | v in vs :: v < n && v != c
  }

  /** The numbers from `a` up to, not including, `b`. */
  function Range(a: nat, b: nat): (r: seq<nat>)
    ensures |r| == (if b > a then b - a else 0) && forall i :: 0 <= i < |r| ==> r[i] == a + i
  {
    seq(if b > a then b - a else 0, i => a + i)
  }

  lemma InRange(a: nat, b: nat)
    ensures forall v: nat :: v in Range(a, b) <==> a <= v < b
  {
    forall v: nat | a <= v < b ensures v in Range(a, b) {
      assert Range(a, b)[v - a] == v;
    }
  }

  /** A few named members and everyone from `a` on. */
  lemma Named(named: seq<nat>, a: nat, c: nat, n: nat)
    requires Others(named, c, n) && a <= n && c < a && forall v: nat | v in named :: v < a
    ensures Others(named + Range(a, n), c, n) && |named + Range(a, n)| == |named| + (n - a)
    ensures forall v: nat :: v in named + Range(a, n) <==> v in named || a <= v < n
  {
    InRange(a, n);
    forall i, j | 0 <= i < j < |named + Range(a, n)|
      ensures (named + Range(a, n))[i] != (named + Range(a, n))[j]
    {
      if i < |named| { assert named[i] in named; }
    }
  }

  lemma CastSize(s: Sys, t: nat, logs: seq<Log>)
    requires Cast(s, t, logs)
    ensures |s.nodes| == |logs|
  {
  }

  /** Member `p` follows in term `t`. */
  predicate Follows(x: Node, t: nat) {
    x.role.Follower? && x.term == t
  }

  // ---------------------------------------------------------------------- elections

  lemma Start(s0: Sys, s: Sys, late: nat, c: nat) returns (s': Sys, r: VoteRequest)
    requires Reaches(s0, s, late) && c < |s.nodes| && !s.nodes[c].role.Leader? && LaidOut(s.nodes[c].log)
    ensures Reaches(s0, s', late) && Touches(s, s', {c}) && r in s'.net.voteRequests
    ensures var x := s.nodes[c];
            && r == VoteRequest(x.term + 1, c, LastIndex(x.log), LastTerm(x.log))
            && s'.nodes[c] == StartElection(x, c, Peers(s, c))
  {
    hide LaidOut, Reaches;
    Step(s0, s, late, Elect(c));
    s' := Next(s, Elect(c));
    r := VoteRequest(s.nodes[c].term + 1, c, LastIndex(s.nodes[c].log), LastTerm(s.nodes[c].log));
  }

  lemma FollowerNow(x: Node, term: nat)
    ensures var y := BecomeFollower(x, term);
            y == x.(role := Follower, term := term, vote := None, waiters := map[], calls := y.calls)
  {
  }

  /** One vote: the voter adopts the term and grants, and the candidate counts it. */
  lemma Vote(s0: Sys, s: Sys, late: nat, c: nat, v: nat, r: VoteRequest) returns (s': Sys)
    requires Reaches(s0, s, late) && c < |s.nodes| && v < |s.nodes| && c != v
    requires LaidOut(s.nodes[c].log) && LaidOut(s.nodes[v].log)
    requires r in s.net.voteRequests && r.candidate == c && s.nodes[c].term == r.term > s.nodes[v].term
    requires UpToDate(r.lastIndex, r.lastTerm, s.nodes[v].log)
    requires s.nodes[c].election.Some? && s.nodes[c].election.value.term == r.term
    requires v in s.nodes[c].election.value.awaiting
    ensures Reaches(s0, s', late) && Touches(s, s', {c, v}) && s'.net.voteRequests == s.net.voteRequests
    ensures var e := s.nodes[c].election.value;
            s'.nodes[c] == s.nodes[c].(election := Some(Election(e.term, e.votes + 1, e.awaiting - {v})))
    ensures s'.nodes[v] == BecomeFollower(s.nodes[v], r.term).(vote := Some(c))
  {
    hide BecomeFollower, Reaches;
    FollowerNow(s.nodes[v], r.term);
    var reply := VoteReply(r, v, r.term, true);
    Step(s0, s, late, OnVoteRequest(v, r));
    var s1 := Next(s, OnVoteRequest(v, r));
    assert reply in s1.net.voteReplies && s1.nodes[c] == s.nodes[c];
    Step(s0, s1, late, OnVoteReply(c, reply));
    s' := Next(s1, OnVoteReply(c, reply));
  }

  /** What is known once the first `k` of `vs` have voted for `c`. */
  ghost predicate Polled(s: Sys, s': Sys, c: nat, r: VoteRequest, vs: seq<nat>, k: nat)
    requires c < |s.nodes| && k <= |vs|
  {
    && |s'.nodes| == |s.nodes| && s.net.appendReplies <= s'.net.appendReplies && r in s'.net.voteRequests
    && var y := s'.nodes[c];
    && y.election.Some? && y.election.value.term == r.term && y.election.value.votes == k + 1
    && (forall i: nat | k <= i < |vs| :: vs[i] in y.election.value.awaiting)
    && y == StartElection(s.nodes[c], c, Peers(s, c)).(election := y.election)
    && (forall i: nat | i < k :: vs[i] < |s.nodes| && Voted(s.nodes[vs[i]], s'.nodes[vs[i]], r.term))
    && (forall p: nat | p < |s.nodes| && p != c :: p in vs[..k] || s'.nodes[p] == s.nodes[p])
  }

  ghost predicate Voted(x: Node, y: Node, t: nat) {
    Follows(y, t) && y.log == x.log && y.commit == x.commit && y.matched == x.matched
  }

  lemma {:induction false} Poll(s0: Sys, s: Sys, s1: Sys, late: nat, c: nat, r: VoteRequest, vs: seq<nat>, k: nat)
    returns (s': Sys)
    requires k <= |vs| && c < |s.nodes| && Others(vs, c, |s.nodes|) && !s.nodes[c].role.Leader?
    requires Reaches(s0, s1, late) && Polled(s, s1, c, r, vs, 0)
    requires r.candidate == c && r.term == s.nodes[c].term + 1 && LaidOut(s.nodes[c].log)
    requires forall v: nat | v in vs :: s.nodes[v].term < r.term && LaidOut(s.nodes[v].log)
                                     && UpToDate(r.lastIndex, r.lastTerm, s.nodes[v].log)
    ensures Reaches(s0, s', late) && Polled(s, s', c, r, vs, k)
  {
    hide Reaches, LaidOut, UpToDate, BecomeFollower, Ids;
    if k == 0 {
      s' := s1;
    } else {
      var s2 := Poll(s0, s, s1, late, c, r, vs, k - 1);
      var v := vs[k - 1];
      assert v in vs && v !in vs[..k - 1];
      assert s2.nodes[v] == s.nodes[v];
      s' := Vote(s0, s2, late, c, v, r);
      FollowerNow(s.nodes[v], r.term);
      assert vs[..k] == vs[..k - 1] + [v];
    }
  }

  /** What a node has committed, applied and promised its clients is the same. */
  ghost predicate SameService(x: Node, y: Node) {
    && y.commit == x.commit && y.lastApplied == x.lastApplied && y.queue == x.queue && y.resolving == x.resolving
    && y.applied == x.applied && y.machine == x.machine && y.calls == x.calls && y.waiters == x.waiters
    && y.incarnation == x.incarnation
  }

  /** What an election leaves behind. */
  ghost predicate Won(s: Sys, s': Sys, c: nat, vs: seq<nat>, t: nat, logs: seq<Log>)
    requires c < |logs|
  {
    && Cast(s', t, logs[c := logs[c] + [Entry(t, |logs[c]| + 1, NOOP)]])
    && Touches(s, s', {c} + Members(vs)) && (Uncommitted(s) ==> Uncommitted(s'))
    && Heads(s'.nodes[c], c, t, |logs|, |logs[c]| + 1) && c < |s.nodes| && SameService(s.nodes[c], s'.nodes[c])
    && (forall p: nat | p < |logs| && p != c ::
          s'.nodes[c].next[p] == |logs[c]| + 1)
    && forall v: nat | v in vs :: v < |logs| && Follows(s'.nodes[v], t)
  }

  /** A leader of `n` members with a log of `len` entries, the last of its term, and full tables. */
  ghost predicate Heads(x: Node, c: nat, t: nat, n: nat, len: nat) {
    && x.role.Leader? && x.term == t && |x.log| == len >= 1 && x.log[len - 1].term == t
    && x.matched.Keys == Ids(n) && c in x.matched && x.matched[c] >= len
    && forall p: nat | p < n && p != c :: p in x.next
  }

  lemma PeerCount(s: Sys, c: nat)
    requires c < |s.nodes|
    ensures |Peers(s, c)| == |s.nodes| - 1 && forall v: nat | v < |s.nodes| && v != c :: v in Peers(s, c)
  {
    assert Ids(|s.nodes|) == Peers(s, c) + {c};
  }

  /** The winner's log and tables. */
  lemma Crowned(x: Node, c: nat, t: nat, log: Log, n: nat, peers: set<nat>)
    requires Plays(x, t, log, n) && x.term == t && c < n && peers == Ids(n) - {c}
    ensures var y := BecomeLeader(x, c, peers);
            && y.log == log + [Entry(t, |log| + 1, NOOP)] && Heads(y, c, t, n, |log| + 1)
            && SameService(x, y) && LaidOut(y.log)
            && forall p: nat | p < n && p != c :: y.next[p] == |log| + 1
  {
    hide LaidOut, Ids, Reset, LastIndex;
    LogEnds(log, t);
    CrownedTables(x, c, log, n, peers);
  }

  lemma CrownedTables(x: Node, c: nat, log: Log, n: nat, peers: set<nat>)
    requires x.matched.Keys <= Ids(n) && c < n && peers == Ids(n) - {c}
    requires x.log == log && LastIndex(log) == |log|
    ensures var y := BecomeLeader(x, c, peers);
            && y.matched.Keys == Ids(n) && y.matched[c] == |log| + 1
            && forall p: nat | p < n && p != c :: p in y.next && y.next[p] == |log| + 1
  {
    hide LaidOut, Ids, Reset, LastIndex;
    FullTable(x.next, n, c, |log| + 1, |log| + 2);
    FullTable(x.matched, n, c, 0, |log| + 1);
  }

  /** A table reset for all peers, with the leader's own entry. */
  lemma FullTable(table: map<nat, nat>, n: nat, c: nat, value: nat, own: nat)
    requires c < n
    ensures var full := Reset(table, Ids(n) - {c}, value)[c := own];
            && full[c] == own && (table.Keys <= Ids(n) ==> full.Keys == Ids(n))
            && forall p: nat | p < n && p != c :: p in full && full[p] == value
  {
    hide Ids, Reset;
    ResetFull(table, n, c, value);
    AllIds(table.Keys, n, c);
    var reset := Reset(table, Ids(n) - {c}, value);
    assert reset[c := own].Keys == reset.Keys + {c};
  }

  lemma LogEnds(log: Log, t: nat)
    requires LaidOut(log)
    ensures LastIndex(log) == |log| && LaidOut(log + [Entry(t, |log| + 1, NOOP)])
  {
  }

  lemma ResetFull(table: map<nat, nat>, n: nat, c: nat, value: nat)
    requires c < n
    ensures var reset := Reset(table, Ids(n) - {c}, value);
            && reset.Keys == table.Keys + (Ids(n) - {c})
            && forall p: nat | p < n && p != c :: p in reset && reset[p] == value
  {
  }

  lemma AllIds(keys: set<nat>, n: nat, c: nat)
    requires c < n
    ensures keys <= Ids(n) ==> keys + (Ids(n) - {c}) + {c} == Ids(n)
  {
  }

  /** Member `c`, in the last term so far, is elected by `vs`. */
  lemma Win(s0: Sys, s: Sys, late: nat, c: nat, vs: seq<nat>, t: nat, logs: seq<Log>) returns (s': Sys)
    requires Reaches(s0, s, late) && Cast(s, t, logs) && c < |logs| && Others(vs, c, |logs|)
    requires !s.nodes[c].role.Leader? && s.nodes[c].term == t && |vs| + 1 >= Majority(|logs|)
    requires forall v: nat | v in vs :: UpToDate(LastIndex(logs[c]), LastTerm(logs[c]), logs[v])
    ensures Reaches(s0, s', late) && Won(s, s', c, vs, t + 1, logs)
  {
    hide Reaches, UpToDate, LaidOut, Ids, BecomeLeader, StartElection, Heads;
    assert Plays(s.nodes[c], t, logs[c], |logs|);
    var s1, r := Start(s0, s, late, c);
    PeerCount(s, c);
    StartPolls(s, s1, c, r, vs);
    forall v: nat | v in vs
      ensures s.nodes[v].term < r.term && LaidOut(s.nodes[v].log) && UpToDate(r.lastIndex, r.lastTerm, s.nodes[v].log)
    {
      assert Plays(s.nodes[v], t, logs[v], |logs|);
    }
    var s2 := Poll(s0, s, s1, late, c, r, vs, |vs|);
    s' := Decided(s0, s, s2, late, c, r, vs);
    Settles(s, s2, s', c, r, vs, t, logs);
  }

  lemma StartPolls(s: Sys, s1: Sys, c: nat, r: VoteRequest, vs: seq<nat>)
    requires c < |s.nodes| && !s.nodes[c].role.Leader? && Others(vs, c, |s.nodes|)
    requires Touches(s, s1, {c}) && r in s1.net.voteRequests && r.term == s.nodes[c].term + 1
    requires s1.nodes[c] == StartElection(s.nodes[c], c, Peers(s, c))
    ensures Polled(s, s1, c, r, vs, 0)
  {
    PeerCount(s, c);
    hide Ids;
    forall i: nat | i < |vs| ensures vs[i] in s1.nodes[c].election.value.awaiting {
      assert vs[i] in vs;
    }
  }

  lemma Decided(s0: Sys, s: Sys, s2: Sys, late: nat, c: nat, r: VoteRequest, vs: seq<nat>) returns (s': Sys)
    requires Reaches(s0, s2, late) && c < |s.nodes| && !s.nodes[c].role.Leader? && LaidOut(s.nodes[c].log)
    requires Polled(s, s2, c, r, vs, |vs|) && r.term == s.nodes[c].term + 1 && |vs| + 1 >= Majority(|s.nodes|)
    ensures Reaches(s0, s', late) && Touches(s2, s', {c})
    ensures s'.nodes[c] == BecomeLeader(s2.nodes[c].(election := None), c, Peers(s, c))
  {
    hide Reaches, LaidOut, BecomeLeader, Ids;
    PeerCount(s, c);
    Step(s0, s2, late, Decide(c));
    s' := Next(s2, Decide(c));
    NowLeads(s2.nodes[c].(election := None), c, Peers(s, c));
  }

  lemma NowLeads(x: Node, c: nat, peers: set<nat>)
    ensures BecomeLeader(x, c, peers).role.Leader?
  {
  }

  lemma Settles(s: Sys, s2: Sys, s': Sys, c: nat, r: VoteRequest, vs: seq<nat>, t: nat, logs: seq<Log>)
    requires Cast(s, t, logs) && c < |logs| && !s.nodes[c].role.Leader? && s.nodes[c].term == t && Others(vs, c, |logs|)
    requires Polled(s, s2, c, r, vs, |vs|) && r.term == t + 1 && Touches(s2, s', {c})
    requires s'.nodes[c] == BecomeLeader(s2.nodes[c].(election := None), c, Peers(s, c))
    ensures Won(s, s', c, vs, t + 1, logs)
  {
    hide LaidOut, Ids, BecomeLeader, Heads;
    var logs' := logs[c := logs[c] + [Entry(t + 1, |logs[c]| + 1, NOOP)]];
    assert Plays(s.nodes[c], t, logs[c], |logs|);
    var x := s2.nodes[c].(election := None);
    Crowned(x, c, t + 1, logs[c], |logs|, Peers(s, c));
    assert vs[..|vs|] == vs;
    forall p: nat | p < |logs|
      ensures Plays(s'.nodes[p], t + 1, logs'[p], |logs|)
      ensures p == c || p in vs || s'.nodes[p] == s.nodes[p]
      ensures s.nodes[p].commit == 0 ==> s'.nodes[p].commit == 0
      ensures p in vs ==> Follows(s'.nodes[p], t + 1)
    {
      assert Plays(s.nodes[p], t, logs[p], |logs|);
      if p == c {
        HeadsKeys(s'.nodes[c], c, t + 1, |logs|, |logs[c]| + 1);
      } else if p in vs {
        var i :| 0 <= i < |vs| && vs[i] == p;
        assert Voted(s.nodes[vs[i]], s2.nodes[vs[i]], r.term);
      }
    }
  }

  lemma HeadsKeys(x: Node, c: nat, t: nat, n: nat, len: nat)
    requires Heads(x, c, t, n, len)
    ensures x.matched.Keys == Ids(n) && x.term == t && x.role.Leader?
  {
  }

  // -------------------------------------------------------------------- replication

  const CMD := Kv.Command(Kv.Put([]), "key", "client", 1)

  /** The leader takes a client's entry. */
  lemma TakeEntry(s0: Sys, s: Sys, late: nat, c: nat, t: nat, logs: seq<Log>) returns (s': Sys)
    requires Reaches(s0, s, late) && Cast(s, t, logs) && c < |logs| && Heads(s.nodes[c], c, t, |logs|, |logs[c]|)
    ensures Reaches(s0, s', late) && Touches(s, s', {c}) && (Uncommitted(s) ==> Uncommitted(s'))
    ensures Cast(s', t, logs[c := logs[c] + [Entry(t, |logs[c]| + 1, CMD)]])
    ensures Heads(s'.nodes[c], c, t, |logs|, |logs[c]| + 1)
    ensures forall p: nat | p < |logs| && p != c :: s'.nodes[c].next[p] == s.nodes[c].next[p]
  {
    hide Reaches, LaidOut, Ids;
    assert Plays(s.nodes[c], t, logs[c], |logs|);
    LogEnds(logs[c], t);
    Step(s0, s, late, Event.Call(c, CMD));
    s' := Next(s, Event.Call(c, CMD));
    CommandEnds(logs[c], t);
    SelfIn(|logs|, c);
    assert s'.nodes[c].matched.Keys == Ids(|logs|);
    forall p: nat | p < |logs|
      ensures Plays(s'.nodes[p], t, logs[c := logs[c] + [Entry(t, |logs[c]| + 1, CMD)]][p], |logs|)
    {
      assert Plays(s.nodes[p], t, logs[p], |logs|);
    }
  }

  lemma SelfIn(n: nat, c: nat)
    requires c < n
    ensures Ids(n) + {c} == Ids(n)
  {
  }

  lemma CommandEnds(log: Log, t: nat)
    requires LaidOut(log)
    ensures LaidOut(log + [Entry(t, |log| + 1, CMD)])
  {
  }

  /** A message from position `prev` on makes `log` the leader's log. */
  predicate Fits(log: Log, leader: Log, prev: nat) {
    && prev < |leader| && prev <= |log| && log[..prev] == leader[..prev]
    && (|log| == prev || log[prev].term != leader[prev].term)
  }

  lemma FitsMerge(log: Log, leader: Log, prev: nat)
    requires Fits(log, leader, prev)
    ensures Merge(log, prev, leader[prev..]) == leader
    ensures prev > 0 ==> log[prev - 1] == leader[prev - 1]
  {
    MergeShape(log, prev, leader[prev..]);
    assert leader[..prev] + leader[prev..] == leader;
    assert prev > 0 ==> log[..prev][prev - 1] == leader[..prev][prev - 1];
  }

  /** A success reply of `v` to `c`, covering `len` entries, from term `t`. */
  predicate IsAck(r: AppendReply, c: nat, v: nat, t: nat, len: nat) {
    && r.success && r.term == t && r.request.term == t && r.request.leader == c && r.request.to == v
    && r.request.prev + |r.request.entries| == len
  }

  ghost predicate HasAck(s: Sys, c: nat, v: nat, t: nat, len: nat) {
    exists r :: r in s.net.appendReplies && IsAck(r, c, v, t, len)
  }

  /** A leader's message as the follower takes it in. */
  lemma Takes(x: Node, l: Node, c: nat, v: nat, prev: nat)
    requires LaidOut(x.log) && l.role.Leader? && l.commit == 0 && v in l.next && l.next[v] == prev + 1
    requires LaidOut(l.log) && Fits(x.log, l.log, prev) && (x.term < l.term || Follows(x, l.term))
    ensures MakeAppend(l, c, v).Some?
    ensures var r := MakeAppend(l, c, v).value; var (y, reply) := HandleAppend(x, r);
            && r.to == v && IsAck(reply, c, v, l.term, |l.log|)
            && Follows(y, l.term) && y.log == l.log && y.commit == x.commit && y.matched == x.matched
  {
    hide BecomeFollower, Merge, LaidOut, Fits;
    FollowerNow(x, l.term);
    FitsHere(x.log, l.log, prev);
    FitsMerge(x.log, l.log, prev);
    LogEnds(x.log, 0);
    LogEnds(l.log, 0);
  }

  lemma FitsHere(log: Log, leader: Log, prev: nat)
    requires Fits(log, leader, prev)
    ensures prev <= |log| && prev < |leader|
  {
  }

  lemma Ship(s0: Sys, s: Sys, late: nat, c: nat, v: nat, t: nat, logs: seq<Log>, prev: nat) returns (s': Sys)
    requires Reaches(s0, s, late) && Cast(s, t, logs) && Uncommitted(s) && c < |logs| && v < |logs| && c != v
    requires Heads(s.nodes[c], c, t, |logs|, |logs[c]|) && s.nodes[c].next[v] == prev + 1
    requires Fits(logs[v], logs[c], prev) && (s.nodes[v].term < t || Follows(s.nodes[v], t))
    ensures Reaches(s0, s', late) && Touches(s, s', {v}) && Uncommitted(s')
    ensures Cast(s', t, logs[v := logs[c]]) && Follows(s'.nodes[v], t) && HasAck(s', c, v, t, |logs[c]|)
  {
    hide Reaches, Ids, HandleAppend, MakeAppend, LaidOut, IsAck, Fits;
    assert Plays(s.nodes[c], t, logs[c], |logs|) && Plays(s.nodes[v], t, logs[v], |logs|);
    PeerCount(s, c);
    Takes(s.nodes[v], s.nodes[c], c, v, prev);
    var r := MakeAppend(s.nodes[c], c, v).value;
    Step(s0, s, late, Send(c, v));
    var s1 := Next(s, Send(c, v));
    Step(s0, s1, late, OnAppend(v, r));
    s' := Next(s1, OnAppend(v, r));
    assert HandleAppend(s.nodes[v], r).1 in s'.net.appendReplies;
    forall p: nat | p < |logs|
      ensures Plays(s'.nodes[p], t, logs[v := logs[c]][p], |logs|)
    {
      assert Plays(s.nodes[p], t, logs[p], |logs|);
    }
  }

  /** The logs after the members in `vs` have taken over the log of `c`. */
  function Copied(logs: seq<Log>, c: nat, vs: seq<nat>): seq<Log>
    requires c < |logs|
  {
    seq(|logs|, p requires 0 <= p < |logs| => if p in vs then logs[c] else logs[p])
  }

  ghost predicate Sent(s: Sys, s': Sys, c: nat, vs: seq<nat>, t: nat, logs: seq<Log>)
    requires c < |logs|
  {
    && Touches(s, s', Members(vs)) && Uncommitted(s') && Cast(s', t, Copied(logs, c, vs))
    && forall v: nat | v in vs :: v < |logs| && Follows(s'.nodes[v], t) && HasAck(s', c, v, t, |logs[c]|)
  }

  lemma {:induction false} ShipAll(
    s0: Sys, s: Sys, late: nat, c: nat, vs: seq<nat>, t: nat, logs: seq<Log>, prev: nat) returns (s': Sys)
    requires Reaches(s0, s, late) && Cast(s, t, logs) && Uncommitted(s) && c < |logs| && Others(vs, c, |logs|)
    requires Heads(s.nodes[c], c, t, |logs|, |logs[c]|)
    requires forall v: nat | v in vs :: s.nodes[c].next[v] == prev + 1 && Fits(logs[v], logs[c], prev)
                                     && (s.nodes[v].term < t || Follows(s.nodes[v], t))
    ensures Reaches(s0, s', late) && Sent(s, s', c, vs, t, logs)
    decreases |vs|
  {
    hide Reaches, Fits, IsAck, Heads, Plays;
    if vs == [] {
      s' := s;
      assert Copied(logs, c, vs) == logs;
    } else {
      var before, v := vs[..|vs| - 1], vs[|vs| - 1];
      OneLess(vs, c, |logs|);
      HeadsNext(s.nodes[c], c, t, |logs|, |logs[c]|);
      var s1 := ShipAll(s0, s, late, c, before, t, logs, prev);
      assert s1.nodes[v] == s.nodes[v] && s1.nodes[c] == s.nodes[c];
      var logs1 := Copied(logs, c, before);
      s' := Ship(s0, s1, late, c, v, t, logs1, prev);
      SentMore(s, s1, s', c, before, v, t, logs);
      assert vs == before + [v];
    }
  }

  lemma OneLess(vs: seq<nat>, c: nat, n: nat)
    requires Others(vs, c, n) && vs != []
    ensures var before, v := vs[..|vs| - 1], vs[|vs| - 1];
            Others(before, c, n) && v in vs && v < n && v != c && v !in before && forall w: nat | w in before :: w in vs
  {
    var before, v := vs[..|vs| - 1], vs[|vs| - 1];
    assert vs == before + [v];
    assert forall w: nat | w in before :: w in vs;
  }

  lemma HeadsNext(x: Node, c: nat, t: nat, n: nat, len: nat)
    requires Heads(x, c, t, n, len)
    ensures forall p: nat | p < n && p != c :: p in x.next
  {
  }

  lemma SentMore(s: Sys, s1: Sys, s': Sys, c: nat, vs: seq<nat>, v: nat, t: nat, logs: seq<Log>)
    requires c < |logs| && |s.nodes| == |logs| && v < |logs| && v != c && v !in vs && c !in vs
    requires Sent(s, s1, c, vs, t, logs) && Touches(s1, s', {v}) && Uncommitted(s')
    requires Cast(s', t, Copied(logs, c, vs)[v := logs[c]]) && Follows(s'.nodes[v], t)
    requires HasAck(s', c, v, t, |logs[c]|)
    ensures Sent(s, s', c, vs + [v], t, logs)
  {
    hide Cast, IsAck;
    assert Copied(logs, c, vs)[v := logs[c]] == Copied(logs, c, vs + [v]);
    forall w: nat | w in vs + [v]
      ensures w < |logs| && Follows(s'.nodes[w], t) && HasAck(s', c, w, t, |logs[c]|)
    {
      if w != v {
        assert w in vs;
        AckStays(s1, s', c, w, t, |logs[c]|);
      }
    }
  }

  lemma AckStays(s: Sys, s': Sys, c: nat, v: nat, t: nat, len: nat)
    requires HasAck(s, c, v, t, len) && s.net.appendReplies <= s'.net.appendReplies
    ensures HasAck(s', c, v, t, len)
  {
    hide IsAck;
    var r :| r in s.net.appendReplies && IsAck(r, c, v, t, len);
    assert r in s'.net.appendReplies;
  }

  // ----------------------------------------------------------------- acknowledgements

  /** A leader that counts the members in `who`, at least, as holding its whole log, and commits it once they suffice. */
  ghost predicate Counts(x: Node, t: nat, log: Log, n: nat, who: set<nat>) {
    && x.role.Leader? && x.term == t && x.log == log && LaidOut(log) && log != [] && log[|log| - 1].term == t
    && x.matched.Keys == Ids(n) && x.commit <= |log|
    && (forall p: nat | p in who :: p in x.matched && x.matched[p] >= |log|)
    && (|who| >= Majority(n) ==> x.commit == |log|)
  }

  lemma HeadsCounts(s: Sys, c: nat, t: nat, logs: seq<Log>)
    requires Cast(s, t, logs) && Uncommitted(s) && c < |logs| && |logs| > 1
    requires Heads(s.nodes[c], c, t, |logs|, |logs[c]|)
    ensures Counts(s.nodes[c], t, logs[c], |logs|, {c})
  {
    assert Plays(s.nodes[c], t, logs[c], |logs|);
  }

  /** What an acknowledgement, whatever term it is from, makes the leader count and commit. */
  lemma Counted(x: Node, t: nat, log: Log, n: nat, who: set<nat>, r: AppendReply, c: nat, v: nat, t0: nat, len: nat)
    requires Counts(x, t, log, n, who) && IsAck(r, c, v, t0, len) && t0 <= t && len >= |log| && v < n
    ensures Counts(HandleAppendReply(x, n, r), t, log, n, who + {v})
  {
    hide LaidOut, Ids, AdvanceFrom, RecordMatch;
    var x1 := RecordMatch(x, v, len);
    Recorded(x, n, v, len);
    LogEnds(log, 0);
    Advanced(x1, n, who + {v});
  }

  lemma Recorded(x: Node, n: nat, v: nat, len: nat)
    requires x.matched.Keys == Ids(n) && v < n
    ensures var x1 := RecordMatch(x, v, len);
            && x1 == x.(matched := x1.matched, next := x1.next) && x1.matched.Keys == Ids(n)
            && x1.matched[v] >= len && forall p: nat | p in x.matched :: x1.matched[p] >= x.matched[p]
  {
    SelfIn(n, v);
    var x1 := RecordMatch(x, v, len);
    assert x1.matched.Keys == x.matched.Keys + {v};
  }

  /** The commit loop takes the whole log, whose last entry is of the leader's term, once enough members hold it. */
  lemma Advanced(x: Node, n: nat, who: set<nat>)
    requires x.log != [] && x.log[|x.log| - 1].term == x.term && x.commit <= |x.log|
    requires forall p: nat | p in who :: p in x.matched && x.matched[p] >= |x.log|
    ensures x.commit <= AdvanceFrom(x, n, |x.log|) <= |x.log|
    ensures |who| >= Majority(n) ==> AdvanceFrom(x, n, |x.log|) == |x.log|
  {
    ClusterReplies.AdvanceSound(x, n, |x.log|);
    SubsetCount(who, Reached(x.matched, |x.log|));
  }

  lemma TakeAck(s0: Sys, s: Sys, late: nat, c: nat, v: nat, t: nat, log: Log, who: set<nat>, t0: nat, len: nat)
    returns (s': Sys)
    requires Reaches(s0, s, late) && c < |s.nodes| && v < |s.nodes| && Counts(s.nodes[c], t, log, |s.nodes|, who)
    requires HasAck(s, c, v, t0, len) && t0 <= t && len >= |log| && (t0 == t || !s0.h.trusted)
    ensures Reaches(s0, s', late + if t0 == t then 0 else 1) && Touches(s, s', {c})
    ensures Counts(s'.nodes[c], t, log, |s.nodes|, who + {v})
  {
    hide Reaches, LaidOut, Ids, HandleAppendReply;
    var r :| r in s.net.appendReplies && IsAck(r, c, v, t0, len);
    Counted(s.nodes[c], t, log, |s.nodes|, who, r, c, v, t0, len);
    Step(s0, s, late, OnAppendReply(c, r));
    s' := Next(s, OnAppendReply(c, r));
  }

  lemma {:induction false} TakeAcks(
    s0: Sys, s: Sys, late: nat, c: nat, vs: seq<nat>, t: nat, log: Log, who: set<nat>) returns (s': Sys)
    requires Reaches(s0, s, late) && c < |s.nodes| && Counts(s.nodes[c], t, log, |s.nodes|, who)
    requires forall v: nat | v in vs :: v < |s.nodes| && HasAck(s, c, v, t, |log|)
    ensures Reaches(s0, s', late) && Touches(s, s', {c})
    ensures Counts(s'.nodes[c], t, log, |s.nodes|, who + Members(vs))
    decreases |vs|
  {
    hide Reaches, Counts, IsAck;
    if vs == [] {
      s' := s;
      assert who + Members(vs) == who;
    } else {
      var before, v := vs[..|vs| - 1], vs[|vs| - 1];
      assert vs == before + [v];
      assert v in vs && forall w: nat | w in before :: w in vs;
      var s1 := TakeAcks(s0, s, late, c, before, t, log, who);
      AckStays(s, s1, c, v, t, |log|);
      s' := TakeAck(s0, s1, late, c, v, t, log, who + Members(before), t, |log|);
      assert who + Members(before) + {v} == who + Members(vs);
    }
  }
}
