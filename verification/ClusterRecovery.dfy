/**
 The cluster never gets stuck: from every reachable state, whatever has crashed, got lost or is out of step, and whoever
 is left out of what follows, any group of more than half of the nodes can elect a leader, bring its members up to date,
 and answer a client.
 */
module ClusterRecovery {
  import opened Wrappers
  import opened RaftLog
  import opened Quorums
  import opened RaftCore
  import opened RaftNode
  import opened Cluster
  import opened ClusterInv
  import opened ClusterSafety
  import opened ClientGuarantees
  import opened LateRuns
  import opened NodeDuties
  import Backtracking
  import ClusterAppends
  import ClusterClients
  import Kv = KvState

  // ------------------------------------------------------------------- the candidate

  /** Member `c` has the most up-to-date log of `q`. */
  ghost predicate BestOf(logs: seq<Log>, q: seq<nat>, c: nat) {
    && c in q && (forall v: nat | v in q :: v < |logs|)
    && forall v: nat | v in q :: UpToDate(LastIndex(logs[c]), LastTerm(logs[c]), logs[v])
  }

  lemma {:induction false} Best(logs: seq<Log>, q: seq<nat>) returns (c: nat)
    requires q != [] && forall v: nat | v in q :: v < |logs|
    ensures BestOf(logs, q, c)
  {
    var n := |q| - 1;
    assert q == q[..n] + [q[n]];
    c := q[n];
    assert c in q;
    if n > 0 {
      assert forall v: nat | v in q[..n] :: v in q;
      var b := Best(logs, q[..n]);
      if UpToDate(LastIndex(logs[b]), LastTerm(logs[b]), logs[c]) {
        c := b;
      }
    }
  }

  function MaxTerm(nodes: seq<Node>): (t: nat)
    ensures forall p: nat | p < |nodes| :: nodes[p].term <= t
  {
    if nodes == [] then 0
    else
      var n := |nodes| - 1;
      var t := MaxTerm(nodes[..n]);
      if t < nodes[n].term then nodes[n].term else t
  }

  /** A node that does not lead can stand again and again until its term is as high as one likes. */
  lemma {:induction false} Stands(s0: Sys, s: Sys, c: nat, t: nat) returns (s': Sys)
    requires Reaches(s0, s, 0) && c < |s.nodes| && !s.nodes[c].role.Leader? && s.nodes[c].term <= t
    requires LaidOut(s.nodes[c].log)
    ensures Reaches(s0, s', 0) && Touches(s, s', {c})
    ensures var x, y := s.nodes[c], s'.nodes[c];
            && y.term == t && !y.role.Leader? && y.log == x.log && y.matched == x.matched && SameService(x, y)
    decreases t - s.nodes[c].term
  {
    hide Reaches, LaidOut, Ids;
    s' := s;
    if s.nodes[c].term < t {
      var s1, r := Start(s0, s, 0, c);
      s' := Stands(s0, s1, c, t);
    }
  }

  /** A node that has just started over, however it got to its term and role since. */
  ghost predicate FreshService(x: Node) {
    && x.commit == 0 && x.lastApplied == 0 && x.queue == [] && x.resolving == None && x.applied == []
    && x.machine == Kv.EMPTY && x.calls == [] && x.waiters == map[]
  }

  lemma Restarts(s0: Sys, s: Sys, c: nat) returns (s': Sys)
    requires Reaches(s0, s, 0) && c < |s.nodes| && LaidOut(s.nodes[c].log)
    ensures Reaches(s0, s', 0) && Touches(s, s', {c}) && FreshService(s'.nodes[c])
    ensures var x, y := s.nodes[c], s'.nodes[c]; y.role.Follower? && y.term == x.term && y.log == x.log
    ensures s'.nodes[c].matched == map[]
  {
    hide Reaches, LaidOut;
    Step(s0, s, 0, Crash(c));
    s' := Next(s, Crash(c));
  }

  /** The others of a group. */
  lemma Rest(q: seq<nat>, c: nat, n: nat) returns (vs: seq<nat>)
    requires Distinct(q) && c in q && forall v: nat | v in q :: v < n
    ensures Others(vs, c, n) && |vs| + 1 == |q| && forall v: nat :: v in vs <==> v in q && v != c
  {
    var k :| 0 <= k < |q| && q[k] == c;
    vs := q[..k] + q[k + 1..];
    assert q == q[..k] + [c] + q[k + 1..];
    forall v: nat | v in vs ensures v in q && v != c {
      var i :| 0 <= i < |vs| && vs[i] == v;
      assert v == q[if i < k then i else i + 1];
    }
  }

  function LogsOf(nodes: seq<Node>): (logs: seq<Log>)
    ensures |logs| == |nodes| && forall p: nat | p < |nodes| :: logs[p] == nodes[p].log
  {
    seq(|nodes|, p requires 0 <= p < |nodes| => nodes[p].log)
  }

  lemma NodesPlay(s: Sys, p: nat, t: nat)
    requires Inv(s) && p < |s.nodes| && s.nodes[p].term <= t
    ensures Plays(s.nodes[p], t, s.nodes[p].log, |s.nodes|)
  {
    hide CoreInv, NetOk, ServiceOk, TallyOk, MemberOk;
    TheNode(s, p);
    forall k | k in s.nodes[p].matched.Keys ensures k in Ids(|s.nodes|) {}
  }

  /** What a won election leaves: a leader with a fresh service, and nobody of the group in a later term. */
  ghost predicate Elected(s: Sys, c: nat, vs: seq<nat>, log: Log) {
    && c < |s.nodes| && LaidOut(s.nodes[c].log) && FreshService(s.nodes[c])
    && var x := s.nodes[c];
    && x.role.Leader? && x.log == log + [Entry(x.term, |log| + 1, NOOP)]
    && c in x.matched && x.matched[c] >= |x.log|
    && forall v: nat | v in vs :: v < |s.nodes| && v in x.next && x.next[v] == |log| + 1 && s.nodes[v].term <= x.term
  }

  /** The member of the group with the best log restarts, stands until no term is ahead of its own, and wins. */
  lemma Elects(s: Sys, q: seq<nat>) returns (s': Sys, c: nat, vs: seq<nat>)
    requires Inv(s) && Distinct(q) && (forall v: nat | v in q :: v < |s.nodes|) && 2 * |q| > |s.nodes|
    ensures c in q && |vs| + 1 == |q| && Others(vs, c, |s.nodes|) && (forall v: nat :: v in vs <==> v in q && v != c)
    ensures Reaches(s, s', 0) && Touches(s, s', Members(q)) && Elected(s', c, vs, s.nodes[c].log)
  {
    hide Inv, Reaches, LaidOut, Ids, UpToDate, Heads;
    var logs, t := LogsOf(s.nodes), MaxTerm(s.nodes);
    c := Best(logs, q);
    vs := Rest(q, c, |s.nodes|);
    forall p: nat | p < |s.nodes| ensures Plays(s.nodes[p], t, logs[p], |logs|) { NodesPlay(s, p, t); }
    ReachesSelf(s);
    var s1 := Restarts(s, s, c);
    var s2 := Stands(s, s1, c, t);
    assert s2.nodes[c].matched.Keys == {};
    forall p: nat | p < |logs| ensures Plays(s2.nodes[p], t, logs[p], |logs|) {
      assert Plays(s.nodes[p], t, logs[p], |logs|);
    }
    s' := Win(s, s2, 0, c, vs, t, logs);
    assert Plays(s'.nodes[c], t + 1, logs[c] + [Entry(t + 1, |logs[c]| + 1, NOOP)], |logs|);
    HeadsTables(s'.nodes[c], c, t + 1, |logs|, |logs[c]| + 1);
    assert {c} + Members(vs) == Members(q);
  }

  lemma HeadsTables(x: Node, c: nat, t: nat, n: nat, len: nat)
    requires Heads(x, c, t, n, len)
    ensures x.role.Leader? && x.term == t && c in x.matched && x.matched[c] >= len
    ensures forall p: nat | p < n && p != c :: p in x.next
  {
  }

  // -------------------------------------------------------------- bringing up to date

  /** The leader waits with one call, for the last entry of its log, and has applied nothing in this life. */
  ghost predicate Serving(x: Node, log: Log, e: Entry) {
    && x.role.Leader? && x.log == log && log != [] && log[|log| - 1] == e && e.term == x.term && e.index == |log|
    && LaidOut(log) && x.commit <= |log| && Idle(x) && Waits(x, e)
  }

  ghost predicate Idle(x: Node) {
    x.lastApplied == 0 && x.queue == [] && x.resolving == None && x.applied == []
  }

  ghost predicate Waits(x: Node, e: Entry) {
    && x.calls == [RaftNode.Call(e, Waiting)]
    && x.waiters == map[e.index := Waiter(e.term, e.cmd.client, e.cmd.num, 0)]
  }

  /** The leader counts the members in `who` as holding its whole log, and has committed it if they are enough. */
  ghost predicate Heard(x: Node, n: nat, who: set<nat>) {
    && (forall p: nat | p in who :: p in x.matched && x.matched[p] >= |x.log|)
    && (2 * |who| > n && |who| > 1 ==> x.commit == |x.log|)
  }

  /** One message to a member and its answer, handled; it is heard, or its next index is lower. */
  lemma Exchange(s0: Sys, s: Sys, c: nat, v: nat, log: Log, e: Entry, who: set<nat>) returns (s': Sys)
    requires Inv(s) && Reaches(s0, s, 0) && c < |s.nodes| && v < |s.nodes| && v != c
    requires Serving(s.nodes[c], log, e) && Heard(s.nodes[c], |s.nodes|, who) && s.nodes[v].term <= s.nodes[c].term
    requires v in s.nodes[c].next && 1 <= s.nodes[c].next[v] <= |log| + 1
    ensures Reaches(s0, s', 0) && Touches(s, s', {c, v}) && s'.nodes[v].term == s.nodes[c].term
    ensures var x, y := s.nodes[c], s'.nodes[c];
            && Serving(y, log, e) && y.term == x.term && y.incarnation == x.incarnation
            && (forall p: nat | p != v && p in x.next :: p in y.next && y.next[p] == x.next[p])
            && (Heard(y, |s.nodes|, who + {v})
                || (Heard(y, |s.nodes|, who) && v in y.next && 1 <= y.next[v] < x.next[v]))
  {
    hide Inv, Reaches, LaidOut, HandleAppend, MakeAppend, HandleAppendReply, Heard, Serving, Backtracking.Rejects,
         Backtracking.Retry;
    var x, f, n := s.nodes[c], s.nodes[v], |s.nodes|;
    ServingFacts(x, log, e);
    InvLaidOut(s, v);
    Answers(x, f, c, v, n);
    var r := MakeAppend(x, c, v).value;
    var reply := HandleAppend(f, r).1;
    s' := Trip(s0, s, c, v, r);
    if reply.success {
      Hears(x, n, log, e, who, v, reply);
    } else {
      RetryInRange(s, c, v, x.next[v]);
      Retries(x, n, log, e, who, v, f.log, reply);
    }
  }

  lemma InvLaidOut(s: Sys, v: nat)
    requires Inv(s) && v < |s.nodes|
    ensures LaidOut(s.nodes[v].log)
  {
    TheNode(s, v);
  }

  /** What the follower answers to everything from its next index on. */
  lemma Answers(x: Node, f: Node, c: nat, v: nat, n: nat)
    requires x.role.Leader? && LaidOut(x.log) && LaidOut(f.log) && f.term <= x.term
    requires v in x.next && 1 <= x.next[v] <= |x.log| + 1
    ensures MakeAppend(x, c, v).Some?
    ensures var r := MakeAppend(x, c, v).value; var (g, reply) := HandleAppend(f, r);
            && r.to == v && r.leader == c && r.term == x.term && r.prev + |r.entries| == |x.log|
            && reply.request == r && g.term == reply.term == x.term
            && reply.success == !Backtracking.Rejects(x.log, f.log, x.next[v])
            && (!reply.success ==>
                  HandleAppendReply(x, n, reply)
                  == x.(next := x.next[v := Backtracking.Retry(x.log, f.log, x.next[v])]))
  {
    hide HandleAppend, HandleAppendReply, MakeAppend, LaidOut, Backtracking.Rejects;
    assert Backtracking.GrownFrom(x.log, x.log, x.term);
    Backtracking.HandlersBacktrack(x, x, c, v, f, n);
    ClusterAppends.Suffix(x, c, v);
    AppendAnswered(f, MakeAppend(x, c, v).value);
  }

  /** The message is sent, received and answered, and the answer is handled. */
  lemma Trip(s0: Sys, s: Sys, c: nat, v: nat, r: AppendRequest) returns (s': Sys)
    requires Reaches(s0, s, 0) && c < |s.nodes| && v < |s.nodes| && v != c
    requires LaidOut(s.nodes[c].log) && LaidOut(s.nodes[v].log)
    requires MakeAppend(s.nodes[c], c, v) == Some(r) && r.to == v && r.leader == c && r.term == s.nodes[c].term
    requires HandleAppend(s.nodes[v], r).1.request == r
    ensures Reaches(s0, s', 0) && Touches(s, s', {c, v})
    ensures s'.nodes[v] == HandleAppend(s.nodes[v], r).0
    ensures s'.nodes[c] == HandleAppendReply(s.nodes[c], |s.nodes|, HandleAppend(s.nodes[v], r).1)
  {
    hide Reaches, LaidOut, HandleAppend, MakeAppend, HandleAppendReply, Ids;
    var (g, reply) := HandleAppend(s.nodes[v], r);
    PeerCount(s, c);
    Step(s0, s, 0, Send(c, v));
    var s1 := Next(s, Send(c, v));
    assert s1.nodes == s.nodes;
    Step(s0, s1, 0, OnAppend(v, r));
    var s2 := Next(s1, OnAppend(v, r));
    assert reply in s2.net.appendReplies && s2.nodes[c] == s.nodes[c];
    Step(s0, s2, 0, OnAppendReply(c, reply));
    s' := Next(s2, OnAppendReply(c, reply));
  }

  lemma RetryInRange(s: Sys, c: nat, v: nat, next: nat)
    requires Inv(s) && c < |s.nodes| && v < |s.nodes| && 1 <= next <= |s.nodes[c].log| + 1
    requires Backtracking.Rejects(s.nodes[c].log, s.nodes[v].log, next)
    ensures 1 <= Backtracking.Retry(s.nodes[c].log, s.nodes[v].log, next) < next
  {
    hide Inv, Backtracking.Rejects, Backtracking.Retry, Backtracking.Common, Backtracking.Pair;
    PairUp(s, c, v);
    Backtracking.RetryProgress(s.nodes[c].log, s.nodes[v].log, s.h.ledgers, next);
  }

  lemma ServingFacts(x: Node, log: Log, e: Entry)
    requires Serving(x, log, e)
    ensures x.role.Leader? && x.log == log && LaidOut(log) && |log| >= 1 && LastIndex(log) == |log|
  {
  }

  lemma PairUp(s: Sys, c: nat, v: nat)
    requires Inv(s) && c < |s.nodes| && v < |s.nodes|
    ensures Backtracking.Pair(s.nodes[c].log, s.nodes[v].log, s.h.ledgers)
  {
    hide CoreInv, NetOk, NodeOk, Vouched;
    TheNode(s, c);
    TheNode(s, v);
  }

  lemma Hears(x: Node, n: nat, log: Log, e: Entry, who: set<nat>, v: nat, reply: AppendReply)
    requires Serving(x, log, e) && Heard(x, n, who)
    requires reply.success && reply.term <= x.term && reply.request.to == v
    requires reply.request.prev + |reply.request.entries| == |log|
    ensures var y := HandleAppendReply(x, n, reply);
            && Serving(y, log, e) && Heard(y, n, who + {v}) && y.term == x.term && y.incarnation == x.incarnation
            && forall p: nat | p != v && p in x.next :: p in y.next && y.next[p] == x.next[p]
  {
    hide HandleAppendReply, LaidOut;
    ServingFacts(x, log, e);
    AcknowledgementCounts(x, n, reply);
    var y := HandleAppendReply(x, n, reply);
    assert who + {v} <= Holding(x, reply, |log|);
    SubsetCount(who + {v}, Holding(x, reply, |log|));
    if 2 * |who + {v}| > n {
      assert Due(x, n, |log|, Holding(x, reply, |log|));
    }
  }

  lemma Retries(x: Node, n: nat, log: Log, e: Entry, who: set<nat>, v: nat, f: Log, reply: AppendReply)
    requires Serving(x, log, e) && Heard(x, n, who) && v in x.next && 1 <= x.next[v] <= |log| + 1
    requires Backtracking.Rejects(log, f, x.next[v]) && 1 <= Backtracking.Retry(log, f, x.next[v]) < x.next[v]
    requires HandleAppendReply(x, n, reply) == x.(next := x.next[v := Backtracking.Retry(log, f, x.next[v])])
    ensures var y := HandleAppendReply(x, n, reply);
            && Serving(y, log, e) && Heard(y, n, who) && y.term == x.term && y.incarnation == x.incarnation
            && (forall p: nat | p != v && p in x.next :: p in y.next && y.next[p] == x.next[p])
            && v in y.next && 1 <= y.next[v] < x.next[v]
  {
    hide HandleAppendReply, Backtracking.Rejects, Backtracking.Retry;
  }

  lemma ReachesInv(s0: Sys, s: Sys)
    requires Inv(s0) && Reaches(s0, s, 0)
    ensures Inv(s)
  {
    hide Inv, RunFrom, StateAfter, LateCount;
    var events :| RunFrom(s0, events) && StateAfter(s0, events) == s && LateCount(s0, events) == 0;
    RunKeeps(s0, events);
  }

  /** Message by message the member is brought up to date; the search for where its log departs always ends. */
  lemma {:induction false} CatchUp(s0: Sys, s: Sys, c: nat, v: nat, log: Log, e: Entry, who: set<nat>) returns (s': Sys)
    requires Inv(s0) && Reaches(s0, s, 0) && c < |s.nodes| && v < |s.nodes| && v != c
    requires Serving(s.nodes[c], log, e) && Heard(s.nodes[c], |s.nodes|, who) && s.nodes[v].term <= s.nodes[c].term
    requires v in s.nodes[c].next && 1 <= s.nodes[c].next[v] <= |log| + 1
    ensures Reaches(s0, s', 0) && Touches(s, s', {c, v})
    ensures var x, y := s.nodes[c], s'.nodes[c];
            && Serving(y, log, e) && y.term == x.term && y.incarnation == x.incarnation
            && (forall p: nat | p != v && p in x.next :: p in y.next && y.next[p] == x.next[p])
            && Heard(y, |s.nodes|, who + {v})
    decreases s.nodes[c].next[v]
  {
    hide Inv, Reaches, Serving, Heard;
    ReachesInv(s0, s);
    s' := Exchange(s0, s, c, v, log, e, who);
    if !Heard(s'.nodes[c], |s.nodes|, who + {v}) {
      s' := CatchUp(s0, s', c, v, log, e, who);
    }
  }

  lemma {:induction false} CatchUpAll(s0: Sys, s: Sys, c: nat, vs: seq<nat>, log: Log, e: Entry) returns (s': Sys)
    requires Inv(s0) && Reaches(s0, s, 0) && c < |s.nodes| && Others(vs, c, |s.nodes|)
    requires Serving(s.nodes[c], log, e) && Heard(s.nodes[c], |s.nodes|, {c})
    requires forall v: nat | v in vs :: v in s.nodes[c].next && 1 <= s.nodes[c].next[v] <= |log| + 1
                                     && s.nodes[v].term <= s.nodes[c].term
    ensures Reaches(s0, s', 0) && Touches(s, s', {c} + Members(vs))
    ensures var x, y := s.nodes[c], s'.nodes[c];
            && Serving(y, log, e) && y.term == x.term && y.incarnation == x.incarnation
            && (forall p: nat | p !in vs && p in x.next :: p in y.next && y.next[p] == x.next[p])
            && Heard(y, |s.nodes|, {c} + Members(vs))
    decreases |vs|
  {
    hide Reaches, Serving, Heard, Inv;
    if vs == [] {
      s' := s;
      assert {c} + Members(vs) == {c};
    } else {
      var before, v := vs[..|vs| - 1], vs[|vs| - 1];
      OneLess(vs, c, |s.nodes|);
      var s1 := CatchUpAll(s0, s, c, before, log, e);
      assert s1.nodes[v] == s.nodes[v];
      s' := CatchUp(s0, s1, c, v, log, e, {c} + Members(before));
      assert vs == before + [v];
      assert {c} + Members(before) + {v} == {c} + Members(vs);
    }
  }

  lemma {:induction false} MembersCount(vs: seq<nat>, c: nat)
    requires Distinct(vs) && c !in vs
    ensures |{c} + Members(vs)| == |vs| + 1
  {
    if vs == [] {
      assert {c} + Members(vs) == {c};
    } else {
      var before, v := vs[..|vs| - 1], vs[|vs| - 1];
      assert vs == before + [v];
      MembersCount(before, c);
      assert {c} + Members(vs) == {c} + Members(before) + {v};
    }
  }

  // ------------------------------------------------------------------------ applying

  /** The whole log is committed and taken, the first `k` entries are applied, and the call is answered at the end. */
  ghost predicate Applying(x: Node, log: Log, e: Entry, k: nat) {
    && x.log == log && LaidOut(log) && log != [] && log[|log| - 1] == e && e.index == |log| && k <= |log|
    && x.resolving == None && |x.queue| == |log| - k
    && (forall j: nat | j < |x.queue| :: x.queue[j] == (k + j + 1, log[k + j]))
    && (if k < |log| then Waits(x, e) else |x.calls| == 1 && x.calls[0].entry == e && x.calls[0].outcome.Answered?)
  }

  lemma TakesAll(x: Node, log: Log, e: Entry)
    requires Serving(x, log, e) && x.commit == |log|
    ensures Applying(TakeBatch(x), log, e, 0) && TakeBatch(x).incarnation == x.incarnation
  {
    ClusterClients.BatchShape(log, 0, |log|);
  }

  lemma AppliesOne(x: Node, log: Log, e: Entry, k: nat, max: nat)
    requires Applying(x, log, e, k) && k < |log|
    ensures x.queue != [] && ApplyNext(x, max).resolving.Some? && ApplyNext(x, max).log == log
    ensures Applying(Resolve(ApplyNext(x, max)), log, e, k + 1)
    ensures Resolve(ApplyNext(x, max)).incarnation == x.incarnation
  {
    var y, z := ApplyNext(x, max), Resolve(ApplyNext(x, max));
    assert x.queue[0] == (k + 0 + 1, log[k + 0]);
    assert y.resolving.value.index == k + 1 && y.resolving.value.entry == log[k];
    forall j: nat | j < |z.queue| ensures z.queue[j] == (k + 1 + j + 1, log[k + 1 + j]) {
      assert x.queue[j + 1] == (k + (j + 1) + 1, log[k + (j + 1)]);
    }
  }

  lemma {:induction false} Applies(s0: Sys, s: Sys, c: nat, log: Log, e: Entry, k: nat) returns (s': Sys)
    requires Reaches(s0, s, 0) && c < |s.nodes| && Applying(s.nodes[c], log, e, k)
    ensures Reaches(s0, s', 0) && Touches(s, s', {c}) && Applying(s'.nodes[c], log, e, |log|)
    ensures s'.nodes[c].incarnation == s.nodes[c].incarnation
    decreases |log| - k
  {
    hide Reaches, ApplyNext, Resolve, Waits;
    s' := s;
    if k < |log| {
      AppliesOne(s.nodes[c], log, e, k, s.max);
      Step(s0, s, 0, ApplyOne(c));
      var s1 := Next(s, ApplyOne(c));
      Step(s0, s1, 0, Notify(c));
      var s2 := Next(s1, Notify(c));
      s' := Applies(s0, s2, c, log, e, k + 1);
    }
  }

  // -------------------------------------------------------------------- the whole run

  /** The elected leader takes the client's entry. */
  lemma Calls(s: Sys, c: nat, vs: seq<nat>, log: Log, cmd: Kv.Command)
    requires Elected(s, c, vs, log)
    ensures Enabled(s, Event.Call(c, cmd))
    ensures var s', x := Next(s, Event.Call(c, cmd)), s.nodes[c];
            var y := s'.nodes[c]; var e := Entry(x.term, |x.log| + 1, cmd);
            && s'.nodes == s.nodes[c := y] && Serving(y, x.log + [e], e) && Heard(y, |s.nodes|, {c})
            && y.term == x.term && y.incarnation == x.incarnation
            && forall v: nat | v in vs && v != c :: v in y.next && 1 <= y.next[v] <= |y.log| + 1
  {
    assert LastIndex(s.nodes[c].log) == |s.nodes[c].log|;
  }

  /** From a fresh leader on, the call is answered. */
  lemma Serves(s: Sys, c: nat, vs: seq<nat>, log: Log, e: Entry) returns (s': Sys)
    requires Inv(s) && c < |s.nodes| && Others(vs, c, |s.nodes|) && vs != [] && 2 * (|vs| + 1) > |s.nodes|
    requires Serving(s.nodes[c], log, e) && Heard(s.nodes[c], |s.nodes|, {c})
    requires forall v: nat | v in vs :: v in s.nodes[c].next && 1 <= s.nodes[c].next[v] <= |log| + 1
                                     && s.nodes[v].term <= s.nodes[c].term
    ensures Reaches(s, s', 0) && Touches(s, s', {c} + Members(vs))
    ensures var y := s'.nodes[c];
            && y.incarnation == s.nodes[c].incarnation && |y.calls| == 1 && y.calls[0].outcome.Answered?
  {
    hide Inv, Reaches, TakeBatch, LaidOut;
    ReachesSelf(s);
    var s1 := CatchUpAll(s, s, c, vs, log, e);
    MembersCount(vs, c);
    TakesAll(s1.nodes[c], log, e);
    Step(s, s1, 0, Take(c));
    var s2 := Next(s1, Take(c));
    s' := Applies(s, s2, c, log, e, 0);
  }

  /** In `s`, the group `q` can elect a leader among them that then answers `cmd`, while everybody else stands still. */
  ghost predicate CanServe(s: Sys, q: seq<nat>, cmd: Kv.Command) {
    exists before: seq<Event>, c: nat, events: seq<Event> :: ServedBy(s, q, cmd, before, c, events)
  }

  ghost predicate ServedBy(s: Sys, q: seq<nat>, cmd: Kv.Command, before: seq<Event>, c: nat, events: seq<Event>) {
    && RunFrom(s, before) && c in q && Returns(StateAfter(s, before), c, cmd, events)
    && var s' := Afterwards(StateAfter(s, before), c, cmd, events);
    && |s'.nodes| == |s.nodes| && forall p: nat | p < |s.nodes| :: p in q || s'.nodes[p] == s.nodes[p]
  }

  /** Any group of more than half of the nodes, and of two at least, can serve a client, from every reachable state. */
  lemma MajorityServes(s: Sys, q: seq<nat>, cmd: Kv.Command)
    requires Reachable(s) && Distinct(q) && (forall v: nat | v in q :: v < |s.nodes|)
    requires |q| >= 2 && 2 * |q| > |s.nodes|
    ensures CanServe(s, q, cmd)
  {
    hide Inv, Reachable, Reaches, Serving, Heard, LaidOut;
    ReachableInv(s);
    var s1, c, vs := Elects(s, q);
    ReachesInv(s, s1);
    Calls(s1, c, vs, s.nodes[c].log, cmd);
    var s2 := Next(s1, Event.Call(c, cmd));
    CallKeepsInv(s1, c, cmd);
    var e := Entry(s1.nodes[c].term, |s1.nodes[c].log| + 1, cmd);
    var s3 := Serves(s2, c, vs, s1.nodes[c].log + [e], e);
    Packs(s, s1, s2, s3, q, c, vs, cmd);
  }

  lemma CallKeepsInv(s: Sys, c: nat, cmd: Kv.Command)
    requires Inv(s) && Enabled(s, Event.Call(c, cmd))
    ensures Inv(Next(s, Event.Call(c, cmd)))
  {
    hide Inv;
    StepKeeps(s, Event.Call(c, cmd));
  }

  lemma Packs(s: Sys, s1: Sys, s2: Sys, s3: Sys, q: seq<nat>, c: nat, vs: seq<nat>, cmd: Kv.Command)
    requires Reaches(s, s1, 0) && Touches(s, s1, Members(q)) && c in q && c < |s1.nodes|
    requires s1.nodes[c].calls == []
    requires Enabled(s1, Event.Call(c, cmd)) && s2 == Next(s1, Event.Call(c, cmd))
    requires s2.nodes == s1.nodes[c := s2.nodes[c]] && s2.nodes[c].incarnation == s1.nodes[c].incarnation
    requires Reaches(s2, s3, 0) && Touches(s2, s3, {c} + Members(vs)) && forall v: nat :: v in vs <==> v in q && v != c
    requires var y := s3.nodes[c];
             && y.incarnation == s2.nodes[c].incarnation && |y.calls| == 1 && y.calls[0].outcome.Answered?
    ensures CanServe(s, q, cmd)
  {
    hide RunFrom, StateAfter, LateCount, Enabled, Next;
    var before :| RunFrom(s, before) && StateAfter(s, before) == s1 && LateCount(s, before) == 0;
    var events :| RunFrom(s2, events) && StateAfter(s2, events) == s3 && LateCount(s2, events) == 0;
    assert Returns(s1, c, cmd, events);
    assert ServedBy(s, q, cmd, before, c, events);
  }

  // ------------------------------------------------------------- exactly when it can

  /** A node on its own never hears an acknowledgement, and so never commits. */
  ghost predicate Alone(s: Sys) {
    && |s.nodes| <= 1 && s.net.appends == {} && s.net.appendReplies == {}
    && forall p: nat | p < |s.nodes| :: s.nodes[p].commit == 0
  }

  lemma StaysAlone(s: Sys, e: Event)
    requires Alone(s) && Enabled(s, e)
    ensures Alone(Next(s, e))
  {
    hide NodeAfter;
    OneNode(s, e);
    AloneNet(s, e);
    AloneNode(s, e);
  }

  lemma AloneNet(s: Sys, e: Event)
    requires Alone(s) && Enabled(s, e)
    ensures !e.OnAppend? && !e.OnAppendReply? && !e.Send?
    ensures Next(s, e).net.appends == {} && Next(s, e).net.appendReplies == {}
  {
    hide StartElection, HandleVoteRequest, HandleVoteReply, DecideElection, HandleAppend, HandleAppendReply, Append,
         GiveUp, TakeBatch, ApplyNext, Resolve, CrashRestart, LaidOut, MakeAppend;
  }

  /** Only messages of a leader and answers to them move a commit index. */
  lemma AloneNode(s: Sys, e: Event)
    requires Enabled(s, e) && !e.OnAppend? && !e.OnAppendReply? && s.nodes[e.i].commit == 0
    ensures NodeAfter(s, e).commit == 0
  {
    hide FailCalls, Reset, Batch, LaidOut, UpToDate, Pending, Ids;
  }

  lemma {:induction false} RunsAlone(s: Sys, events: seq<Event>)
    requires Alone(s) && RunFrom(s, events)
    ensures Alone(StateAfter(s, events))
    decreases |events|
  {
    hide Alone, Enabled, Next, Allowed;
    if events != [] {
      StaysAlone(s, events[0]);
      RunsAlone(Next(s, events[0]), events[1..]);
    }
  }

  lemma NobodyServed(s: Sys, q: seq<nat>, cmd: Kv.Command)
    requires Reachable(s) && s.h.trusted && Alone(s)
    ensures !CanServe(s, q, cmd)
  {
    hide Inv, Reachable, RunFrom, StateAfter, Alone, Enabled, Next;
    if CanServe(s, q, cmd) {
      var before, c, events :| ServedBy(s, q, cmd, before, c, events);
      var s1 := StateAfter(s, before);
      ReachableAfter(s, before);
      RunsAlone(s, before);
      StaysAlone(s1, Event.Call(c, cmd));
      RunsAlone(Next(s1, Event.Call(c, cmd)), events);
      BehindCommitted(s1, c, cmd, events);
      var s' := Afterwards(s1, c, cmd, events);
      AfterReachable(s1, c, cmd, events);
      NothingSkipped(s', c);
      AloneCommit(s', c);
    }
  }

  lemma AfterReachable(s: Sys, c: nat, cmd: Kv.Command, events: seq<Event>)
    requires Reachable(s) && s.h.trusted && Returns(s, c, cmd, events)
    ensures Inv(Afterwards(s, c, cmd, events)) && Afterwards(s, c, cmd, events).h.trusted
  {
    hide Inv, Reachable, RunFrom, StateAfter;
    ReachableInv(s);
    StepKeeps(s, Event.Call(c, cmd));
    StepRemembers(s, Event.Call(c, cmd));
    RunKeeps(Next(s, Event.Call(c, cmd)), events);
    RunRemembers(Next(s, Event.Call(c, cmd)), events);
  }

  lemma AloneCommit(s: Sys, c: nat)
    requires Alone(s) && c < |s.nodes|
    ensures s.nodes[c].commit == 0
  {
  }

  /**
   The cluster can always serve a client again, in every reachable state and for every group of more than half of its
   nodes, if and only if it has two nodes or more.  A single node elects itself, but as nobody acknowledges anything to
   it, it never commits.
   */
  lemma AlwaysServesIff(n: nat)
    requires n > 0
    ensures n >= 2 <==>
              forall max: nat, timely: bool, events: seq<Event>, s: Sys, q: seq<nat>, cmd: Kv.Command ::
                RunsTo(n, max, timely, events, s) && Distinct(q) && (forall v: nat | v in q :: v < n) && 2 * |q| > n ==>
                  CanServe(s, q, cmd)
  {
    hide RunsTo, CanServe, Distinct;
    if n >= 2 {
      forall max: nat, timely: bool, events: seq<Event>, s: Sys, q: seq<nat>, cmd: Kv.Command |
        RunsTo(n, max, timely, events, s) && Distinct(q) && (forall v: nat | v in q :: v < n) && 2 * |q| > n
        ensures CanServe(s, q, cmd)
      {
        SameSize(n, max, timely, events, s);
        assert Reachable(s);
        MajorityServes(s, q, cmd);
      }
    } else {
      OneNodeStarts();
      NobodyServed(Init(1, 1, true), [0], CMD);
    }
  }

  lemma SameSize(n: nat, max: nat, timely: bool, events: seq<Event>, s: Sys)
    requires RunsTo(n, max, timely, events, s)
    ensures |s.nodes| == n
  {
    hide Inv, RunFrom, StateAfter;
    InitInv(n, max, timely);
    RunRemembers(Init(n, max, timely), events);
  }

  lemma OneNodeStarts()
    ensures var s := Init(1, 1, true);
            && RunsTo(1, 1, true, [], s) && Reachable(s) && s.h.trusted && Alone(s)
            && Distinct([0]) && (forall v: nat | v in [0] :: v < 1)
  {
    assert RunsTo(1, 1, true, [], Init(1, 1, true));
  }
}
