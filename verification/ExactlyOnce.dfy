/** Exactly-once writes across failovers: the session table composed with the replicated log. */
module ExactlyOnce {
  import opened Wrappers
  import opened RaftLog
  import opened RaftNode
  import opened Cluster
  import opened ClusterInv
  import opened ClusterSafety
  import opened ClientGuarantees
  import opened RaftCore
  import Kv = KvState
  import KvVersions
  import KvSessions
  import KvDedup

  /** The commands a replica runs when it applies `entries`. */
  function Commands(entries: seq<Entry>): seq<Kv.Command> {
    if entries == [] then []
    else
      var n := |entries| - 1;
      Commands(entries[..n]) + (if entries[n].cmd.op.Noop? then [] else [entries[n].cmd])
  }

  /** A replica that applied some entries is a state machine that ran their commands. */
  lemma {:induction false} ReplayRunsCommands(max: nat, entries: seq<Entry>)
    ensures Replay(max, entries) == Kv.ApplyAll(Kv.EMPTY, max, Commands(entries))
  {
    if entries != [] {
      var n := |entries| - 1;
      ReplayRunsCommands(max, entries[..n]);
      var before := Commands(entries[..n]);
      assert (before + [entries[n].cmd])[..|before|] == before;
      assert before + [] == before;
    }
  }

  lemma {:induction false} CommandsPrefix(entries: seq<Entry>, k: nat)
    requires k <= |entries|
    ensures |Commands(entries[..k])| <= |Commands(entries)|
    ensures Commands(entries[..k]) == Commands(entries)[..|Commands(entries[..k])|]
  {
    if k == |entries| {
      assert entries[..k] == entries;
    } else {
      var n := |entries| - 1;
      CommandsPrefix(entries[..n], k);
      assert entries[..n][..k] == entries[..k];
    }
  }

  /** Where entry `k`'s command stands among the commands. */
  function Place(entries: seq<Entry>, k: nat): nat
    requires k <= |entries|
  {
    |Commands(entries[..k])|
  }

  /** Entry `k` is the command at its place, and its result is that command's answer there. */
  lemma PlaceOf(max: nat, entries: seq<Entry>, k: nat)
    requires k < |entries| && !entries[k].cmd.op.Noop?
    ensures Place(entries, k) < |Commands(entries)| && Commands(entries)[Place(entries, k)] == entries[k].cmd
    ensures ResultAt(max, entries, k) == Some(KvDedup.AnswerAt(max, Commands(entries), Place(entries, k)))
    ensures Replay(max, entries[..k]) == KvVersions.StateAt(Kv.EMPTY, max, Commands(entries), Place(entries, k))
  {
    CommandsPrefix(entries, k + 1);
    CommandsPrefix(entries, k);
    assert entries[..k + 1][..k] == entries[..k];
    ReplayRunsCommands(max, entries[..k]);
  }

  lemma PlacesApart(entries: seq<Entry>, a: nat, b: nat)
    requires a < b < |entries| && !entries[a].cmd.op.Noop?
    ensures Place(entries, a) < Place(entries, b)
  {
    CommandsPrefix(entries[..b], a + 1);
    assert entries[..b][..a + 1] == entries[..a + 1];
    assert entries[..a + 1][..a] == entries[..a];
  }

  /** Committed entries `a` and `b` carry the same tracked client request. */
  predicate Copies(d: Log, a: nat, b: nat)
    requires a < |d| && b < |d|
  {
    && !d[a].cmd.op.Noop? && !d[b].cmd.op.Noop?
    && Kv.Tracked(d[a].cmd) && d[a].cmd.client == d[b].cmd.client && d[a].cmd.num == d[b].cmd.num
  }

  /** How many other clients have had a request executed between committed entries `a` and `b`. */
  function OthersSince(max: nat, d: Log, a: nat, b: nat): nat
    requires a < b < |d| && !d[a].cmd.op.Noop?
  {
    PlacesApart(d, a, b);
    CommandsPrefix(d, b);
    |KvSessions.OthersBetween(Kv.EMPTY, max, Commands(d), d[a].cmd.client, Place(d, a), Place(d, b))|
  }

  /** The client of committed entry `a` has had a newer request executed before committed entry `b`. */
  predicate NewerSince(max: nat, d: Log, a: nat, b: nat)
    requires a < b < |d| && !d[a].cmd.op.Noop?
  {
    PlacesApart(d, a, b);
    CommandsPrefix(d, b);
    PlaceOf(max, d, a);
    KvSessions.MovedOn(Kv.EMPTY, max, Commands(d), Place(d, a), Place(d, b))
  }

  /**
   A request is executed at most once within its client's window: a later committed copy of an executed request, on
   whatever leader and in whatever term it was appended, runs against the store only if at least as many other
   clients as the table remembers have executed since; and, as long as the client has not moved on, exactly then.
   */
  lemma CommittedOnce(s: Sys, a: nat, b: nat)
    requires a < b < |s.h.decided| && Copies(s.h.decided, a, b)
    requires Kv.Executes(Replay(s.max, s.h.decided[..a]), s.h.decided[a].cmd)
    ensures var again := Kv.Executes(Replay(s.max, s.h.decided[..b]), s.h.decided[b].cmd);
            && (again ==> OthersSince(s.max, s.h.decided, a, b) >= s.max)
            && (!NewerSince(s.max, s.h.decided, a, b) ==> (again <==> OthersSince(s.max, s.h.decided, a, b) >= s.max))
  {
    hide Replay, ResultAt, Commands;
    var d := s.h.decided;
    PlaceOf(s.max, d, a);
    PlaceOf(s.max, d, b);
    PlacesApart(d, a, b);
    var p, q := Place(d, a), Place(d, b);
    if OthersSince(s.max, d, a, b) < s.max {
      KvSessions.RetryAnswered(s.max, Commands(d), p, q);
    } else if !NewerSince(s.max, d, a, b) {
      KvSessions.RecognisedIffRecent(s.max, Commands(d), p, q);
    }
  }

  /**
   The client of a request is not evicted between the request and its committed retries: behind an executed copy,
   every further copy is committed while fewer than `max` other clients have executed.
   */
  predicate RetriedInTime(s: Sys, client: string, num: int) {
    KvDedup.RetriedInTime(s.max, Commands(s.h.decided), client, num)
  }

  /** The client has moved on: a newer request of it than number `num` is committed and was executed. */
  predicate NewerRan(s: Sys, client: string, num: int) {
    KvDedup.NewerBefore(s.max, Commands(s.h.decided), |Commands(s.h.decided)|, client, num)
  }

  lemma CommittedCopies(s: Sys, a: nat, b: nat)
    requires a < |s.h.decided| && b < |s.h.decided| && Copies(s.h.decided, a, b)
    requires RetriedInTime(s, s.h.decided[a].cmd.client, s.h.decided[a].cmd.num)
    ensures var ra, rb := ResultAt(s.max, s.h.decided, a), ResultAt(s.max, s.h.decided, b);
            && (ra == rb || ra == Some(Kv.Stale) || rb == Some(Kv.Stale))
            && (ra == Some(Kv.Stale) || rb == Some(Kv.Stale) ==>
                  NewerRan(s, s.h.decided[a].cmd.client, s.h.decided[a].cmd.num))
  {
    hide Replay, ResultAt, Commands;
    var d := s.h.decided;
    PlaceOf(s.max, d, a);
    PlaceOf(s.max, d, b);
    KvDedup.CopiesAgree(s.max, Commands(d), Place(d, a), Place(d, b));
  }

  /**
   Retries agree: whenever two calls with the same client and sequence number return normally, on any two nodes and at
   any two times of a run, and the client was not evicted in between, they return one result, that of the one executed
   copy.  A call returns "stale" instead only if the client has moved on to a newer request; so as long as the request
   is the client's latest, every retry returns the first result.
   */
  lemma RetriesAgree(s: Sys, events: seq<Event>, i: nat, k: nat, j: nat, l: nat)
    requires Reachable(s) && s.h.trusted && RunFrom(s, events)
    requires i < |s.nodes| && k < |s.nodes[i].calls| && s.nodes[i].calls[k].outcome.Answered?
    requires var s' := StateAfter(s, events);
             j < |s'.nodes| && l < |s'.nodes[j].calls| && s'.nodes[j].calls[l].outcome.Answered?
    requires var c, c' := s.nodes[i].calls[k].entry.cmd, StateAfter(s, events).nodes[j].calls[l].entry.cmd;
             && Kv.Tracked(c) && c.client == c'.client && c.num == c'.num && !c.op.Noop? && !c'.op.Noop?
             && RetriedInTime(StateAfter(s, events), c.client, c.num)
    ensures var call, call' := s.nodes[i].calls[k], StateAfter(s, events).nodes[j].calls[l];
            var r, r' := call.outcome.result, call'.outcome.result;
            && (r == r' || r == Some(Kv.Stale) || r' == Some(Kv.Stale))
            && (r == Some(Kv.Stale) || r' == Some(Kv.Stale) ==>
                  NewerRan(StateAfter(s, events), call.entry.cmd.client, call.entry.cmd.num))
  {
    hide Inv, Reachable, RunFrom, StateAfter, ResultAt, RetriedInTime, NewerRan, Remembers;
    var s' := StateAfter(s, events);
    ReachableAfter(s, events);
    ReachableInv(s');
    AnsweredLater(s, events, i, k);
    AnsweredNow(s', j, l);
    CommittedCopies(s', s.nodes[i].calls[k].entry.index - 1, s'.nodes[j].calls[l].entry.index - 1);
  }

  lemma AnsweredLater(s: Sys, events: seq<Event>, i: nat, k: nat)
    requires Reachable(s) && s.h.trusted && RunFrom(s, events) && i < |s.nodes| && k < |s.nodes[i].calls|
    requires s.nodes[i].calls[k].outcome.Answered?
    ensures var call, s' := s.nodes[i].calls[k], StateAfter(s, events);
            && s'.max == s.max
            && 0 < call.entry.index <= |s'.h.decided| && s'.h.decided[call.entry.index - 1] == call.entry
            && call.outcome.result == ResultAt(s.max, s'.h.decided, call.entry.index - 1)
  {
    hide Inv, Reachable, RunFrom, StateAfter, ResultAt;
    NoFalseSuccess(s, events, i, k);
    ReachableInv(s);
    RunRemembers(s, events);
  }

  lemma AnsweredNow(s: Sys, j: nat, l: nat)
    requires Inv(s) && s.h.trusted && j < |s.nodes| && l < |s.nodes[j].calls| && s.nodes[j].calls[l].outcome.Answered?
    ensures var call := s.nodes[j].calls[l];
            && 0 < call.entry.index <= |s.h.decided| && s.h.decided[call.entry.index - 1] == call.entry
            && call.outcome.result == ResultAt(s.max, s.h.decided, call.entry.index - 1)
  {
    hide CoreInv, NetOk;
    TheNode(s, j);
    AppliedIsDecided(s, j);
    assert AnswerOk(s.nodes[j], s.max, l);
    var at := s.nodes[j].calls[l].entry.index;
    assert s.nodes[j].applied[..at - 1] == s.h.decided[..at - 1];
  }

  /**
   A session lookup, on any node at any time, answers a request only if some committed copy of it, or of a newer
   request of the client, was executed; and then with that copy's own result, or "stale" for a newer one.
   */
  lemma LookupIsCommitted(s: Sys, i: nat, client: string, num: int) returns (p: nat)
    requires Reachable(s) && s.h.trusted && i < |s.nodes|
    requires Kv.LookupSession(s.nodes[i].machine.sessions, client, num).Some?
    ensures var cmds := Commands(s.h.decided);
            && p < |Commands(s.nodes[i].applied)| <= |cmds|
            && KvSessions.ExecutedAt(Kv.EMPTY, s.max, cmds, p)
            && cmds[p].client == client && cmds[p].num >= num
            && Kv.LookupSession(s.nodes[i].machine.sessions, client, num).value
            == if cmds[p].num == num then KvDedup.AnswerAt(s.max, cmds, p) else Kv.Stale
  {
    hide Inv, Reachable;
    ReachableInv(s);
    MachineState(s, i);
    AppliedIsDecided(s, i);
    CommandsPrefix(s.h.decided, |s.nodes[i].applied|);
    ReplayRunsCommands(s.max, s.nodes[i].applied);
    p := KvDedup.LookupIsAnAnswer(s.max, Commands(s.h.decided), |Commands(s.nodes[i].applied)|, client, num);
  }

  lemma MachineState(s: Sys, i: nat)
    requires Inv(s) && s.h.trusted && i < |s.nodes|
    ensures s.nodes[i].machine == Replay(s.max, s.nodes[i].applied)
  {
    TheNode(s, i);
  }

  // ------------------------------------------------- every acknowledgement there is

  /** Some node would answer the request from its session table. */
  ghost predicate AnsweredByTable(s: Sys, i: nat, client: string, num: int, r: Kv.Result) {
    i < |s.nodes| && Kv.LookupSession(s.nodes[i].machine.sessions, client, num) == Some(r)
  }

  /** Some call for the request has returned normally. */
  ghost predicate AnsweredByCall(s: Sys, i: nat, k: nat, client: string, num: int, r: Kv.Result) {
    && i < |s.nodes| && k < |s.nodes[i].calls| && s.nodes[i].calls[k].outcome == Answered(Some(r))
    && s.nodes[i].calls[k].entry.cmd.client == client && s.nodes[i].calls[k].entry.cmd.num == num
  }

  /** The two ways a server acknowledges a write. */
  ghost predicate Acknowledged(s: Sys, client: string, num: int, r: Kv.Result) {
    || (exists i: nat :: AnsweredByTable(s, i, client, num, r))
    || (exists i: nat, k: nat :: AnsweredByCall(s, i, k, client, num, r))
  }

  /**
   Behind an acknowledgement is a committed request of the client that ran: the request itself, with this very
   result; or, if the acknowledgement is "stale", a newer one.
   */
  lemma AcknowledgedRan(s: Sys, client: string, num: int, r: Kv.Result) returns (p: nat)
    requires Reachable(s) && s.h.trusted && client != "" && num > 0 && Acknowledged(s, client, num, r)
    ensures var cmds := Commands(s.h.decided);
            && p < |cmds| && KvSessions.ExecutedAt(Kv.EMPTY, s.max, cmds, p) && cmds[p].client == client
            && (r == Kv.Stale ==> cmds[p].num > num && NewerRan(s, client, num))
            && (r != Kv.Stale ==> cmds[p].num == num && r == KvDedup.AnswerAt(s.max, cmds, p))
  {
    hide Inv, Reachable, ResultAt, Commands;
    var cmds := Commands(s.h.decided);
    if i: nat :| AnsweredByTable(s, i, client, num, r) {
      p := LookupIsCommitted(s, i, client, num);
      KvDedup.RanNotStale(s.max, cmds, p);
    } else {
      var i: nat, k: nat :| AnsweredByCall(s, i, k, client, num, r);
      ReachableInv(s);
      AnsweredNow(s, i, k);
      var a := s.nodes[i].calls[k].entry.index - 1;
      NoResultForNoop(s.max, s.h.decided, a);
      PlaceOf(s.max, s.h.decided, a);
      p := KvDedup.AnswerSource(s.max, cmds, Place(s.h.decided, a));
    }
  }

  lemma NoResultForNoop(max: nat, d: Log, a: nat)
    requires a < |d| && ResultAt(max, d, a).Some?
    ensures !d[a].cmd.op.Noop?
  {
  }

  /** What was executed stays executed, at the same place and with the same answer. */
  lemma RanForever(s: Sys, events: seq<Event>, p: nat)
    requires Reachable(s) && s.h.trusted && RunFrom(s, events) && p < |Commands(s.h.decided)|
    ensures var s', cmds := StateAfter(s, events), Commands(s.h.decided);
            && s'.max == s.max && cmds <= Commands(s'.h.decided)
            && KvSessions.ExecutedAt(Kv.EMPTY, s.max, Commands(s'.h.decided), p)
            == KvSessions.ExecutedAt(Kv.EMPTY, s.max, cmds, p)
            && KvDedup.AnswerAt(s.max, Commands(s'.h.decided), p) == KvDedup.AnswerAt(s.max, cmds, p)
  {
    hide Inv, Reachable, RunFrom, StateAfter, Commands;
    ReachableInv(s);
    RunRemembers(s, events);
    var d, d' := s.h.decided, StateAfter(s, events).h.decided;
    assert d'[..|d|] == d;
    CommandsPrefix(d', |d|);
    KvDedup.LongerLog(s.max, Commands(d), Commands(d'), p);
  }

  /**
   Exactly once, as clients see it: over a whole run, through failovers and restarts, every acknowledgement of a
   request retried in time, from whatever node, by whatever route and at whatever time, carries the same result.  An
   acknowledgement is "stale" instead only if the client had by then moved on to a newer request.
   */
  lemma AcknowledgedOnce(s: Sys, events: seq<Event>, client: string, num: int, r: Kv.Result, r': Kv.Result)
    requires Reachable(s) && s.h.trusted && RunFrom(s, events)
    requires RetriedInTime(StateAfter(s, events), client, num) && client != "" && num > 0
    requires Acknowledged(s, client, num, r) && Acknowledged(StateAfter(s, events), client, num, r')
    ensures r == r' || r == Kv.Stale || r' == Kv.Stale
    ensures r == Kv.Stale ==> NewerRan(s, client, num)
    ensures r' == Kv.Stale ==> NewerRan(StateAfter(s, events), client, num)
  {
    hide Inv, Reachable, RunFrom, StateAfter, Acknowledged, Commands;
    ReachableAfter(s, events);
    var p := AcknowledgedRan(s, client, num, r);
    var p' := AcknowledgedRan(StateAfter(s, events), client, num, r');
    RanForever(s, events, p);
    if r != Kv.Stale && r' != Kv.Stale {
      KvDedup.RunsOnceInTime(s.max, Commands(StateAfter(s, events).h.decided), p, p');
    }
  }

  // ------------------------------------------------------------------ read your writes

  /**
   A read sees every write acknowledged before it began, by whichever node, however long ago, and whether by a
   returned call or from a session table.  `s0` is the time of the acknowledgement; a read that begins later looks at
   the state after a prefix in which the acknowledged request, or for "stale" a newer one of the client, has run.
   */
  lemma ReadSeesAcknowledged(
    s0: Sys, client: string, num: int, r: Kv.Result, earlier: seq<Event>, i: nat, events: seq<Event>) returns (p: nat)
    requires Reachable(s0) && s0.h.trusted && client != "" && num > 0 && Acknowledged(s0, client, num, r)
    requires RunFrom(s0, earlier) && Returns(StateAfter(s0, earlier), i, NOOP, events)
    ensures var cmds := Commands(Afterwards(StateAfter(s0, earlier), i, NOOP, events).nodes[i].applied);
            && p < |cmds| && KvSessions.ExecutedAt(Kv.EMPTY, s0.max, cmds, p) && cmds[p].client == client
            && (r == Kv.Stale ==> cmds[p].num > num)
            && (r != Kv.Stale ==> cmds[p].num == num && r == KvDedup.AnswerAt(s0.max, cmds, p))
  {
    hide Inv, Reachable, RunFrom, StateAfter, Acknowledged, Commands, Returns, Afterwards;
    var s := StateAfter(s0, earlier);
    p := AcknowledgedRan(s0, client, num, r);
    RanForever(s0, earlier, p);
    ReachableAfter(s0, earlier);
    LinearizableRead(s, i, events, "");
    var prefix := Afterwards(s, i, NOOP, events).nodes[i].applied;
    assert prefix[..|s.h.decided|] == s.h.decided;
    CommandsPrefix(prefix, |s.h.decided|);
    KvDedup.LongerLog(s.max, Commands(s.h.decided), Commands(prefix), p);
  }

  /** The same for any returned call, tracked or not: its own entry is in the prefix the read looks at. */
  lemma ReadSeesReturned(s0: Sys, j: nat, k: nat, earlier: seq<Event>, i: nat, events: seq<Event>)
    requires Reachable(s0) && s0.h.trusted
    requires j < |s0.nodes| && k < |s0.nodes[j].calls| && s0.nodes[j].calls[k].outcome.Answered?
    requires RunFrom(s0, earlier) && Returns(StateAfter(s0, earlier), i, NOOP, events)
    ensures var prefix := Afterwards(StateAfter(s0, earlier), i, NOOP, events).nodes[i].applied;
            var entry := s0.nodes[j].calls[k].entry;
            0 < entry.index <= |prefix| && prefix[entry.index - 1] == entry
  {
    hide Reachable, RunFrom, StateAfter, Returns, Afterwards, Replay, ResultAt;
    ReachableAfter(s0, earlier);
    NoFalseSuccess(s0, earlier, j, k);
    LinearizableRead(StateAfter(s0, earlier), i, events, "");
  }
}
