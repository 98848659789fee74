/**
 Conflict backtracking: how a leader finds the point where a follower's log departs from its own.  Within one
 leadership term, with replies handled in order and the follower's log left alone, the search is exact and
 takes at most one rejection more than there are terms past the common prefix in the follower's log.
 */
module Backtracking {
  import opened Wrappers
  import opened RaftLog
  import opened RaftCore
  import opened RaftNode
  import opened Cluster
  import opened ClusterInv
  import opened ClusterSafety
  import ClusterAppends

  /** A leader's log and a follower's log out of one cluster. */
  ghost predicate Pair(l: Log, f: Log, ledgers: map<nat, Log>) {
    Orderly(l) && Orderly(f) && Backed(l, ledgers) && Backed(f, ledgers)
  }

  /** How long the common prefix of two logs is. */
  function Common(l: Log, f: Log): (k: nat)
    ensures k <= |l| && k <= |f|
    decreases |l|
  {
    if l == [] || f == [] || l[0] != f[0] then 0 else 1 + Common(l[1..], f[1..])
  }

  lemma {:induction false} CommonIsLongest(l: Log, f: Log)
    ensures var k := Common(l, f); Agree(l, f, k) && (k < |l| && k < |f| ==> l[k] != f[k])
    decreases |l|
  {
    if l != [] && f != [] && l[0] == f[0] {
      CommonIsLongest(l[1..], f[1..]);
      forall i | 0 <= i < Common(l, f) ensures l[i] == f[i] {
        if i > 0 { assert l[1..][i - 1] == f[1..][i - 1]; }
      }
    }
  }

  /** Two entries at one position are the same if their terms are. */
  lemma CommonByTerm(l: Log, f: Log, ledgers: map<nat, Log>, i: nat)
    requires Pair(l, f, ledgers) && i < |l| && i < |f| && l[i].term == f[i].term
    ensures i < Common(l, f)
  {
    LogMatching(l, f, ledgers, i);
    CommonIsLongest(l, f);
  }

  /** Whether the follower rejects a message that starts at `next`. */
  predicate Rejects(l: Log, f: Log, next: nat)
    requires 1 <= next <= |l| + 1
  {
    next > 1 && (|f| < next - 1 || f[next - 2].term != l[next - 2].term)
  }

  function ConflictTerm(l: Log, f: Log, next: nat): nat
    requires 1 <= next <= |l| + 1 && Rejects(l, f, next)
  {
    if |f| < next - 1 then 0 else f[next - 2].term
  }

  function ConflictIndex(l: Log, f: Log, next: nat): nat
    requires 1 <= next <= |l| + 1 && Rejects(l, f, next)
  {
    if |f| < next - 1 then |f| + 1 else FirstOfTerm(f, next - 1, f[next - 2].term)
  }

  /** Where the leader tries next. */
  function Retry(l: Log, f: Log, next: nat): nat
    requires 1 <= next <= |l| + 1 && Rejects(l, f, next)
  {
    Backtrack(l, ConflictIndex(l, f, next), ConflictTerm(l, f, next))
  }

  /** `later` is `log` with further entries of term `t`. */
  ghost predicate GrownFrom(log: Log, later: Log, t: nat) {
    |log| <= |later| && log == later[..|log|] && forall i :: |log| <= i < |later| ==> later[i].term == t
  }

  /** From `x` to `y` the node has gone on leading in one term; all it has done to its log is to append. */
  ghost predicate GoesOn(x: Node, y: Node, to: nat) {
    && x.role.Leader? && y.role.Leader? && y.term == x.term && GrownFrom(x.log, y.log, x.term)
    && to in x.next && to in y.next && y.next[to] == x.next[to]
  }

  /**
   The handlers, on a leader as it sends, the follower as it answers, and the leader, whose log may have grown in the
   meantime, as it handles the answer.
   */
  lemma HandlersBacktrack(leader: Node, later: Node, me: nat, to: nat, x: Node, n: nat)
    requires GoesOn(leader, later, to) && LaidOut(x.log) && LaidOut(leader.log)
    requires 1 <= leader.next[to] <= |leader.log| + 1 && x.term <= leader.term
    ensures var r := MakeAppend(leader, me, to); var l, f, next := leader.log, x.log, leader.next[to];
            && r.Some?
            && HandleAppend(x, r.value).1.success == !Rejects(l, f, next)
            && (Rejects(l, f, next) ==>
                  && HandleAppend(x, r.value).0.log == f
                  && HandleAppendReply(later, n, HandleAppend(x, r.value).1)
                  == later.(next := later.next[to := Backtrack(later.log, ConflictIndex(l, f, next), ConflictTerm(l, f, next))]))
  {
    hide GrownFrom;
  }

  // ---------------------------------------------------------------- one step

  lemma {:induction false} FirstOfTermRuns(log: Log, ci: nat, t: nat)
    requires 1 <= ci <= |log| && log[ci - 1].term == t && Orderly(log)
    ensures var c := FirstOfTerm(log, ci, t);
            && 1 <= c <= ci && (forall i :: c - 1 <= i < ci ==> log[i].term == t)
            && (forall i :: 0 <= i < c - 1 ==> log[i].term < t)
    decreases ci
  {
    if ci > 1 && log[ci - 2].term == t {
      FirstOfTermRuns(log, ci - 1, t);
    }
  }

  lemma {:induction false} LastOfTermFound(log: Log, i: nat, t: nat)
    requires i <= |log|
    ensures var found := LastOfTerm(log, i, t);
            && found <= i && (found > 0 ==> log[found - 1].term == t)
            && (forall j :: found <= j < i ==> log[j].term != t)
  {
    if i > 0 && log[i - 1].term != t {
      LastOfTermFound(log, i - 1, t);
    }
  }

  /** The leader holds the follower's conflicting term: the next try hits the common prefix exactly. */
  lemma RetryFound(l: Log, f: Log, ledgers: map<nat, Log>, next: nat)
    requires Pair(l, f, ledgers) && 1 <= next <= |l| + 1 && Rejects(l, f, next) && |f| >= next - 1
    requires LastOfTerm(l, |l|, f[next - 2].term) > 0
    ensures Retry(l, f, next) == Common(l, f) + 1 < next
    ensures !Rejects(l, f, Common(l, f) + 1)
  {
    var t := f[next - 2].term;
    var found := LastOfTerm(l, |l|, t);
    LastOfTermFound(l, |l|, t);
    assert Anchored(f, ledgers, next - 2) && Anchored(l, ledgers, found - 1);
    CommonIsLongest(l, f);
    assert found < next - 1;
    assert l[found - 1] == f[found - 1];
    CommonByTerm(l, f, ledgers, found - 1);
    assert f[found].term == t;
  }

  /** The leader does not hold the follower's conflicting term: the next try skips all of it. */
  lemma RetrySkips(l: Log, f: Log, ledgers: map<nat, Log>, next: nat)
    requires Pair(l, f, ledgers) && 1 <= next <= |l| + 1 && Rejects(l, f, next) && |f| >= next - 1
    requires LastOfTerm(l, |l|, f[next - 2].term) == 0
    ensures Common(l, f) + 1 <= Retry(l, f, next) < next
    ensures forall i :: 0 <= i < Retry(l, f, next) - 1 ==> f[i].term < f[next - 2].term
  {
    var t := f[next - 2].term;
    LastOfTermFound(l, |l|, t);
    FirstOfTermRuns(f, next - 1, t);
    CommonIsLongest(l, f);
    var c := Retry(l, f, next);
    assert f[c - 1].term == t;
    assert l[c - 1].term != t && l[c - 1] != f[c - 1];
  }

  /** Every rejection strictly lowers the next index, and never below the first entry that differs. */
  lemma RetryProgress(l: Log, f: Log, ledgers: map<nat, Log>, next: nat)
    requires Pair(l, f, ledgers) && 1 <= next <= |l| + 1 && Rejects(l, f, next)
    ensures Common(l, f) + 1 <= Retry(l, f, next) < next
  {
    if |f| >= next - 1 {
      LastOfTermFound(l, |l|, f[next - 2].term);
      if LastOfTerm(l, |l|, f[next - 2].term) > 0 {
        RetryFound(l, f, ledgers, next);
      } else {
        RetrySkips(l, f, ledgers, next);
      }
    }
  }

  // ---------------------------------------------------------- the whole search

  /** How often the follower rejects before it accepts. */
  ghost function Rejections(l: Log, f: Log, ledgers: map<nat, Log>, next: nat): nat
    requires Pair(l, f, ledgers) && 1 <= next <= |l| + 1
    decreases next
  {
    if Rejects(l, f, next) then
      RetryProgress(l, f, ledgers, next);
      1 + Rejections(l, f, ledgers, Retry(l, f, next))
    else 0
  }

  /** The terms of a log's entries from position `from` up to, not including, position `upto`. */
  function TermsBetween(f: Log, from: nat, upto: nat): set<nat>
    requires upto <= |f|
  {
    set i | from <= i < upto :: f[i].term
  }

  lemma NoTermsNoCount(f: Log, from: nat, upto: nat, i: nat)
    requires from <= i < upto <= |f|
    ensures f[i].term in TermsBetween(f, from, upto)
    ensures |TermsBetween(f, from, upto)| >= 1
  {
    var now := TermsBetween(f, from, upto);
    assert f[i].term in now;
    assert now == {f[i].term} + (now - {f[i].term});
  }

  /** Skipping a term leaves fewer terms. */
  lemma FewerTerms(f: Log, from: nat, upto: nat, upto': nat)
    requires from < upto <= |f| && upto' < upto
    requires forall i :: 0 <= i < upto' ==> f[i].term < f[upto - 1].term
    ensures |TermsBetween(f, from, upto')| < |TermsBetween(f, from, upto)|
  {
    var now, later, t := TermsBetween(f, from, upto), TermsBetween(f, from, upto'), f[upto - 1].term;
    assert later <= now && t in now && t !in later;
    assert now == later + {t} + (now - later - {t});
  }

  lemma {:induction false} RejectionsWithin(l: Log, f: Log, ledgers: map<nat, Log>, next: nat)
    requires Pair(l, f, ledgers) && 1 <= next <= |l| + 1 && next <= |f| + 1
    ensures Rejections(l, f, ledgers, next) <= |TermsBetween(f, Common(l, f), next - 1)|
    decreases next
  {
    hide Pair, Retry, TermsBetween, Common;
    if Rejects(l, f, next) {
      RetryProgress(l, f, ledgers, next);
      if LastOfTerm(l, |l|, f[next - 2].term) > 0 {
        RetryFound(l, f, ledgers, next);
        NoTermsNoCount(f, Common(l, f), next - 1, next - 2);
      } else {
        RetrySkips(l, f, ledgers, next);
        RejectionsWithin(l, f, ledgers, Retry(l, f, next));
        FewerTerms(f, Common(l, f), next - 1, Retry(l, f, next) - 1);
      }
    }
  }

  /** At most one rejection more than the distinct terms past the common prefix in the follower's log. */
  lemma RejectionsBounded(l: Log, f: Log, ledgers: map<nat, Log>, next: nat)
    requires Pair(l, f, ledgers) && 1 <= next <= |l| + 1
    ensures Rejections(l, f, ledgers, next) <= 1 + |TermsBetween(f, Common(l, f), |f|)|
  {
    if next <= |f| + 1 {
      RejectionsWithin(l, f, ledgers, next);
      var some, all := TermsBetween(f, Common(l, f), next - 1), TermsBetween(f, Common(l, f), |f|);
      assert some <= all;
      assert all == some + (all - some);
    } else if Rejects(l, f, next) {
      RetryProgress(l, f, ledgers, next);
      RejectionsWithin(l, f, ledgers, |f| + 1);
    }
  }

  // ------------------------------------------------------- rounds of the handlers

  lemma {:induction false} LastOfTermGrown(log: Log, later: Log, own: nat, t: nat, i: nat)
    requires GrownFrom(log, later, own) && t != own && i <= |later|
    ensures LastOfTerm(later, i, t) == LastOfTerm(log, Min(i, |log|), t)
  {
    if i > 0 {
      if i > |log| {
        assert later[i - 1].term == own;
      }
      LastOfTermGrown(log, later, own, t, i - 1);
    }
  }

  /** A follower's conflicting entry is never of the leader's own term. */
  lemma ConflictIsOlder(l: Log, f: Log, ledgers: map<nat, Log>, own: nat, next: nat)
    requires Pair(l, f, ledgers) && own in ledgers && ledgers[own] == l
    requires 1 <= next <= |l| + 1 && Rejects(l, f, next) && |f| >= next - 1
    ensures f[next - 2].term != own
  {
    assert Anchored(f, ledgers, next - 2);
  }

  /** A message and its answer: the leader as it sends, the follower, and the leader as it handles the answer. */
  datatype Round = Round(sent: Node, follower: Node, handled: Node)

  /** The follower, whose log is `f`, rejects the message. */
  ghost predicate Rejected(r: Round, me: nat, to: nat, f: Log) {
    && LaidOut(r.sent.log) && LaidOut(f) && r.follower.log == f && r.follower.term <= r.sent.term
    && GoesOn(r.sent, r.handled, to)
    && MakeAppend(r.sent, me, to).Some? && !HandleAppend(r.follower, MakeAppend(r.sent, me, to).value).1.success
  }

  /** The leader after the round. */
  ghost function AfterRound(r: Round, me: nat, to: nat, f: Log, n: nat): Node
    requires Rejected(r, me, to, f)
  {
    HandleAppendReply(r.handled, n, HandleAppend(r.follower, MakeAppend(r.sent, me, to).value).1)
  }

  /**
   A search, round by round, from the leader `x` on: within one leadership term, the answers handled in order, and the
   follower's log left alone.  The leader appends whatever it likes before, between and during the rounds.
   */
  ghost predicate Search(rounds: seq<Round>, x: Node, me: nat, to: nat, f: Log, n: nat)
    decreases |rounds|
  {
    rounds == [] ||
    (&& GoesOn(x, rounds[0].sent, to) && Rejected(rounds[0], me, to, f)
     && Search(rounds[1..], AfterRound(rounds[0], me, to, f, n), me, to, f, n))
  }

  const EARLY := FRESH.(role := Leader, term := 2, log := [Entry(2, 1, NOOP)], next := map[1 := 2])
  const LATER := EARLY.(log := [Entry(2, 1, NOOP), Entry(2, 2, NOOP)])
  const EMPTY := FRESH.(term := 2)

  /** Such searches exist: a follower with an empty log rejects once, while the leader appends. */
  lemma SearchesExist()
    ensures Search([Round(EARLY, EMPTY, LATER)], EARLY, 0, 1, EMPTY.log, 2)
  {
    assert GrownFrom(EARLY.log, EARLY.log, 2) && GrownFrom(EARLY.log, LATER.log, 2);
    var rounds := [Round(EARLY, EMPTY, LATER)];
    assert GoesOn(EARLY, rounds[0].sent, 1) && GoesOn(rounds[0].sent, rounds[0].handled, 1);
    assert MakeAppend(EARLY, 0, 1).Some? && Rejected(rounds[0], 0, 1, []);
    assert rounds[1..] == [];
  }

  /** A round moves the next index to where the leader's log at the beginning of the search would have moved it. */
  lemma RoundIsRetry(l: Log, ledgers: map<nat, Log>, r: Round, me: nat, to: nat, f: Log, n: nat)
    requires Pair(l, f, ledgers) && Rejected(r, me, to, f) && GrownFrom(l, r.sent.log, r.sent.term)
    requires r.sent.term in ledgers && ledgers[r.sent.term] == l && 1 <= r.sent.next[to] <= |l| + 1
    ensures var next, y := r.sent.next[to], AfterRound(r, me, to, f, n);
            && Rejects(l, f, next) && to in y.next && y.next[to] == Retry(l, f, next)
            && y.role.Leader? && y.term == r.sent.term && GrownFrom(l, y.log, y.term)
  {
    var next := r.sent.next[to];
    HandlersBacktrack(r.sent, r.handled, me, to, r.follower, n);
    assert next > 1 ==> r.sent.log[next - 2] == l[next - 2];
    GrownTwice(l, r.sent.log, r.handled.log, r.sent.term);
    SameRetry(l, r.handled.log, f, ledgers, r.sent.term, next);
  }

  lemma GrownTwice(a: Log, b: Log, c: Log, t: nat)
    requires GrownFrom(a, b, t) && GrownFrom(b, c, t)
    ensures GrownFrom(a, c, t)
  {
    assert c[..|a|] == b[..|a|];
  }

  /** Entries appended since the message was sent do not change where its rejection leads. */
  lemma SameRetry(l: Log, later: Log, f: Log, ledgers: map<nat, Log>, own: nat, next: nat)
    requires Pair(l, f, ledgers) && own in ledgers && ledgers[own] == l && GrownFrom(l, later, own)
    requires 1 <= next <= |l| + 1 && Rejects(l, f, next)
    ensures Backtrack(later, ConflictIndex(l, f, next), ConflictTerm(l, f, next)) == Retry(l, f, next)
  {
    if |f| >= next - 1 {
      ConflictIsOlder(l, f, ledgers, own, next);
      LastOfTermGrown(l, later, own, f[next - 2].term, |later|);
    }
  }

  /** However the leader's log grows meanwhile, the rounds are the steps of the search over the log it started with. */
  lemma {:induction false} SearchBounded(
    l: Log, ledgers: map<nat, Log>, rounds: seq<Round>, x: Node, me: nat, to: nat, f: Log, n: nat)
    requires x.role.Leader? && GrownFrom(l, x.log, x.term) && Search(rounds, x, me, to, f, n)
    requires Pair(l, f, ledgers) && x.term in ledgers && ledgers[x.term] == l
    requires to in x.next && 1 <= x.next[to] <= |l| + 1
    ensures |rounds| <= Rejections(l, f, ledgers, x.next[to])
    ensures forall k :: 0 <= k < |rounds| ==> to in rounds[k].sent.next
    ensures forall k :: 0 <= k < |rounds| ==> Common(l, f) + 1 < rounds[k].sent.next[to] <= x.next[to]
    ensures forall j, k :: 0 <= j < k < |rounds| ==> rounds[k].sent.next[to] < rounds[j].sent.next[to]
    decreases |rounds|
  {
    hide Pair, Rejected, AfterRound, Retry, Rejects, Common;
    if rounds != [] {
      var r := rounds[0];
      GrownTwice(l, x.log, r.sent.log, x.term);
      RoundIsRetry(l, ledgers, r, me, to, f, n);
      RetryProgress(l, f, ledgers, r.sent.next[to]);
      var y := AfterRound(r, me, to, f, n);
      SearchBounded(l, ledgers, rounds[1..], y, me, to, f, n);
      assert forall k :: 0 < k < |rounds| ==> rounds[k] == rounds[1..][k - 1];
    }
  }

  /** What a leader has appended since does not change what its log and the follower's have in common. */
  lemma GrownPair(l: Log, later: Log, f: Log, ledgers: map<nat, Log>, own: nat)
    requires Pair(l, f, ledgers) && own in ledgers && ledgers[own] == l && l != [] && l[|l| - 1].term == own
    requires GrownFrom(l, later, own) && LaidOut(later)
    ensures Pair(later, f, ledgers[own := later]) && Common(later, f) == Common(l, f)
  {
    var ledgers' := ledgers[own := later];
    assert Grows(ledgers, ledgers') by { assert forall k :: 0 <= k < |l| ==> l[k] == later[..|l|][k]; }
    BackedGrows(f, ledgers, ledgers');
    BackedGrows(l, ledgers, ledgers');
    forall k: nat | k < |later| ensures Anchored(later, ledgers', k) {
      if k < |l| { assert Anchored(l, ledgers', k); }
    }
    assert Orderly(later);
    CommonIsLongest(l, f);
    CommonIsLongest(later, f);
    assert |l| < |f| ==> Anchored(f, ledgers, |l|);
  }

  /**
   The bound, for real logs: from any reachable state in which node `i` leads, a search between it and node `j` has at
   most one rejection more than there are distinct terms past the common prefix in the follower's log, and every
   rejection strictly lowers the next index.  It does not matter where the next index starts.
   */
  lemma {:induction false} SearchBoundedInClusters(s: Sys, i: nat, j: nat, rounds: seq<Round>)
    requires Reachable(s) && i < |s.nodes| && j < |s.nodes| && s.nodes[i].role.Leader?
    requires Search(rounds, s.nodes[i], i, j, s.nodes[j].log, |s.nodes|)
    ensures var l, f := s.nodes[i].log, s.nodes[j].log;
            |rounds| <= 1 + |TermsBetween(f, Common(l, f), |f|)|
    ensures forall k :: 0 <= k < |rounds| ==> j in rounds[k].sent.next
    ensures forall k, m :: 0 <= k < m < |rounds| ==> rounds[m].sent.next[j] < rounds[k].sent.next[j]
  {
    hide NetOk, Reachable, Rejections, TermsBetween, Common, Vouched, Search, NodesOk, CoreInv, ServiceOk, TallyOk,
         MakeAppend, HandleAppend, AfterRound, GrownFrom;
    if rounds != [] {
      var x, f, y := s.nodes[i], s.nodes[j].log, rounds[0].sent;
      ReachableInv(s);
      TheNode(s, i);
      TheNode(s, j);
      ClusterAppends.LeaderLedger(AsCore(s), i);
      FirstSent(rounds, x, i, j, f, |s.nodes|);
      GrownPair(x.log, y.log, f, s.h.ledgers, x.term);
      var ledgers := s.h.ledgers[x.term := y.log];
      SearchBounded(y.log, ledgers, rounds, y, i, j, f, |s.nodes|);
      RejectionsBounded(y.log, f, ledgers, y.next[j]);
    }
  }

  /** The first message of a search lies within the leader's log, or it would not have been sent. */
  lemma FirstSent(rounds: seq<Round>, x: Node, me: nat, to: nat, f: Log, n: nat)
    requires rounds != [] && Search(rounds, x, me, to, f, n)
    ensures var y := rounds[0].sent;
            && Search(rounds, y, me, to, f, n) && GoesOn(x, y, to) && LaidOut(y.log) && GrownFrom(y.log, y.log, y.term)
            && y.next[to] <= |y.log| + 1
  {
    hide AfterRound, HandleAppend;
  }
}
