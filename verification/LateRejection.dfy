/**
 The other half of NextIndex.dfy: with three members or more, a rejection that is handled terms after its request was
 sent can point a leader past the end of its log, and the leader then has nothing it can send to that peer.
 */
module LateRejection {
  import opened Wrappers
  import opened RaftLog
  import opened Quorums
  import opened RaftCore
  import opened RaftNode
  import opened Cluster
  import opened ClusterInv
  import opened ClusterSafety
  import opened LateRuns
  import opened NextIndex

  /** What member 1 takes while it leads term 1, and member 0 while it leads term 2. */
  const ONES := [Entry(1, 1, NOOP), Entry(1, 2, CMD), Entry(1, 3, CMD), Entry(1, 4, CMD)]
  const TWO := [Entry(2, 1, NOOP)]
  const TWOS := [Entry(2, 1, NOOP), Entry(2, 2, CMD), Entry(2, 3, CMD), Entry(2, 4, CMD), Entry(2, 5, CMD)]
  const THREES := TWOS + [Entry(3, 6, NOOP)]
  const FOUR := TWO + [Entry(4, 2, NOOP)]

  /** The logs of members 0, 1 and 2; the others' are empty. */
  function Layout(n: nat, zero: Log, one: Log, two: Log): seq<Log> {
    seq(n, p => if p == 0 then zero else if p == 1 then one else if p == 2 then two else [])
  }

  // ------------------------------------------------------------------- pieces of the run

  /** A crash: the log survives, the leadership does not. */
  lemma Reboot(s0: Sys, s: Sys, late: nat, c: nat, t: nat, logs: seq<Log>) returns (s': Sys)
    requires Reaches(s0, s, late) && Cast(s, t, logs) && c < |logs|
    ensures Reaches(s0, s', late) && Touches(s, s', {c}) && (Uncommitted(s) ==> Uncommitted(s')) && Cast(s', t, logs)
    ensures Follows(s'.nodes[c], s.nodes[c].term)
  {
    hide Reaches, LaidOut, Ids;
    assert Plays(s.nodes[c], t, logs[c], |logs|);
    Step(s0, s, late, Crash(c));
    s' := Next(s, Crash(c));
    forall p: nat | p < |logs| ensures Plays(s'.nodes[p], t, logs[p], |logs|) {
      assert Plays(s.nodes[p], t, logs[p], |logs|);
    }
  }

  /** A rejection by member 1 that sends member 0 back to index `back`, from term `t`. */
  predicate Rejection(r: AppendReply, t: nat, back: nat) {
    !r.success && r.request.leader == 0 && r.request.to == 1 && r.term == t && r.conflictIndex == back && r.conflictTerm == 0
  }

  ghost predicate HasRejection(s: Sys, t: nat, back: nat) {
    exists r :: r in s.net.appendReplies && Rejection(r, t, back)
  }

  lemma RejectionStays(s: Sys, s': Sys, t: nat, back: nat)
    requires HasRejection(s, t, back) && s.net.appendReplies <= s'.net.appendReplies
    ensures HasRejection(s', t, back)
  {
    var r :| r in s.net.appendReplies && Rejection(r, t, back);
    assert r in s'.net.appendReplies;
  }

  /** Member 1's log is too short for what member 0 sends. */
  lemma Refuses(x: Node, l: Node)
    requires LaidOut(x.log) && LaidOut(l.log) && l.role.Leader? && 1 in l.next && x.term < l.term
    requires |x.log| + 1 < l.next[1] <= |l.log| + 1
    ensures MakeAppend(l, 0, 1).Some?
    ensures var r := MakeAppend(l, 0, 1).value; var (y, reply) := HandleAppend(x, r);
            && r.to == 1 && Rejection(reply, l.term, |x.log| + 1)
            && Follows(y, l.term) && y.log == x.log && y.commit == x.commit && y.matched == x.matched
  {
    hide BecomeFollower, Merge, LaidOut;
    FollowerNow(x, l.term);
    LogEnds(x.log, 0);
  }

  lemma Refused(s0: Sys, s: Sys, t: nat, logs: seq<Log>) returns (s': Sys)
    requires Reaches(s0, s, 0) && Cast(s, t, logs) && Uncommitted(s) && |logs| > 1
    requires Heads(s.nodes[0], 0, t, |logs|, |logs[0]|) && s.nodes[1].term < t
    requires |logs[1]| + 1 < s.nodes[0].next[1] <= |logs[0]| + 1
    ensures Reaches(s0, s', 0) && Touches(s, s', {1}) && Uncommitted(s') && Cast(s', t, logs)
    ensures Follows(s'.nodes[1], t) && HasRejection(s', t, |logs[1]| + 1)
  {
    hide Reaches, Ids, HandleAppend, MakeAppend, LaidOut, Rejection;
    assert Plays(s.nodes[0], t, logs[0], |logs|) && Plays(s.nodes[1], t, logs[1], |logs|);
    PeerCount(s, 0);
    Refuses(s.nodes[1], s.nodes[0]);
    var r := MakeAppend(s.nodes[0], 0, 1).value;
    Step(s0, s, 0, Send(0, 1));
    var s1 := Next(s, Send(0, 1));
    IsRejection(HandleAppend(s.nodes[1], r).1, t, |logs[1]| + 1);
    Step(s0, s1, 0, OnAppend(1, r));
    s' := Next(s1, OnAppend(1, r));
    assert HandleAppend(s.nodes[1], r).1 in s'.net.appendReplies;
    forall p: nat | p < |logs| ensures Plays(s'.nodes[p], t, logs[p], |logs|) {
      assert Plays(s.nodes[p], t, logs[p], |logs|);
    }
  }

  lemma IsRejection(r: AppendReply, t: nat, back: nat)
    requires Rejection(r, t, back)
    ensures !r.success
  {
  }

  // ------------------------------------------------------------------------ the run

  lemma Beginning(n: nat, max: nat, timely: bool)
    requires n >= 3
    ensures var s0 := Init(n, max, timely); Cast(s0, 0, Layout(n, [], [], [])) && Uncommitted(s0) && |s0.nodes| == n
    ensures Init(n, max, timely).nodes[1] == FRESH
  {
  }

  /** Term 1: member 1 leads and takes four entries, which no one else gets. */
  lemma Term1(s0: Sys, n: nat, max: nat, timely: bool) returns (s: Sys)
    requires s0 == Init(n, max, timely) && n >= 3
    ensures Reaches(s0, s, 0) && Cast(s, 1, Layout(n, [], ONES, [])) && Uncommitted(s)
    ensures Follows(s.nodes[0], 1)
  {
    hide Reaches, Cast, Heads, Uncommitted, Layout, Ids;
    ReachesSelf(s0);
    Beginning(n, max, timely);
    Named([0], 2, 1, n);
    Layout1(n);
    var logs := Layout(n, [], [], []);
    s := Win(s0, s0, 0, 1, [0] + Range(2, n), 0, logs);
    var logs1 := logs[1 := ONES[..1]];
    s := TakeEntry(s0, s, 0, 1, 1, logs1);
    var logs2 := logs1[1 := ONES[..2]];
    s := TakeEntry(s0, s, 0, 1, 1, logs2);
    var logs3 := logs2[1 := ONES[..3]];
    s := TakeEntry(s0, s, 0, 1, 1, logs3);
  }

  lemma Layout1(n: nat)
    requires n >= 3
    ensures n - 1 >= Majority(n)
    ensures var logs := Layout(n, [], [], []);
            && |logs| == n && logs[1] == []
            && (forall v: nat | v < n :: UpToDate(LastIndex(logs[1]), LastTerm(logs[1]), logs[v]))
            && logs[1 := ONES] == Layout(n, [], ONES, [])
            && logs[1 := ONES[..1]][1 := ONES[..2]][1 := ONES[..3]][1 := ONES] == logs[1 := ONES]
    ensures [] + [Entry(1, 1, NOOP)] == ONES[..1] && ONES[..1] + [Entry(1, 2, CMD)] == ONES[..2]
    ensures ONES[..2] + [Entry(1, 3, CMD)] == ONES[..3] && ONES[..3] + [Entry(1, 4, CMD)] == ONES
  {
  }

  /** Term 2: member 0 leads without member 1's vote, gives member 2 its first entry and takes four more. */
  lemma Term2(s0: Sys, n: nat, max: nat, timely: bool) returns (s: Sys)
    requires s0 == Init(n, max, timely) && n >= 3
    ensures Reaches(s0, s, 0) && Cast(s, 2, Layout(n, TWOS, ONES, TWO)) && Uncommitted(s)
    ensures Heads(s.nodes[0], 0, 2, n, 5) && s.nodes[1].term <= 1 && Follows(s.nodes[2], 2)
  {
    hide Reaches, Cast, Heads, Uncommitted, Layout, Ids, Fits, HasAck;
    s := Term1(s0, n, max, timely);
    var logs := Layout(n, [], ONES, []);
    Layout2(n);
    PlaysOne(s, 1, logs, 1);
    Named([], 2, 0, n);
    s := Win(s0, s, 0, 0, [] + Range(2, n), 1, logs);
    var logs1 := logs[0 := TWO];
    HeadsNext(s.nodes[0], 0, 2, n, 1);
    s := Ship(s0, s, 0, 0, 2, 2, logs1, 0);
    var logs2 := logs1[2 := TWO];
    s := TakeEntry(s0, s, 0, 0, 2, logs2);
    var logs3 := logs2[0 := TWOS[..2]];
    s := TakeEntry(s0, s, 0, 0, 2, logs3);
    var logs4 := logs3[0 := TWOS[..3]];
    s := TakeEntry(s0, s, 0, 0, 2, logs4);
    var logs5 := logs4[0 := TWOS[..4]];
    s := TakeEntry(s0, s, 0, 0, 2, logs5);
  }

  lemma PlaysOne(s: Sys, t: nat, logs: seq<Log>, p: nat)
    requires Cast(s, t, logs) && p < |logs|
    ensures |s.nodes| == |logs| && s.nodes[p].term <= t && s.nodes[p].log == logs[p] && LaidOut(logs[p])
  {
    assert Plays(s.nodes[p], t, logs[p], |logs|);
  }

  lemma Layout2(n: nat)
    requires n >= 3
    ensures n - 1 >= Majority(n)
    ensures var logs := Layout(n, [], ONES, []);
            && |logs| == n && logs[0] == [] && logs[1] == ONES && logs[2] == []
            && (forall v: nat | v in [] + Range(2, n) :: UpToDate(LastIndex(logs[0]), LastTerm(logs[0]), logs[v]))
            && logs[0 := TWO][2 := TWO][0 := TWOS[..2]][0 := TWOS[..3]][0 := TWOS[..4]][0 := TWOS]
               == Layout(n, TWOS, ONES, TWO)
    ensures [] + [Entry(2, 1, NOOP)] == TWO && Fits([], TWO, 0)
    ensures TWO + [Entry(2, 2, CMD)] == TWOS[..2] && TWOS[..2] + [Entry(2, 3, CMD)] == TWOS[..3]
    ensures TWOS[..3] + [Entry(2, 4, CMD)] == TWOS[..4] && TWOS[..4] + [Entry(2, 5, CMD)] == TWOS
  {
    InRange(2, n);
  }

  /** Term 3: member 0 restarts, leads again, and asks member 1 for more than it has; the rejection is held up. */
  lemma Term3(s0: Sys, n: nat, max: nat, timely: bool) returns (s: Sys)
    requires s0 == Init(n, max, timely) && n >= 3
    ensures Reaches(s0, s, 0) && Cast(s, 3, Layout(n, THREES, ONES, TWO)) && Uncommitted(s) && HasRejection(s, 3, 5)
    ensures s.nodes[0].term <= 3 && Follows(s.nodes[2], 3)
  {
    hide Reaches, Cast, Heads, Uncommitted, Layout, Ids, HasRejection;
    s := Term2(s0, n, max, timely);
    var logs := Layout(n, TWOS, ONES, TWO);
    Layout3(n);
    CastSize(s, 2, logs);
    HeadsKeys(s.nodes[0], 0, 2, n, 5);
    s := Reboot(s0, s, 0, 0, 2, logs);
    Named([], 2, 0, n);
    s := Win(s0, s, 0, 0, [] + Range(2, n), 2, logs);
    var logs1 := logs[0 := THREES];
    CastSize(s, 3, logs1);
    s := Refused(s0, s, 3, logs1);
    PlaysOne(s, 3, logs1, 0);
  }

  lemma Layout3(n: nat)
    requires n >= 3
    ensures n - 1 >= Majority(n)
    ensures var logs := Layout(n, TWOS, ONES, TWO);
            && |logs| == n && logs[0] == TWOS && logs[1] == ONES && logs[2] == TWO
            && (forall v: nat | v in [] + Range(2, n) :: UpToDate(LastIndex(logs[0]), LastTerm(logs[0]), logs[v]))
            && logs[0 := THREES] == Layout(n, THREES, ONES, TWO)
    ensures TWOS + [Entry(3, |TWOS| + 1, NOOP)] == THREES && |THREES| == 6 && |ONES| == 4
  {
    InRange(2, n);
  }

  /** Term 4: member 2 leads by the vote of member 1, and overwrites the log of member 0. */
  lemma Term4(s0: Sys, n: nat, max: nat, timely: bool) returns (s: Sys)
    requires s0 == Init(n, max, timely) && n >= 3
    ensures Reaches(s0, s, 0) && Cast(s, 4, Layout(n, FOUR, ONES, FOUR)) && Uncommitted(s) && HasRejection(s, 3, 5)
    ensures Follows(s.nodes[0], 4)
  {
    hide Reaches, Cast, Heads, Uncommitted, Layout, Ids, HasRejection, Fits, HasAck;
    var s3 := Term3(s0, n, max, timely);
    var logs := Layout(n, THREES, ONES, TWO);
    Layout4(n);
    CastSize(s3, 3, logs);
    Named([1], 3, 2, n);
    var s4 := Win(s0, s3, 0, 2, [1] + Range(3, n), 3, logs);
    var logs1 := logs[2 := FOUR];
    HeadsNext(s4.nodes[2], 2, 4, n, 2);
    s := Ship(s0, s4, 0, 2, 0, 4, logs1, 1);
    RejectionStays(s3, s4, 3, 5);
    RejectionStays(s4, s, 3, 5);
  }

  lemma Layout4(n: nat)
    requires n >= 3
    ensures n - 1 >= Majority(n)
    ensures var logs := Layout(n, THREES, ONES, TWO);
            && |logs| == n && logs[0] == THREES && logs[1] == ONES && logs[2] == TWO
            && (forall v: nat | v in [1] + Range(3, n) :: UpToDate(LastIndex(logs[2]), LastTerm(logs[2]), logs[v]))
            && logs[2 := FOUR][0 := FOUR] == Layout(n, FOUR, ONES, FOUR)
    ensures TWO + [Entry(4, |TWO| + 1, NOOP)] == FOUR && |FOUR| == 2 && Fits(THREES, FOUR, 1)
  {
    InRange(3, n);
  }

  /** Term 5: member 0 leads once more, with a short log, and the rejection from term 3 reaches it. */
  lemma LateRejectionPastLog(n: nat, max: nat, timely: bool) returns (s: Sys)
    requires n >= 3
    ensures Reaches(Init(n, max, timely), s, 0) && |s.nodes| == n
    ensures var x := s.nodes[0];
            && x.role.Leader? && 1 in x.next && x.next[1] > |x.log| + 1
            && MakeAppend(x, 0, 1) == None
  {
    hide Reaches, Cast, Heads, Uncommitted, Layout, Ids, HasRejection, HandleAppendReply;
    var s0 := Init(n, max, timely);
    var s4 := Term4(s0, n, max, timely);
    var logs := Layout(n, FOUR, ONES, FOUR);
    Layout5(n);
    CastSize(s4, 4, logs);
    Named([], 1, 0, n);
    var s5 := Win(s0, s4, 0, 0, [] + Range(1, n), 4, logs);
    var logs1 := logs[0 := FOUR + [Entry(5, 3, NOOP)]];
    PlaysOne(s5, 5, logs1, 0);
    HeadsKeys(s5.nodes[0], 0, 5, n, 3);
    RejectionStays(s4, s5, 3, 5);
    var r := TheRejection(s5);
    Misled(s5.nodes[0], n, r);
    Step(s0, s5, 0, OnAppendReply(0, r));
    s := Next(s5, OnAppendReply(0, r));
  }

  lemma TheRejection(s: Sys) returns (r: AppendReply)
    requires HasRejection(s, 3, 5)
    ensures r in s.net.appendReplies && Rejection(r, 3, 5)
  {
    r :| r in s.net.appendReplies && Rejection(r, 3, 5);
  }

  /** The rejection sends the leader to index 5, past its log of three entries. */
  lemma Misled(x: Node, n: nat, r: AppendReply)
    requires x.role.Leader? && x.term == 5 && |x.log| == 3 && Rejection(r, 3, 5)
    ensures var y := HandleAppendReply(x, n, r);
            && y.role.Leader? && 1 in y.next && y.next[1] == 5 && |y.log| == 3 && MakeAppend(y, 0, 1) == None
  {
  }

  lemma Layout5(n: nat)
    requires n >= 3
    ensures n >= Majority(n)
    ensures var logs := Layout(n, FOUR, ONES, FOUR);
            && |logs| == n && logs[0] == FOUR && |FOUR| == 2
            && (forall v: nat | v in [] + Range(1, n) :: UpToDate(LastIndex(logs[0]), LastTerm(logs[0]), logs[v]))
  {
    InRange(1, n);
  }

  // ---------------------------------------------------------------- exactly when it happens

  /**
   With no assumption on when replies are handled, every leader's next indices stay within its log in every run if and
   only if there are at most two nodes.
   */
  lemma NextInLogIffTwo(n: nat)
    ensures n <= 2 <==>
              forall max: nat, timely: bool, events: seq<Event>, s: Sys :: RunsTo(n, max, timely, events, s) ==> NextInLog(s)
  {
    hide Inv, Reaches, RunsTo, Init, NextInLog;
    if n <= 2 {
      forall max: nat, timely: bool, events: seq<Event>, s: Sys | RunsTo(n, max, timely, events, s)
        ensures NextInLog(s)
      {
        TwoInLog(n, max, timely, events, s);
      }
    } else {
      var s := LateRejectionPastLog(n, 1, false);
      assert !NextInLog(s) by { PastLog(s); }
      ReachesRunsTo(n, 1, false, s, 0);
    }
  }

  lemma TwoInLog(n: nat, max: nat, timely: bool, events: seq<Event>, s: Sys)
    requires n <= 2 && RunsTo(n, max, timely, events, s)
    ensures NextInLog(s)
  {
    hide Inv, RunFrom, StateAfter, AllInTime;
    InitInv(n, max, timely);
    RunInLog(Init(n, max, timely), events);
  }

  lemma PastLog(s: Sys)
    requires |s.nodes| > 1 && s.nodes[0].role.Leader? && 1 in s.nodes[0].next
    requires s.nodes[0].next[1] > |s.nodes[0].log| + 1
    ensures !NextInLog(s)
  {
    assert !TableOk(s.nodes[0], |s.nodes|);
  }
}
