/**
 Why clusters of five and more need timely acknowledgements.  The reply handler does not compare a reply with
 the term its request was sent in.  With four members or fewer this is harmless (ClusterReplies.LateAckHarmless).
 With any larger number, two late acknowledgements make a leader commit an entry that fewer members hold than it
 believes, and a later leader lacks it; if the number is odd, one is enough.  The thread that handles such a reply
 must have been held up before it took the lock: the RPC itself has timed out by the time another election starts.
 */
module LateAcks {
  import opened RaftLog
  import opened Quorums
  import opened RaftCore
  import opened RaftNode
  import opened Cluster
  import opened ClusterInv
  import opened ClusterSafety
  import opened LateRuns

  // ------------------------------------------------------------------------ the runs

  const N1 := Entry(1, 1, NOOP)
  const N2 := Entry(2, 1, NOOP)
  const N3 := Entry(3, 2, NOOP)
  const N4 := Entry(4, 2, NOOP)
  const N5 := Entry(5, 3, NOOP)

  /** The entries whose acknowledgements come late. */
  const FIRST := [N1, Entry(1, 2, CMD), Entry(1, 3, CMD)]
  const THIRD := [N2, N3, Entry(3, 3, CMD)]

  /** The logs of members 0 to 3, of the next ones up to `cut`, and of the rest. */
  function Layout(n: nat, cut: nat, zero: Log, one: Log, two: Log, three: Log, near: Log, far: Log): seq<Log> {
    seq(n, p => if p == 0 then zero else if p == 1 then one else if p == 2 then two else if p == 3 then three
                else if p <= cut then near else far)
  }

  /** Member 0 leads and everyone follows it, with the named logs. */
  ghost predicate AllFollow(s: Sys, t: nat, n: nat) {
    |s.nodes| == n && forall p: nat | 0 < p < n :: Follows(s.nodes[p], t)
  }

  lemma Beginning(n: nat, max: nat, cut: nat)
    ensures Cast(Init(n, max, false), 0, Layout(n, cut, [], [], [], [], [], [])) && Uncommitted(Init(n, max, false))
  {
  }

  /** Member 0 is elected by everyone else. */
  lemma WinAll(s0: Sys, s: Sys, late: nat, t: nat, logs: seq<Log>) returns (s': Sys)
    requires Reaches(s0, s, late) && Cast(s, t, logs) && Uncommitted(s) && |logs| >= 2
    requires !s.nodes[0].role.Leader? && s.nodes[0].term == t
    requires forall v: nat | 0 < v < |logs| :: UpToDate(LastIndex(logs[0]), LastTerm(logs[0]), logs[v])
    ensures Reaches(s0, s', late) && Cast(s', t + 1, logs[0 := logs[0] + [Entry(t + 1, |logs[0]| + 1, NOOP)]])
    ensures Uncommitted(s') && s.net.appendReplies <= s'.net.appendReplies && AllFollow(s', t + 1, |logs|)
    ensures Heads(s'.nodes[0], 0, t + 1, |logs|, |logs[0]| + 1)
    ensures forall p: nat | 0 < p < |logs| :: s'.nodes[0].next[p] == |logs[0]| + 1
  {
    hide Reaches, Cast, UpToDate, Heads;
    Named([], 1, 0, |logs|);
    assert [] + Range(1, |logs|) == Range(1, |logs|);
    CastSize(s, t, logs);
    s' := Win(s0, s, late, 0, Range(1, |logs|), t, logs);
  }

  /** Term 1: member 0 leads, takes two entries, and member 1 acknowledges them; the acknowledgement is held up. */
  lemma Term1(s0: Sys, n: nat, max: nat, cut: nat) returns (s: Sys)
    requires s0 == Init(n, max, false) && n >= 5
    ensures Reaches(s0, s, 0) && Cast(s, 1, Layout(n, cut, FIRST, FIRST, [], [], [], [])) && Uncommitted(s)
    ensures AllFollow(s, 1, n) && HasAck(s, 0, 1, 1, 3)
  {
    hide Reaches, Cast, Heads, HasAck, Uncommitted, Layout, Ids;
    ReachesSelf(s0);
    Beginning(n, max, cut);
    var logs := Layout(n, cut, [], [], [], [], [], []);
    LayoutEmpty(n, cut);
    s := WinAll(s0, s0, 0, 0, logs);
    var logs1 := logs[0 := [N1]];
    assert logs[0] + [N1] == [N1];
    CastSize(s, 1, logs1);
    s := TakeEntry(s0, s, 0, 0, 1, logs1);
    var logs2 := logs1[0 := [N1, Entry(1, 2, CMD)]];
    assert [N1] + [Entry(1, 2, CMD)] == [N1, Entry(1, 2, CMD)];
    s := TakeEntry(s0, s, 0, 0, 1, logs2);
    var logs3 := logs2[0 := FIRST];
    assert [N1, Entry(1, 2, CMD)] + [Entry(1, 3, CMD)] == FIRST;
    s := Ship(s0, s, 0, 0, 1, 1, logs3, 0);
    LayoutFirst(n, cut);
    assert logs3 == logs[0 := FIRST];
  }

  lemma LayoutEmpty(n: nat, cut: nat)
    requires n >= 5
    ensures var logs := Layout(n, cut, [], [], [], [], [], []);
            |logs| == n && logs[0] == [] && logs[1] == []
            && forall v: nat | 0 < v < n :: UpToDate(LastIndex(logs[0]), LastTerm(logs[0]), logs[v])
  {
  }

  lemma LayoutFirst(n: nat, cut: nat)
    requires n >= 5
    ensures Layout(n, cut, [], [], [], [], [], [])[0 := FIRST][1 := FIRST] == Layout(n, cut, FIRST, FIRST, [], [], [], [])
  {
  }

  /** Member 3 is elected in the next term by `voters` and overwrites the logs of `targets`, member 0's among them. */
  lemma Usurp(s0: Sys, s: Sys, late: nat, t: nat, logs: seq<Log>, voters: seq<nat>, targets: seq<nat>) returns (s': Sys)
    requires Reaches(s0, s, late) && Cast(s, t, logs) && Uncommitted(s) && |logs| >= 5 && AllFollow(s, t, |logs|)
    requires Others(voters, 3, |logs|) && 0 !in voters && |voters| + 1 >= Majority(|logs|)
    requires forall v: nat | v in voters :: UpToDate(LastIndex(logs[3]), LastTerm(logs[3]), logs[v])
    requires Others(targets, 3, |logs|) && forall v: nat | v in targets :: v == 0 || v in voters
    requires forall v: nat | v in targets ::
               Fits(logs[v], logs[3] + [Entry(t + 1, |logs[3]| + 1, NOOP)], |logs[3]|)
    ensures Reaches(s0, s', late) && Uncommitted(s') && s.net.appendReplies <= s'.net.appendReplies
    ensures Cast(s', t + 1, Copied(logs[3 := logs[3] + [Entry(t + 1, |logs[3]| + 1, NOOP)]], 3, targets))
    ensures 0 in targets ==> Follows(s'.nodes[0], t + 1)
  {
    hide Reaches, Fits, UpToDate, Heads, Ids, LaidOut, HasAck;
    var logs1 := logs[3 := logs[3] + [Entry(t + 1, |logs[3]| + 1, NOOP)]];
    var s1 := Win(s0, s, late, 3, voters, t, logs);
    HeadsNext(s1.nodes[3], 3, t + 1, |logs|, |logs1[3]|);
    forall v: nat | v in targets
      ensures s1.nodes[3].next[v] == |logs[3]| + 1 && (s1.nodes[v].term < t + 1 || Follows(s1.nodes[v], t + 1))
    {
      if v == 0 { assert Plays(s.nodes[0], t, logs[0], |logs|); }
    }
    s' := ShipAll(s0, s1, late, 3, targets, t + 1, logs1, |logs[3]|);
  }

  /** A reply, once sent, stays. */
  lemma AcksStay(s: Sys, s': Sys, v: nat, t: nat)
    requires s.net.appendReplies <= s'.net.appendReplies
    ensures HasAck(s, 0, v, t, 3) ==> HasAck(s', 0, v, t, 3)
  {
    if HasAck(s, 0, v, t, 3) { AckStays(s, s', 0, v, t, 3); }
  }

  /** Enough members are left when two are passed over. */
  lemma Quorate(n: nat)
    requires n >= 5
    ensures n - 2 >= Majority(n) >= 3
  {
  }

  /** Term 2: member 3, elected without 0 and 1, overwrites the log of 0 and reaches everyone but 1. */
  lemma Term2(s0: Sys, n: nat, max: nat, cut: nat) returns (s: Sys)
    requires s0 == Init(n, max, false) && n >= 5
    ensures Reaches(s0, s, 0) && Cast(s, 2, Layout(n, cut, [N2], FIRST, [N2], [N2], [N2], [N2])) && Uncommitted(s)
    ensures Follows(s.nodes[0], 2) && HasAck(s, 0, 1, 1, 3)
  {
    hide Reaches, Cast, HasAck, Uncommitted, Layout, Ids, AllFollow;
    var s1 := Term1(s0, n, max, cut);
    var logs := Layout(n, cut, FIRST, FIRST, [], [], [], []);
    Named([2], 4, 3, n);
    Named([0, 2], 4, 3, n);
    Quorate(n);
    Layout2(n, cut);
    s := Usurp(s0, s1, 0, 1, logs, [2] + Range(4, n), [0, 2] + Range(4, n));
    AcksStay(s1, s, 1, 1);
  }

  lemma Layout2(n: nat, cut: nat)
    requires n >= 5
    ensures var logs := Layout(n, cut, FIRST, FIRST, [], [], [], []);
            && |logs| == n && logs[3] + [Entry(2, |logs[3]| + 1, NOOP)] == [N2]
            && (forall v: nat | v in [2] + Range(4, n) :: UpToDate(LastIndex(logs[3]), LastTerm(logs[3]), logs[v]))
            && (forall v: nat | v in [0, 2] + Range(4, n) :: Fits(logs[v], [N2], 0))
            && Copied(logs[3 := [N2]], 3, [0, 2] + Range(4, n)) == Layout(n, cut, [N2], FIRST, [N2], [N2], [N2], [N2])
  {
    InRange(4, n);
  }

  /** Term 3: member 0 leads again and member 2 acknowledges two more entries; this acknowledgement is held up too. */
  lemma Term3(s0: Sys, n: nat, max: nat, cut: nat) returns (s: Sys)
    requires s0 == Init(n, max, false) && n >= 5
    ensures Reaches(s0, s, 0) && Cast(s, 3, Layout(n, cut, THIRD, FIRST, THIRD, [N2], [N2], [N2])) && Uncommitted(s)
    ensures AllFollow(s, 3, n) && HasAck(s, 0, 1, 1, 3) && HasAck(s, 0, 2, 3, 3)
  {
    hide Reaches, Cast, Heads, HasAck, Uncommitted, Layout, Ids;
    var s2 := Term2(s0, n, max, cut);
    var logs := Layout(n, cut, [N2], FIRST, [N2], [N2], [N2], [N2]);
    Layout3(n, cut);
    s := WinAll(s0, s2, 0, 2, logs);
    AcksStay(s2, s, 1, 1);
    var logs1 := logs[0 := [N2, N3]];
    CastSize(s, 3, logs1);
    var s3 := TakeEntry(s0, s, 0, 0, 3, logs1);
    AcksStay(s, s3, 1, 1);
    var logs2 := logs1[0 := THIRD];
    s := Ship(s0, s3, 0, 0, 2, 3, logs2, 1);
    AcksStay(s3, s, 1, 1);
    assert logs2 == logs[0 := THIRD];
  }

  lemma Layout3(n: nat, cut: nat)
    requires n >= 5
    ensures var logs := Layout(n, cut, [N2], FIRST, [N2], [N2], [N2], [N2]);
            && |logs| == n && logs[0] == logs[2] == [N2]
            && (forall v: nat | 0 < v < n :: UpToDate(LastIndex(logs[0]), LastTerm(logs[0]), logs[v]))
            && Fits([N2], THIRD, 1)
            && logs[0 := THIRD][2 := THIRD] == Layout(n, cut, THIRD, FIRST, THIRD, [N2], [N2], [N2])
    ensures [N2] + [Entry(3, |[N2]| + 1, NOOP)] == [N2, N3] && [N2, N3] + [Entry(3, |[N2, N3]| + 1, CMD)] == THIRD
  {
  }

  /** Term 4: member 3, elected without 0 and 2, overwrites the log of 0 once more and reaches everyone but 1 and 2. */
  lemma Term4(s0: Sys, n: nat, max: nat, cut: nat) returns (s: Sys)
    requires s0 == Init(n, max, false) && n >= 5
    ensures Reaches(s0, s, 0) && Cast(s, 4, Layout(n, cut, [N2, N4], FIRST, THIRD, [N2, N4], [N2, N4], [N2, N4]))
    ensures Uncommitted(s) && Follows(s.nodes[0], 4) && HasAck(s, 0, 1, 1, 3) && HasAck(s, 0, 2, 3, 3)
  {
    hide Reaches, Cast, HasAck, Uncommitted, Layout, Ids, AllFollow;
    var s3 := Term3(s0, n, max, cut);
    var logs := Layout(n, cut, THIRD, FIRST, THIRD, [N2], [N2], [N2]);
    Named([1], 4, 3, n);
    Named([0], 4, 3, n);
    Quorate(n);
    Layout4(n, cut);
    s := Usurp(s0, s3, 0, 3, logs, [1] + Range(4, n), [0] + Range(4, n));
    AcksStay(s3, s, 1, 1);
    AcksStay(s3, s, 2, 3);
  }

  lemma Layout4(n: nat, cut: nat)
    requires n >= 5
    ensures var logs := Layout(n, cut, THIRD, FIRST, THIRD, [N2], [N2], [N2]);
            && |logs| == n && |logs[3]| == 1 && logs[3] + [Entry(4, |logs[3]| + 1, NOOP)] == [N2, N4]
            && (forall v: nat | v in [1] + Range(4, n) :: UpToDate(LastIndex(logs[3]), LastTerm(logs[3]), logs[v]))
            && (forall v: nat | v in [0] + Range(4, n) :: Fits(logs[v], [N2, N4], 1))
            && Copied(logs[3 := [N2, N4]], 3, [0] + Range(4, n))
               == Layout(n, cut, [N2, N4], FIRST, THIRD, [N2, N4], [N2, N4], [N2, N4])
  {
    InRange(4, n);
  }

  // ------------------------------------------------------------------ the false commit

  /** Member 0, leading again, reaches members 4 to `cut` with its new entry, and they acknowledge it. */
  lemma Reach(s0: Sys, s: Sys, late: nat, t: nat, logs: seq<Log>, cut: nat) returns (s': Sys)
    requires Reaches(s0, s, late) && Cast(s, t, logs) && Uncommitted(s) && cut < |logs| && |logs| >= 5
    requires Follows(s.nodes[0], t)
    requires forall v: nat | 0 < v < |logs| :: UpToDate(LastIndex(logs[0]), LastTerm(logs[0]), logs[v])
    requires forall v: nat | 4 <= v <= cut ::
               Fits(logs[v], logs[0] + [Entry(t + 1, |logs[0]| + 1, NOOP)], |logs[0]|)
    ensures var log := logs[0] + [Entry(t + 1, |logs[0]| + 1, NOOP)]; var vs := Range(4, cut + 1);
            && Reaches(s0, s', late) && s.net.appendReplies <= s'.net.appendReplies
            && Cast(s', t + 1, Copied(logs[0 := log], 0, vs)) && Follows(s'.nodes[3], t + 1)
            && Counts(s'.nodes[0], t + 1, log, |logs|, {0} + Members(vs))
  {
    hide Reaches, Fits, UpToDate, Heads, Ids, LaidOut, HasAck, Counts, Plays, Sent, Members, Copied;
    var log := logs[0] + [Entry(t + 1, |logs[0]| + 1, NOOP)];
    var logs1, vs := logs[0 := log], Range(4, cut + 1);
    InRange(4, cut + 1);
    var s1 := WinAll(s0, s, late, t, logs);
    HeadsNext(s1.nodes[0], 0, t + 1, |logs|, |log|);
    var s2 := ShipAll(s0, s1, late, 0, vs, t + 1, logs1, |logs[0]|);
    var logs2 := Copied(logs1, 0, vs);
    AfterSent(s1, s2, vs, t + 1, logs1);
    HeadsCounts(s2, 0, t + 1, logs2);
    s' := TakeAcks(s0, s2, late, 0, vs, t + 1, log, {0});
    CastStays(s2, s', t + 1, logs2, {0} + Members(vs));
  }

  lemma AfterSent(s: Sys, s': Sys, vs: seq<nat>, t: nat, logs: seq<Log>)
    requires |logs| >= 5 && |s.nodes| == |logs| && Sent(s, s', 0, vs, t, logs) && 0 !in vs && 3 !in vs
    ensures s'.nodes[0] == s.nodes[0] && s'.nodes[3] == s.nodes[3] && s.net.appendReplies <= s'.net.appendReplies
    ensures Uncommitted(s') && Cast(s', t, Copied(logs, 0, vs)) && |Copied(logs, 0, vs)| == |logs|
    ensures Copied(logs, 0, vs)[0] == logs[0] && |s'.nodes| == |logs|
    ensures forall v: nat | v in vs :: v < |logs| && HasAck(s', 0, v, t, |logs[0]|)
  {
    hide Cast, HasAck, Uncommitted;
  }

  /** Counting replies changes nobody's log. */
  lemma CastStays(s: Sys, s': Sys, t: nat, logs: seq<Log>, who: set<nat>)
    requires Cast(s, t, logs) && Touches(s, s', {0}) && |logs| >= 1 && Counts(s'.nodes[0], t, logs[0], |logs|, who)
    ensures Cast(s', t, logs)
  {
    hide LaidOut;
    forall p: nat | p < |logs| ensures Plays(s'.nodes[p], t, logs[p], |logs|) {
      assert Plays(s.nodes[p], t, logs[p], |logs|);
    }
  }

  /** One more acknowledgement, from an earlier term. */
  lemma TakeLate(s0: Sys, s: Sys, late: nat, v: nat, t: nat, logs: seq<Log>, who: set<nat>, t0: nat) returns (s': Sys)
    requires Reaches(s0, s, late) && Cast(s, t, logs) && |logs| >= 5 && 0 < v < |logs| && t0 < t && |logs[0]| <= 3
    requires !s0.h.trusted
    requires Counts(s.nodes[0], t, logs[0], |logs|, who) && HasAck(s, 0, v, t0, 3) && Follows(s.nodes[3], t)
    ensures Reaches(s0, s', late + 1) && Cast(s', t, logs) && s.net.appendReplies <= s'.net.appendReplies
    ensures Counts(s'.nodes[0], t, logs[0], |logs|, who + {v}) && Follows(s'.nodes[3], t)
  {
    hide Reaches, Counts, HasAck;
    s' := TakeAck(s0, s, late, 0, v, t, logs[0], who, t0, 3);
    CastStays(s, s', t, logs, who + {v});
  }

  /** Member 3 is elected by members that lack the committed entry. */
  lemma Overthrow(s0: Sys, s: Sys, late: nat, t: nat, logs: seq<Log>, cut: nat) returns (s': Sys)
    requires Reaches(s0, s, late) && Cast(s, t, logs) && |logs| >= 5 && 3 <= cut < |logs| && Follows(s.nodes[3], t)
    requires |logs| - cut + 2 >= Majority(|logs|)
    requires forall v: nat | v in [1, 2] + Range(cut + 1, |logs|) ::
               UpToDate(LastIndex(logs[3]), LastTerm(logs[3]), logs[v])
    ensures Reaches(s0, s', late) && |s'.nodes| == |logs| && s'.nodes[0] == s.nodes[0]
    ensures var y := s'.nodes[3]; y.role.Leader? && y.term == t + 1 && y.log == logs[3] + [Entry(t + 1, |logs[3]| + 1, NOOP)]
  {
    hide Reaches, UpToDate, Ids, LaidOut;
    Named([1, 2], cut + 1, 3, |logs|);
    s' := Win(s0, s, late, 3, [1, 2] + Range(cut + 1, |logs|), t, logs);
    assert Plays(s'.nodes[3], t + 1, logs[3] + [Entry(t + 1, |logs[3]| + 1, NOOP)], |logs|);
  }

  /** What any node has committed is in the log of every leader of its term or a later one. */
  ghost predicate CommitsSafe(s: Sys) {
    forall i: nat, j: nat | i < |s.nodes| && j < |s.nodes| && s.nodes[i].role.Leader?
                          && s.nodes[i].term >= s.nodes[j].term :: HoldsCommitted(s, i, j)
  }

  ghost predicate HoldsCommitted(s: Sys, i: nat, j: nat)
    requires i < |s.nodes| && j < |s.nodes|
  {
    Agree(s.nodes[j].log, s.nodes[i].log, s.nodes[j].commit)
  }

  lemma RangeGrows(a: nat, b: nat)
    requires a <= b
    ensures Members(Range(a, b + 1)) == Members(Range(a, b)) + {b} && b !in Members(Range(a, b))
  {
    assert Range(a, b + 1) == Range(a, b) + [b];
  }

  lemma {:induction false} RangeCount(cut: nat)
    requires cut >= 3
    ensures |Members(Range(4, cut + 1))| == cut - 3
    decreases cut
  {
    hide Members, Range;
    if cut > 3 {
      RangeCount(cut - 1);
      RangeGrows(4, cut);
      OneMore(Members(Range(4, cut)), cut);
    } else {
      assert Range(4, cut + 1) == [];
      NoMembers();
    }
  }

  lemma NoMembers()
    ensures Members([]) == {}
  {
  }

  lemma OneMore(who: set<nat>, v: nat)
    requires v !in who
    ensures |who + {v}| == |who| + 1
  {
  }

  /** Whom member 0 counts: itself, members 4 to `cut`, and the late ones. */
  lemma Enough(cut: nat, who: set<nat>)
    requires cut >= 3 && who == {0} + Members(Range(4, cut + 1))
    ensures |who + {1}| == cut - 1 && |who + {1} + {2}| == cut
  {
    InRange(4, cut + 1);
    RangeCount(cut);
    assert who == Members(Range(4, cut + 1)) + {0};
    OneMore(Members(Range(4, cut + 1)), 0);
    OneMore(who, 1);
    OneMore(who + {1}, 2);
  }

  /**
   With five nodes or more, whatever their number, a run with two late acknowledgements ends with a committed entry
   lost: member 0 has committed an entry that the leader of a later term does not have.
   */
  lemma LateAcksLoseCommit(n: nat, max: nat) returns (s: Sys)
    requires n >= 5
    ensures Reaches(Init(n, max, false), s, 2) && !CommitsSafe(s)
  {
    hide Reaches, Cast, Ids, CommitsSafe, Layout;
    var cut := Majority(n);
    var s6 := FalselyCommitted(n, max, cut);
    Layout6(n, cut);
    Quorate(n);
    var logs := Layout(n, cut, [N2, N4, N5], FIRST, THIRD, [N2, N4], [N2, N4, N5], [N2, N4]);
    s := Overthrow(Init(n, max, false), s6, 2, 5, logs, cut);
    Lost(s);
  }

  /** Term 5: member 0 reaches members 4 to `cut`; both late acknowledgements arrive, and it commits. */
  lemma FalselyCommitted(n: nat, max: nat, cut: nat) returns (s: Sys)
    requires n >= 5 && cut == Majority(n)
    ensures Reaches(Init(n, max, false), s, 2) && |s.nodes| == n && Follows(s.nodes[3], 5)
    ensures Cast(s, 5, Layout(n, cut, [N2, N4, N5], FIRST, THIRD, [N2, N4], [N2, N4, N5], [N2, N4]))
    ensures var x := s.nodes[0]; x.commit == 3 && x.log == [N2, N4, N5] && x.term == 5
  {
    hide Reaches, Cast, HasAck, Uncommitted, Layout, Ids, Counts, Members;
    var s0 := Init(n, max, false);
    var s4 := Term4(s0, n, max, cut);
    Layout5(n, cut);
    Quorate(n);
    s := Reach(s0, s4, 0, 4, Layout(n, cut, [N2, N4], FIRST, THIRD, [N2, N4], [N2, N4], [N2, N4]), cut);
    AcksStay(s4, s, 1, 1);
    AcksStay(s4, s, 2, 3);
    var who := {0} + Members(Range(4, cut + 1));
    var logs := Layout(n, cut, [N2, N4, N5], FIRST, THIRD, [N2, N4], [N2, N4, N5], [N2, N4]);
    Layout6(n, cut);
    var s5 := TakeLate(s0, s, 0, 1, 5, logs, who, 1);
    AcksStay(s, s5, 2, 3);
    s := TakeLate(s0, s5, 1, 2, 5, logs, who + {1}, 3);
    Enough(cut, who);
    CastSize(s, 5, logs);
    CountsCommit(s.nodes[0], 5, [N2, N4, N5], n, who + {1} + {2});
  }

  lemma CountsCommit(x: Node, t: nat, log: Log, n: nat, who: set<nat>)
    requires Counts(x, t, log, n, who) && |who| >= Majority(n)
    ensures x.commit == |log| && x.log == log && x.term == t
  {
  }

  lemma Layout5(n: nat, cut: nat)
    requires n >= 5 && cut < n
    ensures var logs := Layout(n, cut, [N2, N4], FIRST, THIRD, [N2, N4], [N2, N4], [N2, N4]);
            && |logs| == n && |logs[0]| == 2 && logs[0] + [Entry(5, |logs[0]| + 1, NOOP)] == [N2, N4, N5]
            && (forall v: nat | 0 < v < n :: UpToDate(LastIndex(logs[0]), LastTerm(logs[0]), logs[v]))
            && (forall v: nat | 4 <= v <= cut :: Fits(logs[v], [N2, N4, N5], 2))
            && Copied(logs[0 := [N2, N4, N5]], 0, Range(4, cut + 1))
               == Layout(n, cut, [N2, N4, N5], FIRST, THIRD, [N2, N4], [N2, N4, N5], [N2, N4])
  {
    InRange(4, cut + 1);
  }

  lemma Layout6(n: nat, cut: nat)
    requires n >= 5 && 3 <= cut < n
    ensures var logs := Layout(n, cut, [N2, N4, N5], FIRST, THIRD, [N2, N4], [N2, N4, N5], [N2, N4]);
            && |logs| == n && logs[0] == [N2, N4, N5]
            && logs[3] + [Entry(6, |logs[3]| + 1, NOOP)] == [N2, N4, Entry(6, 3, NOOP)]
            && forall v: nat | v in [1, 2] + Range(cut + 1, n) ::
                 UpToDate(LastIndex(logs[3]), LastTerm(logs[3]), logs[v])
  {
    InRange(cut + 1, n);
  }

  lemma Lost(s: Sys)
    requires |s.nodes| > 3 && s.nodes[3].role.Leader? && s.nodes[3].term >= s.nodes[0].term
    requires s.nodes[0].commit == |s.nodes[0].log| == |s.nodes[3].log| && s.nodes[3].log != s.nodes[0].log
    ensures !CommitsSafe(s)
  {
    assert !HoldsCommitted(s, 3, 0);
  }

  // ---------------------------------------------------- one is enough for odd numbers

  /** With an odd number of nodes from five on, a single late acknowledgement is enough. */
  lemma OneLateAckLosesCommit(n: nat, max: nat) returns (s: Sys)
    requires n >= 5 && n % 2 == 1
    ensures Reaches(Init(n, max, false), s, 1) && !CommitsSafe(s)
  {
    hide Reaches, Cast, HasAck, Uncommitted, Layout, Ids, Counts, Members, CommitsSafe;
    var s0, cut := Init(n, max, false), Majority(n) + 1;
    var s2 := Term2(s0, n, max, cut);
    LayoutOdd(n, cut);
    var s3 := Reach(s0, s2, 0, 2, Layout(n, cut, [N2], FIRST, [N2], [N2], [N2], [N2]), cut);
    AcksStay(s2, s3, 1, 1);
    var who := {0} + Members(Range(4, cut + 1));
    var logs := Layout(n, cut, [N2, N3], FIRST, [N2], [N2], [N2, N3], [N2]);
    var s4 := TakeLate(s0, s3, 0, 1, 3, logs, who, 1);
    Enough(cut, who);
    CastSize(s4, 3, logs);
    CountsCommit(s4.nodes[0], 3, [N2, N3], n, who + {1});
    s := Overthrow(s0, s4, 1, 3, logs, cut);
    Lost(s);
  }

  lemma LayoutOdd(n: nat, cut: nat)
    requires n >= 5 && n % 2 == 1 && cut == Majority(n) + 1
    ensures 3 <= cut < n && n - cut + 2 >= Majority(n)
    ensures var logs := Layout(n, cut, [N2], FIRST, [N2], [N2], [N2], [N2]);
            && |logs| == n && |logs[0]| == 1 && logs[0] + [Entry(3, |logs[0]| + 1, NOOP)] == [N2, N3]
            && (forall v: nat | 0 < v < n :: UpToDate(LastIndex(logs[0]), LastTerm(logs[0]), logs[v]))
            && (forall v: nat | 4 <= v <= cut :: Fits(logs[v], [N2, N3], 1))
            && Copied(logs[0 := [N2, N3]], 0, Range(4, cut + 1))
               == Layout(n, cut, [N2, N3], FIRST, [N2], [N2], [N2, N3], [N2])
    ensures var logs := Layout(n, cut, [N2, N3], FIRST, [N2], [N2], [N2, N3], [N2]);
            && |logs| == n && logs[0] == [N2, N3]
            && logs[3] + [Entry(4, |logs[3]| + 1, NOOP)] == [N2, N4]
            && forall v: nat | v in [1, 2] + Range(cut + 1, n) ::
                 UpToDate(LastIndex(logs[3]), LastTerm(logs[3]), logs[v])
  {
    InRange(4, cut + 1);
    InRange(cut + 1, n);
  }

  // --------------------------------------------------------- exactly when it is safe

  /** Small clusters need no assumption: their histories are always trusted. */
  lemma SmallIsSafe(n: nat, max: nat, events: seq<Event>, s: Sys)
    requires n <= 4 && RunsTo(n, max, false, events, s)
    ensures CommitsSafe(s)
  {
    hide Enabled, Next, RunFrom, StateAfter, Inv;
    var s0 := Init(n, max, false);
    InitInv(n, max, false);
    RunRemembers(s0, events);
    assert Reachable(s);
    forall i: nat, j: nat | i < |s.nodes| && j < |s.nodes| && s.nodes[i].role.Leader?
                            && s.nodes[i].term >= s.nodes[j].term
      ensures HoldsCommitted(s, i, j)
    {
      Now(s);
      LeaderHasCommitted(s, [], j, i);
      assert s.nodes[i].log[..s.nodes[j].commit] == s.nodes[j].log[..s.nodes[j].commit];
    }
  }

  lemma Now(s: Sys)
    ensures RunFrom(s, []) && StateAfter(s, []) == s
  {
  }

  /**
   Without the environment assumption, committed entries are safe in every run if and only if there are at most four
   nodes.
   */
  lemma SafeIffSmall(n: nat)
    ensures n <= 4 <==> forall max: nat, events: seq<Event>, s: Sys :: RunsTo(n, max, false, events, s) ==> CommitsSafe(s)
  {
    hide Reaches, CommitsSafe, Init, RunsTo;
    if n <= 4 {
      forall max: nat, events: seq<Event>, s: Sys | RunsTo(n, max, false, events, s)
        ensures CommitsSafe(s)
      {
        SmallIsSafe(n, max, events, s);
      }
    } else {
      var s := LateAcksLoseCommit(n, 1);
      ReachesRunsTo(n, 1, false, s, 2);
    }
  }
}
