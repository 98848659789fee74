/** A follower taking in entries and a leader committing them keep the core invariant. */
module RaftCoreCommits {
  import opened RaftLog
  import opened Quorums
  import opened RaftCore
  import opened RaftCoreFrames

  /** What a commit decision covers is settled. */
  lemma MarkSettled(c: Core, m: Mark)
    requires OwnEntry(c.h, m.term, m.len) && |Holders(c, m.term, m.len)| >= Majority(|c.members|)
    ensures Settled(c, m.term, m.len)
  {
    SubsetCount(Holders(c, m.term, m.len), Hopefuls(c, m.term, m.len));
  }

  // ------------------------------------------------------------------ Accept

  ghost predicate AcceptStep(c: Core, i: nat, len: nat, log: Log, d: nat) {
    && i < |c.members| && c.members[i].role.Follower?
    && OwnEntry(c.h, c.members[i].term, len)
    && TakesIn(c.members[i].log, c.h.ledgers[c.members[i].term], len, log, d)
  }

  /** A follower's cut never reaches into anything it agrees on with its current leader. */
  lemma CutBeyond(log: Log, leader: Log, len: nat, log': Log, d: nat, k: nat)
    requires TakesIn(log, leader, len, log', d) && Agree(log, leader, k)
    ensures Agree(log, log', k)
  {
    assert d < len && d < |log| ==> log[d] != leader[d];
  }

  lemma AcceptEvolves(c: Core, i: nat, len: nat, log: Log, d: nat)
    requires AcceptStep(c, i, len, log, d)
    ensures Evolves(c, Accept(c, i, len, log)) && OnlyMember(c, Accept(c, i, len, log), i)
  {
    var c' := Accept(c, i, len, log);
    forall p: nat, t: nat ensures AckedLater(c, c', p, t) {}
  }

  /** What the follower acknowledged and is settled, its current leader has too, so it survives the cut. */
  lemma AcceptKeepsSettled(c: Core, i: nat, len: nat, log: Log, d: nat, t: nat, k: nat)
    requires CoreInv(c) && AcceptStep(c, i, len, log, d)
    requires Acked(c.h, i, t) >= k && Settled(c, t, k)
    ensures Agree(log, c.h.ledgers[t], k)
  {
    hide CoreInv;
    var u := c.members[i].term;
    TheAck(c, i, t);
    TheKept(c, i, t, k);
    TheLater(c, t, u, k);
    CutBeyond(c.members[i].log, c.h.ledgers[u], len, log, d, k);
  }

  lemma AcceptKept(c: Core, i: nat, len: nat, log: Log, d: nat)
    requires CoreInv(c) && AcceptStep(c, i, len, log, d)
    ensures AllKept(Accept(c, i, len, log))
  {
    hide CoreInv;
    var c' := Accept(c, i, len, log);
    AcceptEvolves(c, i, len, log, d);
    forall p: nat, t: nat, k: nat ensures KeptOk(c', p, t, k) {
      if p < |c.members| && Acked(c'.h, p, t) >= k && Settled(c', t, k) {
        SettledBack(c, c', t, k);
        if p != i {
          TheKept(c, p, t, k);
        } else if Acked(c.h, i, t) >= k {
          AcceptKeepsSettled(c, i, len, log, d, t, k);
        }
      }
    }
  }

  /** A commit index is never cut into. */
  lemma AcceptVouched(c: Core, i: nat, len: nat, log: Log, d: nat)
    requires CoreInv(c) && AcceptStep(c, i, len, log, d)
    ensures c.h.trusted ==> Agree(c.members[i].log, log, c.members[i].commit)
    ensures Vouched(c.h, log, c.members[i].commit, c.members[i].term)
  {
    hide CoreInv;
    TheMember(c, i);
    var x := c.members[i];
    if x.commit > 0 && c.h.trusted {
      var m :| m in c.h.marks && Covers(c.h, m, x.log, x.commit, x.term);
      TheMark(c, m);
      MarkSettled(c, m);
      TheLater(c, m.term, x.term, m.len);
      CutBeyond(x.log, c.h.ledgers[x.term], len, log, d, x.commit);
      assert Covers(c.h, m, log, x.commit, x.term);
    }
  }

  lemma AcceptMember(c: Core, i: nat, len: nat, log: Log, d: nat)
    requires CoreInv(c) && AcceptStep(c, i, len, log, d)
    ensures MemberOk(Accept(c, i, len, log).members[i], i, Accept(c, i, len, log).h)
  {
    hide CoreInv;
    TheMember(c, i);
    TheLedger(c, c.members[i].term);
    AcceptVouched(c, i, len, log, d);
    var leader := c.h.ledgers[c.members[i].term];
    BackedPrefix(leader, len, c.h.ledgers);
  }

  /** The leader of a term has already acknowledged its whole ledger. */
  lemma AcceptLeadersAck(c: Core, i: nat, len: nat, log: Log, d: nat, t: nat)
    requires CoreInv(c) && AcceptStep(c, i, len, log, d) && t in c.h.leaders
    ensures Acked(Accept(c, i, len, log).h, c.h.leaders[t], t) == Acked(c.h, c.h.leaders[t], t)
  {
    hide CoreInv;
    TheLedger(c, t);
  }

  lemma AcceptLedgers(c: Core, i: nat, len: nat, log: Log, d: nat)
    requires CoreInv(c) && AcceptStep(c, i, len, log, d)
    ensures AllLedgers(Accept(c, i, len, log))
  {
    hide AllMembers, AllLedgers, AllBids, AllBallots, AllTwice, AllAcks, AllKept, AllCarried, AllLater, AllMarks;
    var c' := Accept(c, i, len, log);
    AcceptEvolves(c, i, len, log, d);
    forall t: nat | t in c.h.leaders
      ensures Acked(c'.h, c.h.leaders[t], t) == Acked(c.h, c.h.leaders[t], t)
    {
      AcceptLeadersAck(c, i, len, log, d, t);
    }
    LedgersCarry(c, c');
  }

  lemma AcceptAcks(c: Core, i: nat, len: nat, log: Log, d: nat)
    requires CoreInv(c) && AcceptStep(c, i, len, log, d)
    ensures AllAcks(Accept(c, i, len, log))
  {
    hide AllMembers, AllLedgers, AllBids, AllBallots, AllTwice, AllKept, AllCarried, AllLater, AllMarks, TakesIn;
    var c' := Accept(c, i, len, log);
    forall a: Acker | a in c'.h.acks ensures AckOk(c', a) {
      if a in c.h.acks { assert AckOk(c, a); }
    }
  }

  lemma AcceptKeeps(c: Core, i: nat, len: nat, log: Log, d: nat)
    requires CoreInv(c) && AcceptStep(c, i, len, log, d)
    ensures CoreInv(Accept(c, i, len, log))
  {
    hide AllMembers, AllLedgers, AllBids, AllBallots, AllTwice, AllAcks, AllKept, AllCarried, AllLater, AllMarks;
    var c' := Accept(c, i, len, log);
    AcceptEvolves(c, i, len, log, d);
    AcceptMember(c, i, len, log, d);
    MembersCarry(c, c', i);
    AcceptLedgers(c, i, len, log, d);
    BidsCarry(c, c');
    forall b: Ballot | b in c'.h.ballots && b.voter == i ensures BallotOk(c', b) { TheBallot(c, b); }
    BallotsCarry(c, c', i);
    assert c'.h.ballots == c.h.ballots;
    TwiceSame(c.h, c'.h);
    AcceptAcks(c, i, len, log, d);
    AcceptKept(c, i, len, log, d);
    forall b: Ballot, t: nat, k: nat | b !in c.h.ballots ensures CarriedOk(c', b, t, k) {}
    CarriedCarry(c, c');
    LaterCarry(c, c');
    MarksCarry(c, c');
  }

  // ------------------------------------------------------------------ Decree

  /** Two commit decisions never disagree, and one of a later term covers more. */
  lemma MarksComparable(c: Core, a: Mark, b: Mark)
    requires CoreInv(c) && Settled(c, a.term, a.len) && Settled(c, b.term, b.len)
    requires a.term <= b.term
    ensures Agree(c.h.ledgers[a.term], c.h.ledgers[b.term], if a.len <= b.len then a.len else b.len)
    ensures a.term < b.term ==> a.len < b.len
  {
    hide CoreInv;
    TheLater(c, a.term, b.term, a.len);
    TheLedger(c, b.term);
    if a.term < b.term {
      assert c.h.ledgers[b.term][a.len - 1].term == a.term;
    }
  }

  /** The longest committed prefix, in the ledger of the decision that made it so. */
  lemma DecidedAgrees(c: Core, t: nat, k: nat)
    requires CoreInv(c) && c.h.trusted && Settled(c, t, k)
    ensures Agree(c.h.decided, c.h.ledgers[t], if |c.h.decided| < k then |c.h.decided| else k)
  {
    if c.h.decided != [] {
      var m :| m in c.h.marks && m.len == |c.h.decided|;
      TheMark(c, m);
      MarkSettled(c, m);
      if m.term <= t {
        MarksComparable(c, m, Mark(t, k));
      } else {
        MarksComparable(c, Mark(t, k), m);
      }
    }
  }

  ghost predicate DecreeStep(c: Core, i: nat, k: nat) {
    && i < |c.members| && c.members[i].role.Leader?
    && k <= |c.members[i].log|
    && (c.h.trusted ==>
          OwnEntry(c.h, c.members[i].term, k) && |Holders(c, c.members[i].term, k)| >= Majority(|c.members|))
  }

  lemma DecreeEvolves(c: Core, i: nat, k: nat)
    requires CoreInv(c) && DecreeStep(c, i, k)
    ensures var c' := Decree(c, i, k);
            && Evolves(c, c') && OnlyMember(c, c', i)
            && (c.h.trusted ==> Agree(c.h.decided, c'.h.decided, |c.h.decided|))
  {
    hide CoreInv;
    var c' := Decree(c, i, k);
    forall p: nat, t: nat ensures AckedLater(c, c', p, t) {}
    var t := c.members[i].term;
    TheMember(c, i);
    if c.h.trusted {
      MarkSettled(c, Mark(t, k));
      DecidedAgrees(c, t, k);
    }
  }

  lemma DecreeMarks(c: Core, i: nat, k: nat)
    requires CoreInv(c) && DecreeStep(c, i, k)
    ensures AllMarks(Decree(c, i, k))
  {
    hide CoreInv;
    var c' := Decree(c, i, k);
    var t := c.members[i].term;
    DecreeEvolves(c, i, k);
    TheMember(c, i);
    if c.h.trusted {
      MarkSettled(c, Mark(t, k));
      DecidedAgrees(c, t, k);
    }
    forall m: Mark | m in c'.h.marks ensures MarkOk(c', m) {
      if !c.h.trusted {
        assert !c'.h.trusted;
      } else if m != Mark(t, k) {
        TheMark(c, m);
        MarkFrame(c, c', m);
      } else {
        assert Holders(c', t, k) == Holders(c, t, k);
      }
    }
    TheDecided(c);
    if |c.h.decided| < k {
      assert Mark(t, k) in c'.h.marks;
    }
  }

  lemma TheDecided(c: Core)
    requires CoreInv(c)
    ensures DecidedOk(c.h)
  {
  }

  lemma DecreeMember(c: Core, i: nat, k: nat)
    requires CoreInv(c) && DecreeStep(c, i, k)
    ensures MemberOk(Decree(c, i, k).members[i], i, Decree(c, i, k).h)
  {
    hide CoreInv;
    var c' := Decree(c, i, k);
    TheMember(c, i);
    assert Covers(c'.h, Mark(c.members[i].term, k), c.members[i].log, k, c.members[i].term);
  }

  lemma DecreeKeeps(c: Core, i: nat, k: nat)
    requires CoreInv(c) && DecreeStep(c, i, k)
    ensures CoreInv(Decree(c, i, k))
  {
    hide AllMembers, AllLedgers, AllBids, AllBallots, AllTwice, AllAcks, AllKept, AllCarried, AllLater, AllMarks;
    var c' := Decree(c, i, k);
    DecreeEvolves(c, i, k);
    DecreeMember(c, i, k);
    MembersCarry(c, c', i);
    LedgersCarry(c, c');
    BidsCarry(c, c');
    forall b: Ballot | b in c'.h.ballots && b.voter == i ensures BallotOk(c', b) { TheBallot(c, b); }
    BallotsCarry(c, c', i);
    TwiceSame(c.h, c'.h);
    AcksCarry(c, c');
    KeptCarry(c, c');
    forall b: Ballot, t: nat, k: nat | b !in c.h.ballots ensures CarriedOk(c', b, t, k) {}
    CarriedCarry(c, c');
    LaterCarry(c, c');
    DecreeMarks(c, i, k);
  }
}
