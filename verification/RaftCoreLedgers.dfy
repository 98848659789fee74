/** A leader creating an entry, on election or for a client, keeps the core invariant. */
module RaftCoreLedgers {
  import opened Wrappers
  import opened RaftLog
  import opened Quorums
  import opened RaftCore
  import opened RaftCoreFrames

  /**
   Election safety: a candidate with a majority is the first of its term.  A member that stepped down to an
   equal-term leader may vote twice in a term, but then it is itself one of the two candidates and never leads.
   */
  lemma FirstOfItsTerm(c: Core, i: nat)
    requires CoreInv(c) && i < |c.members| && c.members[i].role.Candidate?
    requires |Voters(c, c.members[i].term, i)| >= Majority(|c.members|)
    ensures c.members[i].term !in c.h.ledgers
  {
    hide CoreInv;
    var t := c.members[i].term;
    TheMember(c, i);
    TheLedger(c, t);
    if t in c.h.ledgers {
      var j := c.h.leaders[t];
      var p := Overlap(|c.members|, Voters(c, t, i), Voters(c, t, j));
      TheTwice(c, p, t, i, j);
      TheBallot(c, Ballot(p, t, i));
      TheBallot(c, Ballot(p, t, j));
    }
  }

  /** Member `i`, of term `t`, appends `e` to its log, which is or becomes the ledger of `t`. */
  ghost predicate LedgerStep(c: Core, c': Core, i: nat, t: nat, e: Entry) {
    && i < |c.members| && OnlyMember(c, c', i)
    && c.members[i].term == t == c'.members[i].term && e.term == t
    && c'.members[i].log == c.members[i].log + [e] && e.index == |c.members[i].log| + 1
    && c'.h.ledgers == c.h.ledgers[t := c'.members[i].log]
    && c'.h.leaders == c.h.leaders[t := i]
    && c'.h.acks == c.h.acks[Acker(i, t) := |c'.members[i].log|]
    && c'.h.bids == c.h.bids && c'.h.ballots == c.h.ballots
    && c'.h.marks == c.h.marks && c'.h.decided == c.h.decided && c'.h.trusted == c.h.trusted
    && t >= 1
    && (if t in c.h.ledgers then c.h.ledgers[t] == c.members[i].log && Leads(c.h, t, i)
        else TermsUpTo(c.members[i].log, t - 1) && t !in c.h.leaders)
    && Acked(c.h, i, t) <= |c.members[i].log|
  }

  lemma LedgerStepEvolves(c: Core, c': Core, i: nat, t: nat, e: Entry)
    requires LedgerStep(c, c', i, t, e)
    ensures Evolves(c, c')
  {
    forall p: nat, u: nat ensures AckedLater(c, c', p, u) {}
  }

  /** No one acknowledged the new entry before, so it cannot be settled once a later leader exists. */
  lemma NewEntryUnsettled(c: Core, c': Core, i: nat, t: nat, e: Entry, u: nat)
    requires CoreInv(c) && LedgerStep(c, c', i, t, e) && t < u && u in c.h.ledgers
    ensures !Settled(c', t, |c.members[i].log| + 1)
  {
    hide CoreInv;
    var k := |c.members[i].log| + 1;
    TheLedger(c, u);
    if Settled(c', t, k) {
      var p := Overlap(|c.members|, Voters(c, u, c.h.leaders[u]), Hopefuls(c', t, k));
      TheBallot(c, Ballot(p, u, c.h.leaders[u]));
      if Acked(c.h, p, t) > 0 { TheAck(c, p, t); }
    }
  }

  /** What is settled in the new state is the new entry, or was there before. */
  lemma SettledNewOrOld(c: Core, c': Core, i: nat, t: nat, e: Entry, u: nat, k: nat)
    requires LedgerStep(c, c', i, t, e) && Settled(c', u, k)
    ensures (u == t && k == |c.members[i].log| + 1) || (u in c.h.ledgers && k <= |c.h.ledgers[u]|)
  {
    if u == t && k <= |c.members[i].log| {
      assert c'.h.ledgers[t][k - 1] == c.members[i].log[k - 1];
    }
  }

  lemma LedgerStepKept(c: Core, c': Core, i: nat, t: nat, e: Entry)
    requires CoreInv(c) && LedgerStep(c, c', i, t, e)
    ensures AllKept(c')
  {
    hide CoreInv;
    LedgerStepEvolves(c, c', i, t, e);
    forall p: nat, u: nat, k: nat ensures KeptOk(c', p, u, k) {
      if p < |c.members| && Acked(c'.h, p, u) >= k && Settled(c', u, k) && (p != i || u != t) {
        SettledNewOrOld(c, c', i, t, e, u, k);
        if u in c.h.ledgers && k <= |c.h.ledgers[u]| {
          TheKept(c, p, u, k);
          KeptFrame(c, c', p, u, k);
        } else {
          TheAck(c, p, t);
        }
      }
    }
  }

  lemma LedgerStepCarried(c: Core, c': Core, i: nat, t: nat, e: Entry)
    requires CoreInv(c) && LedgerStep(c, c', i, t, e)
    ensures AllCarried(c')
  {
    hide CoreInv;
    LedgerStepEvolves(c, c', i, t, e);
    forall b: Ballot, u: nat, k: nat ensures CarriedOk(c', b, u, k) {
      if b in c.h.ballots && u < b.term && Acked(c'.h, b.voter, u) >= k && Settled(c', u, k) {
        SettledNewOrOld(c, c', i, t, e, u, k);
        TheBallot(c, b);
        if u in c.h.ledgers && k <= |c.h.ledgers[u]| {
          TheCarried(c, b, u, k);
          CarriedFrame(c, c', b, u, k);
        } else {
          assert b.voter != i;
          TheAck(c, b.voter, t);
        }
      }
    }
  }

  /** The new leader, or the leader extending its log, has everything settled in earlier terms. */
  ghost predicate HasEarlier(c: Core, log: Log, t: nat) {
    forall u: nat, k: nat {:trigger Settled(c, u, k)} :: u < t && Settled(c, u, k) ==> Agree(log, c.h.ledgers[u], k)
  }

  lemma LedgerStepLater(c: Core, c': Core, i: nat, t: nat, e: Entry)
    requires i < |c.members| && CoreInv(c) && LedgerStep(c, c', i, t, e)
    requires HasEarlier(c, c.members[i].log, t)
    ensures AllLater(c')
  {
    hide CoreInv, LaterOk, LedgerStep, HasEarlier;
    forall u: nat, w: nat, k: nat ensures LaterOk(c', u, w, k) {
      LedgerStepLaterOne(c, c', i, t, e, u, w, k);
    }
  }

  lemma LedgerStepLaterOne(c: Core, c': Core, i: nat, t: nat, e: Entry, u: nat, w: nat, k: nat)
    requires CoreInv(c) && LedgerStep(c, c', i, t, e)
    requires HasEarlier(c, c.members[i].log, t)
    ensures LaterOk(c', u, w, k)
  {
    hide CoreInv;
    LedgerStepEvolves(c, c', i, t, e);
    if u < w && w in c'.h.ledgers && Settled(c', u, k) {
      SettledNewOrOld(c, c', i, t, e, u, k);
      if u in c.h.ledgers && k <= |c.h.ledgers[u]| {
        SettledBack(c, c', u, k);
        TheLater(c, u, w, k);
      } else {
        NewEntryUnsettled(c, c', i, t, e, w);
      }
    }
  }

  lemma LedgerStepAcks(c: Core, c': Core, i: nat, t: nat, e: Entry)
    requires CoreInv(c) && LedgerStep(c, c', i, t, e)
    ensures AllAcks(c')
  {
    LedgerStepEvolves(c, c', i, t, e);
    forall a: Acker | a in c'.h.acks ensures AckOk(c', a) {
      if a != Acker(i, t) { assert AckOk(c, a); }
    }
  }

  /** The ledger that is written. */
  lemma LedgerStepOwn(c: Core, c': Core, i: nat, t: nat, e: Entry)
    requires CoreInv(c) && LedgerStep(c, c', i, t, e)
    requires |Voters(c, t, i)| >= Majority(|c.members|)
    ensures LedgerOk(c', t)
  {
    hide CoreInv, Vouched;
    LedgerStepEvolves(c, c', i, t, e);
    TheMember(c, i);
    TheLedger(c, t);
    var log := c.members[i].log;
    BackedGrows(log, c.h.ledgers, c'.h.ledgers);
    BackedSnoc(log, e, c'.h.ledgers);
    assert Voters(c', t, i) == Voters(c, t, i);
  }

  lemma LedgerStepLedgers(c: Core, c': Core, i: nat, t: nat, e: Entry)
    requires CoreInv(c) && LedgerStep(c, c', i, t, e)
    requires |Voters(c, t, i)| >= Majority(|c.members|)
    ensures AllLedgers(c')
  {
    hide CoreInv, LedgerOk;
    LedgerStepEvolves(c, c', i, t, e);
    forall u: nat | u in c'.h.ledgers ensures LedgerOk(c', u) {
      TheLedger(c, u);
      if u != t {
        LedgerFrame(c, c', u);
      } else {
        LedgerStepOwn(c, c', i, t, e);
      }
    }
    forall u: nat ensures u in c'.h.leaders <==> u in c'.h.ledgers {
      TheLedger(c, u);
    }
  }

  lemma LedgerStepMembers(c: Core, c': Core, i: nat, t: nat, e: Entry)
    requires CoreInv(c) && LedgerStep(c, c', i, t, e)
    requires c'.members[i].role.Leader? && c'.members[i].vote == Some(i)
    requires c'.members[i].commit == c.members[i].commit
    ensures AllMembers(c')
  {
    hide CoreInv;
    LedgerStepEvolves(c, c', i, t, e);
    TheMember(c, i);
    var m, m' := c.members[i], c'.members[i];
    BackedGrows(m.log, c.h.ledgers, c'.h.ledgers);
    BackedSnoc(m.log, e, c'.h.ledgers);
    VouchedFrame(c, c', m.log, m'.log, m.commit, t, t);
    forall j: nat | j < |c'.members| ensures MemberOk(c'.members[j], j, c'.h) {
      if j != i {
        TheMember(c, j);
        MemberFrame(c, c', j);
      }
    }
  }

  lemma LedgerStepKeeps(c: Core, c': Core, i: nat, t: nat, e: Entry)
    requires CoreInv(c) && LedgerStep(c, c', i, t, e)
    requires c'.members[i].role.Leader? && c'.members[i].vote == Some(i)
    requires c'.members[i].commit == c.members[i].commit
    requires |Voters(c, t, i)| >= Majority(|c.members|)
    requires HasEarlier(c, c.members[i].log, t)
    requires forall b: Ballot :: b in c.h.ballots && b.voter == i ==> BallotOk(c', b)
    ensures CoreInv(c')
  {
    hide AllMembers, AllLedgers, AllBids, AllBallots, AllTwice, AllAcks, AllKept, AllCarried, AllLater, AllMarks;
    LedgerStepEvolves(c, c', i, t, e);
    LedgerStepMembers(c, c', i, t, e);
    LedgerStepLedgers(c, c', i, t, e);
    BidsCarry(c, c');
    BallotsCarry(c, c', i);
    assert AllTwice(c'.h) by { TwiceSame(c.h, c'.h); }
    LedgerStepAcks(c, c', i, t, e);
    LedgerStepKept(c, c', i, t, e);
    LedgerStepCarried(c, c', i, t, e);
    LedgerStepLater(c, c', i, t, e);
    MarksCarry(c, c');
  }

  lemma LeadStep(c: Core, i: nat, e: Entry)
    requires CoreInv(c) && i < |c.members| && c.members[i].role.Candidate?
    requires |Voters(c, c.members[i].term, i)| >= Majority(|c.members|)
    requires e.term == c.members[i].term && e.index == |c.members[i].log| + 1
    ensures LedgerStep(c, Lead(c, i, e), i, e.term, e) && Evolves(c, Lead(c, i, e))
  {
    hide CoreInv;
    TheMember(c, i);
    TheBid(c, Bid(e.term, i));
    FirstOfItsTerm(c, i);
    TheLedger(c, e.term);
    if Acked(c.h, i, e.term) > 0 { TheAck(c, i, e.term); }
    LedgerStepEvolves(c, Lead(c, i, e), i, e.term, e);
  }

  lemma LeadKeeps(c: Core, i: nat, e: Entry)
    requires CoreInv(c) && i < |c.members| && c.members[i].role.Candidate?
    requires |Voters(c, c.members[i].term, i)| >= Majority(|c.members|)
    requires e.term == c.members[i].term && e.index == |c.members[i].log| + 1
    ensures CoreInv(Lead(c, i, e))
  {
    hide CoreInv;
    var c', t, log := Lead(c, i, e), c.members[i].term, c.members[i].log;
    TheMember(c, i);
    LeadStep(c, i, e);
    forall u: nat, k: nat | u < t && Settled(c, u, k) ensures Agree(log, c.h.ledgers[u], k) {
      var p := Overlap(|c.members|, Voters(c, t, i), Hopefuls(c, u, k));
      TheBallot(c, Ballot(p, t, i));
      TheCarried(c, Ballot(p, t, i), u, k);
    }
    forall b: Ballot | b in c.h.ballots && b.voter == i ensures BallotOk(c', b) { TheBallot(c, b); }
    LedgerStepKeeps(c, c', i, t, e);
  }

  lemma ExtendStep(c: Core, i: nat, e: Entry)
    requires CoreInv(c) && i < |c.members| && c.members[i].role.Leader?
    requires e.term == c.members[i].term && e.index == |c.members[i].log| + 1
    ensures LedgerStep(c, Extend(c, i, e), i, e.term, e) && Evolves(c, Extend(c, i, e))
  {
    hide CoreInv;
    TheMember(c, i);
    TheLedger(c, e.term);
    assert Extend(c, i, e).h.leaders == c.h.leaders[e.term := i];
    LedgerStepEvolves(c, Extend(c, i, e), i, e.term, e);
  }

  lemma ExtendKeeps(c: Core, i: nat, e: Entry)
    requires CoreInv(c) && i < |c.members| && c.members[i].role.Leader?
    requires e.term == c.members[i].term && e.index == |c.members[i].log| + 1
    ensures CoreInv(Extend(c, i, e))
  {
    hide CoreInv;
    var c', t, log := Extend(c, i, e), c.members[i].term, c.members[i].log;
    TheMember(c, i);
    TheLedger(c, t);
    ExtendStep(c, i, e);
    forall u: nat, k: nat | u < t && Settled(c, u, k) ensures Agree(log, c.h.ledgers[u], k) {
      TheLater(c, u, t, k);
    }
    forall b: Ballot | b in c.h.ballots && b.voter == i ensures BallotOk(c', b) { TheBallot(c, b); }
    LedgerStepKeeps(c, c', i, t, e);
  }
}
