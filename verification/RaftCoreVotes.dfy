/** The steps that change terms, roles and votes keep the core invariant. */
module RaftCoreVotes {
  import opened Wrappers
  import opened RaftLog
  import opened RaftCore
  import opened RaftCoreFrames

  /** A step that changes one member's role, term, vote or commit index and leaves history alone. */
  lemma MemberStep(c: Core, c': Core, i: nat)
    requires CoreInv(c) && i < |c.members| && OnlyMember(c, c', i) && c'.h == c.h
    requires c'.members[i].log == c.members[i].log && c.members[i].term <= c'.members[i].term
    requires MemberOk(c'.members[i], i, c.h)
    requires forall b: Ballot :: b in c.h.ballots && b.voter == i ==> BallotOk(c', b)
    ensures CoreInv(c')
  {
    hide AllMembers, AllLedgers, AllBids, AllBallots, AllTwice, AllAcks, AllKept, AllCarried, AllLater, AllMarks;
    SameHistoryEvolves(c, c', i);
    forall b: Ballot, t: nat, k: nat | b !in c.h.ballots ensures CarriedOk(c', b, t, k) {}
    MembersCarry(c, c', i);
    LedgersCarry(c, c');
    BidsCarry(c, c');
    BallotsCarry(c, c', i);
    AcksCarry(c, c');
    KeptCarry(c, c');
    CarriedCarry(c, c');
    LaterCarry(c, c');
    MarksCarry(c, c');
  }

  lemma SameHistoryEvolves(c: Core, c': Core, i: nat)
    requires i < |c.members| && OnlyMember(c, c', i) && c'.h == c.h
    requires c.members[i].term <= c'.members[i].term
    ensures Evolves(c, c')
  {
    forall p: nat, t: nat ensures AckedLater(c, c', p, t) {}
  }

  lemma NotYetLeader(c: Core, i: nat, term: nat)
    requires CoreInv(c) && i < |c.members| && c.members[i].term < term
    ensures !Leads(c.h, term, i)
  {
    hide CoreInv;
    TheLedger(c, term);
  }

  lemma AdoptKeeps(c: Core, i: nat, term: nat)
    requires CoreInv(c) && i < |c.members| && c.members[i].term < term
    ensures CoreInv(Adopt(c, i, term))
  {
    hide CoreInv;
    var m := c.members[i];
    TheMember(c, i);
    NotYetLeader(c, i, term);
    var c' := Adopt(c, i, term);
    VouchedFrame(c, c, m.log, m.log, m.commit, m.term, term) by { ReflexiveEvolves(c); }
    forall b: Ballot | b in c.h.ballots && b.voter == i ensures BallotOk(c', b) {
      TheBallot(c, b);
    }
    MemberStep(c, c', i);
  }

  lemma ReflexiveEvolves(c: Core)
    ensures Evolves(c, c)
  {
    forall p: nat, t: nat ensures AckedLater(c, c, p, t) {}
  }

  lemma YieldKeeps(c: Core, i: nat)
    requires CoreInv(c) && i < |c.members| && c.members[i].role.Candidate?
    ensures CoreInv(Yield(c, i))
  {
    hide CoreInv;
    var m := c.members[i];
    TheMember(c, i);
    var c' := Yield(c, i);
    forall b: Ballot | b in c.h.ballots && b.voter == i ensures BallotOk(c', b) {
      TheBallot(c, b);
    }
    MemberStep(c, c', i);
  }

  lemma LearnKeeps(c: Core, i: nat, commit: nat)
    requires CoreInv(c) && i < |c.members|
    requires Vouched(c.h, c.members[i].log, commit, c.members[i].term)
    ensures CoreInv(Learn(c, i, commit))
  {
    hide CoreInv;
    var m := c.members[i];
    TheMember(c, i);
    var c' := Learn(c, i, commit);
    forall b: Ballot | b in c.h.ballots && b.voter == i ensures BallotOk(c', b) {
      TheBallot(c, b);
    }
    MemberStep(c, c', i);
  }

  lemma RestartKeeps(c: Core, i: nat)
    requires CoreInv(c) && i < |c.members|
    ensures CoreInv(Restart(c, i))
  {
    hide CoreInv;
    var m := c.members[i];
    TheMember(c, i);
    var c' := Restart(c, i);
    forall b: Ballot | b in c.h.ballots && b.voter == i ensures BallotOk(c', b) {
      TheBallot(c, b);
    }
    MemberStep(c, c', i);
  }

  // ---------------------------------------------------------------- ballots

  lemma TwiceCarry(c: Core, c': Core, new': Ballot)
    requires AllTwice(c.h) && c'.h.ballots == c.h.ballots + {new'}
    requires forall a: nat :: TwiceOk(c'.h, new'.voter, new'.term, a, new'.candidate)
    ensures AllTwice(c'.h)
  {
    forall v: nat, t: nat, a: nat, b: nat ensures TwiceOk(c'.h, v, t, a, b) {
      assert TwiceOk(c.h, v, t, a, b);
      assert TwiceOk(c'.h, new'.voter, new'.term, a, new'.candidate);
      assert TwiceOk(c'.h, new'.voter, new'.term, b, new'.candidate);
    }
  }

  /** A step by which member `i` casts the ballot `new` and nothing else is recorded but, maybe, a bid. */
  lemma BallotStep(c: Core, c': Core, i: nat, new': Ballot)
    requires CoreInv(c) && Evolves(c, c') && i < |c.members|
    requires OnlyMember(c, c', i) && c'.members[i].log == c.members[i].log
    requires c'.h == c.h.(bids := c'.h.bids, ballots := c.h.ballots + {new'})
    requires MemberOk(c'.members[i], i, c'.h)
    requires forall b: Bid :: b in c'.h.bids ==> b in c.h.bids || BidOk(c', b)
    requires forall b: Ballot :: b in c'.h.ballots && b.voter == i ==> BallotOk(c', b)
    requires new'.voter == i
    requires forall a: nat :: TwiceOk(c'.h, i, new'.term, a, new'.candidate)
    requires forall b: Ballot, t: nat, k: nat :: b !in c.h.ballots ==> CarriedOk(c', b, t, k)
    ensures CoreInv(c')
  {
    hide AllMembers, AllLedgers, AllBids, AllBallots, AllTwice, AllAcks, AllKept, AllCarried, AllLater, AllMarks;
    MembersCarry(c, c', i);
    LedgersCarry(c, c');
    BidsCarry(c, c');
    BallotsCarry(c, c', i);
    TwiceCarry(c, c', new');
    AcksCarry(c, c');
    KeptCarry(c, c');
    CarriedCarry(c, c');
    LaterCarry(c, c');
    MarksCarry(c, c');
  }

  lemma CampaignKeeps(c: Core, i: nat)
    requires CoreInv(c) && i < |c.members|
    ensures CoreInv(Campaign(c, i))
  {
    hide CoreInv;
    var c' := Campaign(c, i);
    var m, t := c.members[i], c.members[i].term + 1;
    TheMember(c, i);
    NotYetLeader(c, i, t);
    assert Bid(t, i) !in c.h.bids by {
      if Bid(t, i) in c.h.bids { TheBid(c, Bid(t, i)); }
    }
    assert Evolves(c, c') by {
      forall p: nat, t: nat ensures AckedLater(c, c', p, t) {}
    }
    VouchedFrame(c, c', m.log, m.log, m.commit, m.term, t);
    forall b: Ballot | b in c'.h.ballots && b.voter == i ensures BallotOk(c', b) {
      if b in c.h.ballots { TheBallot(c, b); }
    }
    forall a: nat ensures TwiceOk(c'.h, i, t, a, i) {
      if Ballot(i, t, a) in c.h.ballots { TheBallot(c, Ballot(i, t, a)); }
    }
    forall u: nat, k: nat ensures CarriedOk(c', Ballot(i, t, i), u, k) {
      TheKept(c, i, u, k);
      if Settled(c', u, k) { SettledBack(c, c', u, k); }
    }
    BallotStep(c, c', i, Ballot(i, t, i));
  }

  /**
   The heart of leader completeness: a candidate at least as up to date as a voter has every settled entry
   that the voter acknowledged.
   */
  lemma UpToDateCarries(c: Core, p: nat, bid: Log, term: nat, t: nat, k: nat)
    requires CoreInv(c) && p < |c.members| && t < term
    requires Acked(c.h, p, t) >= k && Settled(c, t, k)
    requires Orderly(bid) && Backed(bid, c.h.ledgers) && TermsUpTo(bid, term - 1)
    requires UpToDate(LastIndex(bid), LastTerm(bid), c.members[p].log)
    ensures Agree(bid, c.h.ledgers[t], k)
  {
    hide CoreInv;
    var log := c.members[p].log;
    TheMember(c, p);
    TheKept(c, p, t, k);
    assert log[k - 1].term == t && LastTerm(log) >= t;
    var last := |bid| - 1;
    assert bid != [];
    var u := bid[last].term;
    assert Anchored(bid, c.h.ledgers, last);
    if u == t {
      assert LastTerm(log) == t;
    } else {
      TheLater(c, t, u, k);
      TheLedger(c, t);
      assert c.h.ledgers[u][last].term == u;
      assert TermsUpTo(c.h.ledgers[t], t);
    }
  }

  lemma GrantKeeps(c: Core, i: nat, candidate: nat)
    requires CoreInv(c) && i < |c.members|
    requires var m := c.members[i];
             && (m.vote == None || m.vote == Some(candidate))
             && Bid(m.term, candidate) in c.h.bids
             && var bid := c.h.bids[Bid(m.term, candidate)];
                UpToDate(LastIndex(bid), LastTerm(bid), m.log)
    ensures CoreInv(Grant(c, i, candidate))
  {
    hide CoreInv;
    var c' := Grant(c, i, candidate);
    var m := c.members[i];
    var bid := c.h.bids[Bid(m.term, candidate)];
    TheMember(c, i);
    TheBid(c, Bid(m.term, candidate));
    assert Evolves(c, c') by {
      forall p: nat, t: nat ensures AckedLater(c, c', p, t) {}
    }
    VouchedFrame(c, c', m.log, m.log, m.commit, m.term, m.term);
    forall b: Ballot | b in c'.h.ballots && b.voter == i ensures BallotOk(c', b) {
      if b in c.h.ballots { TheBallot(c, b); }
    }
    forall a: nat ensures TwiceOk(c'.h, i, m.term, a, candidate) {
      if Ballot(i, m.term, a) in c.h.ballots { TheBallot(c, Ballot(i, m.term, a)); }
    }
    forall t: nat, k: nat ensures CarriedOk(c', Ballot(i, m.term, candidate), t, k) {
      if t < m.term && Acked(c.h, i, t) >= k && Settled(c', t, k) {
        SettledBack(c, c', t, k);
        UpToDateCarries(c, i, bid, m.term, t, k);
      }
    }
    BallotStep(c, c', i, Ballot(i, m.term, candidate));
  }
}
