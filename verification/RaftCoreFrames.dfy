/** How the parts of the core invariant carry over from one state to the next. */
module RaftCoreFrames {
  import opened RaftLog
  import opened Quorums
  import opened RaftCore

  /** What every step respects: terms grow, the history grows, and acknowledgements of past terms are frozen. */
  ghost predicate Evolves(c: Core, c': Core) {
    && |c'.members| == |c.members|
    && (forall p: nat :: p < |c.members| ==> c.members[p].term <= c'.members[p].term)
    && Grows(c.h.ledgers, c'.h.ledgers)
    && (forall t: nat :: t in c.h.leaders ==> t in c'.h.leaders && c'.h.leaders[t] == c.h.leaders[t])
    && (forall b: Bid :: b in c.h.bids ==> b in c'.h.bids && c'.h.bids[b] == c.h.bids[b])
    && c.h.ballots <= c'.h.ballots
    && c.h.marks <= c'.h.marks
    && c'.h.trusted == c.h.trusted
    && (forall p: nat, t: nat :: AckedLater(c, c', p, t))
  }

  ghost predicate AckedLater(c: Core, c': Core, p: nat, t: nat) {
    && Acked(c'.h, p, t) >= Acked(c.h, p, t)
    && (Acked(c'.h, p, t) != Acked(c.h, p, t) ==> p < |c.members| && c.members[p].term <= t)
  }

  // ------------------------------------------ the invariant, one fact at a time

  lemma TheMember(c: Core, i: nat)
    requires CoreInv(c) && i < |c.members|
    ensures MemberOk(c.members[i], i, c.h)
  {
  }

  lemma TheLedger(c: Core, t: nat)
    requires CoreInv(c)
    ensures t in c.h.ledgers <==> t in c.h.leaders
    ensures t in c.h.ledgers ==> LedgerOk(c, t)
  {
  }

  lemma TheBid(c: Core, b: Bid)
    requires CoreInv(c) && b in c.h.bids
    ensures BidOk(c, b)
  {
  }

  lemma TheBallot(c: Core, b: Ballot)
    requires CoreInv(c) && b in c.h.ballots
    ensures BallotOk(c, b)
  {
  }

  lemma TheTwice(c: Core, v: nat, t: nat, a: nat, b: nat)
    requires CoreInv(c)
    ensures TwiceOk(c.h, v, t, a, b)
  {
  }

  lemma TheAck(c: Core, p: nat, t: nat)
    requires CoreInv(c) && Acked(c.h, p, t) > 0
    ensures AckOk(c, Acker(p, t))
  {
  }

  lemma TheKept(c: Core, p: nat, t: nat, k: nat)
    requires CoreInv(c)
    ensures KeptOk(c, p, t, k)
  {
  }

  lemma TheCarried(c: Core, b: Ballot, t: nat, k: nat)
    requires CoreInv(c)
    ensures CarriedOk(c, b, t, k)
  {
  }

  lemma TheLater(c: Core, t: nat, u: nat, k: nat)
    requires CoreInv(c)
    ensures LaterOk(c, t, u, k)
  {
  }

  lemma TheMark(c: Core, m: Mark)
    requires CoreInv(c) && m in c.h.marks
    ensures MarkOk(c, m)
  {
  }

  /** Being settled can only be lost, never gained, by entries that already exist. */
  lemma SettledBack(c: Core, c': Core, t: nat, k: nat)
    requires Evolves(c, c') && Settled(c', t, k)
    requires t in c.h.ledgers && k <= |c.h.ledgers[t]|
    ensures Settled(c, t, k)
  {
    assert Hopefuls(c', t, k) <= Hopefuls(c, t, k) by {
      forall p | p in Hopefuls(c', t, k) ensures p in Hopefuls(c, t, k) {
        assert AckedLater(c, c', p, t);
      }
    }
    SubsetCount(Hopefuls(c', t, k), Hopefuls(c, t, k));
  }

  lemma KeptFrame(c: Core, c': Core, p: nat, t: nat, k: nat)
    requires Evolves(c, c') && p < |c.members| && KeptOk(c, p, t, k)
    requires t in c.h.ledgers && k <= |c.h.ledgers[t]|
    requires Acked(c'.h, p, t) == Acked(c.h, p, t)
    requires Agree(c.members[p].log, c'.members[p].log, |c.members[p].log|)
    ensures KeptOk(c', p, t, k)
  {
    if Settled(c', t, k) {
      SettledBack(c, c', t, k);
    }
  }

  lemma LaterFrame(c: Core, c': Core, t: nat, u: nat, k: nat)
    requires Evolves(c, c') && LaterOk(c, t, u, k)
    requires t in c.h.ledgers && k <= |c.h.ledgers[t]| && u in c.h.ledgers
    ensures LaterOk(c', t, u, k)
  {
    if Settled(c', t, k) {
      SettledBack(c, c', t, k);
    }
  }

  lemma CarriedFrame(c: Core, c': Core, b: Ballot, t: nat, k: nat)
    requires Evolves(c, c') && CarriedOk(c, b, t, k)
    requires b in c.h.ballots && BallotOk(c, b)
    requires t in c.h.ledgers && k <= |c.h.ledgers[t]|
    ensures CarriedOk(c', b, t, k)
  {
    if Settled(c', t, k) {
      SettledBack(c, c', t, k);
    }
    assert AckedLater(c, c', b.voter, t);
  }

  lemma VouchedFrame(c: Core, c': Core, log: Log, log': Log, k: nat, term: nat, term': nat)
    requires Evolves(c, c') && Vouched(c.h, log, k, term) && term <= term' && (c.h.trusted ==> Agree(log, log', k))
    ensures Vouched(c'.h, log', k, term')
  {
    if k > 0 && c.h.trusted {
      var m :| m in c.h.marks && Covers(c.h, m, log, k, term);
      assert Covers(c'.h, m, log', k, term');
    }
  }

  lemma LedgerFrame(c: Core, c': Core, t: nat)
    requires Evolves(c, c') && t in c.h.ledgers && LedgerOk(c, t)
    requires c'.h.ledgers[t] == c.h.ledgers[t]
    requires Acked(c'.h, c.h.leaders[t], t) == Acked(c.h, c.h.leaders[t], t)
    ensures LedgerOk(c', t)
  {
    BackedGrows(c.h.ledgers[t], c.h.ledgers, c'.h.ledgers);
    SubsetCount(Voters(c, t, c.h.leaders[t]), Voters(c', t, c.h.leaders[t]));
  }

  lemma BidFrame(c: Core, c': Core, b: Bid)
    requires Evolves(c, c') && b in c.h.bids && BidOk(c, b)
    ensures BidOk(c', b)
  {
    BackedGrows(c.h.bids[b], c.h.ledgers, c'.h.ledgers);
  }

  lemma MarkFrame(c: Core, c': Core, m: Mark)
    requires Evolves(c, c') && MarkOk(c, m)
    requires c.h.trusted ==> |c.h.decided| <= |c'.h.decided| && Agree(c.h.decided, c'.h.decided, |c.h.decided|)
    ensures MarkOk(c', m)
  {
    forall p | p in Holders(c, m.term, m.len) ensures p in Holders(c', m.term, m.len) {
      assert AckedLater(c, c', p, m.term);
    }
    SubsetCount(Holders(c, m.term, m.len), Holders(c', m.term, m.len));
  }

  /** A member untouched by a step. */
  lemma MemberFrame(c: Core, c': Core, i: nat)
    requires Evolves(c, c') && i < |c.members| && MemberOk(c.members[i], i, c.h)
    requires c'.members[i] == c.members[i]
    requires Leads(c'.h, c.members[i].term, i) == Leads(c.h, c.members[i].term, i)
    requires Leads(c.h, c.members[i].term, i) && c.members[i].role.Leader? ==>
               c'.h.ledgers[c.members[i].term] == c.h.ledgers[c.members[i].term]
    ensures MemberOk(c'.members[i], i, c'.h)
  {
    var m := c.members[i];
    BackedGrows(m.log, c.h.ledgers, c'.h.ledgers);
    VouchedFrame(c, c', m.log, m.log, m.commit, m.term, m.term);
  }

  // ---------------------------------------- one part of the invariant at a time

  /** Only member `i` changes. */
  ghost predicate OnlyMember(c: Core, c': Core, i: nat) {
    && |c'.members| == |c.members|
    && forall j: nat :: j < |c.members| && j != i ==> c'.members[j] == c.members[j]
  }

  lemma MembersCarry(c: Core, c': Core, i: nat)
    requires AllMembers(c) && Evolves(c, c') && OnlyMember(c, c', i) && i < |c.members|
    requires c'.h.ledgers == c.h.ledgers && c'.h.leaders == c.h.leaders
    requires MemberOk(c'.members[i], i, c'.h)
    ensures AllMembers(c')
  {
    forall j: nat | j < |c'.members| ensures MemberOk(c'.members[j], j, c'.h) {
      if j != i { MemberFrame(c, c', j); }
    }
  }

  lemma LedgersCarry(c: Core, c': Core)
    requires AllLedgers(c) && Evolves(c, c')
    requires c'.h.ledgers == c.h.ledgers && c'.h.leaders == c.h.leaders
    requires forall t: nat :: t in c.h.leaders ==>
               Acked(c'.h, c.h.leaders[t], t) == Acked(c.h, c.h.leaders[t], t)
    ensures AllLedgers(c')
  {
    forall t: nat | t in c'.h.ledgers ensures LedgerOk(c', t) { LedgerFrame(c, c', t); }
  }

  lemma BidsCarry(c: Core, c': Core)
    requires AllBids(c) && Evolves(c, c')
    requires forall b: Bid :: b in c'.h.bids ==> b in c.h.bids || BidOk(c', b)
    ensures AllBids(c')
  {
    forall b: Bid | b in c'.h.bids ensures BidOk(c', b) {
      if b in c.h.bids { BidFrame(c, c', b); }
    }
  }

  lemma BallotsCarry(c: Core, c': Core, i: nat)
    requires AllBallots(c) && Evolves(c, c') && OnlyMember(c, c', i)
    requires forall b: Ballot :: b in c'.h.ballots && b.voter != i ==> b in c.h.ballots
    requires forall b: Ballot :: b in c.h.ballots && b.voter != i && Leads(c'.h, b.term, b.voter) ==>
               Leads(c.h, b.term, b.voter)
    requires forall b: Ballot :: b in c'.h.ballots && b.voter == i ==> BallotOk(c', b)
    ensures AllBallots(c')
  {
    forall b: Ballot | b in c'.h.ballots ensures BallotOk(c', b) {
      if b.voter != i { assert BallotOk(c, b); }
    }
  }

  lemma TwiceSame(h: History, h': History)
    requires AllTwice(h) && h'.ballots == h.ballots
    ensures AllTwice(h')
  {
    forall v: nat, t: nat, a: nat, b: nat ensures TwiceOk(h', v, t, a, b) { assert TwiceOk(h, v, t, a, b); }
  }

  lemma AcksCarry(c: Core, c': Core)
    requires AllAcks(c) && Evolves(c, c') && c'.h.acks == c.h.acks
    ensures AllAcks(c')
  {
    forall a: Acker | a in c'.h.acks ensures AckOk(c', a) { assert AckOk(c, a); }
  }

  lemma KeptCarry(c: Core, c': Core)
    requires AllKept(c) && Evolves(c, c')
    requires c'.h.ledgers == c.h.ledgers && c'.h.acks == c.h.acks
    requires forall p: nat :: p < |c.members| ==> c'.members[p].log == c.members[p].log
    ensures AllKept(c')
  {
    forall p: nat, t: nat, k: nat ensures KeptOk(c', p, t, k) {
      if p < |c.members| && OwnEntry(c.h, t, k) {
        assert KeptOk(c, p, t, k);
        KeptFrame(c, c', p, t, k);
      }
    }
  }

  lemma CarriedCarry(c: Core, c': Core)
    requires AllCarried(c) && AllBallots(c) && Evolves(c, c')
    requires c'.h.ledgers == c.h.ledgers
    requires forall b: Ballot, t: nat, k: nat :: b !in c.h.ballots ==> CarriedOk(c', b, t, k)
    ensures AllCarried(c')
  {
    forall b: Ballot, t: nat, k: nat ensures CarriedOk(c', b, t, k) {
      if b in c.h.ballots && OwnEntry(c.h, t, k) {
        assert CarriedOk(c, b, t, k) && BallotOk(c, b);
        CarriedFrame(c, c', b, t, k);
      }
    }
  }

  lemma LaterCarry(c: Core, c': Core)
    requires AllLater(c) && Evolves(c, c') && c'.h.ledgers == c.h.ledgers
    ensures AllLater(c')
  {
    forall t: nat, u: nat, k: nat ensures LaterOk(c', t, u, k) {
      if OwnEntry(c.h, t, k) && u in c.h.ledgers {
        assert LaterOk(c, t, u, k);
        LaterFrame(c, c', t, u, k);
      }
    }
  }

  lemma MarksCarry(c: Core, c': Core)
    requires AllMarks(c) && Evolves(c, c') && c'.h.marks == c.h.marks && c'.h.decided == c.h.decided
    ensures AllMarks(c')
  {
    forall m: Mark | m in c'.h.marks ensures MarkOk(c', m) { MarkFrame(c, c', m); }
  }
}
