/**
 The consensus core: what a cluster's members hold that matters for safety, together with a history of what
 has happened so far, and the small steps every message handler is made of.  The history records facts (which
 log each elected leader has had, who voted for whom, who acknowledged what); no step consults it to decide
 what to do next except through the members' own state.
 */
module RaftCore {
  import opened Wrappers
  import opened RaftLog
  import opened Quorums

  datatype Role = Follower | Candidate | Leader

  datatype Member = Member(role: Role, term: nat, vote: Option<nat>, log: Log, commit: nat)

  /** A candidacy of a member in a term. */
  datatype Bid = Bid(term: nat, candidate: nat)

  /** One granted vote. */
  datatype Ballot = Ballot(voter: nat, term: nat, candidate: nat)

  /** A member in the role of acknowledging the log of the leader of a term. */
  datatype Acker = Acker(member: nat, term: nat)

  /** A commit decision: the leader of `term` found its first `len` entries on a majority. */
  datatype Mark = Mark(term: nat, len: nat)

  datatype History = History(
    ledgers: map<nat, Log>,    // per elected term, the log its leader has had so far
    leaders: map<nat, nat>,    // per elected term, its leader
    bids: map<Bid, Log>,       // per candidacy, the candidate's log when it began
    ballots: set<Ballot>,      // every vote ever granted
    acks: map<Acker, nat>,     // how much of a term's ledger a member has acknowledged
    marks: set<Mark>,          // every commit decision
    decided: Log,              // the longest prefix ever committed
    trusted: bool)             // whether what leaders take for acknowledged can be relied on; fixed for a run

  datatype Core = Core(members: seq<Member>, h: History)

  const NO_HISTORY := History(map[], map[], map[], {}, map[], {}, [], true)

  predicate Leads(h: History, term: nat, i: nat) {
    term in h.leaders && h.leaders[term] == i
  }

  function Acked(h: History, p: nat, term: nat): nat {
    if Acker(p, term) in h.acks then h.acks[Acker(p, term)] else 0
  }

  function Acknowledge(h: History, p: nat, term: nat, len: nat): History {
    if len > Acked(h, p, term) then h.(acks := h.acks[Acker(p, term) := len]) else h
  }

  // -------------------------------------------------------------- the steps

  /** See a higher term: become its follower. */
  function Adopt(c: Core, i: nat, term: nat): Core
    requires i < |c.members|
  {
    c.(members := c.members[i := c.members[i].(role := Follower, term := term, vote := None)])
  }

  /** A candidate sees a leader of its own term: follow it, and forget the vote. */
  function Yield(c: Core, i: nat): Core
    requires i < |c.members|
  {
    c.(members := c.members[i := c.members[i].(role := Follower, vote := None)])
  }

  function Campaign(c: Core, i: nat): Core
    requires i < |c.members|
  {
    var m := c.members[i];
    var t := m.term + 1;
    Core(c.members[i := m.(role := Candidate, term := t, vote := Some(i))],
         c.h.(bids := c.h.bids[Bid(t, i) := m.log], ballots := c.h.ballots + {Ballot(i, t, i)}))
  }

  function Grant(c: Core, i: nat, candidate: nat): Core
    requires i < |c.members|
  {
    var m := c.members[i];
    Core(c.members[i := m.(vote := Some(candidate))],
         c.h.(ballots := c.h.ballots + {Ballot(i, m.term, candidate)}))
  }

  /** A candidate with a majority becomes leader and starts its ledger with its log and one new entry. */
  function Lead(c: Core, i: nat, e: Entry): Core
    requires i < |c.members|
  {
    var m := c.members[i];
    var log := m.log + [e];
    Core(c.members[i := m.(role := Leader, log := log)],
         Acknowledge(c.h.(ledgers := c.h.ledgers[m.term := log], leaders := c.h.leaders[m.term := i]),
                     i, m.term, |log|))
  }

  function Extend(c: Core, i: nat, e: Entry): Core
    requires i < |c.members|
  {
    var m := c.members[i];
    var log := m.log + [e];
    Core(c.members[i := m.(log := log)],
         Acknowledge(c.h.(ledgers := c.h.ledgers[m.term := log]), i, m.term, |log|))
  }

  /** A follower takes in the first `len` entries of its term's ledger and acknowledges them. */
  function Accept(c: Core, i: nat, len: nat, log: Log): Core
    requires i < |c.members|
  {
    var m := c.members[i];
    Core(c.members[i := m.(log := log)], Acknowledge(c.h, i, m.term, len))
  }

  function Learn(c: Core, i: nat, commit: nat): Core
    requires i < |c.members|
  {
    c.(members := c.members[i := c.members[i].(commit := commit)])
  }

  /** A leader commits a prefix it found on a majority. */
  function Decree(c: Core, i: nat, commit: nat): Core
    requires i < |c.members| && commit <= |c.members[i].log|
  {
    var m := c.members[i];
    Core(c.members[i := m.(commit := commit)],
         c.h.(marks := c.h.marks + {Mark(m.term, commit)},
              decided := if |c.h.decided| < commit then m.log[..commit] else c.h.decided))
  }

  /** Crash and restart: term, vote and log survive, the commit index and the role do not. */
  function Restart(c: Core, i: nat): Core
    requires i < |c.members|
  {
    c.(members := c.members[i := c.members[i].(role := Follower, commit := 0)])
  }

  // -------------------------------------------------------------- groups

  function Voters(c: Core, term: nat, candidate: nat): (s: set<nat>) {
    set p <- Ids(|c.members|) | Ballot(p, term, candidate) in c.h.ballots
  }

  function Holders(c: Core, term: nat, len: nat): set<nat> {
    set p <- Ids(|c.members|) | Acked(c.h, p, term) >= len
  }

  /** Members that have acknowledged `len` entries of a term's ledger, or still could. */
  function Hopefuls(c: Core, term: nat, len: nat): set<nat> {
    set p <- Ids(|c.members|) | Acked(c.h, p, term) >= len || c.members[p].term <= term
  }

  /** Entry `len` of the term's ledger was created in that term. */
  ghost predicate OwnEntry(h: History, term: nat, len: nat) {
    term in h.ledgers && 0 < len <= |h.ledgers[term]| && h.ledgers[term][len - 1].term == term
  }

  /**
   So many members hold the first `len` entries of a term's ledger, or still could, that no majority can
   avoid them all.  Such a prefix can never be lost again; one that is not settled can never be committed.
   */
  ghost predicate Settled(c: Core, term: nat, len: nat) {
    OwnEntry(c.h, term, len) && |Hopefuls(c, term, len)| + Majority(|c.members|) > |c.members|
  }

  /**
   The first `k` entries of `log` are committed by a decision of a term up to `term`.  Nothing is said about commits
   when acknowledgements cannot be relied on; elections and logs do not need them.
   */
  ghost predicate Vouched(h: History, log: Log, k: nat, term: nat) {
    h.trusted ==>
      k <= |log| && (k == 0 || exists m :: m in h.marks && Covers(h, m, log, k, term))
  }

  ghost predicate Covers(h: History, m: Mark, log: Log, k: nat, term: nat) {
    m.term <= term && k <= m.len && m.term in h.ledgers && Agree(log, h.ledgers[m.term], k)
  }

  // ------------------------------------------------------------ the invariant

  ghost predicate MemberOk(m: Member, i: nat, h: History) {
    && Orderly(m.log) && Backed(m.log, h.ledgers) && TermsUpTo(m.log, m.term)
    && (m.role.Leader? ==> Leads(h, m.term, i) && m.term in h.ledgers && h.ledgers[m.term] == m.log)
    && (m.role.Candidate? ==>
          && m.vote == Some(i) && !Leads(h, m.term, i)
          && Bid(m.term, i) in h.bids && h.bids[Bid(m.term, i)] == m.log)
    && (Leads(h, m.term, i) ==> m.vote == Some(i))
    && Vouched(h, m.log, m.commit, m.term)
  }

  ghost predicate LedgerOk(c: Core, t: nat)
    requires t in c.h.ledgers
  {
    var l := c.h.ledgers[t];
    && t >= 1 && Orderly(l) && Backed(l, c.h.ledgers) && TermsUpTo(l, t) && OwnEntry(c.h, t, |l|)
    && t in c.h.leaders && c.h.leaders[t] < |c.members| && c.members[c.h.leaders[t]].term >= t
    && Acked(c.h, c.h.leaders[t], t) == |l|
    && |Voters(c, t, c.h.leaders[t])| >= Majority(|c.members|)
  }

  ghost predicate BidOk(c: Core, b: Bid)
    requires b in c.h.bids
  {
    && b.term >= 1 && b.candidate < |c.members| && c.members[b.candidate].term >= b.term
    && Orderly(c.h.bids[b]) && Backed(c.h.bids[b], c.h.ledgers) && TermsUpTo(c.h.bids[b], b.term - 1)
  }

  ghost predicate BallotOk(c: Core, b: Ballot) {
    && b.voter < |c.members| && b.term <= c.members[b.voter].term
    && Bid(b.term, b.candidate) in c.h.bids
    && (c.members[b.voter].term == b.term ==>
          b.candidate == b.voter || c.members[b.voter].vote == Some(b.candidate))
    && (b.candidate != b.voter ==> !Leads(c.h, b.term, b.voter))
  }

  /** A member that voted for two candidates in one term was one of them. */
  ghost predicate TwiceOk(h: History, voter: nat, term: nat, a: nat, b: nat) {
    Ballot(voter, term, a) in h.ballots && Ballot(voter, term, b) in h.ballots && a != b ==> voter in {a, b}
  }

  ghost predicate AckOk(c: Core, a: Acker)
    requires a in c.h.acks
  {
    && a.member < |c.members| && a.term <= c.members[a.member].term
    && a.term in c.h.ledgers && c.h.acks[a] <= |c.h.ledgers[a.term]|
  }

  /** Acknowledged, settled entries stay in the acknowledger's log. */
  ghost predicate KeptOk(c: Core, p: nat, t: nat, k: nat) {
    p < |c.members| && Acked(c.h, p, t) >= k && Settled(c, t, k) ==> Agree(c.members[p].log, c.h.ledgers[t], k)
  }

  /** A voter has its acknowledged, settled entries in the log of every candidate it votes for later. */
  ghost predicate CarriedOk(c: Core, b: Ballot, t: nat, k: nat) {
    b in c.h.ballots && Bid(b.term, b.candidate) in c.h.bids && t < b.term
    && Acked(c.h, b.voter, t) >= k && Settled(c, t, k) ==>
      Agree(c.h.bids[Bid(b.term, b.candidate)], c.h.ledgers[t], k)
  }

  /** Every later leader has the settled entries of every earlier one. */
  ghost predicate LaterOk(c: Core, t: nat, u: nat, k: nat) {
    t < u && u in c.h.ledgers && Settled(c, t, k) ==> Agree(c.h.ledgers[u], c.h.ledgers[t], k)
  }

  ghost predicate MarkOk(c: Core, m: Mark) {
    c.h.trusted ==>
    && OwnEntry(c.h, m.term, m.len)
    && |Holders(c, m.term, m.len)| >= Majority(|c.members|)
    && m.len <= |c.h.decided| && Agree(c.h.decided, c.h.ledgers[m.term], m.len)
  }

  ghost predicate DecidedOk(h: History) {
    h.trusted ==> h.decided == [] || exists m :: m in h.marks && m.len == |h.decided|
  }

  ghost predicate AllMembers(c: Core) {
    forall i: nat | i < |c.members| :: MemberOk(c.members[i], i, c.h)
  }

  ghost predicate AllLedgers(c: Core) {
    && (forall t: nat | t in c.h.ledgers :: LedgerOk(c, t))
    && c.h.leaders.Keys == c.h.ledgers.Keys
  }

  ghost predicate AllBids(c: Core) {
    forall b: Bid | b in c.h.bids :: BidOk(c, b)
  }

  ghost predicate AllBallots(c: Core) {
    forall b: Ballot | b in c.h.ballots :: BallotOk(c, b)
  }

  ghost predicate AllTwice(h: History) {
    forall v: nat, t: nat, a: nat, b: nat :: TwiceOk(h, v, t, a, b)
  }

  ghost predicate AllAcks(c: Core) {
    forall a: Acker | a in c.h.acks :: AckOk(c, a)
  }

  ghost predicate AllKept(c: Core) {
    forall p: nat, t: nat, k: nat :: KeptOk(c, p, t, k)
  }

  ghost predicate AllCarried(c: Core) {
    forall b: Ballot, t: nat, k: nat :: CarriedOk(c, b, t, k)
  }

  ghost predicate AllLater(c: Core) {
    forall t: nat, u: nat, k: nat :: LaterOk(c, t, u, k)
  }

  ghost predicate AllMarks(c: Core) {
    (forall m: Mark | m in c.h.marks :: MarkOk(c, m)) && DecidedOk(c.h)
  }

  /** Everything that holds of a cluster in every reachable state. */
  ghost predicate CoreInv(c: Core) {
    && AllMembers(c) && AllLedgers(c) && AllBids(c) && AllBallots(c) && AllTwice(c.h) && AllAcks(c)
    && AllKept(c) && AllCarried(c) && AllLater(c) && AllMarks(c)
  }
}
