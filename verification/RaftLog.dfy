/** Log entries, the relations between logs that consensus rests on, and the follower's append loop. */
module RaftLog {
  import opened KvState

  datatype Entry = Entry(term: nat, index: nat, cmd: Command)

  type Log = seq<Entry>

  function LastIndex(log: Log): nat {
    if log == [] then 0 else log[|log| - 1].index
  }

  function LastTerm(log: Log): nat {
    if log == [] then 0 else log[|log| - 1].term
  }

  /** Whether a candidate whose log ends in (`lastIndex`, `lastTerm`) is at least as up to date as `log`. */
  predicate UpToDate(lastIndex: nat, lastTerm: nat, log: Log) {
    if lastTerm != LastTerm(log) then lastTerm > LastTerm(log) else lastIndex >= LastIndex(log)
  }

  // ------------------------------------------------------------- relations

  /** Both logs have at least `k` entries, and the first `k` are the same. */
  ghost predicate Agree(a: Log, b: Log, k: nat) {
    k <= |a| && k <= |b| && forall i :: 0 <= i < k ==> a[i] == b[i]
  }

  /** Entry `i` sits at index `i + 1`, terms start at 1 and never decrease. */
  ghost predicate Orderly(log: Log) {
    && (forall i :: 0 <= i < |log| ==> log[i].index == i + 1 && log[i].term >= 1)
    && (forall i, j :: 0 <= i < j < |log| ==> log[i].term <= log[j].term)
  }

  ghost predicate TermsUpTo(log: Log, term: nat) {
    forall i :: 0 <= i < |log| ==> log[i].term <= term
  }

  /** The log up to entry `i` is the log, up to there, of the leader that created entry `i`. */
  ghost predicate Anchored(log: Log, ledgers: map<nat, Log>, i: nat)
    requires i < |log|
  {
    log[i].term in ledgers && Agree(log, ledgers[log[i].term], i + 1)
  }

  ghost predicate Backed(log: Log, ledgers: map<nat, Log>) {
    forall i: nat | i < |log| :: Anchored(log, ledgers, i)
  }

  /** Ledgers only ever gain terms and entries at their ends. */
  ghost predicate Grows(old': map<nat, Log>, new': map<nat, Log>) {
    forall t: nat :: t in old' ==> t in new' && Agree(old'[t], new'[t], |old'[t]|)
  }

  /** Log matching: two logs that agree on the term at an index agree on everything up to it. */
  lemma LogMatching(a: Log, b: Log, ledgers: map<nat, Log>, i: nat)
    requires Backed(a, ledgers) && Backed(b, ledgers)
    requires i < |a| && i < |b| && a[i].term == b[i].term
    ensures Agree(a, b, i + 1)
  {
    assert Anchored(a, ledgers, i) && Anchored(b, ledgers, i);
  }

  lemma BackedPrefix(log: Log, k: nat, ledgers: map<nat, Log>)
    requires Backed(log, ledgers) && k <= |log|
    ensures Backed(log[..k], ledgers)
  {
    forall i: nat | i < k ensures Anchored(log[..k], ledgers, i) {
      assert Anchored(log, ledgers, i);
    }
  }

  lemma BackedGrows(log: Log, ledgers: map<nat, Log>, ledgers': map<nat, Log>)
    requires Backed(log, ledgers) && Grows(ledgers, ledgers')
    ensures Backed(log, ledgers')
  {
    forall i: nat | i < |log| ensures Anchored(log, ledgers', i) {
      assert Anchored(log, ledgers, i);
    }
  }

  lemma BackedSnoc(log: Log, e: Entry, ledgers: map<nat, Log>)
    requires Backed(log, ledgers) && e.term in ledgers && ledgers[e.term] == log + [e]
    ensures Backed(log + [e], ledgers)
  {
    forall i: nat | i < |log| + 1 ensures Anchored(log + [e], ledgers, i) {
      if i < |log| {
        assert Anchored(log, ledgers, i);
      }
    }
  }

  // --------------------------------------------------------- the append loop

  /** The follower's loop over a message's entries, from 0-based position `pos` on. */
  function Merge(log: Log, pos: nat, entries: seq<Entry>): Log
    requires pos <= |log|
    decreases |entries|
  {
    if entries == [] then log
    else if pos < |log| then
      if log[pos].term != entries[0].term then Merge(log[..pos] + [entries[0]], pos + 1, entries[1..])
      else Merge(log, pos + 1, entries[1..])
    else Merge(log + [entries[0]], pos + 1, entries[1..])
  }

  /** How many of `entries` the log already holds, by term, at position `pos`. */
  function Held(log: Log, pos: nat, entries: seq<Entry>): (d: nat)
    requires pos <= |log|
    ensures d <= |entries| && pos + d <= |log|
    ensures forall i :: 0 <= i < d ==> log[pos + i].term == entries[i].term
    ensures d < |entries| && pos + d < |log| ==> log[pos + d].term != entries[d].term
    decreases |entries|
  {
    if entries != [] && pos < |log| && log[pos].term == entries[0].term then 1 + Held(log, pos + 1, entries[1..])
    else 0
  }

  lemma {:induction false} MergeAtEnd(log: Log, entries: seq<Entry>)
    ensures Merge(log, |log|, entries) == log + entries
    decreases |entries|
  {
    if entries != [] {
      MergeAtEnd(log + [entries[0]], entries[1..]);
      assert log + [entries[0]] + entries[1..] == log + entries;
    } else {
      assert log + entries == log;
    }
  }

  /**
   The loop never shortens a log that already holds all the entries; otherwise it cuts at the first real
   conflict (or at the end) and nowhere earlier, and leaves exactly the message's entries after the cut.
   */
  lemma {:induction false} MergeShape(log: Log, pos: nat, entries: seq<Entry>)
    requires pos <= |log|
    ensures var d := Held(log, pos, entries);
            Merge(log, pos, entries) == if d == |entries| then log else log[..pos + d] + entries[d..]
    decreases |entries|
  {
    if entries != [] {
      if pos < |log| && log[pos].term == entries[0].term {
        MergeShape(log, pos + 1, entries[1..]);
        var d := Held(log, pos + 1, entries[1..]);
        assert entries[1..][d..] == entries[d + 1..];
      } else {
        var base := log[..pos] + [entries[0]];
        MergeAtEnd(base, entries[1..]);
        assert pos == |log| ==> log[..pos] == log;
        assert base + entries[1..] == log[..pos] + entries;
      }
    }
  }

  /** `log` becomes `log'` by taking in the first `m` entries of `leader`: unchanged, or cut at a conflict `d`. */
  ghost predicate TakesIn(log: Log, leader: Log, m: nat, log': Log, d: nat) {
    && m <= |leader|
    && if d == m then Agree(log, leader, m) && log' == log
       else
         && d < m && Agree(log, leader, d) && log' == leader[..m]
         && (d == |log| || log[d].term != leader[d].term)
  }

  /** A follower whose entry before `prev` matches the leader's takes in the leader's log up to the end of the message. */
  lemma MergeTakesIn(log: Log, leader: Log, prev: nat, m: nat, ledgers: map<nat, Log>) returns (d: nat)
    requires Backed(log, ledgers) && Backed(leader, ledgers)
    requires prev <= m <= |leader| && prev <= |log|
    requires prev > 0 ==> log[prev - 1].term == leader[prev - 1].term
    ensures TakesIn(log, leader, m, Merge(log, prev, leader[prev..m]), d)
  {
    hide Merge;
    d := TakesFrom(log, leader, prev, leader[prev..m], m, ledgers);
  }

  lemma TakesFrom(log: Log, leader: Log, prev: nat, entries: seq<Entry>, m: nat, ledgers: map<nat, Log>) returns (d: nat)
    requires Backed(log, ledgers) && Backed(leader, ledgers)
    requires prev <= m <= |leader| && prev <= |log|
    requires |entries| == m - prev && forall k: nat :: k < |entries| ==> entries[k] == leader[prev + k]
    requires prev > 0 ==> log[prev - 1].term == leader[prev - 1].term
    ensures TakesIn(log, leader, m, Merge(log, prev, entries), d)
  {
    hide Merge, Held, Backed;
    var h := Held(log, prev, entries);
    d := prev + h;
    MergeShape(log, prev, entries);
    if d > 0 {
      assert log[d - 1].term == leader[d - 1].term by {
        if h > 0 { assert log[prev + (h - 1)].term == entries[h - 1].term; }
      }
      LogMatching(log, leader, ledgers, d - 1);
    }
    if d < m {
      Rest(log, leader, prev, entries, h);
      assert d < |log| ==> log[d].term != entries[h].term;
    }
  }

  lemma Rest(log: Log, leader: Log, prev: nat, entries: seq<Entry>, h: nat)
    requires h <= |entries| && prev + |entries| <= |leader| && Agree(log, leader, prev + h)
    requires forall k: nat :: k < |entries| ==> entries[k] == leader[prev + k]
    ensures log[..prev + h] + entries[h..] == leader[..prev + |entries|]
  {
    assert log[..prev + h] == leader[..prev + h];
    assert entries[h..] == leader[prev + h..prev + |entries|];
  }
}
