/**
 Deduplication refines filtering: with room for every client, running the replicated session table over a
 log has the same effect on the store as dropping the repeated and late requests and keeping no table at all.
 */
module KvDedup {
  import opened Wrappers
  import opened KvState
  import opened KvVersions
  import opened KvSessions

  /** An untracked command, or one numbered above every earlier request of its client. */
  predicate Fresh(cmds: seq<Command>, i: nat)
    requires i < |cmds|
  {
    Tracked(cmds[i]) ==>
      forall j :: 0 <= j < i && Tracked(cmds[j]) && cmds[j].client == cmds[i].client ==> cmds[j].num < cmds[i].num
  }

  function Filtered(cmds: seq<Command>): seq<Command> {
    if cmds == [] then []
    else Filtered(cmds[..|cmds| - 1]) + (if Fresh(cmds, |cmds| - 1) then [cmds[|cmds| - 1]] else [])
  }

  /** The store after running every command of a log, with no sessions involved. */
  function StoreAll(store: Store, cmds: seq<Command>): Store {
    if cmds == [] then store
    else ApplyOp(StoreAll(store, cmds[..|cmds| - 1]), cmds[|cmds| - 1]).0
  }

  lemma {:induction false} FindFound(sessions: seq<Session>, client: string)
    requires Find(sessions, client).Some?
    ensures Find(sessions, client).value in sessions && Find(sessions, client).value.client == client
  {
    if sessions[0].client != client {
      FindFound(sessions[1..], client);
    }
  }

  lemma {:induction false} WithoutShrinks(sessions: seq<Session>, client: string, s: Session)
    requires s in Without(sessions, client)
    ensures s in sessions
  {
    if sessions[0].client == client || s != sessions[0] {
      WithoutShrinks(sessions[1..], client, s);
    }
  }

  /** What the command at position `i` of a log is answered. */
  function AnswerAt(max: nat, cmds: seq<Command>, i: nat): Result
    requires i < |cmds|
  {
    Apply(StateAt(EMPTY, max, cmds, i), max, cmds[i]).1
  }

  /** Every session stands for a request the log executed. */
  lemma {:induction false} SessionExecuted(max: nat, cmds: seq<Command>, m: nat, s: Session) returns (p: nat)
    requires m <= |cmds| && s in StateAt(EMPTY, max, cmds, m).sessions
    ensures p < m && ExecutedAt(EMPTY, max, cmds, p) && cmds[p].client == s.client && cmds[p].num == s.num
    ensures s.result == AnswerAt(max, cmds, p)
    decreases m
  {
    StepAt(EMPTY, max, cmds, m - 1);
    var before := StateAt(EMPTY, max, cmds, m - 1);
    if s in before.sessions {
      p := SessionExecuted(max, cmds, m - 1, s);
    } else {
      p := m - 1;
      var entry := Session(cmds[p].client, cmds[p].num, ApplyOp(before.store, cmds[p]).1);
      assert s in Without(before.sessions, entry.client) + [entry];
      if s in Without(before.sessions, entry.client) {
        WithoutShrinks(before.sessions, entry.client, s);
      }
    }
  }

  /** Behind every tracked request there is an executed one of the same client, at least as new, no later in the log. */
  lemma ExecutedInstead(max: nat, cmds: seq<Command>, j: nat) returns (p: nat)
    requires j < |cmds| && Tracked(cmds[j])
    ensures p <= j && ExecutedAt(EMPTY, max, cmds, p) && cmds[p].client == cmds[j].client && cmds[p].num >= cmds[j].num
  {
    if ExecutedAt(EMPTY, max, cmds, j) {
      p := j;
    } else {
      var t := StateAt(EMPTY, max, cmds, j).sessions;
      FindFound(t, cmds[j].client);
      p := SessionExecuted(max, cmds, j, Find(t, cmds[j].client).value);
    }
  }

  lemma RoomForOthers(max: nat, cmds: seq<Command>, i: nat, j: nat)
    requires i < j <= |cmds| && Tracked(cmds[i]) && |TrackedClients(cmds)| <= max
    ensures |OthersBetween(EMPTY, max, cmds, cmds[i].client, i, j)| < max
  {
    var others, all := OthersBetween(EMPTY, max, cmds, cmds[i].client, i, j), TrackedClients(cmds);
    assert cmds[i].client in all;
    assert all == others + {cmds[i].client} + (all - others - {cmds[i].client});
  }

  /** With room for every client, a tracked command is executed exactly if it is fresh. */
  lemma ExecutesIffFresh(max: nat, cmds: seq<Command>, i: nat)
    requires i < |cmds| && Tracked(cmds[i]) && |TrackedClients(cmds)| <= max
    ensures Executes(StateAt(EMPTY, max, cmds, i), cmds[i]) <==> Fresh(cmds, i)
  {
    var t := StateAt(EMPTY, max, cmds, i).sessions;
    if Fresh(cmds, i) {
      if Find(t, cmds[i].client).Some? {
        FindFound(t, cmds[i].client);
        var p := SessionExecuted(max, cmds, i, Find(t, cmds[i].client).value);
      }
    } else {
      var j :| 0 <= j < i && Tracked(cmds[j]) && cmds[j].client == cmds[i].client && cmds[j].num >= cmds[i].num;
      var p := ExecutedInstead(max, cmds, j);
      RoomForOthers(max, cmds, p, i);
      RetryAnswered(max, cmds, p, i);
    }
  }

  lemma FewerClients(cmds: seq<Command>, n: nat)
    requires n <= |cmds|
    ensures |TrackedClients(cmds[..n])| <= |TrackedClients(cmds)|
  {
    var a, b := TrackedClients(cmds[..n]), TrackedClients(cmds);
    forall c | c in a ensures c in b {
      var i :| 0 <= i < n && Tracked(cmds[..n][i]) && cmds[..n][i].client == c;
      assert Tracked(cmds[i]);
    }
    assert b == a + (b - a);
  }

  lemma {:induction false} DedupIsFiltering(max: nat, cmds: seq<Command>)
    requires |TrackedClients(cmds)| <= max
    ensures ApplyAll(EMPTY, max, cmds).store == StoreAll(EMPTY.store, Filtered(cmds))
  {
    if cmds != [] {
      var n := |cmds| - 1;
      FewerClients(cmds, n);
      DedupIsFiltering(max, cmds[..n]);
      if Tracked(cmds[n]) {
        ExecutesIffFresh(max, cmds, n);
      }
      var kept := Filtered(cmds[..n]);
      assert (kept + [cmds[n]])[..|kept|] == kept;
      assert kept + [] == kept;
    }
  }

  lemma MovedOnStays(max: nat, cmds: seq<Command>, p: nat, i: nat, j: nat)
    requires p < i <= j <= |cmds| && MovedOn(EMPTY, max, cmds, p, i)
    ensures MovedOn(EMPTY, max, cmds, p, j)
  {
    var m :| p < m < i && cmds[m].client == cmds[p].client && ExecutedAt(EMPTY, max, cmds, m);
  }

  /**
   However many copies of one request a log holds, their answers are all the first one's, up to the point
   where the client has moved on and copies are answered "stale".
   */
  lemma SameRequestSameAnswer(max: nat, cmds: seq<Command>, i: nat, j: nat)
    requires i < j < |cmds| && Tracked(cmds[i]) && |TrackedClients(cmds)| <= max
    requires cmds[j].client == cmds[i].client && cmds[j].num == cmds[i].num
    ensures AnswerAt(max, cmds, j) in {AnswerAt(max, cmds, i), Stale}
    ensures AnswerAt(max, cmds, j) == Stale ==> NewerBefore(max, cmds, j, cmds[j].client, cmds[j].num)
  {
    var source := AnswerSource(max, cmds, j);
    var p := ExecutedInstead(max, cmds, i);
    RoomForOthers(max, cmds, p, j);
    RetryAnswered(max, cmds, p, j);
    if p < i {
      RoomForOthers(max, cmds, p, i);
      RetryAnswered(max, cmds, p, i);
      if cmds[p].num == cmds[i].num && MovedOn(EMPTY, max, cmds, p, i) {
        MovedOnStays(max, cmds, p, i, j);
      }
    }
  }

  /** A session lookup on a replica that applied `j` commands gives the answer some copy of the request got, or "stale". */
  lemma LookupIsAnAnswer(max: nat, cmds: seq<Command>, j: nat, client: string, num: int) returns (i: nat)
    requires j <= |cmds| && LookupSession(StateAt(EMPTY, max, cmds, j).sessions, client, num).Some?
    ensures i < j && ExecutedAt(EMPTY, max, cmds, i) && cmds[i].client == client && cmds[i].num >= num
    ensures LookupSession(StateAt(EMPTY, max, cmds, j).sessions, client, num).value
         == if cmds[i].num == num then AnswerAt(max, cmds, i) else Stale
  {
    var t := StateAt(EMPTY, max, cmds, j).sessions;
    FindFound(t, client);
    i := SessionExecuted(max, cmds, j, Find(t, client).value);
  }

  /** A newer request of the client than number `num` has been executed before position `j`. */
  predicate NewerBefore(max: nat, cmds: seq<Command>, j: nat, client: string, num: int)
    requires j <= |cmds|
  {
    exists m :: 0 <= m < j && ExecutedAt(EMPTY, max, cmds, m) && cmds[m].client == client && cmds[m].num > num
  }

  /**
   Where the answer at any position comes from: from the executed copy of the request, unless it is "stale", and it
   is "stale" only behind an executed request of the same client with a larger number.  No bound on clients is needed.
   */
  lemma AnswerSource(max: nat, cmds: seq<Command>, i: nat) returns (e: nat)
    requires i < |cmds| && Tracked(cmds[i])
    ensures e <= i && ExecutedAt(EMPTY, max, cmds, e) && cmds[e].client == cmds[i].client
    ensures AnswerAt(max, cmds, i) == Stale ==>
              cmds[e].num > cmds[i].num && NewerBefore(max, cmds, i, cmds[i].client, cmds[i].num)
    ensures AnswerAt(max, cmds, i) != Stale ==>
              cmds[e].num == cmds[i].num && AnswerAt(max, cmds, e) == AnswerAt(max, cmds, i)
  {
    if ExecutedAt(EMPTY, max, cmds, i) {
      e := i;
    } else {
      var t := StateAt(EMPTY, max, cmds, i).sessions;
      FindFound(t, cmds[i].client);
      e := SessionExecuted(max, cmds, i, Find(t, cmds[i].client).value);
      RanNotStale(max, cmds, e);
    }
  }

  lemma RanNotStale(max: nat, cmds: seq<Command>, e: nat)
    requires e < |cmds| && ExecutedAt(EMPTY, max, cmds, e)
    ensures AnswerAt(max, cmds, e) != Stale
  {
  }

  // ------------------------------------------------- one request and its retries

  predicate IsCopy(cmds: seq<Command>, i: nat, client: string, num: int)
    requires i < |cmds|
  {
    cmds[i].client == client && cmds[i].num == num
  }

  /**
   The client is not evicted between a request and its retries: behind an executed copy of the request, every further
   copy comes while fewer than `max` other clients have executed.  How many clients the log holds in all is immaterial.
   */
  predicate RetriedInTime(max: nat, cmds: seq<Command>, client: string, num: int) {
    forall x: nat, y: nat | x < y < |cmds| && IsCopy(cmds, x, client, num) && IsCopy(cmds, y, client, num) ::
      ExecutedAt(EMPTY, max, cmds, x) ==> |OthersBetween(EMPTY, max, cmds, client, x, y)| < max
  }

  /** With room for every client, every retry is in time. */
  lemma RoomIsInTime(max: nat, cmds: seq<Command>, client: string, num: int)
    requires |TrackedClients(cmds)| <= max
    ensures RetriedInTime(max, cmds, client, num)
  {
    hide OthersBetween;
    forall x: nat, y: nat | x < y < |cmds| && IsCopy(cmds, x, client, num) && IsCopy(cmds, y, client, num)
                            && ExecutedAt(EMPTY, max, cmds, x)
      ensures |OthersBetween(EMPTY, max, cmds, client, x, y)| < max
    {
      RoomForOthers(max, cmds, x, y);
    }
  }

  lemma RunsOnceInTime(max: nat, cmds: seq<Command>, x: nat, y: nat)
    requires x < |cmds| && y < |cmds| && IsCopy(cmds, y, cmds[x].client, cmds[x].num)
    requires ExecutedAt(EMPTY, max, cmds, x) && ExecutedAt(EMPTY, max, cmds, y)
    requires RetriedInTime(max, cmds, cmds[x].client, cmds[x].num)
    ensures x == y
  {
    hide OthersBetween;
    if x < y {
      RetryAnswered(max, cmds, x, y);
    } else if y < x {
      RetryAnswered(max, cmds, y, x);
    }
  }

  /** All copies retried in time get one answer, except that a copy may be "stale" once a newer request was executed. */
  lemma CopiesAgree(max: nat, cmds: seq<Command>, i: nat, j: nat)
    requires i < |cmds| && j < |cmds| && Tracked(cmds[i]) && IsCopy(cmds, j, cmds[i].client, cmds[i].num)
    requires RetriedInTime(max, cmds, cmds[i].client, cmds[i].num)
    ensures AnswerAt(max, cmds, i) == AnswerAt(max, cmds, j)
         || AnswerAt(max, cmds, i) == Stale || AnswerAt(max, cmds, j) == Stale
    ensures AnswerAt(max, cmds, i) == Stale ==> NewerBefore(max, cmds, i, cmds[i].client, cmds[i].num)
    ensures AnswerAt(max, cmds, j) == Stale ==> NewerBefore(max, cmds, j, cmds[i].client, cmds[i].num)
  {
    hide RetriedInTime, AnswerAt, NewerBefore;
    var e := AnswerSource(max, cmds, i);
    var e' := AnswerSource(max, cmds, j);
    if AnswerAt(max, cmds, i) != Stale && AnswerAt(max, cmds, j) != Stale {
      RunsOnceInTime(max, cmds, e, e');
    }
  }

  /** Answers and executions only depend on the log up to where they happen. */
  lemma LongerLog(max: nat, cmds: seq<Command>, more: seq<Command>, i: nat)
    requires cmds <= more && i < |cmds|
    ensures StateAt(EMPTY, max, cmds, i) == StateAt(EMPTY, max, more, i) && cmds[i] == more[i]
  {
    assert cmds[..i] == more[..i];
  }
}
