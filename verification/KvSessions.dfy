/**
 The bounded session table over whole logs: it is exactly the most recent clients in execution order,
 and a client's requests execute at most once for as long as the table remembers the client.
 */
module KvSessions {
  import opened Wrappers
  import opened KvState
  import opened KvVersions

  // -------------------------------------------------- the table as a sequence

  lemma {:induction false} WithoutSnoc(a: seq<Session>, s: Session, client: string)
    ensures Without(a + [s], client) == if s.client == client then Without(a, client) else Without(a, client) + [s]
  {
    if a != [] {
      WithoutSnoc(a[1..], s, client);
      assert (a + [s])[1..] == a[1..] + [s];
    }
  }

  lemma NewestSnoc(a: seq<Session>, s: Session, max: nat)
    requires max >= 1
    ensures Newest(a + [s], max) == Newest(a, max - 1) + [s]
  {
  }

  lemma {:induction false} WithoutAbsent(a: seq<Session>, client: string)
    requires forall s :: s in a ==> s.client != client
    ensures Without(a, client) == a
  {
    if a != [] {
      WithoutAbsent(a[1..], client);
    }
  }

  // -------------------------------------------------- the table is a true LRU

  /** The tracked requests that were executed, in log order, each with its answer. */
  function ExecTrace(max: nat, cmds: seq<Command>): seq<Session> {
    if cmds == [] then []
    else
      var n := |cmds| - 1;
      var s := ApplyAll(EMPTY, max, cmds[..n]);
      ExecTrace(max, cmds[..n])
      + (if Tracked(cmds[n]) && Executes(s, cmds[n])
         then [Session(cmds[n].client, cmds[n].num, Apply(s, max, cmds[n]).1)] else [])
  }

  /**
   The last request of each of the `max` most recent clients outside `seen`: walk the trace from its
   newest request back and keep a request when its client is met for the first time.
   */
  function Recent(trace: seq<Session>, max: nat, seen: set<string>): seq<Session> {
    if trace == [] || max == 0 then []
    else
      var last := trace[|trace| - 1];
      if last.client in seen then Recent(trace[..|trace| - 1], max, seen)
      else Recent(trace[..|trace| - 1], max - 1, seen + {last.client}) + [last]
  }

  lemma {:induction false} RecentBounds(trace: seq<Session>, max: nat, seen: set<string>)
    ensures |Recent(trace, max, seen)| <= max
    ensures forall s :: s in Recent(trace, max, seen) ==> s.client !in seen
  {
    if trace != [] && max != 0 {
      var rest, last := trace[..|trace| - 1], trace[|trace| - 1];
      if last.client in seen {
        RecentBounds(rest, max, seen);
      } else {
        RecentBounds(rest, max - 1, seen + {last.client});
      }
    }
  }

  lemma RecentStep(trace: seq<Session>, max: nat, seen: set<string>)
    requires trace != []
    ensures var rest, last := trace[..|trace| - 1], trace[|trace| - 1];
            Recent(trace, max, seen)
            == if max == 0 then [] else if last.client in seen then Recent(rest, max, seen)
               else Recent(rest, max - 1, seen + {last.client}) + [last]
  {
  }

  lemma NewestAll(a: seq<Session>, max: nat)
    requires |a| <= max
    ensures Newest(a, max) == a
  {
  }

  lemma SkipsNone(max: nat, seen: set<string>, client: string)
    requires max >= 1
    ensures Newest(Without(Recent([], max, seen), client), max - 1) == Recent([], max - 1, seen + {client})
    ensures forall a: seq<Session> :: Newest(a, 0) == []
  {
  }

  /** Taking one client out of the recent ones leaves the most recent ones without that client. */
  lemma {:induction false} RecentSkips(trace: seq<Session>, max: nat, seen: set<string>, client: string)
    requires max >= 1 && client !in seen
    ensures Newest(Without(Recent(trace, max, seen), client), max - 1) == Recent(trace, max - 1, seen + {client})
  {
    hide Recent, Without, Newest;
    SkipsNone(max, seen, client);
    if trace != [] {
      var rest, last := trace[..|trace| - 1], trace[|trace| - 1];
      RecentStep(trace, max, seen);
      RecentStep(trace, max - 1, seen + {client});
      if last.client in seen {
        RecentSkips(rest, max, seen, client);
      } else {
        WithoutSnoc(Recent(rest, max - 1, seen + {last.client}), last, client);
        if last.client == client {
          RecentBounds(rest, max - 1, seen + {client});
          NewestAll(Recent(rest, max - 1, seen + {client}), max - 1);
          WithoutAbsent(Recent(rest, max - 1, seen + {client}), client);
        } else if max > 1 {
          RecentSkips(rest, max - 1, seen + {last.client}, client);
          assert seen + {last.client} + {client} == seen + {client} + {last.client};
          NewestSnoc(Without(Recent(rest, max - 1, seen + {last.client}), client), last, max - 1);
        }
      }
    }
  }

  /** Remembering a request is adding it to the trace. */
  lemma RememberIsRecent(trace: seq<Session>, max: nat, s: Session)
    ensures Remember(Recent(trace, max, {}), max, s) == Recent(trace + [s], max, {})
  {
    assert (trace + [s])[..|trace|] == trace;
    if max >= 1 {
      RecentSkips(trace, max, {}, s.client);
      NewestSnoc(Without(Recent(trace, max, {}), s.client), s, max);
    }
  }

  /** After any log, the table holds the last executed request of the `max` most recently executing clients, in order. */
  lemma {:induction false} SessionTableIsLru(max: nat, cmds: seq<Command>)
    ensures ApplyAll(EMPTY, max, cmds).sessions == Recent(ExecTrace(max, cmds), max, {})
  {
    if cmds != [] {
      var n := |cmds| - 1;
      SessionTableIsLru(max, cmds[..n]);
      var s := ApplyAll(EMPTY, max, cmds[..n]);
      RememberIsRecent(ExecTrace(max, cmds[..n]), max,
                       Session(cmds[n].client, cmds[n].num, Apply(s, max, cmds[n]).1));
      assert ExecTrace(max, cmds[..n]) + [] == ExecTrace(max, cmds[..n]);
    }
  }

  // ------------------------------------------------ at most once, within the window

  /** Whether the `m`-th command of a log is a tracked request that is executed there. */
  predicate ExecutedAt(s: State, max: nat, cmds: seq<Command>, m: nat)
    requires m < |cmds|
  {
    Tracked(cmds[m]) && Executes(StateAt(s, max, cmds, m), cmds[m])
  }

  /** The clients other than `client` with a request executed strictly between positions `i` and `j`. */
  function OthersBetween(s: State, max: nat, cmds: seq<Command>, client: string, i: nat, j: nat): set<string>
    requires i < j <= |cmds|
  {
    set m | i < m < j && ExecutedAt(s, max, cmds, m) && cmds[m].client != client :: cmds[m].client
  }

  /** Whether the client of request `i` has a newer request executed strictly between `i` and `j`. */
  predicate MovedOn(s: State, max: nat, cmds: seq<Command>, i: nat, j: nat)
    requires i < j <= |cmds|
  {
    exists m :: i < m < j && cmds[m].client == cmds[i].client && ExecutedAt(s, max, cmds, m)
  }

  ghost predicate Distinct(sessions: seq<Session>) {
    forall a, b :: 0 <= a < b < |sessions| ==> sessions[a].client != sessions[b].client
  }

  /**
   What a lookup finds, told by what is in the table: nothing for an untracked request or one newer than its client's
   session; the stored answer for the session's own number; and "stale" for an older one.
   */
  lemma {:induction false} LookupByTable(sessions: seq<Session>, client: string, num: int)
    requires Distinct(sessions)
    ensures match LookupSession(sessions, client, num)
            case None => client == "" || num <= 0 || forall s :: s in sessions && s.client == client ==> s.num < num
            case Some(r) =>
              && client != "" && num > 0
              && exists s :: s in sessions && s.client == client
                   && ((num == s.num && r == s.result) || (num < s.num && r == Stale))
  {
    if sessions != [] && sessions[0].client != client {
      assert sessions == [sessions[0]] + sessions[1..];
      LookupByTable(sessions[1..], client, num);
    }
  }

  /** `client` sits at position `k`, and everything behind it belongs to `others`. */
  ghost predicate Behind(sessions: seq<Session>, k: nat, client: string, others: set<string>) {
    && k < |sessions| && sessions[k].client == client
    && forall q :: k < q < |sessions| ==> sessions[q].client in others
  }

  lemma {:induction false} FindAt(sessions: seq<Session>, k: nat)
    requires Distinct(sessions) && k < |sessions|
    ensures Find(sessions, sessions[k].client) == Some(sessions[k])
  {
    if k > 0 {
      FindAt(sessions[1..], k - 1);
    }
  }

  lemma {:induction false} WithoutCut(sessions: seq<Session>, p: nat)
    requires Distinct(sessions) && p < |sessions|
    ensures Without(sessions, sessions[p].client) == sessions[..p] + sessions[p + 1..]
  {
    if p == 0 {
      WithoutAbsent(sessions[1..], sessions[0].client);
    } else {
      WithoutCut(sessions[1..], p - 1);
    }
  }

  /** A client is in the table at some position, or nowhere. */
  lemma WithoutEither(sessions: seq<Session>, client: string) returns (p: nat)
    requires Distinct(sessions)
    ensures p <= |sessions|
    ensures p < |sessions| ==> sessions[p].client == client
                               && Without(sessions, client) == sessions[..p] + sessions[p + 1..]
    ensures p == |sessions| ==> Without(sessions, client) == sessions && forall s :: s in sessions ==> s.client != client
  {
    if exists q :: 0 <= q < |sessions| && sessions[q].client == client {
      p :| 0 <= p < |sessions| && sessions[p].client == client;
      WithoutCut(sessions, p);
    } else {
      p := |sessions|;
      WithoutAbsent(sessions, client);
    }
  }

  lemma WithoutDistinct(sessions: seq<Session>, client: string)
    requires Distinct(sessions)
    ensures var w := Without(sessions, client);
            Distinct(w) && |w| <= |sessions| && forall q :: 0 <= q < |w| ==> w[q].client != client
  {
    var p := WithoutEither(sessions, client);
    if p < |sessions| {
      var w := sessions[..p] + sessions[p + 1..];
      assert forall q :: 0 <= q < |w| ==> w[q] == sessions[if q < p then q else q + 1];
    }
  }

  lemma SnocDistinct(sessions: seq<Session>, s: Session)
    requires Distinct(sessions) && forall q :: 0 <= q < |sessions| ==> sessions[q].client != s.client
    ensures Distinct(sessions + [s])
  {
  }

  lemma NewestDistinct(sessions: seq<Session>, max: nat)
    requires Distinct(sessions)
    ensures Distinct(Newest(sessions, max)) && |Newest(sessions, max)| <= max
  {
  }

  lemma RememberDistinct(sessions: seq<Session>, max: nat, s: Session)
    requires Distinct(sessions) && |sessions| <= max
    ensures Distinct(Remember(sessions, max, s)) && |Remember(sessions, max, s)| <= max
  {
    hide Distinct, Without, Newest;
    WithoutDistinct(sessions, s.client);
    SnocDistinct(Without(sessions, s.client), s);
    NewestDistinct(Without(sessions, s.client) + [s], max);
  }

  lemma {:induction false} TableBounded(max: nat, cmds: seq<Command>)
    ensures var t := ApplyAll(EMPTY, max, cmds).sessions; Distinct(t) && |t| <= max
  {
    if cmds != [] {
      var n := |cmds| - 1;
      TableBounded(max, cmds[..n]);
      var s := ApplyAll(EMPTY, max, cmds[..n]);
      RememberDistinct(s.sessions, max, Session(cmds[n].client, cmds[n].num, ApplyOp(s.store, cmds[n]).1));
    }
  }

  lemma {:induction false} DistinctCount(sessions: seq<Session>, from: nat, extra: string, bound: set<string>)
    requires Distinct(sessions) && from <= |sessions|
    requires forall s :: s in sessions ==> s.client != extra
    requires extra in bound && forall q :: from <= q < |sessions| ==> sessions[q].client in bound
    ensures |sessions| - from < |bound|
    decreases |sessions| - from
  {
    if from < |sessions| {
      DistinctCount(sessions, from + 1, extra, bound - {sessions[from].client});
    } else {
      assert |bound| == |bound - {extra}| + 1;
    }
  }

  /** Another client's request leaves `client`'s entry in the table while fewer than `max` others are behind it. */
  lemma RememberBehind(sessions: seq<Session>, max: nat, s: Session, k: nat, client: string, others: set<string>)
      returns (k': nat)
    requires Distinct(sessions) && |sessions| <= max && Behind(sessions, k, client, others)
    requires s.client != client && |others + {s.client}| < max
    ensures Behind(Remember(sessions, max, s), k', client, others + {s.client})
    ensures Remember(sessions, max, s)[k'] == sessions[k]
  {
    var p := WithoutEither(sessions, s.client);
    if p < |sessions| {
      k' := if p < k then k - 1 else k;
    } else if |sessions| < max {
      k' := k;
    } else {
      DistinctCount(sessions, k + 1, s.client, others + {s.client});
      k' := k - 1;
    }
  }

  /** `client`'s own newer request moves its entry to the end. */
  lemma RememberOwn(sessions: seq<Session>, max: nat, s: Session)
    requires Distinct(sessions) && |sessions| <= max && max >= 1
    ensures var r := Remember(sessions, max, s); r != [] && Behind(r, |r| - 1, s.client, {}) && r[|r| - 1] == s
  {
    var p := WithoutEither(sessions, s.client);
  }

  /** What the table knows, before position `m`, about the client whose request executed at position `i`. */
  ghost predicate Recalls(max: nat, cmds: seq<Command>, i: nat, m: nat, k: nat)
    requires i < m <= |cmds|
  {
    var t := StateAt(EMPTY, max, cmds, m).sessions;
    && Distinct(t) && |t| <= max
    && Behind(t, k, cmds[i].client, OthersBetween(EMPTY, max, cmds, cmds[i].client, i, m))
    && (if MovedOn(EMPTY, max, cmds, i, m) then t[k].num > cmds[i].num
        else t[k] == Session(cmds[i].client, cmds[i].num, Apply(StateAt(EMPTY, max, cmds, i), max, cmds[i]).1))
  }

  lemma OthersGrow(s: State, max: nat, cmds: seq<Command>, client: string, i: nat, m: nat)
    requires i < m < |cmds|
    ensures OthersBetween(s, max, cmds, client, i, m + 1)
         == OthersBetween(s, max, cmds, client, i, m)
            + (if ExecutedAt(s, max, cmds, m) && cmds[m].client != client then {cmds[m].client} else {})
  {
  }

  lemma OthersFewer(s: State, max: nat, cmds: seq<Command>, client: string, i: nat, m: nat, j: nat)
    requires i < m <= j <= |cmds|
    ensures |OthersBetween(s, max, cmds, client, i, m)| <= |OthersBetween(s, max, cmds, client, i, j)|
  {
    var a, b := OthersBetween(s, max, cmds, client, i, m), OthersBetween(s, max, cmds, client, i, j);
    assert a <= b;
    assert b == a + (b - a);
  }

  lemma MovedOnGrows(s: State, max: nat, cmds: seq<Command>, i: nat, m: nat)
    requires i < m < |cmds|
    ensures MovedOn(s, max, cmds, i, m + 1)
        <==> MovedOn(s, max, cmds, i, m) || (cmds[m].client == cmds[i].client && ExecutedAt(s, max, cmds, m))
  {
  }

  lemma RecallsStepOwn(max: nat, cmds: seq<Command>, i: nat, m: nat, k: nat) returns (k': nat)
    requires i < m < |cmds| && ExecutedAt(EMPTY, max, cmds, m) && cmds[m].client == cmds[i].client
    requires Recalls(max, cmds, i, m, k)
    ensures Recalls(max, cmds, i, m + 1, k')
  {
    var t := StateAt(EMPTY, max, cmds, m);
    var entry := Session(cmds[m].client, cmds[m].num, ApplyOp(t.store, cmds[m]).1);
    StepAt(EMPTY, max, cmds, m);
    MovedOnGrows(EMPTY, max, cmds, i, m);
    FindAt(t.sessions, k);
    RememberDistinct(t.sessions, max, entry);
    RememberOwn(t.sessions, max, entry);
    k' := |Remember(t.sessions, max, entry)| - 1;
  }

  lemma RecallsStepOther(max: nat, cmds: seq<Command>, i: nat, m: nat, k: nat) returns (k': nat)
    requires i < m < |cmds| && ExecutedAt(EMPTY, max, cmds, m) && cmds[m].client != cmds[i].client
    requires |OthersBetween(EMPTY, max, cmds, cmds[i].client, i, m + 1)| < max
    requires Recalls(max, cmds, i, m, k)
    ensures Recalls(max, cmds, i, m + 1, k')
  {
    var t := StateAt(EMPTY, max, cmds, m);
    var entry := Session(cmds[m].client, cmds[m].num, ApplyOp(t.store, cmds[m]).1);
    StepAt(EMPTY, max, cmds, m);
    OthersGrow(EMPTY, max, cmds, cmds[i].client, i, m);
    MovedOnGrows(EMPTY, max, cmds, i, m);
    RememberDistinct(t.sessions, max, entry);
    k' := RememberBehind(t.sessions, max, entry, k, cmds[i].client,
                         OthersBetween(EMPTY, max, cmds, cmds[i].client, i, m));
  }

  lemma RecallsStep(max: nat, cmds: seq<Command>, i: nat, m: nat, k: nat) returns (k': nat)
    requires i < m < |cmds| && ExecutedAt(EMPTY, max, cmds, i)
    requires |OthersBetween(EMPTY, max, cmds, cmds[i].client, i, m + 1)| < max
    requires Recalls(max, cmds, i, m, k)
    ensures Recalls(max, cmds, i, m + 1, k')
  {
    if !ExecutedAt(EMPTY, max, cmds, m) {
      StepAt(EMPTY, max, cmds, m);
      OthersGrow(EMPTY, max, cmds, cmds[i].client, i, m);
      MovedOnGrows(EMPTY, max, cmds, i, m);
      k' := k;
    } else if cmds[m].client == cmds[i].client {
      k' := RecallsStepOwn(max, cmds, i, m, k);
    } else {
      k' := RecallsStepOther(max, cmds, i, m, k);
    }
  }

  /** Right after it, the request is the last thing the table knows. */
  lemma RecallsFirst(max: nat, cmds: seq<Command>, i: nat) returns (k: nat)
    requires i < |cmds| && ExecutedAt(EMPTY, max, cmds, i) && max >= 1
    ensures Recalls(max, cmds, i, i + 1, k)
  {
    hide Remember, Distinct;
    var before := StateAt(EMPTY, max, cmds, i);
    StepAt(EMPTY, max, cmds, i);
    assert before == ApplyAll(EMPTY, max, cmds[..i]);
    TableBounded(max, cmds[..i]);
    var entry := Session(cmds[i].client, cmds[i].num, ApplyOp(before.store, cmds[i]).1);
    RememberDistinct(before.sessions, max, entry);
    RememberOwn(before.sessions, max, entry);
    NoOthersYet(max, cmds, i);
    k := |Remember(before.sessions, max, entry)| - 1;
  }

  lemma NoOthersYet(max: nat, cmds: seq<Command>, i: nat)
    requires i < |cmds|
    ensures OthersBetween(EMPTY, max, cmds, cmds[i].client, i, i + 1) == {} && !MovedOn(EMPTY, max, cmds, i, i + 1)
  {
  }

  lemma {:induction false} RecallsAlways(max: nat, cmds: seq<Command>, i: nat, m: nat) returns (k: nat)
    requires i < m <= |cmds| && ExecutedAt(EMPTY, max, cmds, i)
    requires |OthersBetween(EMPTY, max, cmds, cmds[i].client, i, m)| < max
    ensures Recalls(max, cmds, i, m, k)
    decreases m
  {
    hide Recalls, OthersBetween, ExecutedAt;
    if m == i + 1 {
      k := RecallsFirst(max, cmds, i);
    } else {
      OthersFewer(EMPTY, max, cmds, cmds[i].client, i, m - 1, m);
      var k0 := RecallsAlways(max, cmds, i, m - 1);
      k := RecallsStep(max, cmds, i, m - 1, k0);
    }
  }

  /**
   While fewer than `max` other clients have executed since, no repeat of an executed request runs again,
   wherever it sits in the log, and the session lookup and the log give the same answer: the first one,
   or "stale" exactly when the client has since moved on to a newer request.
   */
  lemma RetryAnswered(max: nat, cmds: seq<Command>, i: nat, j: nat)
    requires i < j <= |cmds| && ExecutedAt(EMPTY, max, cmds, i)
    requires |OthersBetween(EMPTY, max, cmds, cmds[i].client, i, j)| < max
    ensures LookupSession(StateAt(EMPTY, max, cmds, j).sessions, cmds[i].client, cmds[i].num)
         == Some(if MovedOn(EMPTY, max, cmds, i, j) then Stale
                 else Apply(StateAt(EMPTY, max, cmds, i), max, cmds[i]).1)
    ensures j < |cmds| && cmds[j].client == cmds[i].client && 0 < cmds[j].num <= cmds[i].num ==>
              !Executes(StateAt(EMPTY, max, cmds, j), cmds[j])
    ensures j < |cmds| && cmds[j].client == cmds[i].client && 0 < cmds[j].num < cmds[i].num ==>
              Apply(StateAt(EMPTY, max, cmds, j), max, cmds[j]).1 == Stale
    ensures j < |cmds| && cmds[j].client == cmds[i].client && cmds[j].num == cmds[i].num ==>
              && !Executes(StateAt(EMPTY, max, cmds, j), cmds[j])
              && Apply(StateAt(EMPTY, max, cmds, j), max, cmds[j])
              == (StateAt(EMPTY, max, cmds, j),
                  LookupSession(StateAt(EMPTY, max, cmds, j).sessions, cmds[i].client, cmds[i].num).value)
  {
    var k := RecallsAlways(max, cmds, i, j);
    FindAt(StateAt(EMPTY, max, cmds, j).sessions, k);
  }

  // ----------------------------------------------------- and no longer than that

  /** The clients of a trace from position `n` on. */
  function ClientsFrom(trace: seq<Session>, n: nat): set<string> {
    set q | n <= q < |trace| :: trace[q].client
  }

  lemma ClientsSnoc(trace: seq<Session>, n: nat, last: Session)
    requires n <= |trace|
    ensures ClientsFrom(trace + [last], n) == ClientsFrom(trace, n) + {last.client}
  {
    var longer := trace + [last];
    assert longer[|trace|] == last && last.client in ClientsFrom(longer, n);
    assert forall q :: n <= q < |trace| ==> longer[q] == trace[q];
  }

  lemma OneFewer(all: set<string>, rest: set<string>, seen: set<string>, last: string, max: nat)
    requires all == rest + {last} && |all - seen| >= max
    ensures last in seen ==> |rest - seen| >= max
    ensures last !in seen && max > 0 ==> |rest - (seen + {last})| >= max - 1
  {
    if last in seen {
      assert all - seen == rest - seen;
    } else {
      assert all - seen == (rest - (seen + {last})) + {last};
    }
  }

  ghost predicate Lacks(sessions: seq<Session>, client: string) {
    forall s :: s in sessions ==> s.client != client
  }

  lemma RecentSnoc(trace: seq<Session>, last: Session, max: nat, seen: set<string>)
    requires max > 0
    ensures Recent(trace + [last], max, seen)
         == if last.client in seen then Recent(trace, max, seen)
            else Recent(trace, max - 1, seen + {last.client}) + [last]
  {
    assert (trace + [last])[..|trace|] == trace;
  }

  lemma RecentNone(trace: seq<Session>, seen: set<string>, client: string)
    ensures Lacks(Recent(trace, 0, seen), client)
  {
  }

  lemma LacksSnoc(sessions: seq<Session>, last: Session, client: string)
    requires Lacks(sessions, client) && last.client != client
    ensures Lacks(sessions + [last], client)
  {
  }

  lemma NoneFromEnd(trace: seq<Session>, seen: set<string>)
    ensures |ClientsFrom(trace, |trace|) - seen| == 0
  {
    assert ClientsFrom(trace, |trace|) - seen == {};
  }

  /** A client behind which `max` others have executed is not among the recent ones. */
  lemma {:induction false} RecentExcludes(trace: seq<Session>, n: nat, max: nat, seen: set<string>, client: string)
    requires n <= |trace| && client !in ClientsFrom(trace, n) && |ClientsFrom(trace, n) - seen| >= max
    ensures Lacks(Recent(trace, max, seen), client)
    decreases |trace|
  {
    hide ClientsFrom, Recent, Lacks;
    NoneFromEnd(trace, seen);
    if |trace| == n || max == 0 {
      RecentNone(trace, seen, client);
    } else {
      var before, last := trace[..|trace| - 1], trace[|trace| - 1];
      assert trace == before + [last];
      RecentSnoc(before, last, max, seen);
      ClientsSnoc(before, n, last);
      OneFewer(ClientsFrom(trace, n), ClientsFrom(before, n), seen, last.client, max);
      if last.client in seen {
        RecentExcludes(before, n, max, seen, client);
      } else {
        RecentExcludes(before, n, max - 1, seen + {last.client}, client);
        LacksSnoc(Recent(before, max - 1, seen + {last.client}), last, client);
      }
    }
  }

  /** The clients with a request executed strictly between two positions. */
  function ExecutedClients(max: nat, cmds: seq<Command>, i: nat, j: nat): set<string>
    requires j <= |cmds|
  {
    set m | i < m < j && ExecutedAt(EMPTY, max, cmds, m) :: cmds[m].client
  }

  lemma ExecutedClientsGrow(max: nat, cmds: seq<Command>, i: nat, j: nat)
    requires i < j < |cmds|
    ensures ExecutedClients(max, cmds, i, j + 1)
         == ExecutedClients(max, cmds, i, j) + if ExecutedAt(EMPTY, max, cmds, j) then {cmds[j].client} else {}
  {
    hide ExecutedAt;
  }

  lemma TraceGrows(max: nat, cmds: seq<Command>, j: nat)
    requires j < |cmds|
    ensures var before, after := ExecTrace(max, cmds[..j]), ExecTrace(max, cmds[..j + 1]);
            if ExecutedAt(EMPTY, max, cmds, j) then |after| > 0 && after == before + [after[|after| - 1]]
                                                    && after[|after| - 1].client == cmds[j].client
            else after == before
  {
    assert cmds[..j + 1][..j] == cmds[..j];
  }

  lemma NothingBetween(max: nat, cmds: seq<Command>, i: nat)
    requires i < |cmds|
    ensures var trace := ExecTrace(max, cmds[..i + 1]); ClientsFrom(trace, |trace|) == {}
    ensures ExecutedClients(max, cmds, i, i + 1) == {}
  {
    hide ExecTrace, ExecutedAt;
  }

  /** The clients executed strictly between two positions are those the trace gains there. */
  lemma {:induction false} TraceBetween(max: nat, cmds: seq<Command>, i: nat, j: nat)
    requires i < j <= |cmds|
    ensures |ExecTrace(max, cmds[..i + 1])| <= |ExecTrace(max, cmds[..j])|
    ensures ClientsFrom(ExecTrace(max, cmds[..j]), |ExecTrace(max, cmds[..i + 1])|) == ExecutedClients(max, cmds, i, j)
    decreases j
  {
    hide ExecTrace, ClientsFrom, ExecutedClients, ExecutedAt;
    if j == i + 1 {
      NothingBetween(max, cmds, i);
    } else {
      TraceBetween(max, cmds, i, j - 1);
      TraceGrows(max, cmds, j - 1);
      ExecutedClientsGrow(max, cmds, i, j - 1);
      var n, before, after := |ExecTrace(max, cmds[..i + 1])|, ExecTrace(max, cmds[..j - 1]), ExecTrace(max, cmds[..j]);
      if ExecutedAt(EMPTY, max, cmds, j - 1) {
        ClientsSnoc(before, n, after[|after| - 1]);
      }
    }
  }

  lemma {:induction false} FindNone(sessions: seq<Session>, client: string)
    requires Lacks(sessions, client)
    ensures Find(sessions, client) == None
  {
    if sessions != [] {
      FindNone(sessions[1..], client);
    }
  }

  lemma NobodyMovedOn(max: nat, cmds: seq<Command>, i: nat, j: nat)
    requires i < j <= |cmds| && !MovedOn(EMPTY, max, cmds, i, j)
    ensures ExecutedClients(max, cmds, i, j) == OthersBetween(EMPTY, max, cmds, cmds[i].client, i, j)
    ensures cmds[i].client !in ExecutedClients(max, cmds, i, j)
  {
    hide ExecutedAt;
  }

  /**
   The window is exact: a client's latest executed request is still recognised if and only if fewer than `max`
   other clients have executed since; otherwise a retry of it runs again.
   */
  lemma RecognisedIffRecent(max: nat, cmds: seq<Command>, i: nat, j: nat)
    requires i < j <= |cmds| && ExecutedAt(EMPTY, max, cmds, i) && !MovedOn(EMPTY, max, cmds, i, j)
    ensures LookupSession(StateAt(EMPTY, max, cmds, j).sessions, cmds[i].client, cmds[i].num).Some?
       <==> |OthersBetween(EMPTY, max, cmds, cmds[i].client, i, j)| < max
    ensures j < |cmds| && cmds[j].client == cmds[i].client && cmds[j].num == cmds[i].num ==>
              (Executes(StateAt(EMPTY, max, cmds, j), cmds[j])
          <==> |OthersBetween(EMPTY, max, cmds, cmds[i].client, i, j)| >= max)
  {
    hide ExecTrace, ClientsFrom, ExecutedClients, Recent, OthersBetween;
    var client, others := cmds[i].client, OthersBetween(EMPTY, max, cmds, cmds[i].client, i, j);
    if |others| < max {
      RetryAnswered(max, cmds, i, j);
    } else {
      var n, trace := |ExecTrace(max, cmds[..i + 1])|, ExecTrace(max, cmds[..j]);
      TraceBetween(max, cmds, i, j);
      NobodyMovedOn(max, cmds, i, j);
      assert others - {} == others;
      RecentExcludes(trace, n, max, {}, client);
      SessionTableIsLru(max, cmds[..j]);
      FindNone(StateAt(EMPTY, max, cmds, j).sessions, client);
    }
  }

  /** With room for every client, each request executes at most once over the whole log. */
  lemma ExecutedOnce(max: nat, cmds: seq<Command>, i: nat, j: nat)
    requires i < |cmds| && j < |cmds|
    requires cmds[i].client == cmds[j].client && cmds[i].num == cmds[j].num
    requires |TrackedClients(cmds)| <= max
    requires ExecutedAt(EMPTY, max, cmds, i) && ExecutedAt(EMPTY, max, cmds, j)
    ensures i == j
  {
    var lo, hi := if i < j then i else j, if i < j then j else i;
    if lo < hi {
      var c := cmds[lo].client;
      var others := OthersBetween(EMPTY, max, cmds, c, lo, hi);
      assert others <= TrackedClients(cmds) - {c};
      assert TrackedClients(cmds) == others + (TrackedClients(cmds) - others);
      assert |TrackedClients(cmds) - others| >= |{c}| by {
        assert TrackedClients(cmds) - others == {c} + (TrackedClients(cmds) - others - {c});
      }
      RetryAnswered(max, cmds, lo, hi);
    }
  }

  function TrackedClients(cmds: seq<Command>): set<string> {
    set i | 0 <= i < |cmds| && Tracked(cmds[i]) :: cmds[i].client
  }
}
