/** Applying committed entries, answering clients and crashing keep the cluster invariant. */
module ClusterClients {
  import opened Wrappers
  import opened RaftLog
  import opened RaftCore
  import opened RaftCoreFrames
  import opened RaftCoreVotes
  import opened RaftNode
  import opened Cluster
  import opened ClusterInv
  import opened ClusterVotes

  /** An event inside one node that changes nothing consensus depends on. */
  lemma LocalKeeps(s: Sys, i: nat, y: Node)
    requires Inv(s) && i < |s.nodes| && AsMember(y) == AsMember(s.nodes[i])
    requires y.election == s.nodes[i].election && y.matched == s.nodes[i].matched && y.next == s.nodes[i].next
    requires ServiceOk(s.h, y, s.max)
    ensures Inv(Put(s, i, y))
  {
    hide CoreInv, NetOk, ServiceOk, Evolves;
    var s', c, c' := Put(s, i, y), AsCore(s), AsCore(Put(s, i, y));
    TheNode(s, i);
    CoreOfPut(s, i, y);
    assert c'.members == c.members;
    ReflexiveEvolves(c);
    LeaderSame(c.h, |c.members|, s.nodes[i], y);
    InvFromParts(s, s', i);
  }

  // -------------------------------------------------------------- the applier

  lemma {:induction false} BatchShape(log: Log, from: nat, upto: nat)
    requires from <= upto <= |log|
    ensures |Batch(log, from, upto)| == upto - from
    ensures forall k: nat :: k < upto - from ==> Batch(log, from, upto)[k] == (from + k + 1, log[from + k])
    decreases upto - from
  {
    if from < upto {
      BatchShape(log, from + 1, upto);
      var first, rest := [(from + 1, log[from])], Batch(log, from + 1, upto);
      assert Batch(log, from, upto) == first + rest;
      hide Batch;
      forall k: nat | k < upto - from ensures (first + rest)[k] == (from + k + 1, log[from + k]) {
        if k > 0 { assert rest[k - 1] == (from + 1 + (k - 1) + 1, log[from + 1 + (k - 1)]); }
      }
    }
  }

  lemma TakeKeeps(s: Sys, i: nat)
    requires Inv(s) && Enabled(s, Take(i))
    ensures Inv(Put(s, i, TakeBatch(s.nodes[i])))
  {
    hide CoreInv;
    var x := s.nodes[i];
    var y := TakeBatch(x);
    TheNode(s, i);
    ClientsSame(x, y);
    if s.h.trusted {
      BatchShape(x.log, x.lastApplied, x.commit);
      AnswersSame(x, y, s.max);
    }
    LocalKeeps(s, i, y);
  }

  lemma ApplierAdvances(x: Node, max: nat)
    requires ApplierOk(x, max) && x.queue != []
    ensures ApplierOk(ApplyNext(x, max), max)
  {
    var y, n := ApplyNext(x, max), |x.applied|;
    var e := x.queue[0].1;
    assert x.queue[0] == (n + 1, x.log[n]);
    assert y.applied == x.log[..n + 1];
    assert y.applied[..n] == x.applied;
    forall k: nat | k < |y.queue| ensures y.queue[k] == (n + 1 + k + 1, x.log[n + 1 + k]) {
      assert x.queue[k + 1] == (n + (k + 1) + 1, x.log[n + (k + 1)]);
    }
  }

  lemma ApplyKeeps(s: Sys, i: nat)
    requires Inv(s) && Enabled(s, ApplyOne(i))
    ensures Inv(Put(s, i, ApplyNext(s.nodes[i], s.max)))
  {
    hide CoreInv, NetOk;
    var x := s.nodes[i];
    var y := ApplyNext(x, s.max);
    TheNode(s, i);
    ClientsSame(x, y);
    if s.h.trusted {
      ApplierAdvances(x, s.max);
      ApplyAnswers(x, s.max);
    }
    LocalKeeps(s, i, y);
  }

  lemma ApplyAnswers(x: Node, max: nat)
    requires ApplierOk(x, max) && AnswersOk(x, max) && x.queue != []
    ensures AnswersOk(ApplyNext(x, max), max)
  {
    var y := ApplyNext(x, max);
    forall k: nat | k < |y.calls| ensures AnswerOk(y, max, k) {
      assert AnswerOk(x, max, k);
      var j := x.calls[k].entry.index;
      if x.calls[k].outcome.Answered? {
        assert y.applied[..j - 1] == x.applied[..j - 1];
      }
    }
  }

  /** No two waiters belong to the same call. */
  lemma WaitersApart(x: Node, v: nat, w: nat)
    requires v in x.waiters && w in x.waiters && WaiterOk(x, v) && WaiterOk(x, w) && LaidOut(x.log)
    requires x.waiters[v].call == x.waiters[w].call
    ensures v == w
  {
    assert x.log[v - 1].index == v && x.log[w - 1].index == w;
  }

  /** The waiter at an applied index always is for the very entry applied there, so its call gets the result. */
  lemma ResolveAnswers(x: Node, max: nat)
    requires ApplierOk(x, max) && ClientsOk(x) && x.resolving.Some? && x.resolving.value.index in x.waiters
    ensures var r := x.resolving.value; var w := x.waiters[r.index];
            && w.call < |x.calls| && x.calls[w.call] == RaftNode.Call(r.entry, Waiting) && SameEntry(w, r.entry)
            && Resolve(x).calls == x.calls[w.call := RaftNode.Call(r.entry, Answered(r.result))]
            && Resolve(x).waiters == x.waiters - {r.index}
  {
    var r := x.resolving.value;
    assert WaiterOk(x, r.index);
    assert x.log[r.index - 1] == r.entry by { assert x.applied[r.index - 1] == x.log[r.index - 1]; }
  }

  /** Whatever a waiter is told, its call no longer waits, and no other call loses its waiter. */
  lemma ResolveClients(x: Node)
    requires ClientsOk(x) && x.resolving.Some? && LaidOut(x.log)
    ensures ClientsOk(Resolve(x))
  {
    var r, y := x.resolving.value, Resolve(x);
    if r.index in x.waiters {
      assert WaiterOk(x, r.index);
      var w0 := x.waiters[r.index];
      forall w: nat | w in y.waiters ensures WaiterOk(y, w) {
        assert WaiterOk(x, w);
        if x.waiters[w].call == w0.call { WaitersApart(x, w, r.index); }
      }
      forall k: nat | k < |y.calls| ensures CallOk(y, k) {
        assert CallOk(x, k);
        assert x.log[r.index - 1].index == r.index;
      }
    } else {
      ClientsSame(x, y);
    }
  }

  lemma ResolvedAnswers(x: Node, max: nat)
    requires ApplierOk(x, max) && ClientsOk(x) && AnswersOk(x, max) && x.resolving.Some? && LaidOut(x.log)
    ensures AnswersOk(Resolve(x), max)
  {
    hide Resolve;
    var r, y := x.resolving.value, Resolve(x);
    ResolveRest(x);
    if r.index in x.waiters {
      ResolveAnswers(x, max);
      assert r.entry.index == r.index by {
        assert WaiterOk(x, r.index);
        assert x.log[r.index - 1].index == r.index;
      }
      forall k: nat | k < |y.calls| ensures AnswerOk(y, max, k) { assert AnswerOk(x, max, k); }
    } else {
      AnswersSame(x, y, max);
    }
  }

  lemma ResolveRest(x: Node)
    requires x.resolving.Some?
    ensures Resolve(x) == x.(resolving := None, waiters := Resolve(x).waiters, calls := Resolve(x).calls)
    ensures x.resolving.value.index !in x.waiters ==> Resolve(x) == x.(resolving := None)
  {
  }

  lemma NotifyKeeps(s: Sys, i: nat)
    requires Inv(s) && Enabled(s, Notify(i))
    ensures Inv(Put(s, i, Resolve(s.nodes[i])))
  {
    hide CoreInv, NetOk, ClientsOk, AnswersOk, Resolve;
    var x := s.nodes[i];
    var y := Resolve(x);
    TheNode(s, i);
    ResolveClients(x);
    ResolveRest(x);
    if s.h.trusted { ResolvedAnswers(x, s.max); }
    LocalKeeps(s, i, y);
  }

  // -------------------------------------------------------- timeouts and crashes

  lemma GiveUpClients(x: Node, call: nat)
    requires ClientsOk(x) && call < |x.calls| && LaidOut(x.log)
    ensures ClientsOk(GiveUp(x, call))
  {
    var y := GiveUp(x, call);
    forall w: nat | w in x.waiters && x.waiters[w].call == call ensures w == x.calls[call].entry.index {
      assert WaiterOk(x, w);
    }
    forall w: nat | w in y.waiters ensures WaiterOk(y, w) { assert WaiterOk(x, w); }
    forall k: nat | k < |y.calls| ensures CallOk(y, k) { assert CallOk(x, k); }
  }

  lemma ExpireKeeps(s: Sys, i: nat, call: nat)
    requires Inv(s) && Enabled(s, Expire(i, call))
    ensures Inv(Put(s, i, GiveUp(s.nodes[i], call)))
  {
    hide CoreInv, NetOk;
    var x := s.nodes[i];
    var y := GiveUp(x, call);
    TheNode(s, i);
    GiveUpClients(x, call);
    if s.h.trusted {
      forall k: nat | k < |y.calls| ensures AnswerOk(y, s.max, k) { assert AnswerOk(x, s.max, k); }
    }
    LocalKeeps(s, i, y);
  }

  lemma FreshNode(c: Core, i: nat, x: Node, max: nat)
    ensures NodeOk(c, i, CrashRestart(x), max)
  {
    var y := CrashRestart(x);
    assert y.applied == y.log[..0];
  }

  lemma CrashKeeps(s: Sys, i: nat)
    requires Inv(s) && i < |s.nodes|
    ensures Inv(Put(s, i, CrashRestart(s.nodes[i])))
  {
    hide CoreInv, NodeOk, NetOk;
    var y := CrashRestart(s.nodes[i]);
    var s', c, c' := Put(s, i, y), AsCore(s), AsCore(Put(s, i, y));
    TheNode(s, i);
    RestartKeeps(c, i);
    CoreOfPut(s, i, y);
    assert c' == Restart(c, i);
    assert Evolves(c, c') by {
      forall p: nat, t: nat ensures AckedLater(c, c', p, t) {}
    }
    NetFrame(c, c', s.net, s'.net);
    FreshNode(c', i, s.nodes[i], s.max);
    InvFromParts(s, s', i);
  }
}
