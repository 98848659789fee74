/** Distributed training computes exactly the iterates of full-batch gradient descent. */
module TrainingSafety {
  import opened Wrappers
  import opened Training
  import opened TrainingProtocol

  /** No slot beyond the planned ones, of `slots` in all, is dealt a row. */
  predicate NoExtraRows(job: Job, slots: nat)
    requires job.numWorkers >= 1
  {
    forall k: nat :: job.numWorkers <= k < slots ==> RowsOf(job.rows, Slice(job.shards, k, job.numWorkers)) == []
  }

  /** It is so whatever the rows are if there are no more workers than planned, or no shards left for the others. */
  predicate Fits(shards: seq<string>, numWorkers: nat, ids: set<string>) {
    |ids| <= numWorkers || |shards| <= numWorkers
  }

  lemma FitsNoExtra(job: Job, ids: set<string>)
    requires job.numWorkers >= 1 && Fits(job.shards, job.numWorkers, ids)
    ensures NoExtraRows(job, |ids|)
  {
  }

  // ------------------------------------------------------------ the invariant

  /** What one worker reports for its shards at the `epoch`-th iterate. */
  ghost predicate RightShare(job: Job, epoch: nat, shards: seq<string>, share: Share)
    requires Sound(job)
  {
    RowsOfSized(job, shards);
    var rows := RowsOf(job.rows, shards);
    share == Share(Gradient(job.sigma, Iterate(job, epoch), rows), |rows|)
  }

  ghost predicate Owns(c: Coordinator, id: string, shards: seq<string>) {
    shards != [] && id in c.order && id in c.assignments && c.assignments[id] == shards
  }

  ghost predicate SlotsOk(job: Job, ids: set<string>, c: Coordinator)
    requires job.numWorkers >= 1
  {
    && (forall i, j :: 0 <= i < j < |c.order| ==> c.order[i] != c.order[j])
    && (forall w :: w in c.order ==> w in ids)
    && (forall w :: w in c.assignments <==> w in c.order)
    && forall k :: 0 <= k < |c.order| ==> c.assignments[c.order[k]] == Slice(job.shards, k, job.numWorkers)
  }

  ghost predicate SharesOk(job: Job, c: Coordinator)
    requires Sound(job)
  {
    forall w :: w in c.shares ==>
      exists shards :: Owns(c, w, shards) && RightShare(job, c.epoch, shards, c.shares[w])
  }

  ghost predicate EpochOk(job: Job, c: Coordinator)
    requires Sound(job)
  {
    && c.weights == Iterate(job, c.epoch)
    && (c.terminate <==> c.epoch >= 1 && c.epoch >= job.maxEpochs)
    && (c.epoch >= 1 ==> c.epoch == 1 || c.epoch <= job.maxEpochs)
  }

  ghost predicate CoordinatorOk(job: Job, ids: set<string>, c: Coordinator)
    requires Sound(job)
  {
    SlotsOk(job, ids, c) && SharesOk(job, c) && EpochOk(job, c)
  }

  ghost predicate ReportOk(job: Job, c: Coordinator, id: string, r: Report)
    requires Sound(job)
  {
    0 <= r.epoch <= c.epoch && exists shards :: Owns(c, id, shards) && RightShare(job, r.epoch, shards, r.share)
  }

  ghost predicate RequestOk(job: Job, c: Coordinator, r: Request)
    requires Sound(job)
  {
    r.report.Some? ==> ReportOk(job, c, r.workerId, r.report.value)
  }

  ghost predicate ResponseOk(job: Job, c: Coordinator, r: Response)
    requires Sound(job)
  {
    && (r.shards != [] ==> Owns(c, r.workerId, r.shards))
    && r.epoch <= c.epoch && r.weights == Iterate(job, r.epoch)
  }

  ghost predicate WorkerOk(job: Job, c: Coordinator, w: Worker)
    requires Sound(job)
  {
    && (w.shards == [] ==> w.loaded == {})
    && (w.shards != [] ==> Owns(c, w.id, w.shards))
    && w.data == RowsOf(job.rows, w.shards)
    && (w.pending.Some? ==> ReportOk(job, c, w.id, w.pending.value))
  }

  ghost predicate Inv(job: Job, ids: set<string>, s: System)
    requires Sound(job)
  {
    && CoordinatorOk(job, ids, s.coordinator)
    && (forall p :: p in s.workers ==> WorkerOk(job, s.coordinator, s.workers[p]))
    && (forall r :: r in s.requests ==> RequestOk(job, s.coordinator, r))
    && forall r :: r in s.responses ==> ResponseOk(job, s.coordinator, r)
  }

  // -------------------------------------------------------- the epoch barrier

  /** The slices beyond the planned ones add nothing. */
  predicate ExtraSilent(f: string -> real, shards: seq<string>, step: nat, slots: nat)
    requires step >= 1
  {
    forall k: nat :: step <= k < slots ==> SumOver(f, Slice(shards, k, step)) == 0.0
  }

  lemma {:induction false} ExtraSlotsEmpty(f: string -> real, shards: seq<string>, step: nat, slots: nat)
    requires step >= 1 && slots >= step && ExtraSilent(f, shards, step, slots)
    ensures SumSlices(f, shards, step, slots) == SumSlices(f, shards, step, step)
  {
    if slots > step {
      ExtraSlotsEmpty(f, shards, step, slots - 1);
    }
  }

  lemma {:induction false} ContributorsOwn(c: Coordinator, n: nat)
    requires n <= |c.order| && forall w :: w in c.order ==> w in c.assignments
    ensures forall w :: w in Contributors(c.order[..n], c.assignments) <==> w in c.order[..n] && c.assignments[w] != []
  {
    if n > 0 {
      ContributorsOwn(c, n - 1);
      assert c.order[..n][..n - 1] == c.order[..n - 1];
      assert c.order[..n] == c.order[..n - 1] + [c.order[n - 1]];
    }
  }

  /** Slot `k`'s share, if there is one, holds the sums of `f` and `g` over the slot's slice. */
  ghost predicate ShareSums(job: Job, c: Coordinator, k: nat, j: nat, f: string -> real, g: string -> real)
    requires job.numWorkers >= 1 && j < job.dim && k < |c.order|
  {
    c.order[k] in c.shares ==>
      var share, slice := c.shares[c.order[k]], Slice(job.shards, k, job.numWorkers);
      |share.gradient| == job.dim && share.gradient[j] == SumOver(f, slice) && share.count as real == SumOver(g, slice)
  }

  lemma ShareOverSlice(job: Job, ids: set<string>, c: Coordinator, k: nat, j: nat, f: string -> real, g: string -> real)
    requires Sound(job) && CoordinatorOk(job, ids, c) && j < job.dim
    requires forall s: string :: f(s) == ShardSum(job, c.weights, j, s)
    requires forall s: string :: g(s) == |job.rows(s)| as real
    requires k < |c.order|
    ensures ShareSums(job, c, k, j, f, g)
  {
    var w := c.order[k];
    if w in c.shares {
      var shards :| Owns(c, w, shards) && RightShare(job, c.epoch, shards, c.shares[w]);
      RowsOfSized(job, shards);
      RowsByShard(job, c.weights, shards, j, f);
      CountByShard(job, shards, g);
    }
  }

  lemma {:induction false} TotalOverSlices(
    job: Job, ids: set<string>, c: Coordinator, n: nat, j: nat, f: string -> real, g: string -> real)
    requires job.numWorkers >= 1 && j < job.dim && SlotsOk(job, ids, c)
    requires forall k :: 0 <= k < |c.order| ==> ShareSums(job, c, k, j, f, g)
    requires n <= |c.order| && AllIn(Contributors(c.order[..n], c.assignments), c.shares)
    ensures TotalOf(job.dim, c.shares, Contributors(c.order[..n], c.assignments), j)
         == SumSlices(f, job.shards, job.numWorkers, n)
    ensures CountOf(job.dim, c.shares, Contributors(c.order[..n], c.assignments)) as real
         == SumSlices(g, job.shards, job.numWorkers, n)
  {
    hide Slice, SumOver, TotalOf, CountOf, Contributors, SlotsOk, ShareSums, AllIn;
    if n == 0 {
      NoSlots(job.dim, c, j);
    } else {
      TheSlot(job, ids, c, n - 1);
      ContributorsStep(c, n);
      var w, before := c.order[n - 1], Contributors(c.order[..n - 1], c.assignments);
      var all := Contributors(c.order[..n], c.assignments);
      AllInBefore(before, if c.assignments[w] != [] then [w] else [], c.shares);
      TotalOverSlices(job, ids, c, n - 1, j, f, g);
      assert ShareSums(job, c, n - 1, j, f, g);
      SlotAdds(job, c, n - 1, before, j, f, g);
    }
  }

  lemma NoSlots(dim: nat, c: Coordinator, j: nat)
    requires j < dim
    ensures var none := Contributors(c.order[..0], c.assignments);
            AllIn(none, c.shares) && TotalOf(dim, c.shares, none, j) == 0.0 && CountOf(dim, c.shares, none) == 0
  {
  }

  lemma TheSlot(job: Job, ids: set<string>, c: Coordinator, k: nat)
    requires job.numWorkers >= 1 && SlotsOk(job, ids, c) && k < |c.order|
    ensures c.order[k] in c.assignments && c.assignments[c.order[k]] == Slice(job.shards, k, job.numWorkers)
    ensures forall w :: w in c.order ==> w in c.assignments
  {
  }

  lemma AllInBefore(before: seq<string>, more: seq<string>, shares: map<string, Share>)
    requires AllIn(before + more, shares)
    ensures AllIn(before, shares)
  {
    assert forall v :: v in before ==> v in before + more;
  }

  /** One more slot adds the sums over its slice, which is nothing if the slice is empty. */
  lemma SlotAdds(job: Job, c: Coordinator, k: nat, before: seq<string>, j: nat, f: string -> real, g: string -> real)
    requires job.numWorkers >= 1 && j < job.dim && k < |c.order| && c.order[k] in c.assignments
    requires c.assignments[c.order[k]] == Slice(job.shards, k, job.numWorkers) && ShareSums(job, c, k, j, f, g)
    requires AllIn(before, c.shares)
    requires AllIn(before + if c.assignments[c.order[k]] != [] then [c.order[k]] else [], c.shares)
    ensures var slice := Slice(job.shards, k, job.numWorkers);
            var all := before + if c.assignments[c.order[k]] != [] then [c.order[k]] else [];
            && TotalOf(job.dim, c.shares, all, j) == TotalOf(job.dim, c.shares, before, j) + SumOver(f, slice)
            && CountOf(job.dim, c.shares, all) as real == CountOf(job.dim, c.shares, before) as real + SumOver(g, slice)
  {
    hide Slice, SumOver, TotalOf, CountOf;
    var w := c.order[k];
    SumOverNone(f);
    SumOverNone(g);
    if c.assignments[w] != [] {
      assert (before + [w])[|before|] == w;
      TotalStep(job.dim, c.shares, before, w, j);
    } else {
      assert before + [] == before;
    }
  }

  lemma ContributorsStep(c: Coordinator, n: nat)
    requires 0 < n <= |c.order| && forall w :: w in c.order ==> w in c.assignments
    ensures Contributors(c.order[..n], c.assignments)
         == Contributors(c.order[..n - 1], c.assignments)
            + if c.assignments[c.order[n - 1]] != [] then [c.order[n - 1]] else []
  {
    assert c.order[..n][..n - 1] == c.order[..n - 1];
  }

  lemma TotalStep(dim: nat, shares: map<string, Share>, ws: seq<string>, w: string, j: nat)
    requires AllIn(ws + [w], shares) && AllIn(ws, shares) && w in shares && |shares[w].gradient| == dim && j < dim
    ensures TotalOf(dim, shares, ws + [w], j) == TotalOf(dim, shares, ws, j) + shares[w].gradient[j]
    ensures CountOf(dim, shares, ws + [w]) == CountOf(dim, shares, ws) + shares[w].count
  {
    assert (ws + [w])[..|ws|] == ws;
  }

  lemma SumOverNone(f: string -> real)
    ensures SumOver(f, []) == 0.0
  {
  }

  /** Distinct ids cannot outnumber the set they come from. */
  lemma {:induction false} SlotsBounded(order: seq<string>, ids: set<string>)
    requires forall i, j :: 0 <= i < j < |order| ==> order[i] != order[j]
    requires forall w :: w in order ==> w in ids
    ensures |order| <= |ids|
  {
    if order != [] {
      var last := order[|order| - 1];
      SlotsBounded(order[..|order| - 1], ids - {last});
    }
  }

  lemma SlicesCover(job: Job, slots: nat, f: string -> real)
    requires job.numWorkers >= 1 && slots >= job.numWorkers && ExtraSilent(f, job.shards, job.numWorkers, slots)
    ensures SumSlices(f, job.shards, job.numWorkers, slots) == SumOver(f, job.shards)
  {
    ExtraSlotsEmpty(f, job.shards, job.numWorkers, slots);
    SlicesPartition(f, job.shards, job.numWorkers);
  }

  /** Slots without rows add nothing to a gradient, nor to a count. */
  lemma NoRowsSilent(job: Job, slots: nat, w: seq<real>, j: nat, f: string -> real, g: string -> real)
    requires Sound(job) && NoExtraRows(job, slots) && j < job.dim
    requires forall s: string :: f(s) == ShardSum(job, w, j, s)
    requires forall s: string :: g(s) == |job.rows(s)| as real
    ensures ExtraSilent(f, job.shards, job.numWorkers, slots) && ExtraSilent(g, job.shards, job.numWorkers, slots)
  {
    hide Slice, SumOver, RowsOf, SumRows;
    forall k: nat | job.numWorkers <= k < slots
      ensures SumOver(f, Slice(job.shards, k, job.numWorkers)) == 0.0
      ensures SumOver(g, Slice(job.shards, k, job.numWorkers)) == 0.0
    {
      NoRowsNothing(job, Slice(job.shards, k, job.numWorkers), w, j, f, g);
    }
  }

  lemma NoRowsNothing(job: Job, shards: seq<string>, w: seq<real>, j: nat, f: string -> real, g: string -> real)
    requires Sound(job) && j < job.dim && RowsOf(job.rows, shards) == []
    requires forall s: string :: f(s) == ShardSum(job, w, j, s)
    requires forall s: string :: g(s) == |job.rows(s)| as real
    ensures SumOver(f, shards) == 0.0 && SumOver(g, shards) == 0.0
  {
    hide SumOver, RowsOf;
    RowsByShard(job, w, shards, j, f);
    CountByShard(job, shards, g);
  }

  /** When the barrier opens, what the contributors reported covers every shard exactly once. */
  lemma BarrierCovers(job: Job, ids: set<string>, c: Coordinator, j: nat)
    requires Sound(job) && CoordinatorOk(job, ids, c) && NoExtraRows(job, |c.order|) && j < job.dim && Ready(job, c)
    ensures (RowsOfSized(job, job.shards);
             TotalOf(job.dim, c.shares, Contributors(c.order, c.assignments), j)
             == SumRows(job.sigma, c.weights, RowsOf(job.rows, job.shards), j))
    ensures CountOf(job.dim, c.shares, Contributors(c.order, c.assignments)) == |RowsOf(job.rows, job.shards)|
  {
    hide Slice, SumOver, RowsOf, SharesOk, EpochOk, ShareSums, TotalOf, CountOf, Contributors;
    var f: string -> real := s => ShardSum(job, c.weights, j, s);
    var g: string -> real := s => |job.rows(s)| as real;
    RowsOfSized(job, job.shards);
    forall k | 0 <= k < |c.order|
      ensures ShareSums(job, c, k, j, f, g)
    {
      ShareOverSlice(job, ids, c, k, j, f, g);
    }
    assert c.order[..|c.order|] == c.order;
    TotalOverSlices(job, ids, c, |c.order|, j, f, g);
    NoRowsSilent(job, |c.order|, c.weights, j, f, g);
    SlicesCover(job, |c.order|, f);
    SlicesCover(job, |c.order|, g);
    RowsByShard(job, c.weights, job.shards, j, f);
    CountByShard(job, job.shards, g);
  }

  /** One pass of the barrier is one step of full-batch gradient descent. */
  lemma BarrierDescends(job: Job, ids: set<string>, c: Coordinator)
    requires Sound(job) && CoordinatorOk(job, ids, c) && NoExtraRows(job, |c.order|) && Ready(job, c)
    ensures NewWeights(job, c) == Descend(job, c.weights)
  {
    hide SharesOk, SlotsOk, Slice, TotalOf, CountOf, Contributors, SumRows, RowsOf, Iterate, NoExtraRows, AllIn,
         ResponseOk;
    RespondOk(job, ids, c, "");
    RowsOfSized(job, job.shards);
    forall j: nat | j < job.dim
      ensures NewWeights(job, c)[j] == Descend(job, c.weights)[j]
    {
      BarrierCovers(job, ids, c, j);
    }
    assert 0 < job.dim;
  }

  // --------------------------------------------- every event keeps the invariant

  /** Registrations only add to what is owned, and epochs only grow. */
  ghost predicate Advances(c: Coordinator, c': Coordinator) {
    && c.epoch <= c'.epoch
    && forall w, shards :: Owns(c, w, shards) ==> Owns(c', w, shards)
  }

  lemma RegisterKeeps(job: Job, ids: set<string>, c: Coordinator, id: string)
    requires Sound(job) && CoordinatorOk(job, ids, c) && id in ids
    ensures CoordinatorOk(job, ids, Register(job, c, id)) && Advances(c, Register(job, c, id))
  {
    hide Slice, RightShare;
    assert Advances(c, Register(job, c, id));
  }

  lemma ReportStays(job: Job, c: Coordinator, c': Coordinator, id: string, r: Report)
    requires Sound(job) && Advances(c, c') && ReportOk(job, c, id, r)
    ensures ReportOk(job, c', id, r)
  {
    hide RightShare, Owns;
    var shards :| Owns(c, id, shards) && RightShare(job, r.epoch, shards, r.share);
    assert Owns(c', id, shards);
  }

  lemma RequestStays(job: Job, c: Coordinator, c': Coordinator, r: Request)
    requires Sound(job) && Advances(c, c') && RequestOk(job, c, r)
    ensures RequestOk(job, c', r)
  {
    hide ReportOk;
    if r.report.Some? {
      ReportStays(job, c, c', r.workerId, r.report.value);
    }
  }

  lemma WorkerStays(job: Job, c: Coordinator, c': Coordinator, w: Worker)
    requires Sound(job) && Advances(c, c') && WorkerOk(job, c, w)
    ensures WorkerOk(job, c', w)
  {
    hide ReportOk, Owns;
    if w.pending.Some? {
      ReportStays(job, c, c', w.id, w.pending.value);
    }
  }

  lemma CollectKeeps(job: Job, ids: set<string>, c: Coordinator, req: Request)
    requires Sound(job) && CoordinatorOk(job, ids, c) && RequestOk(job, c, req)
    ensures Formed(job, Collect(c, req)) && CoordinatorOk(job, ids, Collect(c, req)) && Advances(c, Collect(c, req))
  {
    hide Slice, RightShare;
  }

  lemma MaybeStepKeeps(job: Job, ids: set<string>, c: Coordinator)
    requires Sound(job) && CoordinatorOk(job, ids, c) && !c.terminate
    requires NoExtraRows(job, |ids|) || !Ready(job, c)
    ensures CoordinatorOk(job, ids, MaybeStep(job, c)) && Advances(c, MaybeStep(job, c))
  {
    hide Slice, RightShare, NewWeights, Descend, Ready;
    if Ready(job, c) {
      SlotsBounded(c.order, ids);
      BarrierDescends(job, ids, c);
      assert Iterate(job, c.epoch + 1) == Descend(job, Iterate(job, c.epoch));
    }
  }

  lemma RespondOk(job: Job, ids: set<string>, c: Coordinator, id: string)
    requires Sound(job) && CoordinatorOk(job, ids, c)
    ensures ResponseOk(job, c, Respond(c, id)) && Formed(job, c)
  {
    hide Slice, RightShare;
  }

  /** An epoch is only closed while no slot beyond the planned ones owns a row. */
  ghost predicate FairStep(job: Job, ids: set<string>, c: Coordinator, req: Request)
    requires Formed(job, c)
  {
    NoExtraRows(job, |ids|) || HandleHeartbeat(job, c, req).0.epoch == c.epoch
  }

  lemma HandleKeeps(job: Job, ids: set<string>, c: Coordinator, req: Request)
    requires Sound(job) && CoordinatorOk(job, ids, c) && RequestOk(job, c, req) && req.workerId in ids
    requires Formed(job, c) && FairStep(job, ids, c, req)
    ensures var (c', r) := HandleHeartbeat(job, c, req);
            CoordinatorOk(job, ids, c') && Advances(c, c') && ResponseOk(job, c', r) && r.workerId == req.workerId
  {
    hide Slice, RightShare, CoordinatorOk, RequestOk, Ready, NewWeights;
    RespondOk(job, ids, c, req.workerId);
    if !c.terminate {
      var c1 := Register(job, c, req.workerId);
      var c2 := Collect(c1, req);
      RegisterKeeps(job, ids, c, req.workerId);
      RequestStays(job, c, c1, req);
      CollectKeeps(job, ids, c1, req);
      MaybeStepKeeps(job, ids, c2);
    }
    RespondOk(job, ids, HandleHeartbeat(job, c, req).0, req.workerId);
  }

  /** A first load of distinct shards reads each of them once, in order. */
  lemma {:induction false} LoadReads(rows: string -> seq<Row>, w: Worker, k: nat)
    requires k <= |w.shards| && w.loaded == {} && w.data == []
    requires forall i, j :: 0 <= i < j < |w.shards| ==> w.shards[i] != w.shards[j]
    ensures Load(rows, w, k) == w.(data := RowsOf(rows, w.shards[..k]), loaded := Load(rows, w, k).loaded)
    ensures forall s :: s in Load(rows, w, k).loaded <==> s in w.shards[..k]
  {
    if k > 0 {
      LoadReads(rows, w, k - 1);
      hide Load, RowsOf;
      var before, s := Load(rows, w, k - 1), w.shards[k - 1];
      assert w.shards[..k] == w.shards[..k - 1] + [s];
      assert s !in before.loaded by { assert s !in w.shards[..k - 1]; }
      LoadStep(rows, w, k);
      RowsOfSnoc(rows, w.shards[..k - 1], s);
    }
  }

  lemma LoadStep(rows: string -> seq<Row>, w: Worker, k: nat)
    requires 0 < k <= |w.shards| && w.shards[k - 1] !in Load(rows, w, k - 1).loaded
    ensures var before, s := Load(rows, w, k - 1), w.shards[k - 1];
            Load(rows, w, k) == before.(data := before.data + rows(s), loaded := before.loaded + {s})
  {
  }

  lemma RowsOfSnoc(rows: string -> seq<Row>, shards: seq<string>, s: string)
    ensures RowsOf(rows, shards + [s]) == RowsOf(rows, shards) + rows(s)
  {
    assert (shards + [s])[..|shards|] == shards;
  }

  lemma {:induction false} SliceDistinct(shards: seq<string>, from: nat, step: nat)
    requires step >= 1 && forall i, j :: 0 <= i < j < |shards| ==> shards[i] != shards[j]
    ensures forall s :: s in Slice(shards, from, step) ==> s in shards[if from < |shards| then from else |shards|..]
    ensures forall i, j :: 0 <= i < j < |Slice(shards, from, step)| ==>
              Slice(shards, from, step)[i] != Slice(shards, from, step)[j]
    decreases |shards| - from
  {
    if from < |shards| {
      var rest := Slice(shards, from + step, step);
      SliceDistinct(shards, from + step, step);
      assert forall s :: s in rest ==> s in shards[from + 1..];
      assert shards[from] !in rest by {
        assert shards[from] !in shards[from + 1..];
      }
      assert Slice(shards, from, step) == [shards[from]] + rest;
    }
  }

  /** A worker that is handed its slice ends up with exactly that slice's rows. */
  lemma TakeShardsKeeps(job: Job, ids: set<string>, c: Coordinator, w: Worker, shards: seq<string>)
    requires Sound(job) && SlotsOk(job, ids, c) && WorkerOk(job, c, w)
    requires shards != [] ==> Owns(c, w.id, shards)
    ensures WorkerOk(job, c, TakeShards(job, w, shards)) && Sized(TakeShards(job, w, shards), job.dim)
    ensures TakeShards(job, w, shards).id == w.id
  {
    if shards != [] && shards != w.shards {
      var k :| 0 <= k < |c.order| && c.order[k] == w.id;
      SliceDistinct(job.shards, k, job.numWorkers);
      LoadReads(job.rows, w.(shards := shards), |shards|);
      assert shards[..|shards|] == shards;
    }
    RowsOfSized(job, TakeShards(job, w, shards).shards);
  }

  lemma ComputeKeeps(job: Job, c: Coordinator, w: Worker, epoch: nat)
    requires Sound(job) && WorkerOk(job, c, w) && Sized(w, job.dim) && epoch <= c.epoch
    ensures WorkerOk(job, c, Compute(job, w, epoch, Iterate(job, epoch)))
  {
    hide ReportOk, Iterate;
    var w' := Compute(job, w, epoch, Iterate(job, epoch));
    if w' != w {
      ReportMade(job, c, w, epoch);
    }
  }

  lemma ReportMade(job: Job, c: Coordinator, w: Worker, epoch: nat)
    requires Sound(job) && Owns(c, w.id, w.shards) && w.data == RowsOf(job.rows, w.shards)
    requires Sized(w, job.dim) && epoch <= c.epoch
    ensures ReportOk(job, c, w.id,
                     Report(epoch, Share(Gradient(job.sigma, Iterate(job, epoch), w.data), |w.data|)))
  {
    hide Iterate;
    assert RightShare(job, epoch, w.shards, Share(Gradient(job.sigma, Iterate(job, epoch), w.data), |w.data|));
  }

  lemma ReceiveKeeps(job: Job, ids: set<string>, c: Coordinator, w: Worker, r: Response)
    requires Sound(job) && SlotsOk(job, ids, c) && WorkerOk(job, c, w) && ResponseOk(job, c, r) && r.workerId == w.id
    ensures Sized(TakeShards(job, w, r.shards), |r.weights|)
    ensures WorkerOk(job, c, OnResponse(job, w, r))
  {
    hide SlotsOk, Iterate, TakeShards, Compute, Sized;
    TakeShardsKeeps(job, ids, c, w, r.shards);
    if !r.terminate {
      ComputeKeeps(job, c, TakeShards(job, w, r.shards), r.epoch);
    }
  }

  // ------------------------------------------------------------------ whole runs

  /** Every process carries a known worker id, and so does every request. */
  ghost predicate Known(ids: set<string>, s: System) {
    && (forall p :: p in s.workers ==> s.workers[p].id in ids)
    && forall r :: r in s.requests ==> r.workerId in ids
  }

  lemma HandleEventKeeps(job: Job, ids: set<string>, s: System, req: Request)
    requires Sound(job) && Inv(job, ids, s) && Known(ids, s) && req in s.requests
    requires Formed(job, s.coordinator) && FairStep(job, ids, s.coordinator, req)
    ensures Enabled(job, ids, s, Handle(req)) && Inv(job, ids, Next(job, ids, s, Handle(req)))
  {
    hide CoordinatorOk, RequestOk, ResponseOk, WorkerOk, Advances, HandleHeartbeat, FairStep;
    var c := s.coordinator;
    HandleKeeps(job, ids, c, req);
    var c' := HandleHeartbeat(job, c, req).0;
    forall p | p in s.workers
      ensures WorkerOk(job, c', s.workers[p])
    {
      WorkerStays(job, c, c', s.workers[p]);
    }
    forall r | r in s.requests
      ensures RequestOk(job, c', r)
    {
      RequestStays(job, c, c', r);
    }
    forall r | r in s.responses
      ensures ResponseOk(job, c', r)
    {
      ResponseStays(job, c, c', r);
    }
  }

  lemma ResponseStays(job: Job, c: Coordinator, c': Coordinator, r: Response)
    requires Sound(job) && Advances(c, c') && ResponseOk(job, c, r)
    ensures ResponseOk(job, c', r)
  {
    hide Owns;
  }

  lemma ReceiveEventKeeps(job: Job, ids: set<string>, s: System, p: nat, r: Response)
    requires Sound(job) && Inv(job, ids, s) && r in s.responses && p in s.workers
    requires r.workerId == s.workers[p].id && !s.workers[p].done
    ensures Enabled(job, ids, s, Receive(p, r)) && Inv(job, ids, Next(job, ids, s, Receive(p, r)))
    ensures Next(job, ids, s, Receive(p, r)).workers[p].id == s.workers[p].id
  {
    hide SharesOk, EpochOk, SlotsOk, RequestOk, ResponseOk, WorkerOk, OnResponse, TakeShards, Sized;
    ReceiveKeeps(job, ids, s.coordinator, s.workers[p], r);
    SameId(job, s.workers[p], r);
  }

  lemma SameId(job: Job, w: Worker, r: Response)
    requires !r.terminate ==> Sized(TakeShards(job, w, r.shards), |r.weights|)
    ensures OnResponse(job, w, r).id == w.id
  {
    if r.shards != [] && r.shards != w.shards {
      LoadRest(job.rows, w.(shards := r.shards), |r.shards|);
    }
  }

  lemma {:induction false} LoadRest(rows: string -> seq<Row>, w: Worker, k: nat)
    requires k <= |w.shards|
    ensures Load(rows, w, k) == w.(data := Load(rows, w, k).data, loaded := Load(rows, w, k).loaded)
  {
    if k > 0 {
      LoadRest(rows, w, k - 1);
    }
  }

  lemma StartKeeps(job: Job, ids: set<string>, s: System, p: nat, id: string)
    requires Sound(job) && Inv(job, ids, s) && id in ids
    ensures Inv(job, ids, Next(job, ids, s, Start(p, id)))
  {
    hide CoordinatorOk, RequestOk, ResponseOk;
  }

  lemma BeatKeeps(job: Job, ids: set<string>, s: System, p: nat)
    requires Sound(job) && Inv(job, ids, s) && Enabled(job, ids, s, Beat(p))
    ensures Inv(job, ids, Next(job, ids, s, Beat(p)))
  {
    hide CoordinatorOk, ResponseOk, ReportOk;
    var w := s.workers[p];
    assert RequestOk(job, s.coordinator, Request(w.id, w.pending));
  }

  lemma NextKeeps(job: Job, ids: set<string>, s: System, e: Event)
    requires Sound(job) && Inv(job, ids, s) && Known(ids, s) && Enabled(job, ids, s, e)
    requires e.Handle? ==> FairStep(job, ids, s.coordinator, e.request)
    ensures Inv(job, ids, Next(job, ids, s, e)) && Known(ids, Next(job, ids, s, e))
  {
    hide Inv, HandleHeartbeat, OnResponse, TakeShards, Sized, Formed, FairStep;
    match e
    case Start(p, id) => StartKeeps(job, ids, s, p, id);
    case Beat(p) => BeatKeeps(job, ids, s, p);
    case Handle(req) => HandleEventKeeps(job, ids, s, req);
    case Receive(p, r) => ReceiveEventKeeps(job, ids, s, p, r);
  }

  lemma InitOk(job: Job, ids: set<string>)
    requires Sound(job)
    ensures Inv(job, ids, Init(job)) && Known(ids, Init(job))
  {
  }

  lemma {:induction false} RunKeeps(job: Job, ids: set<string>, s: System, events: seq<Event>)
    requires Sound(job) && NoExtraRows(job, |ids|) && Inv(job, ids, s) && Known(ids, s) && RunFrom(job, ids, s, events)
    ensures Inv(job, ids, StateAfter(job, ids, s, events)) && Known(ids, StateAfter(job, ids, s, events))
    decreases |events|
  {
    hide Inv, Known, NoExtraRows, Next, Formed, HandleHeartbeat, TakeShards, Sized;
    if events != [] {
      NextKeeps(job, ids, s, events[0]);
      RunKeeps(job, ids, Next(job, ids, s, events[0]), events[1..]);
    }
  }

  /**
   Whatever the order, delay, loss or repetition of heartbeats and however often worker processes are started over,
   the coordinator's weights after every event are the epoch-th iterate of full-batch gradient descent, and once
   training ends they are the last one asked for.  All it takes is that no worker beyond the planned ones is dealt a
   row; so it is if there is no such worker, or no shard left for it.
   */
  lemma TrainingIsDescent(job: Job, ids: set<string>, events: seq<Event>)
    requires Sound(job) && NoExtraRows(job, |ids|) && RunFrom(job, ids, Init(job), events)
    ensures var c := StateAfter(job, ids, Init(job), events).coordinator;
            && c.weights == Iterate(job, c.epoch)
            && (c.terminate <==> c.epoch == if job.maxEpochs >= 1 then job.maxEpochs else 1)
  {
    hide SlotsOk, SharesOk, Iterate;
    InitOk(job, ids);
    RunKeeps(job, ids, Init(job), events);
  }

  // ------------------------------------------------- nothing is turned away, in any run

  /** Sizes are right, whoever owns what. */
  ghost predicate SizesOk(job: Job, s: System) {
    && Formed(job, s.coordinator)
    && (forall p :: p in s.workers ==> Sized(s.workers[p], job.dim))
    && forall r :: r in s.responses ==> |r.weights| == job.dim
  }

  lemma {:induction false} LoadSized(job: Job, w: Worker, k: nat)
    requires Sound(job) && Sized(w, job.dim) && k <= |w.shards|
    ensures Sized(Load(job.rows, w, k), job.dim)
  {
    if k > 0 { LoadSized(job, w, k - 1); }
  }

  lemma TakeSized(job: Job, w: Worker, shards: seq<string>)
    requires Sound(job) && Sized(w, job.dim)
    ensures Sized(TakeShards(job, w, shards), job.dim)
  {
    LoadSized(job, w.(shards := shards), |shards|);
  }

  lemma NextSizes(job: Job, ids: set<string>, s: System, e: Event)
    requires Sound(job) && SizesOk(job, s) && Enabled(job, ids, s, e)
    ensures SizesOk(job, Next(job, ids, s, e))
  {
    hide Sound, TakeShards, MaybeStep, Register, Collect;
    if e.Receive? { TakeSized(job, s.workers[e.p], e.response.shards); }
  }

  lemma {:induction false} RunSizes(job: Job, ids: set<string>, s: System, events: seq<Event>)
    requires Sound(job) && SizesOk(job, s) && RunFrom(job, ids, s, events)
    ensures SizesOk(job, StateAfter(job, ids, s, events))
    decreases |events|
  {
    hide Sound, SizesOk, Next, Enabled;
    if events != [] {
      NextSizes(job, ids, s, events[0]);
      RunSizes(job, ids, Next(job, ids, s, events[0]), events[1..]);
    }
  }

  /**
   No request or response of a reachable state is ever turned away by the model's own side conditions, however many
   workers there are.
   */
  lemma NothingBlocked(job: Job, ids: set<string>, events: seq<Event>, req: Request, p: nat, r: Response)
    requires Sound(job) && RunFrom(job, ids, Init(job), events)
    ensures var s := StateAfter(job, ids, Init(job), events);
            && (req in s.requests ==> Enabled(job, ids, s, Handle(req)))
            && (r in s.responses && p in s.workers && !s.workers[p].done && r.workerId == s.workers[p].id
                ==> Enabled(job, ids, s, Receive(p, r)))
  {
    hide StateAfter, RunFrom, TakeShards;
    RunSizes(job, ids, Init(job), events);
    var s := StateAfter(job, ids, Init(job), events);
    if r in s.responses && p in s.workers {
      TakeSized(job, s.workers[p], r.shards);
    }
  }
}
