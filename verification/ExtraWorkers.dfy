/**
 Why training needs its side condition: an extra worker that is dealt shards makes their rows count twice.  For given
 shards and worker ids, training is descent whatever the rows are exactly if no such worker can be.
 */
module ExtraWorkers {
  import opened Wrappers
  import opened Training
  import opened TrainingProtocol
  import opened TrainingSafety

  lemma {:induction false} ExtraSlotsAdd(f: string -> real, shards: seq<string>, step: nat, slots: nat)
    requires step >= 1 && slots >= step && forall s: string :: f(s) >= 0.0
    ensures SumSlices(f, shards, step, slots) >= SumOver(f, shards)
    ensures SumSlices(f, shards, step, slots) == SumOver(f, shards) <==> ExtraSilent(f, shards, step, slots)
  {
    if slots == step {
      SlicesPartition(f, shards, step);
    } else {
      var last := SumOver(f, Slice(shards, slots - 1, step));
      ExtraSlotsAdd(f, shards, step, slots - 1);
      SumNonNegative(f, Slice(shards, slots - 1, step));
      assert ExtraSilent(f, shards, step, slots) <==> ExtraSilent(f, shards, step, slots - 1) && last == 0.0 by {
        hide Slice, SumOver;
      }
    }
  }

  lemma {:induction false} SumNonNegative(f: string -> real, shards: seq<string>)
    requires forall s: string :: f(s) >= 0.0
    ensures SumOver(f, shards) >= 0.0
  {
    if shards != [] {
      SumNonNegative(f, shards[..|shards| - 1]);
    }
  }

  /** A barrier counts every row exactly once if and only if no slot beyond the planned ones owns a row. */
  lemma CountedOnce(job: Job, ids: set<string>, c: Coordinator)
    requires Sound(job) && CoordinatorOk(job, ids, c) && Ready(job, c)
    ensures CountOf(job.dim, c.shares, Contributors(c.order, c.assignments)) == |RowsOf(job.rows, job.shards)|
       <==> NoExtraRows(job, |c.order|)
  {
    hide SharesOk, EpochOk, ShareSums, Slice, SumOver, SumSlices, CountOf, Contributors;
    var f: string -> real := s => ShardSum(job, c.weights, 0, s);
    var g: string -> real := s => |job.rows(s)| as real;
    forall k | 0 <= k < |c.order|
      ensures ShareSums(job, c, k, 0, f, g)
    {
      ShareOverSlice(job, ids, c, k, 0, f, g);
    }
    assert c.order[..|c.order|] == c.order;
    TotalOverSlices(job, ids, c, |c.order|, 0, f, g);
    ExtraSlotsAdd(g, job.shards, job.numWorkers, |c.order|);
    CountByShard(job, job.shards, g);
    SilentIffEmpty(job, |c.order|, c.weights, f, g);
  }

  lemma SilentIffEmpty(job: Job, slots: nat, w: seq<real>, f: string -> real, g: string -> real)
    requires Sound(job)
    requires forall s: string :: f(s) == ShardSum(job, w, 0, s)
    requires forall s: string :: g(s) == |job.rows(s)| as real
    ensures ExtraSilent(g, job.shards, job.numWorkers, slots) <==> NoExtraRows(job, slots)
  {
    hide Slice, SumOver, RowsOf;
    if NoExtraRows(job, slots) {
      NoRowsSilent(job, slots, w, 0, f, g);
    }
    if ExtraSilent(g, job.shards, job.numWorkers, slots) {
      forall k: nat | job.numWorkers <= k < slots
        ensures RowsOf(job.rows, Slice(job.shards, k, job.numWorkers)) == []
      {
        SilentIsEmpty(job, Slice(job.shards, k, job.numWorkers), g);
      }
    }
  }

  lemma SilentIsEmpty(job: Job, shards: seq<string>, g: string -> real)
    requires forall s: string :: g(s) == |job.rows(s)| as real
    requires SumOver(g, shards) == 0.0
    ensures RowsOf(job.rows, shards) == []
  {
    hide SumOver, RowsOf;
    CountByShard(job, shards, g);
  }

  // ------------------------------------------------------------------------- runs

  ghost predicate Reachable(job: Job, ids: set<string>, s: System) {
    exists events :: RunFrom(job, ids, Init(job), events) && StateAfter(job, ids, Init(job), events) == s
  }

  lemma {:induction false} RunExtends(job: Job, ids: set<string>, s: System, events: seq<Event>, e: Event)
    requires RunFrom(job, ids, s, events) && Enabled(job, ids, StateAfter(job, ids, s, events), e)
    ensures RunFrom(job, ids, s, events + [e])
    ensures StateAfter(job, ids, s, events + [e]) == Next(job, ids, StateAfter(job, ids, s, events), e)
    decreases |events|
  {
    hide Enabled, Next;
    if events == [] {
      assert [e][1..] == [];
    } else {
      assert (events + [e])[1..] == events[1..] + [e];
      RunExtends(job, ids, Next(job, ids, s, events[0]), events[1..], e);
    }
  }

  lemma ReachableNext(job: Job, ids: set<string>, s: System, e: Event)
    requires Reachable(job, ids, s) && Enabled(job, ids, s, e)
    ensures Reachable(job, ids, Next(job, ids, s, e))
  {
    hide Enabled, Next, RunFrom, StateAfter;
    var events :| RunFrom(job, ids, Init(job), events) && StateAfter(job, ids, Init(job), events) == s;
    RunExtends(job, ids, Init(job), events, e);
  }

  lemma Does(job: Job, ids: set<string>, s: System, e: Event) returns (s': System)
    requires Sound(job) && Reachable(job, ids, s) && Inv(job, ids, s) && Known(ids, s) && Enabled(job, ids, s, e)
    requires e.Handle? ==> FairStep(job, ids, s.coordinator, e.request)
    ensures s' == Next(job, ids, s, e)
    ensures Reachable(job, ids, s') && Inv(job, ids, s') && Known(ids, s')
  {
    hide Enabled, Next, Reachable, Inv, Known, Sound, FairStep;
    NextKeeps(job, ids, s, e);
    ReachableNext(job, ids, s, e);
    s' := Next(job, ids, s, e);
  }

  predicate Distinct(names: seq<string>) {
    forall i, j :: 0 <= i < j < |names| ==> names[i] != names[j]
  }

  /** As many different names as one likes, out of a set that has them. */
  lemma {:induction false} Names(ids: set<string>, k: nat) returns (names: seq<string>)
    requires k <= |ids|
    ensures |names| == k && Distinct(names) && forall w :: w in names ==> w in ids
  {
    if k == 0 {
      names := [];
    } else {
      var id :| id in ids;
      var rest := Names(ids - {id}, k - 1);
      names := [id] + rest;
    }
  }

  /** A report of worker `id` for the first epoch is under way. */
  ghost predicate HasReport(s: System, id: string) {
    exists r :: r in s.requests && IsReport(r, id)
  }

  predicate IsReport(r: Request, id: string) {
    r.workerId == id && r.report.Some? && r.report.value.epoch == 0
  }

  // ----------------------------------------------------------------- one worker joins

  /** Registering never opens the barrier by itself: the new worker owns a shard and has not reported. */
  lemma JoinHandled(job: Job, ids: set<string>, c: Coordinator, id: string)
    requires Sound(job) && CoordinatorOk(job, ids, c) && id !in c.order && !c.terminate && |c.order| < |job.shards|
    ensures Formed(job, c)
    ensures var c', slice := Register(job, c, id), Slice(job.shards, |c.order|, job.numWorkers);
            && slice != [] && !c'.terminate && c'.epoch == c.epoch
            && HandleHeartbeat(job, c, Request(id, None)) == (c', Response(id, slice, c.epoch, c.weights, false))
  {
    hide Slice, RightShare, Iterate;
    ExtraNotEmpty(job.shards, |c.order|, job.numWorkers);
    var c' := Register(job, c, id);
    assert c'.order[..|c'.order|] == c'.order;
    ContributorsOwn(c', |c'.order|);
    assert id in Contributors(c'.order, c'.assignments);
  }

  lemma ExtraNotEmpty(shards: seq<string>, from: nat, step: nat)
    requires step >= 1 && from < |shards|
    ensures Slice(shards, from, step) != []
  {
  }

  /** A fresh worker with a slice computes its report at once. */
  lemma FreshReports(job: Job, id: string, slice: seq<string>, weights: seq<real>)
    requires slice != [] && weights != []
    requires Sized(TakeShards(job, NewWorker(id), slice), |weights|)
    ensures var w := OnResponse(job, NewWorker(id), Response(id, slice, 0, weights, false));
            w.id == id && !w.done && IsReport(Request(id, w.pending), id)
  {
    LoadRest(job.rows, NewWorker(id).(shards := slice), |slice|);
  }

  /** Worker `id` starts, registers, is dealt its slice, and sends its first report. */
  lemma Join(job: Job, ids: set<string>, s: System, p: nat, id: string) returns (s': System)
    requires Sound(job) && Reachable(job, ids, s) && Inv(job, ids, s) && Known(ids, s) && id in ids
    requires var c := s.coordinator; id !in c.order && !c.terminate && c.epoch == 0 && |c.order| < |job.shards|
    ensures Reachable(job, ids, s') && Inv(job, ids, s') && Known(ids, s')
    ensures s'.coordinator == Register(job, s.coordinator, id) && s.requests <= s'.requests && HasReport(s', id)
  {
    hide Sound, Reachable, Known, HandleHeartbeat, Register, Formed, OnResponse, TakeShards, Sized, CoordinatorOk,
         WorkerOk, RequestOk, ResponseOk, IsReport;
    var c := s.coordinator;
    JoinHandled(job, ids, c, id);
    RespondOk(job, ids, c, id);
    WeightsThere(job, ids, c);
    var slice := Slice(job.shards, |c.order|, job.numWorkers);
    var asked, dealt := Request(id, None), Response(id, slice, 0, c.weights, false);
    s' := Does(job, ids, s, Start(p, id));
    s' := Does(job, ids, s', Beat(p));
    assert asked in s'.requests && s'.coordinator == c;
    s' := Does(job, ids, s', Handle(asked));
    assert dealt in s'.responses && s'.workers[p] == NewWorker(id);
    ReceiveEventKeeps(job, ids, s', p, dealt);
    s' := Does(job, ids, s', Receive(p, dealt));
    FreshReports(job, id, slice, c.weights);
    var report := Request(id, s'.workers[p].pending);
    s' := Does(job, ids, s', Beat(p));
    assert report in s'.requests;
  }

  lemma WeightsThere(job: Job, ids: set<string>, c: Coordinator)
    requires Sound(job) && CoordinatorOk(job, ids, c)
    ensures c.weights != []
  {
  }

  // ----------------------------------------------------------- all but one have reported

  /**
   The first `k` of the named workers are registered and all but the very first have reported, whose report is still
   under way.
   */
  ghost predicate Waiting(job: Job, ids: set<string>, s: System, names: seq<string>, k: nat)
    requires Sound(job) && 1 <= k <= |names|
  {
    && Reachable(job, ids, s) && Inv(job, ids, s) && Known(ids, s) && HasReport(s, names[0])
    && var c := s.coordinator;
    && c.order == names[..k] && c.epoch == 0 && !c.terminate
    && forall w :: w in c.shares <==> w in names[1..k]
  }

  /** With the first worker's report missing, another's is kept and the barrier stays shut. */
  lemma TellHandled(job: Job, ids: set<string>, c: Coordinator, req: Request)
    requires Sound(job) && CoordinatorOk(job, ids, c) && !c.terminate && c.epoch == 0 && 0 < |c.order| <= |job.shards|
    requires req.workerId in c.order && IsReport(req, req.workerId) && req.workerId !in c.shares
    requires c.order[0] !in c.shares && req.workerId != c.order[0]
    ensures Formed(job, c)
    ensures HandleHeartbeat(job, c, req).0 == c.(shares := c.shares[req.workerId := req.report.value.share])
  {
    hide Slice, RightShare, Iterate;
    assert c.order[..|c.order|] == c.order;
    ContributorsOwn(c, |c.order|);
    ExtraNotEmpty(job.shards, 0, job.numWorkers);
    assert c.order[0] in Contributors(c.order, c.assignments);
  }

  lemma JoinAndTell(job: Job, ids: set<string>, s: System, names: seq<string>, k: nat) returns (s': System)
    requires Sound(job) && 1 <= k < |names| <= |job.shards| && Waiting(job, ids, s, names, k)
    requires Distinct(names) && forall w :: w in names ==> w in ids
    ensures Waiting(job, ids, s', names, k + 1)
  {
    hide Sound, Reachable, Inv, Known, HandleHeartbeat, Formed, IsReport, CoordinatorOk;
    var id, c := names[k], s.coordinator;
    NamesApart(names, k);
    s' := Join(job, ids, s, k, id);
    var req :| req in s'.requests && IsReport(req, id);
    InvCoordinator(job, ids, s');
    ReportNamed(req, id);
    TellHandled(job, ids, s'.coordinator, req);
    s' := Does(job, ids, s', Handle(req));
  }

  lemma NamesApart(names: seq<string>, k: nat)
    requires Distinct(names) && 1 <= k < |names|
    ensures names[..k + 1] == names[..k] + [names[k]] && names[1..k + 1] == names[1..k] + [names[k]]
    ensures names[k] !in names[..k] && names[k] !in names[1..k] && names[0] !in names[1..k] && names[0] != names[k]
    ensures names[k] in names[..k + 1] && names[..k + 1][0] == names[0] && names[0] in names[..k]
  {
  }

  lemma ReportNamed(req: Request, id: string)
    requires IsReport(req, id)
    ensures req.workerId == id
  {
  }

  lemma InvCoordinator(job: Job, ids: set<string>, s: System)
    requires Sound(job) && Inv(job, ids, s)
    ensures CoordinatorOk(job, ids, s.coordinator) && Formed(job, s.coordinator)
    ensures forall r :: r in s.requests ==> RequestOk(job, s.coordinator, r)
  {
    RespondOk(job, ids, s.coordinator, "");
  }

  lemma {:induction false} AllButOne(job: Job, ids: set<string>, names: seq<string>, k: nat) returns (s: System)
    requires Sound(job) && 1 <= k <= |names| <= |job.shards|
    requires Distinct(names) && forall w :: w in names ==> w in ids
    ensures Waiting(job, ids, s, names, k)
  {
    hide Sound, Inv, Known, Reachable, HasReport;
    if k == 1 {
      s := Init(job);
      InitOk(job, ids);
      assert Reachable(job, ids, s) by { StartsReachable(job, ids); }
      s := Join(job, ids, s, 0, names[0]);
      assert [] + [names[0]] == names[..1];
    } else {
      s := AllButOne(job, ids, names, k - 1);
      s := JoinAndTell(job, ids, s, names, k - 1);
    }
  }

  lemma StartsReachable(job: Job, ids: set<string>)
    ensures Reachable(job, ids, Init(job))
  {
    assert RunFrom(job, ids, Init(job), []) && StateAfter(job, ids, Init(job), []) == Init(job);
  }

  // --------------------------------------------------------------- the skewed step

  /** The only value of the sigmoid that the run asks for. */
  predicate Centred(sigma: real -> real) {
    sigma(0.0) == 0.5
  }

  const POSITIVE := Row([1.0], 1.0)
  const NEGATIVE := Row([1.0], 0.0)

  /** One sample in the first shard, and one of the other label in the first shard that is dealt twice. */
  function Skewed(sigma: real -> real, shards: seq<string>, n: nat): Job
    requires n < |shards|
  {
    Job(sigma, s => if s == shards[0] then [POSITIVE] else if s == shards[n] then [NEGATIVE] else [],
        shards, n, 1.0, 5, 1)
  }

  /** A quantity that two shards have, summed over shards that are all different. */
  lemma {:induction false} SumOfTwo(f: string -> real, shards: seq<string>, a: string, b: string)
    requires a != b && Distinct(shards)
    requires forall s: string :: s != a && s != b ==> f(s) == 0.0
    ensures SumOver(f, shards) == (if a in shards then f(a) else 0.0) + (if b in shards then f(b) else 0.0)
  {
    if shards != [] {
      var n := |shards| - 1;
      assert shards == shards[..n] + [shards[n]];
      SumOfTwo(f, shards[..n], a, b);
    }
  }

  lemma SkewedTerms(job: Job, sigma: real -> real, shards: seq<string>, n: nat)
    requires Centred(sigma) && 0 < n < |shards| && shards[0] != shards[n]
    requires job == Skewed(sigma, shards, n) && Sound(job)
    ensures ShardSum(job, [0.0], 0, shards[0]) == -0.5 && ShardSum(job, [0.0], 0, shards[n]) == 0.5
    ensures forall s: string :: s != shards[0] && s != shards[n] ==> ShardSum(job, [0.0], 0, s) == 0.0
    ensures |job.rows(shards[0])| == 1 && |job.rows(shards[n])| == 1
    ensures forall s: string :: s != shards[0] && s != shards[n] ==> job.rows(s) == []
  {
    hide SumRows;
    OneRow(sigma, POSITIVE);
    OneRow(sigma, NEGATIVE);
    NoRows(sigma);
  }

  lemma OneRow(sigma: real -> real, row: Row)
    requires Centred(sigma) && row.x == [1.0]
    ensures SumRows(sigma, [0.0], [row], 0) == 0.5 - row.y
  {
    assert [row][..0] == [];
    assert Dot([0.0], row.x, 1) == 0.0;
    assert RowTerm(sigma, [0.0], row, 0) == 0.5 - row.y;
  }

  lemma NoRows(sigma: real -> real)
    ensures SumRows(sigma, [0.0], [], 0) == 0.0
  {
  }

  /** Summed over all shards the two samples cancel out; the extra slot's slice holds the second alone. */
  lemma SkewedSums(job: Job, sigma: real -> real, shards: seq<string>, n: nat, f: string -> real, g: string -> real)
    requires Centred(sigma) && 0 < n < |shards| && job == Skewed(sigma, shards, n) && Sound(job)
    requires forall s: string :: f(s) == ShardSum(job, [0.0], 0, s)
    requires forall s: string :: g(s) == |job.rows(s)| as real
    ensures SumOver(f, shards) == 0.0 && SumOver(f, Slice(shards, n, n)) == 0.5
    ensures SumOver(g, shards) == 2.0 && SumOver(g, Slice(shards, n, n)) == 1.0
  {
    hide SumOver, ShardSum, Slice;
    SkewedTerms(job, sigma, shards, n);
    var a, b, slice := shards[0], shards[n], Slice(shards, n, n);
    SliceDistinct(shards, n, n);
    assert a !in shards[n..];
    assert b in slice by { SliceStarts(shards, n, n); }
    SumOfTwo(f, shards, a, b);
    SumOfTwo(g, shards, a, b);
    SumOfTwo(f, slice, a, b);
    SumOfTwo(g, slice, a, b);
  }

  lemma SliceStarts(shards: seq<string>, from: nat, step: nat)
    requires step >= 1 && from < |shards|
    ensures shards[from] in Slice(shards, from, step)
  {
  }

  lemma SkewedIterate(job: Job, sigma: real -> real, shards: seq<string>, n: nat)
    requires Centred(sigma) && 0 < n < |shards| && job == Skewed(sigma, shards, n) && Sound(job)
    ensures Iterate(job, 0) == [0.0] && Iterate(job, 1) == [0.0]
  {
    hide SumOver, ShardSum, SumRows, RowsOf;
    var f: string -> real := s => ShardSum(job, [0.0], 0, s);
    var g: string -> real := s => |job.rows(s)| as real;
    SkewedSums(job, sigma, shards, n, f, g);
    RowsByShard(job, [0.0], shards, 0, f);
    CountByShard(job, shards, g);
    RowsOfSized(job, shards);
    assert Iterate(job, 0) == [0.0];
    assert Iterate(job, 1) == Descend(job, [0.0]);
  }

  /** The barrier counts the second sample twice. */
  lemma SkewedStep(job: Job, ids: set<string>, c: Coordinator, sigma: real -> real, shards: seq<string>, n: nat)
    requires Centred(sigma) && 0 < n < |shards| && job == Skewed(sigma, shards, n) && Sound(job)
    requires CoordinatorOk(job, ids, c) && |c.order| == n + 1 && c.weights == [0.0] && Ready(job, c)
    ensures NewWeights(job, c) == [-1.0 / 6.0]
  {
    hide SumOver, ShardSum, Slice, RightShare, CountOf, TotalOf, Contributors, Ready;
    var f: string -> real := s => ShardSum(job, c.weights, 0, s);
    var g: string -> real := s => |job.rows(s)| as real;
    forall k | 0 <= k < |c.order|
      ensures ShareSums(job, c, k, 0, f, g)
    {
      ShareOverSlice(job, ids, c, k, 0, f, g);
    }
    assert c.order[..|c.order|] == c.order;
    AllReported(job, c);
    TotalOverSlices(job, ids, c, n + 1, 0, f, g);
    SlicesPartition(f, shards, n);
    SlicesPartition(g, shards, n);
    SkewedSums(job, sigma, shards, n, f, g);
    Weighed(job, c);
  }

  lemma Weighed(job: Job, c: Coordinator)
    requires (forall w :: w in c.order ==> w in c.assignments) && Ready(job, c)
    requires job.dim == 1 && job.rate == 1.0 && c.weights == [0.0]
    requires TotalOf(1, c.shares, Contributors(c.order, c.assignments), 0) == 0.5
    requires CountOf(1, c.shares, Contributors(c.order, c.assignments)) == 3
    ensures NewWeights(job, c) == [-1.0 / 6.0]
  {
    hide TotalOf, CountOf, Contributors;
  }

  lemma AllReported(job: Job, c: Coordinator)
    requires (forall w :: w in c.order ==> w in c.assignments) && Ready(job, c)
    ensures AllIn(Contributors(c.order, c.assignments), c.shares)
  {
  }

  /** The first worker's report opens the barrier. */
  lemma LastTells(job: Job, ids: set<string>, c: Coordinator, req: Request, names: seq<string>)
    requires Sound(job) && CoordinatorOk(job, ids, c) && RequestOk(job, c, req) && !c.terminate && c.epoch == 0
    requires |names| > job.numWorkers && |names| <= |job.shards| && c.order == names && IsReport(req, names[0])
    requires (forall w :: w in c.shares <==> w in names[1..]) && names[0] !in names[1..]
    ensures Formed(job, c)
    ensures var c' := Collect(c, req);
            && CoordinatorOk(job, ids, c') && c'.order == names && c'.epoch == 0 && c'.weights == c.weights
            && Formed(job, c') && Ready(job, c')
            && HandleHeartbeat(job, c, req).0.weights == NewWeights(job, c')
            && HandleHeartbeat(job, c, req).0.epoch == 1
  {
    hide Slice, RightShare, Iterate, NewWeights, CoordinatorOk, RequestOk;
    RespondOk(job, ids, c, "");
    CollectKeeps(job, ids, c, req);
    var c' := Collect(c, req);
    assert names == [names[0]] + names[1..];
    FirstContributes(job, ids, c');
    assert AllIn(Contributors(names, c'.assignments), c'.shares);
  }

  lemma FirstContributes(job: Job, ids: set<string>, c: Coordinator)
    requires Sound(job) && CoordinatorOk(job, ids, c) && 0 < |c.order| <= |job.shards|
    ensures forall w :: w in c.order ==> w in c.assignments
    ensures Contributors(c.order, c.assignments) != []
    ensures forall w :: w in Contributors(c.order, c.assignments) ==> w in c.order
  {
    hide Slice, RightShare, Iterate;
    assert c.order[..|c.order|] == c.order;
    ContributorsOwn(c, |c.order|);
    ExtraNotEmpty(job.shards, 0, job.numWorkers);
    assert c.order[0] in Contributors(c.order, c.assignments);
  }

  /**
   As soon as there is a worker more than planned and a shard for it, some rows of the shards let a reachable state have
   weights that are no iterate of descent, for any sigmoid that is one half at 0.
   */
  lemma ExtraWorkerSkews(sigma: real -> real, shards: seq<string>, n: nat, ids: set<string>) returns (s: System)
    requires Centred(sigma) && n >= 1 && !Fits(shards, n, ids)
    requires Distinct(shards)
    ensures var job := Skewed(sigma, shards, n);
            && Sound(job) && Reachable(job, ids, s) && s.coordinator.weights != Iterate(job, s.coordinator.epoch)
  {
    hide Inv, Reachable, Known, HandleHeartbeat, CoordinatorOk, Iterate, NewWeights, Ready, Formed, IsReport;
    var job := Skewed(sigma, shards, n);
    assert Sound(job);
    hide Sound, Skewed;
    var names := Names(ids, n + 1);
    var before := AllButOne(job, ids, names, n + 1);
    assert names[..n + 1] == names && names[1..n + 1] == names[1..];
    var req :| req in before.requests && IsReport(req, names[0]);
    InvCoordinator(job, ids, before);
    LastTells(job, ids, before.coordinator, req, names);
    SkewedIterate(job, sigma, shards, n);
    AtIterate(job, ids, before.coordinator);
    SkewedStep(job, ids, Collect(before.coordinator, req), sigma, shards, n);
    s := Next(job, ids, before, Handle(req));
    ReachableNext(job, ids, before, Handle(req));
    assert s.coordinator.weights[0] != Iterate(job, 1)[0];
  }

  lemma AtIterate(job: Job, ids: set<string>, c: Coordinator)
    requires Sound(job) && CoordinatorOk(job, ids, c)
    ensures c.weights == Iterate(job, c.epoch)
  {
  }

  /**
   When training is descent whatever the rows are: for given shards, planned number and worker ids, all runs over all
   rows keep the weights an iterate if and only if the ids do not outnumber the plan or the shards do not.
   */
  lemma DescentIffFits(shards: seq<string>, n: nat, ids: set<string>)
    requires n >= 1 && Distinct(shards)
    ensures Fits(shards, n, ids) <==>
              forall job: Job, s: System ::
                Sound(job) && job.shards == shards && job.numWorkers == n && Reachable(job, ids, s) ==>
                  s.coordinator.weights == Iterate(job, s.coordinator.epoch)
  {
    hide Sound, Iterate, Skewed;
    if Fits(shards, n, ids) {
      forall job: Job, s: System |
        Sound(job) && job.shards == shards && job.numWorkers == n && Reachable(job, ids, s)
        ensures s.coordinator.weights == Iterate(job, s.coordinator.epoch)
      {
        FitsNoExtra(job, ids);
        var events :| RunFrom(job, ids, Init(job), events) && StateAfter(job, ids, Init(job), events) == s;
        TrainingIsDescent(job, ids, events);
      }
    } else {
      var sigma: real -> real := x => 0.5;
      var s := ExtraWorkerSkews(sigma, shards, n, ids);
      SkewedFor(sigma, shards, n);
    }
  }

  lemma SkewedFor(sigma: real -> real, shards: seq<string>, n: nat)
    requires n < |shards|
    ensures Skewed(sigma, shards, n).shards == shards && Skewed(sigma, shards, n).numWorkers == n
  {
  }
}
