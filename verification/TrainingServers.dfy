/** The coordinator and the worker as objects that update their fields, refining the protocol's functions. */
module TrainingServers {
  import opened Wrappers
  import opened Training
  import P = TrainingProtocol
  import opened GradientLaws

  class MLCoordinator {
    const job: Job
    var weights: seq<real>
    var epoch: nat
    var slots: seq<string>
    var assignments: map<string, seq<string>>
    var epochContrib: map<string, P.Share>
    var terminate: bool

    ghost function View(): P.Coordinator
      reads this
    {
      P.Coordinator(weights, epoch, slots, assignments, epochContrib, terminate)
    }

    ghost predicate Valid()
      reads this
    {
      P.Formed(job, View())
    }

    constructor (job: Job)
      requires job.numWorkers >= 1
      ensures Valid() && this.job == job && View() == P.NewCoordinator(job)
    {
      this.job := job;
      weights := seq(job.dim, j => 0.0);
      epoch := 0;
      slots := [];
      assignments := map[];
      epochContrib := map[];
      terminate := false;
    }

    /** The registered workers that own a shard. */
    method Contributors() returns (ws: seq<string>)
      requires Valid()
      ensures ws == P.Contributors(slots, assignments)
    {
      ws := [];
      var i := 0;
      while i < |slots|
        invariant 0 <= i <= |slots|
        invariant ws == P.Contributors(slots[..i], assignments)
      {
        assert slots[..i + 1][..i] == slots[..i];
        if assignments[slots[i]] != [] {
          ws := ws + [slots[i]];
        }
        i := i + 1;
      }
      assert slots[..|slots|] == slots;
    }

    /** Adds the contributors' gradients up, component by component, and counts their rows. */
    method Aggregate(ws: seq<string>) returns (sums: seq<real>, count: int)
      requires P.AllIn(ws, epochContrib)
      ensures |sums| == job.dim
      ensures forall j :: 0 <= j < job.dim ==> sums[j] == P.TotalOf(job.dim, epochContrib, ws, j)
      ensures count == P.CountOf(job.dim, epochContrib, ws)
    {
      var total := new real[job.dim](j => 0.0);
      count := 0;
      var i := 0;
      while i < |ws|
        invariant 0 <= i <= |ws| && total.Length == job.dim
        invariant P.AllIn(ws[..i], epochContrib)
        invariant forall j :: 0 <= j < job.dim ==> total[j] == P.TotalOf(job.dim, epochContrib, ws[..i], j)
        invariant count == P.CountOf(job.dim, epochContrib, ws[..i])
      {
        var share := epochContrib[ws[i]];
        assert ws[..i + 1][..i] == ws[..i];
        if |share.gradient| == job.dim {
          AddTo(total, share.gradient);
          count := count + share.count;
        }
        i := i + 1;
      }
      assert ws[..|ws|] == ws;
      sums := total[..];
    }

    method AddTo(total: array<real>, gradient: seq<real>)
      requires |gradient| == total.Length
      modifies total
      ensures forall j :: 0 <= j < total.Length ==> total[j] == old(total[j]) + gradient[j]
    {
      var j := 0;
      while j < total.Length
        invariant 0 <= j <= total.Length
        invariant forall k :: 0 <= k < j ==> total[k] == old(total[k]) + gradient[k]
        invariant forall k :: j <= k < total.Length ==> total[k] == old(total[k])
      {
        total[j] := total[j] + gradient[j];
        j := j + 1;
      }
    }

    method UpdateWeights(ws: seq<string>)
      requires Valid() && P.Ready(job, View()) && ws == P.Contributors(slots, assignments)
      modifies this`weights
      ensures weights == P.NewWeights(job, old(View()))
    {
      hide P.Contributors, P.TotalOf, P.CountOf;
      var total, count := Aggregate(ws);
      ghost var before := View();
      var w := weights;
      if count > 0 {
        weights := seq(job.dim, j requires 0 <= j < job.dim => w[j] - job.rate * (total[j] / count as real));
        assert forall j :: 0 <= j < job.dim ==> weights[j] == P.NewWeights(job, before)[j];
      }
    }

    method MaybeStep()
      requires Valid()
      modifies this
      ensures Valid() && View() == P.MaybeStep(job, old(View()))
    {
      hide P.Contributors, P.TotalOf, P.CountOf, P.NewWeights;
      if |slots| < job.numWorkers {
        return;
      }
      var contributors := Contributors();
      if contributors == [] || exists w :: w in contributors && w !in epochContrib {
        return;
      }
      UpdateWeights(contributors);
      epoch := epoch + 1;
      epochContrib := map[];
      if epoch >= job.maxEpochs {
        terminate := true;
      }
    }

    method HandleHeartbeat(req: P.Request) returns (r: P.Response)
      requires Valid()
      modifies this
      ensures Valid() && (View(), r) == P.HandleHeartbeat(job, old(View()), req)
    {
      var id := req.workerId;
      if !terminate {
        if id !in slots {
          assignments := assignments[id := Slice(job.shards, |slots|, job.numWorkers)];
          slots := slots + [id];
        }
        if req.report.Some? && req.report.value.epoch == epoch && id !in epochContrib {
          epochContrib := epochContrib[id := req.report.value.share];
        }
        MaybeStep();
      }
      r := P.Response(id, if id in assignments then assignments[id] else [], epoch, weights, terminate);
    }
  }

  class MLWorker {
    const job: Job
    const workerId: string
    var shards: seq<string>
    var data: seq<Row>
    var loaded: set<string>
    var pending: Option<P.Report>
    var knownEpoch: int
    var done: bool

    ghost function View(): P.Worker
      reads this
    {
      P.Worker(workerId, shards, data, loaded, pending, knownEpoch, done)
    }

    constructor (job: Job, workerId: string)
      ensures this.job == job && View() == P.NewWorker(workerId)
    {
      this.job := job;
      this.workerId := workerId;
      shards := [];
      data := [];
      loaded := {};
      pending := None;
      knownEpoch := -1;
      done := false;
    }

    /** Reads the shards not read before; a shard's rows are appended in file order. */
    method LoadShards()
      modifies this
      ensures View() == P.Load(job.rows, old(View()), |old(shards)|)
    {
      var i := 0;
      while i < |shards|
        invariant 0 <= i <= |shards| && shards == old(shards)
        invariant View() == P.Load(job.rows, old(View()), i)
      {
        var s := shards[i];
        if s !in loaded {
          data := data + job.rows(s);
          loaded := loaded + {s};
        }
        i := i + 1;
      }
    }

    /** One pass over the rows, adding each row's error times its features to the gradient. */
    method Gradient(w: seq<real>) returns (grad: seq<real>, n: nat)
      requires P.Sized(View(), |w|)
      ensures grad == Training.Gradient(job.sigma, w, data) && n == |data|
      // a single row pulls along its features by its error
      ensures |data| == 1 ==>
                forall j :: 0 <= j < |w| ==> grad[j] == (job.sigma(Inner(w, data[0].x)) - data[0].y) * data[0].x[j]
    {
      hide Inner, Dot, RowTerm;
      var sums := new real[|w|](j => 0.0);
      var i := 0;
      while i < |data|
        invariant 0 <= i <= |data|
        invariant forall j :: 0 <= j < |w| ==> sums[j] == SumRows(job.sigma, w, data[..i], j)
      {
        assert data[..i + 1][..i] == data[..i];
        AddRow(sums, w, data[i]);
        i := i + 1;
      }
      assert data[..|data|] == data;
      grad := sums[..];
      n := |data|;
      assert grad == Training.Gradient(job.sigma, w, data);
      if n == 1 {
        OnlyRow(job.sigma, w, data);
      }
    }

    method AddRow(sums: array<real>, w: seq<real>, row: Row)
      requires sums.Length <= |row.x|
      modifies sums
      ensures forall j :: 0 <= j < sums.Length ==> sums[j] == old(sums[j]) + RowTerm(job.sigma, w, row, j)
    {
      var z := Product(w, row.x);
      var err := job.sigma(z) - row.y;
      var j := 0;
      while j < sums.Length
        invariant 0 <= j <= sums.Length
        invariant forall k :: 0 <= k < j ==> sums[k] == old(sums[k]) + RowTerm(job.sigma, w, row, k)
        invariant forall k :: j <= k < sums.Length ==> sums[k] == old(sums[k])
      {
        sums[j] := sums[j] + err * row.x[j];
        j := j + 1;
      }
    }

    /** The dot product over the common length. */
    method Product(w: seq<real>, x: seq<real>) returns (z: real)
      ensures z == Dot(w, x, Min(|w|, |x|)) == Inner(w[..Min(|w|, |x|)], x[..Min(|w|, |x|)])
    {
      DotIsInner(w, x, Min(|w|, |x|));
      z := 0.0;
      var k := 0;
      while k < |w| && k < |x|
        invariant 0 <= k <= Min(|w|, |x|)
        invariant z == Dot(w, x, k)
      {
        z := z + w[k] * x[k];
        k := k + 1;
      }
    }

    /** The next heartbeat: a computed gradient is sent again until its epoch has passed. */
    method NextRequest() returns (req: P.Request)
      ensures req == P.Request(workerId, pending)
    {
      req := P.Request(workerId, None);
      if pending.Some? {
        req := req.(report := pending);
      }
    }

    method OnResponse(r: P.Response)
      requires !r.terminate ==> P.Sized(P.TakeShards(job, View(), r.shards), |r.weights|)
      modifies this
      ensures View() == P.OnResponse(job, old(View()), r)
    {
      if r.terminate {
        done := true;
        return;
      }
      if r.shards != [] && r.shards != shards {
        shards := r.shards;
        LoadShards();
      }
      if r.weights != [] && shards != [] && r.epoch as int != knownEpoch {
        var grad, n := Gradient(r.weights);
        pending := Some(P.Report(r.epoch, P.Share(grad, n)));
        knownEpoch := r.epoch;
      }
    }
  }
}
