/** The heartbeat protocol between the training coordinator and its workers, as a transition system. */
module TrainingProtocol {
  import opened Wrappers
  import opened Training

  /** What a worker reports for one epoch: its rows' gradient and how many rows there were. */
  datatype Share = Share(gradient: seq<real>, count: int)

  datatype Report = Report(epoch: int, share: Share)

  datatype Request = Request(workerId: string, report: Option<Report>)

  datatype Response = Response(workerId: string, shards: seq<string>, epoch: nat, weights: seq<real>, terminate: bool)

  // ----------------------------------------------------------- the coordinator

  /** `order` lists the registered workers; a worker's position in it is its slot. */
  datatype Coordinator = Coordinator(
    weights: seq<real>, epoch: nat, order: seq<string>, assignments: map<string, seq<string>>,
    shares: map<string, Share>, terminate: bool)

  ghost predicate Formed(job: Job, c: Coordinator) {
    && job.numWorkers >= 1
    && |c.weights| == job.dim
    && forall w :: w in c.order ==> w in c.assignments
  }

  function NewCoordinator(job: Job): Coordinator {
    Coordinator(seq(job.dim, j => 0.0), 0, [], map[], map[], false)
  }

  function Register(job: Job, c: Coordinator, id: string): Coordinator
    requires job.numWorkers >= 1
  {
    if id in c.order then c
    else c.(order := c.order + [id],
            assignments := c.assignments[id := Slice(job.shards, |c.order|, job.numWorkers)])
  }

  /** Keep a report for the current epoch; a worker's first one counts. */
  function Collect(c: Coordinator, req: Request): Coordinator {
    if req.report.Some? && req.report.value.epoch == c.epoch && req.workerId !in c.shares
    then c.(shares := c.shares[req.workerId := req.report.value.share])
    else c
  }

  /** The registered workers that own a shard, in registration order. */
  function Contributors(order: seq<string>, assignments: map<string, seq<string>>): (ws: seq<string>)
    requires forall w :: w in order ==> w in assignments
  {
    if order == [] then []
    else
      var last := order[|order| - 1];
      Contributors(order[..|order| - 1], assignments) + if assignments[last] != [] then [last] else []
  }

  predicate AllIn(ws: seq<string>, shares: map<string, Share>) {
    forall w :: w in ws ==> w in shares
  }

  function TotalOf(dim: nat, shares: map<string, Share>, ws: seq<string>, j: nat): real
    requires AllIn(ws, shares) && j < dim
  {
    if ws == [] then 0.0
    else
      var share := shares[ws[|ws| - 1]];
      TotalOf(dim, shares, ws[..|ws| - 1], j) + if |share.gradient| == dim then share.gradient[j] else 0.0
  }

  function CountOf(dim: nat, shares: map<string, Share>, ws: seq<string>): int
    requires AllIn(ws, shares)
  {
    if ws == [] then 0
    else
      var share := shares[ws[|ws| - 1]];
      CountOf(dim, shares, ws[..|ws| - 1]) + if |share.gradient| == dim then share.count else 0
  }

  /** Every worker is there and every one that owns a shard has reported. */
  predicate Ready(job: Job, c: Coordinator)
    requires forall w :: w in c.order ==> w in c.assignments
  {
    && |c.order| >= job.numWorkers
    && Contributors(c.order, c.assignments) != []
    && AllIn(Contributors(c.order, c.assignments), c.shares)
  }

  function NewWeights(job: Job, c: Coordinator): (w: seq<real>)
    requires |c.weights| == job.dim && (forall w :: w in c.order ==> w in c.assignments) && Ready(job, c)
    ensures |w| == job.dim
  {
    var ws := Contributors(c.order, c.assignments);
    var count := CountOf(job.dim, c.shares, ws);
    if count > 0
    then seq(job.dim, j requires 0 <= j < job.dim =>
               c.weights[j] - job.rate * (TotalOf(job.dim, c.shares, ws, j) / count as real))
    else c.weights
  }

  function MaybeStep(job: Job, c: Coordinator): Coordinator
    requires |c.weights| == job.dim && forall w :: w in c.order ==> w in c.assignments
  {
    if Ready(job, c)
    then c.(weights := NewWeights(job, c), epoch := c.epoch + 1, shares := map[],
            terminate := c.terminate || c.epoch + 1 >= job.maxEpochs)
    else c
  }

  function Respond(c: Coordinator, id: string): Response {
    Response(id, if id in c.assignments then c.assignments[id] else [], c.epoch, c.weights, c.terminate)
  }

  function HandleHeartbeat(job: Job, c: Coordinator, req: Request): (r: (Coordinator, Response))
    requires Formed(job, c)
    ensures Formed(job, r.0)
  {
    if c.terminate then (c, Respond(c, req.workerId))
    else
      var c' := MaybeStep(job, Collect(Register(job, c, req.workerId), req));
      (c', Respond(c', req.workerId))
  }

  // --------------------------------------------------------------- the workers

  datatype Worker = Worker(
    id: string, shards: seq<string>, data: seq<Row>, loaded: set<string>,
    pending: Option<Report>, known: int, done: bool)

  function NewWorker(id: string): Worker {
    Worker(id, [], [], {}, None, -1, false)
  }

  /** Read the first `k` shards of `w.shards`, skipping those read before. */
  function Load(rows: string -> seq<Row>, w: Worker, k: nat): Worker
    requires k <= |w.shards|
  {
    if k == 0 then w
    else
      var before := Load(rows, w, k - 1);
      var s := w.shards[k - 1];
      if s in before.loaded then before
      else before.(data := before.data + rows(s), loaded := before.loaded + {s})
  }

  function TakeShards(job: Job, w: Worker, shards: seq<string>): Worker {
    if shards != [] && shards != w.shards then Load(job.rows, w.(shards := shards), |shards|) else w
  }

  ghost predicate Sized(w: Worker, dim: nat) {
    forall k :: 0 <= k < |w.data| ==> |w.data[k].x| == dim
  }

  /** Compute the gradient once per epoch, at the weights that came with it. */
  function Compute(job: Job, w: Worker, epoch: nat, weights: seq<real>): Worker
    requires Sized(w, |weights|)
  {
    if weights != [] && w.shards != [] && epoch as int != w.known
    then w.(pending := Some(Report(epoch, Share(Gradient(job.sigma, weights, w.data), |w.data|))), known := epoch)
    else w
  }

  function OnResponse(job: Job, w: Worker, r: Response): Worker
    requires !r.terminate ==> Sized(TakeShards(job, w, r.shards), |r.weights|)
  {
    if r.terminate then w.(done := true)
    else Compute(job, TakeShards(job, w, r.shards), r.epoch, r.weights)
  }

  // ------------------------------------------------------------ the whole system

  /** The coordinator, the worker processes by number, and every request and response ever sent. */
  datatype System = System(
    coordinator: Coordinator, workers: map<nat, Worker>, requests: set<Request>, responses: set<Response>)

  /** Messages may be handled late, repeatedly or never, and processes may be started over at any time. */
  datatype Event =
    | Start(p: nat, id: string)
    | Beat(p: nat)
    | Handle(request: Request)
    | Receive(p: nat, response: Response)

  ghost predicate Enabled(job: Job, ids: set<string>, s: System, e: Event) {
    match e
    case Start(_, id) => id in ids
    case Beat(p) => p in s.workers && !s.workers[p].done
    case Handle(req) => req in s.requests && Formed(job, s.coordinator)
    case Receive(p, r) =>
      && r in s.responses && p in s.workers && !s.workers[p].done && r.workerId == s.workers[p].id
      && (!r.terminate ==> Sized(TakeShards(job, s.workers[p], r.shards), |r.weights|))
  }

  ghost function Next(job: Job, ids: set<string>, s: System, e: Event): System
    requires Enabled(job, ids, s, e)
  {
    match e
    case Start(p, id) => s.(workers := s.workers[p := NewWorker(id)])
    case Beat(p) => s.(requests := s.requests + {Request(s.workers[p].id, s.workers[p].pending)})
    case Handle(req) =>
      var (c, r) := HandleHeartbeat(job, s.coordinator, req);
      s.(coordinator := c, responses := s.responses + {r})
    case Receive(p, r) => s.(workers := s.workers[p := OnResponse(job, s.workers[p], r)])
  }

  function Init(job: Job): System {
    System(NewCoordinator(job), map[], {}, {})
  }

  ghost predicate RunFrom(job: Job, ids: set<string>, s: System, events: seq<Event>)
    decreases |events|
  {
    events == [] ||
    (Enabled(job, ids, s, events[0]) && RunFrom(job, ids, Next(job, ids, s, events[0]), events[1..]))
  }

  ghost function StateAfter(job: Job, ids: set<string>, s: System, events: seq<Event>): System
    requires RunFrom(job, ids, s, events)
    decreases |events|
  {
    if events == [] then s else StateAfter(job, ids, Next(job, ids, s, events[0]), events[1..])
  }
}
