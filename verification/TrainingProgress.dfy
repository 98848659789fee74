/**
 Training never gets stuck: from every reachable state, however many workers have died and however much was lost, it can
 run on to its last epoch, exactly if the worker ids are enough and there is a shard to train on.
 */
module TrainingProgress {
  import opened Wrappers
  import opened Training
  import opened TrainingProtocol
  import opened TrainingSafety
  import opened ExtraWorkers

  /** There is a run from `s` to `s'`. */
  ghost predicate Continues(job: Job, ids: set<string>, s: System, s': System) {
    exists events :: RunFrom(job, ids, s, events) && StateAfter(job, ids, s, events) == s'
  }

  lemma Stays(job: Job, ids: set<string>, s: System)
    ensures Continues(job, ids, s, s)
  {
    assert RunFrom(job, ids, s, []) && StateAfter(job, ids, s, []) == s;
  }

  lemma ContinuesNext(job: Job, ids: set<string>, s0: System, s: System, e: Event)
    requires Continues(job, ids, s0, s) && Enabled(job, ids, s, e)
    ensures Continues(job, ids, s0, Next(job, ids, s, e))
  {
    hide Enabled, Next, RunFrom, StateAfter;
    var events :| RunFrom(job, ids, s0, events) && StateAfter(job, ids, s0, events) == s;
    RunExtends(job, ids, s0, events, e);
  }

  // ------------------------------------------------------- what holds in every run

  ghost predicate EpochsOk(job: Job, c: Coordinator) {
    && (c.terminate <==> c.epoch >= 1 && c.epoch >= job.maxEpochs)
    && (c.epoch >= 1 ==> c.epoch == 1 || c.epoch <= job.maxEpochs)
  }

  /** Slots, sizes and epochs are in order, whatever the weights are. */
  ghost predicate InOrder(job: Job, ids: set<string>, s: System) {
    && SizesOk(job, s) && SlotsOk(job, ids, s.coordinator) && EpochsOk(job, s.coordinator) && Known(ids, s)
    && forall r :: r in s.responses ==> r.workerId in ids
  }

  lemma RegisterInOrder(job: Job, ids: set<string>, c: Coordinator, id: string)
    requires job.numWorkers >= 1 && SlotsOk(job, ids, c) && id in ids
    ensures SlotsOk(job, ids, Register(job, c, id))
  {
    hide Slice;
  }

  lemma HandleInOrder(job: Job, ids: set<string>, c: Coordinator, req: Request)
    requires Formed(job, c) && SlotsOk(job, ids, c) && EpochsOk(job, c) && req.workerId in ids
    ensures var c' := HandleHeartbeat(job, c, req).0; SlotsOk(job, ids, c') && EpochsOk(job, c')
  {
    hide Slice, Ready, NewWeights, SlotsOk;
    RegisterInOrder(job, ids, c, req.workerId);
    var c1 := Collect(Register(job, c, req.workerId), req);
    SameSlots(job, ids, Register(job, c, req.workerId), c1);
    SameSlots(job, ids, c1, MaybeStep(job, c1));
  }

  lemma SameSlots(job: Job, ids: set<string>, c: Coordinator, c': Coordinator)
    requires job.numWorkers >= 1 && SlotsOk(job, ids, c) && c'.order == c.order && c'.assignments == c.assignments
    ensures SlotsOk(job, ids, c')
  {
  }

  lemma NextInOrder(job: Job, ids: set<string>, s: System, e: Event)
    requires Sound(job) && InOrder(job, ids, s) && Enabled(job, ids, s, e)
    ensures InOrder(job, ids, Next(job, ids, s, e))
  {
    hide Sound, SizesOk, SlotsOk, EpochsOk, HandleHeartbeat, TakeShards, Sized;
    NextSizes(job, ids, s, e);
    match e
    case Handle(req) =>
      HandleInOrder(job, ids, s.coordinator, req);
      AnswersId(job, s.coordinator, req);
    case Receive(p, r) => SameId(job, s.workers[p], r);
    case _ =>
  }

  lemma AnswersId(job: Job, c: Coordinator, req: Request)
    requires Formed(job, c)
    ensures HandleHeartbeat(job, c, req).1.workerId == req.workerId
  {
  }

  lemma {:induction false} RunInOrder(job: Job, ids: set<string>, s: System, events: seq<Event>)
    requires Sound(job) && InOrder(job, ids, s) && RunFrom(job, ids, s, events)
    ensures InOrder(job, ids, StateAfter(job, ids, s, events))
    decreases |events|
  {
    hide Sound, InOrder, Next, Enabled;
    if events != [] {
      NextInOrder(job, ids, s, events[0]);
      RunInOrder(job, ids, Next(job, ids, s, events[0]), events[1..]);
    }
  }

  lemma ReachableInOrder(job: Job, ids: set<string>, s: System)
    requires Sound(job) && Reachable(job, ids, s)
    ensures InOrder(job, ids, s)
  {
    hide RunFrom, StateAfter;
    var events :| RunFrom(job, ids, Init(job), events) && StateAfter(job, ids, Init(job), events) == s;
    RunInOrder(job, ids, Init(job), events);
  }

  // ------------------------------------------------------- one worker does its part

  lemma Does(job: Job, ids: set<string>, s0: System, s: System, e: Event) returns (s': System)
    requires Sound(job) && InOrder(job, ids, s) && Continues(job, ids, s0, s) && Enabled(job, ids, s, e)
    ensures s' == Next(job, ids, s, e) && InOrder(job, ids, s') && Continues(job, ids, s0, s')
  {
    hide Sound, InOrder, Continues, Enabled, Next;
    NextInOrder(job, ids, s, e);
    ContinuesNext(job, ids, s0, s, e);
    s' := Next(job, ids, s, e);
  }

  /** Either the epoch is closed, or nothing but this worker's registration and report has been added. */
  ghost predicate DidPart(job: Job, c: Coordinator, c': Coordinator, id: string)
    requires Formed(job, c')
  {
    c'.epoch > c.epoch
    || (&& c'.epoch == c.epoch && !Ready(job, c') && id in c'.order
        && (c'.assignments[id] != [] ==> id in c'.shares)
        && (forall w :: w in c.order ==> w in c'.order && w in c.assignments && c'.assignments[w] == c.assignments[w])
        && forall w :: w in c.shares ==> w in c'.shares)
  }

  /** A heartbeat without a report registers its sender. */
  lemma AsksHandled(job: Job, ids: set<string>, c: Coordinator, id: string)
    requires Formed(job, c) && SlotsOk(job, ids, c) && !c.terminate
    ensures var (c', r) := HandleHeartbeat(job, c, Request(id, None));
            c'.epoch > c.epoch
            || (&& c' == Register(job, c, id) && !Ready(job, c') && id in c'.order
                && r == Response(id, c'.assignments[id], c.epoch, c.weights, false))
  {
    hide Slice, Ready, NewWeights;
  }

  /** A report of the epoch is kept, if the worker's first one was not before. */
  lemma TellsHandled(job: Job, ids: set<string>, c: Coordinator, req: Request)
    requires Formed(job, c) && SlotsOk(job, ids, c) && !c.terminate && req.workerId in c.order
    requires req.report.Some? && req.report.value.epoch == c.epoch
    ensures var c' := HandleHeartbeat(job, c, req).0;
            c'.epoch > c.epoch
            || (&& c' == c.(shares := c'.shares) && !Ready(job, c')
                && req.workerId in c'.shares && forall w :: w in c.shares ==> w in c'.shares)
  {
    hide Slice, Ready, NewWeights;
  }

  /** A fresh worker reports for whatever epoch it is told. */
  lemma FreshComputes(job: Job, id: string, shards: seq<string>, epoch: nat, weights: seq<real>)
    requires shards != [] && weights != [] && Sized(TakeShards(job, NewWorker(id), shards), |weights|)
    ensures var w := OnResponse(job, NewWorker(id), Response(id, shards, epoch, weights, false));
            w.id == id && !w.done && w.pending.Some? && w.pending.value.epoch == epoch
  {
    LoadRest(job.rows, NewWorker(id).(shards := shards), |shards|);
  }

  /** Worker `id` is started over, asks, is dealt its shards, and reports. */
  lemma DoesPart(job: Job, ids: set<string>, s0: System, s: System, id: string) returns (s': System)
    requires Sound(job) && InOrder(job, ids, s) && Continues(job, ids, s0, s) && id in ids && !s.coordinator.terminate
    ensures InOrder(job, ids, s') && Continues(job, ids, s0, s') && Formed(job, s'.coordinator)
    ensures DidPart(job, s.coordinator, s'.coordinator, id)
  {
    hide Sound, Continues, HandleHeartbeat, OnResponse, TakeShards, Sized, Register, SlotsOk, EpochsOk, Ready;
    var c, asks := s.coordinator, Request(id, None);
    AsksHandled(job, ids, c, id);
    RegisterKeepsSlots(job, ids, c, id);
    s' := Does(job, ids, s0, s, Start(0, id));
    s' := Does(job, ids, s0, s', Beat(0));
    assert asks in s'.requests && s'.coordinator == c && s'.workers[0] == NewWorker(id);
    s' := Does(job, ids, s0, s', Handle(asks));
    if s'.coordinator.epoch == c.epoch && s'.coordinator.assignments[id] != [] {
      s' := Reports(job, ids, s0, s', id);
    }
  }

  lemma RegisterKeepsSlots(job: Job, ids: set<string>, c: Coordinator, id: string)
    requires job.numWorkers >= 1 && SlotsOk(job, ids, c)
    ensures var c' := Register(job, c, id);
            && (forall w :: w in c.order ==>
                  w in c'.order && w in c.assignments && c'.assignments[w] == c.assignments[w])
            && c'.weights == c.weights && c'.shares == c.shares && c'.epoch == c.epoch && c'.terminate == c.terminate
  {
  }

  lemma Reports(job: Job, ids: set<string>, s0: System, s: System, id: string) returns (s': System)
    requires Sound(job) && InOrder(job, ids, s) && Continues(job, ids, s0, s) && id in ids && !s.coordinator.terminate
    requires 0 in s.workers && s.workers[0] == NewWorker(id) && Formed(job, s.coordinator)
    requires id in s.coordinator.order && s.coordinator.assignments[id] != [] && !Ready(job, s.coordinator)
    requires var c := s.coordinator; Response(id, c.assignments[id], c.epoch, c.weights, false) in s.responses
    ensures InOrder(job, ids, s') && Continues(job, ids, s0, s') && Formed(job, s'.coordinator)
    ensures DidPart(job, s.coordinator, s'.coordinator, id)
  {
    hide Sound, Continues, HandleHeartbeat, OnResponse, TakeShards, Sized, SlotsOk, EpochsOk, Ready;
    var c := s.coordinator;
    var dealt := Response(id, c.assignments[id], c.epoch, c.weights, false);
    FreshFits(job, ids, s, id, dealt);
    FreshComputes(job, id, c.assignments[id], c.epoch, c.weights);
    s' := Does(job, ids, s0, s, Receive(0, dealt));
    var report := Request(id, s'.workers[0].pending);
    s' := Does(job, ids, s0, s', Beat(0));
    assert report in s'.requests;
    TellsHandled(job, ids, c, report);
    s' := Does(job, ids, s0, s', Handle(report));
  }

  lemma FreshFits(job: Job, ids: set<string>, s: System, id: string, r: Response)
    requires Sound(job) && SizesOk(job, s) && r in s.responses
    ensures Sized(TakeShards(job, NewWorker(id), r.shards), |r.weights|) && r.weights != []
  {
    TakeSized(job, NewWorker(id), r.shards);
  }

  /**
   While the epoch lasts, a heartbeat adds at most its sender's registration, next in line, and its sender's report, if
   that is for the epoch and the first; nobody else's slot, shards or report is touched.
   */
  lemma HeartbeatAdds(job: Job, c: Coordinator, req: Request)
    requires Formed(job, c) && !c.terminate && HandleHeartbeat(job, c, req).0.epoch == c.epoch
    ensures var c', id := HandleHeartbeat(job, c, req).0, req.workerId;
            && c'.weights == c.weights && !c'.terminate
            && c'.order == (if id in c.order then c.order else c.order + [id])
            && (forall w :: w != id || id in c.order ==>
                  (w in c'.assignments <==> w in c.assignments)
                  && (w in c.assignments ==> c'.assignments[w] == c.assignments[w]))
            && (id !in c.order ==>
                  id in c'.assignments && c'.assignments[id] == Slice(job.shards, |c.order|, job.numWorkers))
            && (forall w :: w in c'.shares <==>
                  w in c.shares || (w == id && req.report.Some? && req.report.value.epoch == c.epoch))
            && (forall w :: w in c.shares ==> c'.shares[w] == c.shares[w])
            && (id !in c.shares && id in c'.shares ==> c'.shares[id] == req.report.value.share)
  {
    hide Slice, Ready, NewWeights;
  }

  // ------------------------------------------------------------- one more epoch

  /** Once every worker has done its part, the epoch has been closed. */
  lemma {:induction false} AllParts(job: Job, ids: set<string>, s: System, names: seq<string>, k: nat)
    returns (s': System)
    requires Sound(job) && InOrder(job, ids, s) && !s.coordinator.terminate
    requires 1 <= k <= |names| && forall w :: w in names ==> w in ids
    ensures InOrder(job, ids, s') && Continues(job, ids, s, s') && Formed(job, s'.coordinator)
    ensures var c' := s'.coordinator;
            c'.epoch > s.coordinator.epoch
            || (&& c'.epoch == s.coordinator.epoch && !Ready(job, c')
                && forall i :: 0 <= i < k ==>
                     names[i] in c'.order && (c'.assignments[names[i]] != [] ==> names[i] in c'.shares))
  {
    hide Sound, InOrder, Continues, Ready;
    InOrderFormed(job, ids, s);
    if k == 1 {
      Stays(job, ids, s);
      s' := DoesPart(job, ids, s, s, names[0]);
    } else {
      s' := AllParts(job, ids, s, names, k - 1);
      if s'.coordinator.epoch == s.coordinator.epoch {
        SameEpoch(job, ids, s, s');
        s' := DoesPart(job, ids, s, s', names[k - 1]);
      }
    }
  }

  lemma InOrderFormed(job: Job, ids: set<string>, s: System)
    requires InOrder(job, ids, s)
    ensures Formed(job, s.coordinator)
  {
  }

  lemma SameEpoch(job: Job, ids: set<string>, s: System, s': System)
    requires InOrder(job, ids, s) && InOrder(job, ids, s') && s'.coordinator.epoch == s.coordinator.epoch
    ensures s'.coordinator.terminate == s.coordinator.terminate
  {
  }

  /** With everyone registered and every owner heard, the barrier is open. */
  lemma AllReady(job: Job, ids: set<string>, c: Coordinator, names: seq<string>)
    requires Formed(job, c) && SlotsOk(job, ids, c) && job.shards != [] && |names| >= job.numWorkers && Distinct(names)
    requires forall w :: w in names <==> w in ids
    requires forall i :: 0 <= i < |names| ==>
               names[i] in c.order && (c.assignments[names[i]] != [] ==> names[i] in c.shares)
    ensures Ready(job, c)
  {
    hide Slice;
    NamesFit(names, c.order);
    assert c.order[..|c.order|] == c.order;
    ContributorsOwn(c, |c.order|);
    ExtraNotEmpty(job.shards, 0, job.numWorkers);
    assert c.order[0] in Contributors(c.order, c.assignments);
    forall w | w in Contributors(c.order, c.assignments)
      ensures w in c.shares
    {
      assert w in names;
    }
  }

  lemma NamesFit(names: seq<string>, order: seq<string>)
    requires Distinct(names) && forall w :: w in names ==> w in order
    ensures |order| >= |names|
  {
    SlotsBounded(names, set w | w in order);
    Distincts(order);
  }

  lemma {:induction false} Distincts(order: seq<string>)
    ensures |set w | w in order| <= |order|
  {
    if order != [] {
      var n := |order| - 1;
      Distincts(order[..n]);
      assert order == order[..n] + [order[n]];
      assert (set w | w in order) == (set w | w in order[..n]) + {order[n]};
    }
  }

  lemma {:induction false} AllNames(ids: set<string>) returns (names: seq<string>)
    ensures |names| == |ids| && Distinct(names) && forall w :: w in names <==> w in ids
  {
    if ids == {} {
      names := [];
    } else {
      var id :| id in ids;
      var rest := AllNames(ids - {id});
      names := [id] + rest;
    }
  }

  lemma OneMoreEpoch(job: Job, ids: set<string>, s: System) returns (s': System)
    requires Sound(job) && InOrder(job, ids, s) && !s.coordinator.terminate
    requires |ids| >= job.numWorkers && job.shards != []
    ensures InOrder(job, ids, s') && Continues(job, ids, s, s') && s'.coordinator.epoch > s.coordinator.epoch
  {
    hide Continues, Ready, SizesOk, EpochsOk;
    var names := AllNames(ids);
    s' := AllParts(job, ids, s, names, |names|);
    if s'.coordinator.epoch == s.coordinator.epoch {
      AllReady(job, ids, s'.coordinator, names);
      assert false;
    }
  }

  lemma ContinuesThrough(job: Job, ids: set<string>, a: System, b: System, c: System)
    requires Continues(job, ids, a, b) && Continues(job, ids, b, c)
    ensures Continues(job, ids, a, c)
  {
    hide RunFrom, StateAfter;
    var first :| RunFrom(job, ids, a, first) && StateAfter(job, ids, a, first) == b;
    var second :| RunFrom(job, ids, b, second) && StateAfter(job, ids, b, second) == c;
    RunJoin(job, ids, a, first, second);
  }

  lemma {:induction false} RunJoin(job: Job, ids: set<string>, s: System, a: seq<Event>, b: seq<Event>)
    requires RunFrom(job, ids, s, a) && RunFrom(job, ids, StateAfter(job, ids, s, a), b)
    ensures RunFrom(job, ids, s, a + b)
    ensures StateAfter(job, ids, s, a + b) == StateAfter(job, ids, StateAfter(job, ids, s, a), b)
    decreases |a|
  {
    hide Enabled, Next;
    if a == [] {
      assert a + b == b;
    } else {
      RunJoin(job, ids, Next(job, ids, s, a[0]), a[1..], b);
      assert (a + b)[1..] == a[1..] + b;
    }
  }

  /** How many epochs a job takes. */
  function LastEpoch(job: Job): nat {
    if job.maxEpochs >= 1 then job.maxEpochs else 1
  }

  lemma {:induction false} Finishes(job: Job, ids: set<string>, s: System) returns (s': System)
    requires Sound(job) && InOrder(job, ids, s) && |ids| >= job.numWorkers && job.shards != []
    ensures InOrder(job, ids, s') && Continues(job, ids, s, s') && s'.coordinator.terminate
    decreases LastEpoch(job) - s.coordinator.epoch
  {
    hide Continues, SizesOk, SlotsOk, Known, Sound;
    Stays(job, ids, s);
    s' := s;
    if !s.coordinator.terminate {
      var s1 := OneMoreEpoch(job, ids, s);
      s' := Finishes(job, ids, s1);
      ContinuesThrough(job, ids, s, s1, s');
    }
  }

  // --------------------------------------------------------- exactly when it can finish

  ghost predicate Finished(job: Job, s: System) {
    s.coordinator.terminate && s.coordinator.epoch == LastEpoch(job)
  }

  /** With too few ids, or nothing to train on, no epoch is ever closed. */
  lemma NeverReady(job: Job, ids: set<string>, c: Coordinator)
    requires Formed(job, c) && SlotsOk(job, ids, c) && (|ids| < job.numWorkers || job.shards == [])
    ensures !Ready(job, c)
  {
    hide Slice;
    SlotsBounded(c.order, ids);
    assert c.order[..|c.order|] == c.order;
    ContributorsOwn(c, |c.order|);
    if job.shards == [] && Contributors(c.order, c.assignments) != [] {
      var w := Contributors(c.order, c.assignments)[0];
      assert w in Contributors(c.order, c.assignments);
      var k :| 0 <= k < |c.order| && c.order[k] == w;
      NothingDealt(job.shards, k, job.numWorkers);
      assert false;
    }
  }

  lemma NothingDealt(shards: seq<string>, from: nat, step: nat)
    requires step >= 1 && shards == []
    ensures Slice(shards, from, step) == []
  {
  }

  lemma NeverSteps(job: Job, ids: set<string>, s: System, e: Event)
    requires Sound(job) && InOrder(job, ids, s) && Enabled(job, ids, s, e)
    requires (|ids| < job.numWorkers || job.shards == []) && s.coordinator.epoch == 0
    ensures Next(job, ids, s, e).coordinator.epoch == 0
  {
    hide Sound, SizesOk, EpochsOk, Ready, NewWeights, Slice, SlotsOk, TakeShards, Sized;
    if e.Handle? {
      var c, req := s.coordinator, e.request;
      RegisterInOrder(job, ids, c, req.workerId);
      var c1 := Collect(Register(job, c, req.workerId), req);
      SameSlots(job, ids, Register(job, c, req.workerId), c1);
      NeverReady(job, ids, c1);
    }
  }

  lemma {:induction false} NeverFinishes(job: Job, ids: set<string>, s: System, events: seq<Event>)
    requires Sound(job) && InOrder(job, ids, s) && RunFrom(job, ids, s, events)
    requires (|ids| < job.numWorkers || job.shards == []) && s.coordinator.epoch == 0
    ensures StateAfter(job, ids, s, events).coordinator.epoch == 0
    decreases |events|
  {
    hide Sound, InOrder, Next, Enabled;
    if events != [] {
      NextInOrder(job, ids, s, events[0]);
      NeverSteps(job, ids, s, events[0]);
      NeverFinishes(job, ids, Next(job, ids, s, events[0]), events[1..]);
    }
  }

  /**
   From every reachable state training can run on to its last epoch, whatever has been lost, if and only if there are
   as many worker ids as workers planned and there is a shard.
   */
  lemma CanAlwaysFinishIff(job: Job, ids: set<string>)
    requires Sound(job)
    ensures (|ids| >= job.numWorkers && job.shards != []) <==>
              forall s: System :: Reachable(job, ids, s) ==>
                exists s': System :: Continues(job, ids, s, s') && Finished(job, s')
  {
    hide Sound, Reachable, Continues, InOrder, RunFrom, StateAfter;
    if |ids| >= job.numWorkers && job.shards != [] {
      forall s: System | Reachable(job, ids, s)
        ensures exists s': System :: Continues(job, ids, s, s') && Finished(job, s')
      {
        ReachableInOrder(job, ids, s);
        var s' := Finishes(job, ids, s);
        AtLastEpoch(job, ids, s');
      }
    } else {
      StartsReachable(job, ids);
      StuckAtStart(job, ids);
    }
  }

  lemma AtLastEpoch(job: Job, ids: set<string>, s: System)
    requires InOrder(job, ids, s) && s.coordinator.terminate
    ensures Finished(job, s)
  {
  }

  lemma StuckAtStart(job: Job, ids: set<string>)
    requires Sound(job) && (|ids| < job.numWorkers || job.shards == [])
    ensures forall s': System :: Continues(job, ids, Init(job), s') ==> !Finished(job, s')
  {
    hide RunFrom, StateAfter;
    forall s': System | Continues(job, ids, Init(job), s')
      ensures !Finished(job, s')
    {
      var events :| RunFrom(job, ids, Init(job), events) && StateAfter(job, ids, Init(job), events) == s';
      NeverFinishes(job, ids, Init(job), events);
    }
  }
}
