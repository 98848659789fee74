/** Full-batch logistic-regression training over the reals, and how shards are dealt out to workers. */
module Training {

  /** One sample; the bias feature is already part of `x`. */
  datatype Row = Row(x: seq<real>, y: real)

  /** What stays fixed over a training run; `sigma` stands for the sigmoid. */
  datatype Job = Job(
    sigma: real -> real, rows: string -> seq<Row>, shards: seq<string>,
    numWorkers: nat, rate: real, maxEpochs: int, dim: nat)

  ghost predicate Sound(job: Job) {
    && job.numWorkers >= 1 && job.dim >= 1
    && (forall i, j :: 0 <= i < j < |job.shards| ==> job.shards[i] != job.shards[j])
    && forall s: string, k :: 0 <= k < |job.rows(s)| ==> |job.rows(s)[k].x| == job.dim
  }

  // ------------------------------------------------------------- gradients

  function Min(a: nat, b: nat): nat {
    if a < b then a else b
  }

  /** The dot product of the first `k` components. */
  function Dot(w: seq<real>, x: seq<real>, k: nat): real
    requires k <= |w| && k <= |x|
  {
    if k == 0 then 0.0 else Dot(w, x, k - 1) + w[k - 1] * x[k - 1]
  }

  function RowTerm(sigma: real -> real, w: seq<real>, row: Row, j: nat): real
    requires j < |row.x|
  {
    (sigma(Dot(w, row.x, Min(|w|, |row.x|))) - row.y) * row.x[j]
  }

  function SumRows(sigma: real -> real, w: seq<real>, rows: seq<Row>, j: nat): real
    requires forall k :: 0 <= k < |rows| ==> j < |rows[k].x|
  {
    if rows == [] then 0.0
    else SumRows(sigma, w, rows[..|rows| - 1], j) + RowTerm(sigma, w, rows[|rows| - 1], j)
  }

  function Gradient(sigma: real -> real, w: seq<real>, rows: seq<Row>): seq<real>
    requires forall k :: 0 <= k < |rows| ==> |rows[k].x| == |w|
  {
    seq(|w|, j requires 0 <= j < |w| => SumRows(sigma, w, rows, j))
  }

  lemma {:induction false} SumRowsConcat(sigma: real -> real, w: seq<real>, a: seq<Row>, b: seq<Row>, j: nat)
    requires forall k :: 0 <= k < |a| ==> j < |a[k].x|
    requires forall k :: 0 <= k < |b| ==> j < |b[k].x|
    ensures SumRows(sigma, w, a + b, j) == SumRows(sigma, w, a, j) + SumRows(sigma, w, b, j)
  {
    if b == [] {
      assert a + b == a;
    } else {
      assert (a + b)[..|a + b| - 1] == a + b[..|b| - 1];
      SumRowsConcat(sigma, w, a, b[..|b| - 1], j);
    }
  }

  /** All rows of a list of shards, in order. */
  function RowsOf(rows: string -> seq<Row>, shards: seq<string>): seq<Row> {
    if shards == [] then [] else RowsOf(rows, shards[..|shards| - 1]) + rows(shards[|shards| - 1])
  }

  lemma {:induction false} RowsOfSized(job: Job, shards: seq<string>)
    requires Sound(job)
    ensures forall k :: 0 <= k < |RowsOf(job.rows, shards)| ==> |RowsOf(job.rows, shards)[k].x| == job.dim
  {
    if shards != [] {
      RowsOfSized(job, shards[..|shards| - 1]);
    }
  }

  // --------------------------------------------------------- gradient descent

  /** One step of full-batch gradient descent, computed in one place. */
  ghost function Descend(job: Job, w: seq<real>): (w': seq<real>)
    requires Sound(job) && |w| == job.dim
    ensures |w'| == job.dim
  {
    var rows := RowsOf(job.rows, job.shards);
    RowsOfSized(job, job.shards);
    if rows == [] then w
    else seq(job.dim, j requires 0 <= j < job.dim =>
               w[j] - job.rate * (SumRows(job.sigma, w, rows, j) / |rows| as real))
  }

  /** The weights after `n` steps, from zero. */
  ghost function Iterate(job: Job, n: nat): (w: seq<real>)
    requires Sound(job)
    ensures |w| == job.dim
  {
    if n == 0 then seq(job.dim, j => 0.0) else Descend(job, Iterate(job, n - 1))
  }

  // --------------------------------------------------------------- the slices

  /** Every `step`-th shard from position `from` on. */
  function Slice(shards: seq<string>, from: nat, step: nat): seq<string>
    requires step >= 1
    decreases |shards| - from
  {
    if from >= |shards| then [] else [shards[from]] + Slice(shards, from + step, step)
  }

  /** A quantity summed over a list of shards. */
  function SumOver(f: string -> real, shards: seq<string>): real {
    if shards == [] then 0.0 else SumOver(f, shards[..|shards| - 1]) + f(shards[|shards| - 1])
  }

  /** A quantity summed over the slices of slots 0 to `slots` - 1. */
  function SumSlices(f: string -> real, shards: seq<string>, step: nat, slots: nat): real
    requires step >= 1
  {
    if slots == 0 then 0.0
    else SumSlices(f, shards, step, slots - 1) + SumOver(f, Slice(shards, slots - 1, step))
  }

  lemma {:induction false} SumOverCons(f: string -> real, s: string, shards: seq<string>)
    ensures SumOver(f, [s] + shards) == f(s) + SumOver(f, shards)
  {
    if shards == [] {
      assert [s] + shards == [s];
      assert [s][..0] == [];
    } else {
      assert ([s] + shards)[..|shards|] == [s] + shards[..|shards| - 1];
      SumOverCons(f, s, shards[..|shards| - 1]);
    }
  }

  /** The slot whose turn comes after `phase` when shards are dealt out round robin. */
  function Turn(phase: nat, step: nat): nat {
    if phase + 1 == step then 0 else phase + 1
  }

  /** The shards from position `k` on that fall to `slot` when the dealing continues with slot `phase`, summed. */
  function SumDealt(f: string -> real, shards: seq<string>, k: nat, phase: nat, step: nat, slot: nat): real
    decreases |shards| - k
  {
    if k >= |shards| then 0.0
    else (if phase == slot then f(shards[k]) else 0.0) + SumDealt(f, shards, k + 1, Turn(phase, step), step, slot)
  }

  /** Nothing falls to `slot` until its turn comes. */
  lemma {:induction false} DealSkips(f: string -> real, shards: seq<string>, k: nat, phase: nat, step: nat, slot: nat)
    requires phase < step && slot < step
    ensures SumDealt(f, shards, k, phase, step, slot)
         == SumDealt(f, shards, k + (if phase <= slot then slot - phase else step - phase + slot), slot, step, slot)
    decreases if phase <= slot then slot - phase else step - phase + slot
  {
    if phase != slot {
      DealSkips(f, shards, k + 1, Turn(phase, step), step, slot);
    }
  }

  lemma {:induction false} SliceIsDealt(f: string -> real, shards: seq<string>, from: nat, step: nat, slot: nat)
    requires slot < step
    ensures SumOver(f, Slice(shards, from, step)) == SumDealt(f, shards, from, slot, step, slot)
    decreases |shards| - from
  {
    if from < |shards| {
      SliceIsDealt(f, shards, from + step, step, slot);
      SumOverCons(f, shards[from], Slice(shards, from + step, step));
      DealSkips(f, shards, from + 1, Turn(slot, step), step, slot);
    }
  }

  function SumAllDealt(f: string -> real, shards: seq<string>, k: nat, phase: nat, step: nat, slots: nat): real {
    if slots == 0 then 0.0
    else SumAllDealt(f, shards, k, phase, step, slots - 1) + SumDealt(f, shards, k, phase, step, slots - 1)
  }

  lemma {:induction false} DealStep(f: string -> real, shards: seq<string>, k: nat, phase: nat, step: nat, slots: nat)
    requires k < |shards|
    ensures SumAllDealt(f, shards, k, phase, step, slots)
         == SumAllDealt(f, shards, k + 1, Turn(phase, step), step, slots) + (if phase < slots then f(shards[k]) else 0.0)
  {
    if slots > 0 {
      DealStep(f, shards, k, phase, step, slots - 1);
    }
  }

  lemma {:induction false} DealEnds(f: string -> real, shards: seq<string>, phase: nat, step: nat, slots: nat)
    ensures SumAllDealt(f, shards, |shards|, phase, step, slots) == 0.0
  {
    if slots > 0 {
      DealEnds(f, shards, phase, step, slots - 1);
    }
  }

  lemma {:induction false} AllDealt(f: string -> real, shards: seq<string>, k: nat, phase: nat, step: nat)
    requires phase < step && k <= |shards|
    ensures SumAllDealt(f, shards, k, phase, step, step) == SumOver(f, shards[k..])
    decreases |shards| - k
  {
    if k == |shards| {
      DealEnds(f, shards, phase, step, step);
      assert shards[k..] == [];
    } else {
      AllDealt(f, shards, k + 1, Turn(phase, step), step);
      DealStep(f, shards, k, phase, step, step);
      assert shards[k..] == [shards[k]] + shards[k + 1..];
      SumOverCons(f, shards[k], shards[k + 1..]);
    }
  }

  lemma {:induction false} SlicesAreDealt(f: string -> real, shards: seq<string>, step: nat, slots: nat)
    requires step >= 1 && slots <= step
    ensures SumSlices(f, shards, step, slots) == SumAllDealt(f, shards, 0, 0, step, slots)
  {
    if slots > 0 {
      SlicesAreDealt(f, shards, step, slots - 1);
      SliceIsDealt(f, shards, slots - 1, step, slots - 1);
      DealSkips(f, shards, 0, 0, step, slots - 1);
    }
  }

  /** The slices of the first `step` slots partition the shards: whatever is summed, every shard counts exactly once. */
  lemma SlicesPartition(f: string -> real, shards: seq<string>, step: nat)
    requires step >= 1
    ensures SumSlices(f, shards, step, step) == SumOver(f, shards)
  {
    SlicesAreDealt(f, shards, step, step);
    AllDealt(f, shards, 0, 0, step);
    assert shards[0..] == shards;
  }

  /** A slot beyond the first `step` repeats shards of an earlier slot exactly if its slice is not empty. */
  lemma ExtraSliceRepeats(shards: seq<string>, slot: nat, step: nat)
    requires step >= 1 && slot >= step
    ensures Slice(shards, slot, step) != [] <==> slot < |shards|
    ensures slot < |shards| ==> Slice(shards, slot - step, step) == [shards[slot - step]] + Slice(shards, slot, step)
  {
  }

  // --------------------------------------------------- a shard list's gradient

  /** One component of the gradient of one shard. */
  ghost function ShardSum(job: Job, w: seq<real>, j: nat, s: string): real
    requires Sound(job) && j < job.dim
  {
    SumRows(job.sigma, w, job.rows(s), j)
  }

  /** Summing a component over the rows of some shards is summing it shard by shard. */
  lemma {:induction false} RowsByShard(job: Job, w: seq<real>, shards: seq<string>, j: nat, f: string -> real)
    requires Sound(job) && j < job.dim && forall s: string :: f(s) == ShardSum(job, w, j, s)
    ensures forall k :: 0 <= k < |RowsOf(job.rows, shards)| ==> j < |RowsOf(job.rows, shards)[k].x|
    ensures SumRows(job.sigma, w, RowsOf(job.rows, shards), j) == SumOver(f, shards)
  {
    RowsOfSized(job, shards);
    if shards != [] {
      var n := |shards| - 1;
      RowsByShard(job, w, shards[..n], j, f);
      SumRowsConcat(job.sigma, w, RowsOf(job.rows, shards[..n]), job.rows(shards[n]), j);
      assert f(shards[n]) == ShardSum(job, w, j, shards[n]);
    }
  }

  lemma {:induction false} CountByShard(job: Job, shards: seq<string>, f: string -> real)
    requires forall s: string :: f(s) == |job.rows(s)| as real
    ensures |RowsOf(job.rows, shards)| as real == SumOver(f, shards)
  {
    if shards != [] {
      CountByShard(job, shards[..|shards| - 1], f);
    }
  }
}
