/**
 What makes the workers' sums a gradient: the logit is the inner product, each row pulls along its features by its
 error, and for any sigmoid that never decreases the gradient is monotone, as that of a convex loss is.
 */
module GradientLaws {
  import opened Wrappers
  import opened Training
  import P = TrainingProtocol
  import TrainingSafety

  /** The inner product, from the first component on. */
  function Inner(a: seq<real>, b: seq<real>): real {
    if a == [] || b == [] then 0.0 else a[0] * b[0] + Inner(a[1..], b[1..])
  }

  function Minus(a: seq<real>, b: seq<real>): (d: seq<real>)
    requires |a| == |b|
    ensures |d| == |a|
  {
    seq(|a|, k requires 0 <= k < |a| => a[k] - b[k])
  }

  lemma {:induction false} InnerSnoc(a: seq<real>, b: seq<real>)
    requires |a| == |b| > 0
    ensures Inner(a, b) == Inner(a[..|a| - 1], b[..|b| - 1]) + a[|a| - 1] * b[|b| - 1]
  {
    if |a| > 1 {
      InnerSnoc(a[1..], b[1..]);
      assert a[..|a| - 1][1..] == a[1..][..|a| - 2] && b[..|b| - 1][1..] == b[1..][..|b| - 2];
    } else {
      assert Inner(a[1..], b[1..]) == 0.0;
    }
  }

  /** The loop's dot product is the inner product of the components it has covered. */
  lemma {:induction false} DotIsInner(w: seq<real>, x: seq<real>, k: nat)
    requires k <= |w| && k <= |x|
    ensures Dot(w, x, k) == Inner(w[..k], x[..k])
  {
    if k > 0 {
      DotIsInner(w, x, k - 1);
      InnerSnoc(w[..k], x[..k]);
      assert w[..k][..k - 1] == w[..k - 1] && x[..k][..k - 1] == x[..k - 1];
    }
  }

  /** Weights with one component other than zero make that component alone count. */
  lemma {:induction false} InnerSingle(w: seq<real>, x: seq<real>, p: nat)
    requires |w| == |x| && p < |w| && forall k :: 0 <= k < |w| && k != p ==> w[k] == 0.0
    ensures Inner(w, x) == w[p] * x[p]
  {
    if p > 0 {
      InnerSingle(w[1..], x[1..], p - 1);
    } else {
      InnerZero(w[1..], x[1..]);
    }
  }

  lemma {:induction false} InnerZero(w: seq<real>, x: seq<real>)
    requires |w| == |x| && forall k :: 0 <= k < |w| ==> w[k] == 0.0
    ensures Inner(w, x) == 0.0
  {
    if w != [] {
      InnerZero(w[1..], x[1..]);
    }
  }

  /** One row's gradient is its error times its features, the error being that of the sigmoid at the inner product. */
  lemma RowGradient(sigma: real -> real, w: seq<real>, row: Row)
    requires |row.x| == |w|
    ensures forall j :: 0 <= j < |w| ==> Gradient(sigma, w, [row])[j] == (sigma(Inner(w, row.x)) - row.y) * row.x[j]
  {
    DotIsInner(w, row.x, |w|);
    assert w[..|w|] == w && row.x[..|w|] == row.x;
    forall j: nat | j < |w|
      ensures SumRows(sigma, w, [row], j) == RowTerm(sigma, w, row, j)
    {
      assert [row][..0] == [];
    }
  }

  lemma OnlyRow(sigma: real -> real, w: seq<real>, rows: seq<Row>)
    requires |rows| == 1 && |rows[0].x| == |w|
    ensures forall j :: 0 <= j < |w| ==>
              Gradient(sigma, w, rows)[j] == (sigma(Inner(w, rows[0].x)) - rows[0].y) * rows[0].x[j]
  {
    hide Gradient, Inner;
    Sized(sigma, w, rows);
    assert rows == [rows[0]];
    RowGradient(sigma, w, rows[0]);
  }

  /** And at weights with one component `p` other than zero, the sigmoid is asked at that weight times that feature. */
  lemma SingleWeightGradient(sigma: real -> real, w: seq<real>, row: Row, p: nat)
    requires |row.x| == |w| && p < |w| && forall k :: 0 <= k < |w| && k != p ==> w[k] == 0.0
    ensures forall j :: 0 <= j < |w| ==> Gradient(sigma, w, [row])[j] == (sigma(w[p] * row.x[p]) - row.y) * row.x[j]
  {
    hide Gradient, Inner;
    RowGradient(sigma, w, row);
    Sized(sigma, w, [row]);
    InnerSingle(w, row.x, p);
    SameValue(sigma, Inner(w, row.x), w[p] * row.x[p]);
  }

  lemma SameValue(sigma: real -> real, a: real, b: real)
    requires a == b
    ensures sigma(a) == sigma(b)
  {
  }

  /** The gradient of some rows and some more is the sum of the two. */
  lemma GradientAdds(sigma: real -> real, w: seq<real>, a: seq<Row>, b: seq<Row>)
    requires forall k :: 0 <= k < |a| ==> |a[k].x| == |w|
    requires forall k :: 0 <= k < |b| ==> |b[k].x| == |w|
    ensures forall j :: 0 <= j < |w| ==>
              Gradient(sigma, w, a + b)[j] == Gradient(sigma, w, a)[j] + Gradient(sigma, w, b)[j]
  {
    forall j: nat | j < |w|
      ensures SumRows(sigma, w, a + b, j) == SumRows(sigma, w, a, j) + SumRows(sigma, w, b, j)
    {
      SumRowsConcat(sigma, w, a, b, j);
    }
  }

  /**
   What a worker does with a response: an end stops it; otherwise it loads what it is dealt, and for an epoch it has not
   computed yet, at weights and with shards, it is ready to report the gradient of its rows at these very weights.
   */
  lemma ResponseTaken(job: Job, w: P.Worker, r: P.Response)
    requires !r.terminate ==> P.Sized(P.TakeShards(job, w, r.shards), |r.weights|)
    ensures var w', due := P.OnResponse(job, w, r), r.weights != [] && (r.shards != [] || w.shards != []);
            && (r.terminate ==> w' == w.(done := true))
            && (!r.terminate ==> w'.shards == (if r.shards != [] then r.shards else w.shards) && w'.done == w.done)
            && (!r.terminate && due && r.epoch as int != w.known ==>
                  && w'.pending == Some(P.Report(r.epoch, P.Share(Gradient(job.sigma, r.weights, w'.data), |w'.data|)))
                  && w'.known == r.epoch)
            && (!r.terminate && !(due && r.epoch as int != w.known) ==>
                  w'.pending == w.pending && w'.known == w.known)
  {
    TrainingSafety.LoadRest(job.rows, w.(shards := r.shards), |r.shards|);
  }

  /** Shards that have been read are not read again, so that their rows count once however often they are dealt. */
  lemma {:induction false} ReadOnce(rows: string -> seq<Row>, w: P.Worker, k: nat)
    requires k <= |w.shards| && forall i :: 0 <= i < k ==> w.shards[i] in w.loaded
    ensures P.Load(rows, w, k) == w
  {
    if k > 0 { ReadOnce(rows, w, k - 1); }
  }

  lemma {:induction false} AllRead(rows: string -> seq<Row>, w: P.Worker, k: nat)
    requires k <= |w.shards|
    ensures forall s :: s in P.Load(rows, w, k).loaded <==> s in w.loaded || s in w.shards[..k]
  {
    if k > 0 {
      AllRead(rows, w, k - 1);
      assert w.shards[..k] == w.shards[..k - 1] + [w.shards[k - 1]];
    }
  }

  /** Loading a worker's shards a second time changes nothing. */
  lemma LoadTwice(rows: string -> seq<Row>, w: P.Worker)
    ensures var once := P.Load(rows, w, |w.shards|);
            |once.shards| == |w.shards| && P.Load(rows, once, |once.shards|) == once
  {
    hide P.Load;
    TrainingSafety.LoadRest(rows, w, |w.shards|);
    AllRead(rows, w, |w.shards|);
    assert w.shards[..|w.shards|] == w.shards;
    ReadOnce(rows, P.Load(rows, w, |w.shards|), |w.shards|);
  }

  // --------------------------------------------------------------------- monotone

  ghost predicate Nondecreasing(sigma: real -> real) {
    forall a: real, b: real :: a <= b ==> sigma(a) <= sigma(b)
  }

  lemma {:induction false} InnerMinus(a: seq<real>, b: seq<real>, x: seq<real>)
    requires |a| == |b| == |x|
    ensures Inner(Minus(a, b), x) == Inner(a, x) - Inner(b, x)
  {
    if a != [] {
      InnerMinus(a[1..], b[1..], x[1..]);
      assert Minus(a, b)[1..] == Minus(a[1..], b[1..]);
    }
  }

  lemma {:induction false} InnerAdds(d: seq<real>, a: seq<real>, b: seq<real>, c: seq<real>)
    requires |d| == |a| == |b| == |c| && forall j :: 0 <= j < |d| ==> c[j] == a[j] + b[j]
    ensures Inner(d, c) == Inner(d, a) + Inner(d, b)
  {
    if d != [] {
      InnerAdds(d[1..], a[1..], b[1..], c[1..]);
    }
  }

  lemma {:induction false} InnerScales(d: seq<real>, x: seq<real>, e: real, c: seq<real>)
    requires |d| == |x| == |c| && forall j :: 0 <= j < |d| ==> c[j] == e * x[j]
    ensures Inner(d, c) == e * Inner(d, x)
  {
    if d != [] {
      InnerScales(d[1..], x[1..], e, c[1..]);
      assert d[0] * c[0] == e * (d[0] * x[0]);
      assert e * (d[0] * x[0]) + e * Inner(d[1..], x[1..]) == e * (d[0] * x[0] + Inner(d[1..], x[1..]));
    }
  }

  /** One row: the errors differ the way the logits do. */
  lemma RowMonotone(sigma: real -> real, w: seq<real>, v: seq<real>, row: Row)
    requires Nondecreasing(sigma) && |w| == |v| == |row.x|
    ensures Inner(Minus(w, v), Minus(Gradient(sigma, w, [row]), Gradient(sigma, v, [row]))) >= 0.0
  {
    hide Gradient, Inner;
    var gw, gv := Gradient(sigma, w, [row]), Gradient(sigma, v, [row]);
    Sized(sigma, w, [row]);
    Sized(sigma, v, [row]);
    RowGradient(sigma, w, row);
    RowGradient(sigma, v, row);
    var zw, zv := Inner(w, row.x), Inner(v, row.x);
    var e := sigma(zw) - sigma(zv);
    forall j | 0 <= j < |w|
      ensures Minus(gw, gv)[j] == e * row.x[j]
    {
      assert (sigma(zw) - row.y) * row.x[j] - (sigma(zv) - row.y) * row.x[j] == e * row.x[j];
    }
    InnerScales(Minus(w, v), row.x, e, Minus(gw, gv));
    InnerMinus(w, v, row.x);
    SameSign(e, zw - zv);
  }

  lemma Sized(sigma: real -> real, w: seq<real>, rows: seq<Row>)
    requires forall k :: 0 <= k < |rows| ==> |rows[k].x| == |w|
    ensures |Gradient(sigma, w, rows)| == |w|
  {
  }

  lemma SameSign(e: real, d: real)
    requires (d >= 0.0 ==> e >= 0.0) && (d <= 0.0 ==> e <= 0.0)
    ensures e * d >= 0.0
  {
  }

  /**
   Moving the weights moves the gradient no less than sideways: along the way from `v` to `w` it never falls.  So it is
   for any data, and a logit of the wrong sign or with a component missing would break it.
   */
  lemma {:induction false} GradientMonotone(sigma: real -> real, w: seq<real>, v: seq<real>, rows: seq<Row>)
    requires Nondecreasing(sigma) && |w| == |v| && forall k :: 0 <= k < |rows| ==> |rows[k].x| == |w|
    ensures Inner(Minus(w, v), Minus(Gradient(sigma, w, rows), Gradient(sigma, v, rows))) >= 0.0
  {
    var d := Minus(w, v);
    if rows == [] {
      InnerNothing(d, Minus(Gradient(sigma, w, rows), Gradient(sigma, v, rows)));
    } else {
      hide Gradient, Inner;
      var n := |rows| - 1;
      var before, last := rows[..n], [rows[n]];
      assert rows == before + last;
      GradientMonotone(sigma, w, v, before);
      RowMonotone(sigma, w, v, rows[n]);
      GradientAdds(sigma, w, before, last);
      GradientAdds(sigma, v, before, last);
      Sized(sigma, w, before);
      Sized(sigma, v, before);
      Sized(sigma, w, last);
      Sized(sigma, v, last);
      Sized(sigma, w, rows);
      Sized(sigma, v, rows);
      InnerAdds(d, Minus(Gradient(sigma, w, before), Gradient(sigma, v, before)),
                Minus(Gradient(sigma, w, last), Gradient(sigma, v, last)),
                Minus(Gradient(sigma, w, rows), Gradient(sigma, v, rows)));
    }
  }

  lemma {:induction false} InnerNothing(d: seq<real>, c: seq<real>)
    requires |d| == |c| && forall j :: 0 <= j < |c| ==> c[j] == 0.0
    ensures Inner(d, c) == 0.0
  {
    if d != [] {
      InnerNothing(d[1..], c[1..]);
    }
  }
}
