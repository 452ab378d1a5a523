/** `fixed_push`: turns one batch of samples and its timestamps into
    `push_sample` calls on an outlet, dispatching on the shape of the batch. */
module Router {
  import opened Devices
  import opened Lsl

  /** A batch as the device session hands it over. `Matrix` is a 2-D array of
      `width` columns (one row per channel, one column per sample); `Array` is a
      numpy array of any other dimension; `List` a Python list of samples;
      `Scalar` anything else. */
  datatype Batch<T> =
    | Matrix(rows: seq<seq<T>>, width: nat)
    | Array(values: seq<T>)
    | List(items: seq<T>)
    | Scalar(value: T)
  {
    /** A 2-D array is rectangular. */
    predicate WellShaped()
    {
      Matrix? ==> forall k :: 0 <= k < |rows| ==> |rows[k]| == width
    }
  }

  /** `data[:, i].tolist()`. */
  function Column<T>(rows: seq<seq<T>>, width: nat, i: nat): (c: seq<T>)
    requires forall k :: 0 <= k < |rows| ==> |rows[k]| == width
    requires i < width
    ensures |c| == |rows| && forall k :: 0 <= k < |rows| ==> c[k] == rows[k][i]
  {
    seq(|rows|, k requires 0 <= k < |rows| => rows[k][i])
  }

  /** The samples of a batch in the order they are pushed. */
  function Samples<T>(data: Batch<T>): seq<Sample<T>>
    requires data.WellShaped()
  {
    match data
    case Matrix(rows, width) => seq(width, i requires 0 <= i < width => Values(Column(rows, width, i)))
    case Array(values) => [Values(values)]
    case List(items) => seq(|items|, i requires 0 <= i < |items| => Single(items[i]))
    case Scalar(value) => [Single(value)]
  }

  /** The timestamp the i-th push carries: `timestamps[i]` when there is one. */
  function StampAt(timestamps: seq<int>, i: nat): Option<int>
  {
    if i < |timestamps| then Some(timestamps[i]) else None
  }

  /** The pushes `fixed_push(data, timestamps, outlet)` issues: the i-th sample
      paired with the i-th timestamp, if any. */
  function Routed<T>(data: Batch<T>, timestamps: seq<int>): seq<Push<T>>
    requires data.WellShaped()
  {
    var samples := Samples(data);
    seq(|samples|, i requires 0 <= i < |samples| => Push(samples[i], StampAt(timestamps, i)))
  }

  method FixedPush<T>(data: Batch<T>, timestamps: seq<int>, outlet: Outlet<T>)
    requires data.WellShaped()
    modifies outlet
    ensures outlet.pushes == old(outlet.pushes) + Routed(data, timestamps)
  {
    ghost var before := outlet.pushes;
    ghost var routed := Routed(data, timestamps);
    match data
    case Matrix(rows, width) =>
      for ii := 0 to width
        invariant outlet.pushes == before + routed[..ii]
      {
        if ii < |timestamps| {
          outlet.PushSample(Values(Column(rows, width, ii)), Some(timestamps[ii]));
        } else {
          outlet.PushSample(Values(Column(rows, width, ii)), None);
        }
        assert routed[..ii + 1] == routed[..ii] + [routed[ii]];
      }
      assert routed[..width] == routed;
    case Array(values) =>
      if |timestamps| > 0 {
        outlet.PushSample(Values(values), Some(timestamps[0]));
      } else {
        outlet.PushSample(Values(values), None);
      }
    case List(items) =>
      for i := 0 to |items|
        invariant outlet.pushes == before + routed[..i]
      {
        if i < |timestamps| {
          outlet.PushSample(Single(items[i]), Some(timestamps[i]));
        } else {
          outlet.PushSample(Single(items[i]), None);
        }
        assert routed[..i + 1] == routed[..i] + [routed[i]];
      }
      assert routed[..|items|] == routed;
    case Scalar(value) =>
      if |timestamps| > 0 {
        outlet.PushSample(Single(value), Some(timestamps[0]));
      } else {
        outlet.PushSample(Single(value), None);
      }
  }

  /** A 2-D batch of N columns gives exactly N pushes in column order, column i
      carrying `timestamps[i]` when i < |timestamps| and no timestamp otherwise. */
  lemma MatrixPushes<T>(rows: seq<seq<T>>, width: nat, timestamps: seq<int>)
    requires Matrix(rows, width).WellShaped()
    ensures |Routed(Matrix(rows, width), timestamps)| == width
    ensures forall i :: 0 <= i < width ==>
      Routed(Matrix(rows, width), timestamps)[i].sample == Values(Column(rows, width, i)) &&
      (i < |timestamps| ==> Routed(Matrix(rows, width), timestamps)[i].timestamp == Some(timestamps[i])) &&
      (i >= |timestamps| ==> Routed(Matrix(rows, width), timestamps)[i].timestamp == None)
  {
  }

  /** A list gives one push per element, paired positionally with the timestamps. */
  lemma ListPushes<T>(items: seq<T>, timestamps: seq<int>)
    ensures |Routed(List(items), timestamps)| == |items|
    ensures forall i :: 0 <= i < |items| ==>
      Routed(List(items), timestamps)[i] == Push(Single(items[i]), StampAt(timestamps, i))
  {
  }

  /** A non-2-D array or a scalar gives exactly one push, which carries
      `timestamps[0]` exactly when there are timestamps. */
  lemma SinglePush<T>(data: Batch<T>, timestamps: seq<int>)
    requires data.Array? || data.Scalar?
    ensures |Routed(data, timestamps)| == 1
    ensures Routed(data, timestamps)[0].timestamp.Some? <==> |timestamps| > 0
    ensures |timestamps| > 0 ==> Routed(data, timestamps)[0].timestamp == Some(timestamps[0])
  {
  }

  /** The number of pushes that carry an explicit timestamp. */
  function CountStamped<T>(pushes: seq<Push<T>>): nat
  {
    if pushes == [] then 0
    else CountStamped(pushes[..|pushes| - 1]) + (if pushes[|pushes| - 1].timestamp.Some? then 1 else 0)
  }

  function Min(a: nat, b: nat): nat
  {
    if a <= b then a else b
  }

  /** A log whose first `m` entries, and only those, carry timestamps has
      min(length, m) stamped entries. */
  lemma {:induction false} CountStampedPrefix<T>(pushes: seq<Push<T>>, m: nat)
    requires forall i :: 0 <= i < |pushes| ==> (pushes[i].timestamp.Some? <==> i < m)
    ensures CountStamped(pushes) == Min(|pushes|, m)
  {
    if pushes != [] {
      CountStampedPrefix(pushes[..|pushes| - 1], m);
    }
  }

  /** However many samples and timestamps a batch has, exactly
      min(#samples, #timestamps) pushes carry a timestamp: no timestamp is
      invented and none is dropped while a sample remains. */
  lemma StampedPushCount<T>(data: Batch<T>, timestamps: seq<int>)
    requires data.WellShaped()
    ensures CountStamped(Routed(data, timestamps)) == Min(|Samples(data)|, |timestamps|)
  {
    CountStampedPrefix(Routed(data, timestamps), |timestamps|);
  }
}
