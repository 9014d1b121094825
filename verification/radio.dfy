/** The radio-identification loaders of data/radio/radio.py: every signal
    sample (channels by time steps) is min-max scaled into [-1, 1] with its own
    minimum and maximum, paired with its label, and batched; the training set
    may be cut down to a random subset.

    Loading a `.pth` file becomes a lookup in a `Store`; `torch.randperm` is a
    parameter that returns a permutation of the requested length. */
module Radio {
  import opened Results
  import opened Tensors

  datatype Split = Train | Val | Test

  /** The signal files: `X_<split>.pth`, and `X_<split>_new_<snr>dB.pth` for
      the noisy copies. */
  datatype SignalFile = CleanSignals(split: Split) | NoisySignals(split: Split, snr: int)

  /** What the files on disk hold: signal batches laid out (sample, channel,
      time) and one label per sample in `y_<split>.pth`. */
  datatype Store = Store(signals: map<SignalFile, Tensor3>, labels: map<Split, seq<int>>)

  datatype RadioError =
    | MissingSignals(file: SignalFile)  // torch.load of an absent signal file
    | MissingLabels(split: Split)       // torch.load of an absent label file
    | EmptyData                         // no sample, or samples without entries: nothing to take a minimum of
    | ConstantSample                    // a sample whose maximum equals its minimum: 0 / 0
    | SizeMismatch                      // TensorDataset of signals and labels of different lengths
    | InvalidBatchSize                  // DataLoader with a batch size below 1
    | EmptySubset                       // a shuffling DataLoader over a subset without samples

  /* ----------------------------------------------------------------------- */
  /* Min-max scaling of one value                                             */
  /* ----------------------------------------------------------------------- */

  /** `-1 + 2 * (x - lo) / (hi - lo)`. */
  function ScaleValue(x: real, lo: real, hi: real): real
    requires lo < hi
  {
    -1.0 + 2.0 * (x - lo) / (hi - lo)
  }

  /** The inverse map from [-1, 1] back to [lo, hi]. */
  function UnscaleValue(y: real, lo: real, hi: real): real
    requires lo < hi
  {
    lo + (y + 1.0) * (hi - lo) / 2.0
  }

  lemma QuotientWithin(a: real, d: real)
    requires d > 0.0 && 0.0 <= a <= 2.0 * d
    ensures 0.0 <= a / d <= 2.0
  {
  }

  /** Values between the extremes land in [-1, 1]. */
  lemma ScaleValueBounds(x: real, lo: real, hi: real)
    requires lo < hi && lo <= x <= hi
    ensures -1.0 <= ScaleValue(x, lo, hi) <= 1.0
  {
    QuotientWithin(2.0 * (x - lo), hi - lo);
  }

  /** The minimum goes to -1 and the maximum to 1. */
  lemma ScaleValueEndpoints(lo: real, hi: real)
    requires lo < hi
    ensures ScaleValue(lo, lo, hi) == -1.0
    ensures ScaleValue(hi, lo, hi) == 1.0
  {
    QuotientOfMultiple(2.0 * (hi - lo), hi - lo, 2.0);
  }

  lemma QuotientDifference(a: real, b: real, d: real)
    requires d > 0.0
    ensures a / d - b / d == (a - b) / d
  {
  }

  lemma PositiveQuotient(a: real, d: real)
    requires d > 0.0
    ensures a > 0.0 <==> a / d > 0.0
  {
    if a / d > 0.0 {
      assert a == (a / d) * d;
    }
  }

  /** Scaling preserves and reflects the order of values. */
  lemma ScaleValueMonotone(x: real, y: real, lo: real, hi: real)
    requires lo < hi
    ensures x < y <==> ScaleValue(x, lo, hi) < ScaleValue(y, lo, hi)
  {
    var d := hi - lo;
    QuotientDifference(2.0 * (y - lo), 2.0 * (x - lo), d);
    assert 2.0 * (y - lo) - 2.0 * (x - lo) == 2.0 * (y - x);
    PositiveQuotient(2.0 * (y - x), d);
  }

  lemma HalfProductQuotient(a: real, d: real)
    requires d > 0.0
    ensures 2.0 * (a * d / 2.0) / d == a
  {
  }

  lemma QuotientTimesDivisor(a: real, d: real)
    requires d > 0.0
    ensures (a / d) * d == a
  {
  }

  /** Scaling loses nothing: with the extremes known, the original value is
      recovered, and every point of the target interval is reached. */
  lemma ScaleValueRoundTrip(x: real, y: real, lo: real, hi: real)
    requires lo < hi
    ensures UnscaleValue(ScaleValue(x, lo, hi), lo, hi) == x
    ensures ScaleValue(UnscaleValue(y, lo, hi), lo, hi) == y
  {
    var d := hi - lo;
    var q := 2.0 * (x - lo) / d;
    QuotientTimesDivisor(2.0 * (x - lo), d);
    assert ScaleValue(x, lo, hi) + 1.0 == q;
    assert UnscaleValue(ScaleValue(x, lo, hi), lo, hi) == lo + q * d / 2.0;
    var u := (y + 1.0) * d / 2.0;
    HalfProductQuotient(y + 1.0, d);
    assert UnscaleValue(y, lo, hi) - lo == u;
  }

  /* ----------------------------------------------------------------------- */
  /* Minimum and maximum over a whole sample                                  */
  /* ----------------------------------------------------------------------- */

  /** A sample's channels laid end to end: `view(b, -1)` for one sample. */
  function Flatten(x: seq<seq<real>>): (r: seq<real>)
    decreases |x|
  {
    if |x| == 0 then [] else Flatten(x[..|x| - 1]) + x[|x| - 1]
  }

  /** Every entry of the sample is in the flattened sample, and every value of
      the flattened sample is an entry of the sample. */
  lemma {:induction false} FlattenMembers(x: seq<seq<real>>)
    ensures forall c, t :: 0 <= c < |x| && 0 <= t < |x[c]| ==> x[c][t] in Flatten(x)
    ensures forall v :: v in Flatten(x) ==> exists c, t :: 0 <= c < |x| && 0 <= t < |x[c]| && x[c][t] == v
  {
    if |x| > 0 {
      var n := |x|;
      var front := x[..n - 1];
      FlattenMembers(front);
      assert Flatten(x) == Flatten(front) + x[n - 1];
      forall c, t | 0 <= c < n && 0 <= t < |x[c]|
        ensures x[c][t] in Flatten(x)
      {
        if c < n - 1 {
          assert front[c][t] == x[c][t];
        } else {
          assert Flatten(x)[|Flatten(front)| + t] == x[c][t];
        }
      }
      forall v | v in Flatten(x)
        ensures exists c, t :: 0 <= c < |x| && 0 <= t < |x[c]| && x[c][t] == v
      {
        if v in Flatten(front) {
          var c, t :| 0 <= c < |front| && 0 <= t < |front[c]| && front[c][t] == v;
          assert x[c][t] == v;
        } else {
          assert v in x[n - 1];
          var t :| 0 <= t < |x[n - 1]| && x[n - 1][t] == v;
          assert x[n - 1][t] == v;
        }
      }
    }
  }

  /** The flattened sample is empty exactly when every channel is. */
  lemma {:induction false} FlattenEmpty(x: seq<seq<real>>)
    ensures |Flatten(x)| == 0 <==> forall c :: 0 <= c < |x| ==> |x[c]| == 0
  {
    if |x| > 0 {
      FlattenEmpty(x[..|x| - 1]);
      assert forall c :: 0 <= c < |x| - 1 ==> x[..|x| - 1][c] == x[c];
    }
  }

  function MinOf(s: seq<real>): (r: real)
    requires |s| > 0
    ensures r in s
    ensures forall i :: 0 <= i < |s| ==> r <= s[i]
    decreases |s|
  {
    if |s| == 1 then s[0]
    else
      var m := MinOf(s[..|s| - 1]);
      assert forall i :: 0 <= i < |s| - 1 ==> s[..|s| - 1][i] == s[i];
      if s[|s| - 1] < m then s[|s| - 1] else m
  }

  function MaxOf(s: seq<real>): (r: real)
    requires |s| > 0
    ensures r in s
    ensures forall i :: 0 <= i < |s| ==> s[i] <= r
    decreases |s|
  {
    if |s| == 1 then s[0]
    else
      var m := MaxOf(s[..|s| - 1]);
      assert forall i :: 0 <= i < |s| - 1 ==> s[..|s| - 1][i] == s[i];
      if s[|s| - 1] > m then s[|s| - 1] else m
  }

  /* ----------------------------------------------------------------------- */
  /* Scaling one sample and a batch                                           */
  /* ----------------------------------------------------------------------- */

  /** Every entry of `x` mapped with the given extremes. */
  function ScaleEntries(x: seq<seq<real>>, lo: real, hi: real): (r: seq<seq<real>>)
    requires lo < hi
    ensures |r| == |x| && forall c :: 0 <= c < |x| ==> |r[c]| == |x[c]|
  {
    seq(|x|, c requires 0 <= c < |x| =>
      seq(|x[c]|, t requires 0 <= t < |x[c]| => ScaleValue(x[c][t], lo, hi)))
  }

  /** One sample scaled by its own extremes, taken jointly over all channels
      and time steps. */
  function ScaleSample(x: seq<seq<real>>): (r: Result<seq<seq<real>>, RadioError>)
    ensures r.Err? <==> |Flatten(x)| == 0 || MinOf(Flatten(x)) == MaxOf(Flatten(x))
    ensures r.Err? ==> r.error == (if |Flatten(x)| == 0 then EmptyData else ConstantSample)
    ensures r.Ok? ==> r.value == ScaleEntries(x, MinOf(Flatten(x)), MaxOf(Flatten(x)))
  {
    var flat := Flatten(x);
    if |flat| == 0 then Err(EmptyData)
    else
      var lo := MinOf(flat);
      var hi := MaxOf(flat);
      if lo == hi then Err(ConstantSample)
      else
        assert lo < hi by {
          assert lo <= flat[0] <= hi;
        }
        Ok(ScaleEntries(x, lo, hi))
  }

  /** A scaled sample has the shape of the original, lies within [-1, 1], hits
      -1 exactly at the sample's smallest entries and 1 exactly at its largest,
      and keeps the order of any two entries. */
  lemma ScaledSampleProperties(x: seq<seq<real>>)
    requires ScaleSample(x).Ok?
    ensures var r := ScaleSample(x).value;
            && |r| == |x| && (forall c :: 0 <= c < |x| ==> |r[c]| == |x[c]|)
            && (forall c, t :: 0 <= c < |x| && 0 <= t < |x[c]| ==> -1.0 <= r[c][t] <= 1.0)
            && (forall c, t :: 0 <= c < |x| && 0 <= t < |x[c]| ==>
                  (r[c][t] == -1.0 <==> x[c][t] == MinOf(Flatten(x))))
            && (forall c, t :: 0 <= c < |x| && 0 <= t < |x[c]| ==>
                  (r[c][t] == 1.0 <==> x[c][t] == MaxOf(Flatten(x))))
    ensures exists c, t :: 0 <= c < |x| && 0 <= t < |x[c]| && ScaleSample(x).value[c][t] == -1.0
    ensures exists c, t :: 0 <= c < |x| && 0 <= t < |x[c]| && ScaleSample(x).value[c][t] == 1.0
  {
    var flat := Flatten(x);
    var lo, hi := MinOf(flat), MaxOf(flat);
    var r := ScaleSample(x).value;
    assert lo <= flat[0] <= hi;
    FlattenMembers(x);
    ScaleValueEndpoints(lo, hi);
    forall c, t | 0 <= c < |x| && 0 <= t < |x[c]|
      ensures -1.0 <= r[c][t] <= 1.0
      ensures r[c][t] == -1.0 <==> x[c][t] == lo
      ensures r[c][t] == 1.0 <==> x[c][t] == hi
    {
      var v := x[c][t];
      assert v in flat;
      var i :| 0 <= i < |flat| && flat[i] == v;
      assert lo <= v <= hi;
      ScaleValueBounds(v, lo, hi);
      ScaleValueMonotone(lo, v, lo, hi);
      ScaleValueMonotone(v, hi, lo, hi);
    }
    var cl, tl :| 0 <= cl < |x| && 0 <= tl < |x[cl]| && x[cl][tl] == lo;
    assert r[cl][tl] == -1.0;
    var ch, th :| 0 <= ch < |x| && 0 <= th < |x[ch]| && x[ch][th] == hi;
    assert r[ch][th] == 1.0;
  }

  /** Within a sample the scaled entries are ordered as the originals. */
  lemma ScaledSampleKeepsOrder(x: seq<seq<real>>, c: nat, t: nat, c2: nat, t2: nat)
    requires ScaleSample(x).Ok?
    requires c < |x| && t < |x[c]| && c2 < |x| && t2 < |x[c2]|
    ensures x[c][t] < x[c2][t2] <==> ScaleSample(x).value[c][t] < ScaleSample(x).value[c2][t2]
  {
    var flat := Flatten(x);
    var lo, hi := MinOf(flat), MaxOf(flat);
    assert lo <= flat[0] <= hi;
    ScaleValueMonotone(x[c][t], x[c2][t2], lo, hi);
  }

  /** The `(sample, channel, time)` batch with every sample scaled on its own.
      A batch without entries fails before any sample is looked at. */
  function ScaleBatch(x: Tensor3): (r: Result<Tensor3, RadioError>)
    ensures r.Err? <==>
              || x.shape.batch == 0 || x.shape.rows == 0 || x.shape.cols == 0
              || exists b :: 0 <= b < x.shape.batch && ScaleSample(x.data[b]).Err?
    ensures r.Err? ==> r.error == (if x.shape.batch == 0 || x.shape.rows == 0 || x.shape.cols == 0
                                   then EmptyData else ConstantSample)
    ensures r.Ok? ==> r.value.shape == x.shape
    ensures r.Ok? ==> forall b :: 0 <= b < x.shape.batch ==> r.value.data[b] == ScaleSample(x.data[b]).value
  {
    var s := x.shape;
    if s.batch == 0 || s.rows == 0 || s.cols == 0 then Err(EmptyData)
    else if exists b :: 0 <= b < s.batch && ScaleSample(x.data[b]).Err? then
      assert forall b :: 0 <= b < s.batch ==> |Flatten(x.data[b])| > 0 by {
        forall b | 0 <= b < s.batch
          ensures |Flatten(x.data[b])| > 0
        {
          FlattenEmpty(x.data[b]);
          assert |x.data[b][0]| > 0;
        }
      }
      Err(ConstantSample)
    else
      Ok(Tensor(s, seq(s.batch, b requires 0 <= b < s.batch => ScaleSample(x.data[b]).value)))
  }

  /** Each sample's scaling sees that sample only: changing one sample of the
      batch leaves the scaled values of every other sample as they were. */
  lemma ScalingIsPerSample(x: Tensor3, y: Tensor3, b: nat)
    requires ScaleBatch(x).Ok? && ScaleBatch(y).Ok?
    requires x.shape == y.shape && b < x.shape.batch && x.data[b] == y.data[b]
    ensures ScaleBatch(x).value.data[b] == ScaleBatch(y).value.data[b]
  {
  }

  /* ----------------------------------------------------------------------- */
  /* Loaders                                                                  */
  /* ----------------------------------------------------------------------- */

  /** A `TensorDataset` of scaled signals and labels. */
  datatype Dataset = Dataset(signals: Tensor3, labels: seq<int>)

  /** A `DataLoader` over a dataset; incomplete last batches are dropped. */
  datatype Loader = Loader(dataset: Dataset, batchSize: int, shuffle: bool, dropLast: bool)

  /** The signal file `load_data_and_label` scales: the noisy file when an
      SNR is given, the clean one otherwise. */
  function SourceFile(split: Split, snr: Option<int>): SignalFile
  {
    if snr.Some? then NoisySignals(split, snr.value) else CleanSignals(split)
  }

  /** `load_data_and_label`. The clean signals and the labels are read first in
      every case; with an SNR the noisy signals then replace the clean ones,
      and the labels are read again from the same clean label file. */
  function LoadDataAndLabel(store: Store, batchSize: int, split: Split, snr: Option<int>): (r: Result<Loader, RadioError>)
    ensures CleanSignals(split) !in store.signals ==> r == Err(MissingSignals(CleanSignals(split)))
    ensures CleanSignals(split) in store.signals && split !in store.labels ==> r == Err(MissingLabels(split))
    ensures CleanSignals(split) in store.signals && split in store.labels && SourceFile(split, snr) !in store.signals ==>
              r == Err(MissingSignals(SourceFile(split, snr)))
    ensures CleanSignals(split) in store.signals && split in store.labels && SourceFile(split, snr) in store.signals ==>
              var x := store.signals[SourceFile(split, snr)];
              && (ScaleBatch(x).Err? ==> r == Err(ScaleBatch(x).error))
              && (ScaleBatch(x).Ok? && |store.labels[split]| != x.shape.batch ==> r == Err(SizeMismatch))
              && (ScaleBatch(x).Ok? && |store.labels[split]| == x.shape.batch && batchSize <= 0 ==> r == Err(InvalidBatchSize))
    ensures r.Ok? <==>
              && CleanSignals(split) in store.signals && split in store.labels
              && SourceFile(split, snr) in store.signals
              && ScaleBatch(store.signals[SourceFile(split, snr)]).Ok?
              && |store.labels[split]| == store.signals[SourceFile(split, snr)].shape.batch
              && batchSize > 0
    ensures r.Ok? ==>
              && r.value.dataset.signals == ScaleBatch(store.signals[SourceFile(split, snr)]).value
              && r.value.dataset.labels == store.labels[split]
              && r.value.batchSize == batchSize
              && (r.value.shuffle <==> split == Train)
              && r.value.dropLast
  {
    if CleanSignals(split) !in store.signals then Err(MissingSignals(CleanSignals(split)))
    else if split !in store.labels then Err(MissingLabels(split))
    else if SourceFile(split, snr) !in store.signals then Err(MissingSignals(SourceFile(split, snr)))
    else
      var x := store.signals[SourceFile(split, snr)];
      var y := store.labels[split];
      var scaled :- ScaleBatch(x);
      if |y| != x.shape.batch then Err(SizeMismatch)
      else if batchSize <= 0 then Err(InvalidBatchSize)
      else Ok(Loader(Dataset(scaled, y), batchSize, split == Train, true))
  }

  /** With an SNR given the signals come from the noisy file, and the labels
      are those of the clean split. */
  lemma NoisyLoaderKeepsCleanLabels(store: Store, batchSize: int, split: Split, snr: int)
    requires LoadDataAndLabel(store, batchSize, split, Some(snr)).Ok?
    ensures LoadDataAndLabel(store, batchSize, split, Some(snr)).value.dataset.labels == store.labels[split]
    ensures LoadDataAndLabel(store, batchSize, split, Some(snr)).value.dataset.signals ==
              ScaleBatch(store.signals[NoisySignals(split, snr)]).value
    ensures LoadDataAndLabel(store, batchSize, split, None).Ok? ==>
              LoadDataAndLabel(store, batchSize, split, None).value.dataset.labels ==
              LoadDataAndLabel(store, batchSize, split, Some(snr)).value.dataset.labels
  {
  }

  /* ----------------------------------------------------------------------- */
  /* Training subset                                                          */
  /* ----------------------------------------------------------------------- */

  /** Python's `int(x)` for a float: truncation toward zero. */
  function TruncToInt(x: real): (r: int)
    ensures x >= 0.0 ==> r >= 0 && r as real <= x < r as real + 1.0
    ensures x < 0.0 ==> r <= 0 && r as real - 1.0 < x <= r as real
  {
    if x >= 0.0 then x.Floor else -((-x).Floor)
  }

  /** Python's `s[:stop]`: a negative `stop` counts from the end, and a stop
      past either end is clamped. */
  function PrefixSlice<T>(s: seq<T>, stop: int): (r: seq<T>)
    ensures 0 <= stop <= |s| ==> r == s[..stop]
    ensures stop > |s| ==> r == s
    ensures -(|s| as int) <= stop < 0 ==> r == s[..|s| + stop]
    ensures stop < -(|s| as int) ==> r == []
    ensures |r| <= |s| && forall i :: 0 <= i < |r| ==> r[i] == s[i]
  {
    if stop >= 0 then (if stop <= |s| then s[..stop] else s)
    else if |s| + stop >= 0 then s[..|s| + stop]
    else []
  }

  /** `p * n`, accumulated as `n` additions of `p`, so that its bounds are
      linear facts; `PortionIsProduct` relates it to the product. */
  function Portion(p: real, n: nat): real
  {
    if n == 0 then 0.0 else Portion(p, n - 1) + p
  }

  lemma {:induction false} PortionIsProduct(p: real, n: nat)
    ensures Portion(p, n) == p * n as real
  {
    if n > 0 {
      PortionIsProduct(p, n - 1);
      assert p * (n - 1) as real + p == p * n as real;
    }
  }

  /** A fraction in [0, 1) of a count lies in [0, count], below it when the
      count is positive. */
  lemma {:induction false} PortionBelowWhole(p: real, n: nat)
    requires 0.0 <= p < 1.0
    ensures 0.0 <= Portion(p, n) <= n as real
    ensures n > 0 ==> Portion(p, n) < n as real
  {
    if n > 0 {
      PortionBelowWhole(p, n - 1);
    }
  }

  /** `int(subset_percentage * len(dataset))`. */
  function SubsetSize(p: real, n: nat): int
  {
    TruncToInt(Portion(p, n))
  }

  /** A fraction in [0, 1) keeps at most the whole set, and fewer than all of a
      non-empty set. */
  lemma SubsetSizeBounds(p: real, n: nat)
    requires 0.0 <= p < 1.0
    ensures 0 <= SubsetSize(p, n) <= n
    ensures n > 0 ==> SubsetSize(p, n) < n
  {
    PortionBelowWhole(p, n);
    TruncWithin(Portion(p, n), n);
  }

  /** Truncating a value of [0, m] gives an integer of [0, m], below m when
      the value is. */
  lemma TruncWithin(x: real, m: nat)
    requires 0.0 <= x <= m as real
    ensures 0 <= TruncToInt(x) <= m
    ensures x < m as real ==> TruncToInt(x) < m
  {
    var r := TruncToInt(x);
    IntOrderFromReal(r, m);
    if x < m as real {
      StrictIntOrderFromReal(r, m);
    }
  }

  lemma IntOrderFromReal(a: int, b: int)
    requires a as real <= b as real
    ensures a <= b
  {
  }

  lemma StrictIntOrderFromReal(a: int, b: int)
    requires a as real < b as real
    ensures a < b
  {
  }

  /** What `torch.randperm(n)` returns: each of 0 .. n-1 exactly once. */
  predicate IsPermutation(perm: seq<nat>, n: nat)
  {
    && |perm| == n
    && (forall i :: 0 <= i < n ==> perm[i] < n)
    && (forall i, j :: 0 <= i < j < n ==> perm[i] != perm[j])
  }

  /** A stand-in for `torch.randperm`: a permutation for every length. */
  ghost predicate RandomPermutations(randperm: nat -> seq<nat>)
  {
    forall n :: IsPermutation(randperm(n), n)
  }

  /** `torch.randperm(n)[:subset_size]`. */
  function SubsetIndices(perm: seq<nat>, p: real): (r: seq<nat>)
    ensures |r| <= |perm| && forall i :: 0 <= i < |r| ==> r[i] == perm[i]
  {
    PrefixSlice(perm, SubsetSize(p, |perm|))
  }

  /** The chosen indices are distinct and address samples of the dataset; with
      a fraction in [0, 1) there are exactly `int(p * n)` of them. */
  lemma SubsetIndicesValid(perm: seq<nat>, n: nat, p: real)
    requires IsPermutation(perm, n)
    ensures var r := SubsetIndices(perm, p);
            && |r| <= n
            && (forall i :: 0 <= i < |r| ==> r[i] < n)
            && (forall i, j :: 0 <= i < j < |r| ==> r[i] != r[j])
    ensures 0.0 <= p < 1.0 ==> |SubsetIndices(perm, p)| == SubsetSize(p, n)
  {
    if 0.0 <= p < 1.0 {
      SubsetSizeBounds(p, n);
    }
  }

  /** `torch.utils.data.Subset`: the samples at the given indices, in order. */
  function Subset(d: Dataset, indices: seq<nat>): (r: Dataset)
    requires |d.labels| == d.signals.shape.batch
    requires forall i :: 0 <= i < |indices| ==> indices[i] < |d.labels|
    ensures r.signals.shape == Shape(|indices|, d.signals.shape.rows, d.signals.shape.cols)
    ensures |r.labels| == |indices|
    ensures forall k :: 0 <= k < |indices| ==>
              r.signals.data[k] == d.signals.data[indices[k]] && r.labels[k] == d.labels[indices[k]]
  {
    var s := d.signals.shape;
    var data := seq(|indices|, k requires 0 <= k < |indices| => d.signals.data[indices[k]]);
    Dataset(Tensor(Shape(|indices|, s.rows, s.cols), data),
            seq(|indices|, k requires 0 <= k < |indices| => d.labels[indices[k]]))
  }

  /** The loader configuration `_get_radio_data_loaders` reads. */
  datatype RadioConfig = RadioConfig(batchSize: int, trainSubsetPercentage: real)

  /** `_get_radio_data_loaders`: the train, validation and test loaders, in
      that order of loading. A fraction below 1 replaces the training loader
      by one over the first `int(p * n)` samples of a random permutation,
      shuffled and dropping the last incomplete batch; a shuffling loader
      refuses a subset without samples, before the other splits are read. */
  function GetRadioDataLoaders(store: Store, config: RadioConfig, randperm: nat -> seq<nat>): (r: Result<(Loader, Loader, Loader), RadioError>)
    requires RandomPermutations(randperm)
    ensures r.Ok? <==>
              && LoadDataAndLabel(store, config.batchSize, Train, None).Ok?
              && (config.trainSubsetPercentage < 1.0 ==>
                    var n := |LoadDataAndLabel(store, config.batchSize, Train, None).value.dataset.labels|;
                    |SubsetIndices(randperm(n), config.trainSubsetPercentage)| > 0)
              && LoadDataAndLabel(store, config.batchSize, Val, None).Ok?
              && LoadDataAndLabel(store, config.batchSize, Test, None).Ok?
    ensures LoadDataAndLabel(store, config.batchSize, Train, None).Err? ==>
              r == Err(LoadDataAndLabel(store, config.batchSize, Train, None).error)
    ensures LoadDataAndLabel(store, config.batchSize, Train, None).Ok? && config.trainSubsetPercentage < 1.0 ==>
              var n := |LoadDataAndLabel(store, config.batchSize, Train, None).value.dataset.labels|;
              |SubsetIndices(randperm(n), config.trainSubsetPercentage)| == 0 ==> r == Err(EmptySubset)
    ensures r.Ok? ==>
              && r.value.1 == LoadDataAndLabel(store, config.batchSize, Val, None).value
              && r.value.2 == LoadDataAndLabel(store, config.batchSize, Test, None).value
              && r.value.0.shuffle && r.value.0.dropLast && r.value.0.batchSize == config.batchSize
    ensures r.Ok? && config.trainSubsetPercentage >= 1.0 ==>
              r.value.0 == LoadDataAndLabel(store, config.batchSize, Train, None).value
    ensures r.Ok? && config.trainSubsetPercentage < 1.0 ==>
              var train := LoadDataAndLabel(store, config.batchSize, Train, None).value.dataset;
              r.value.0.dataset == Subset(train, SubsetIndices(randperm(|train.labels|), config.trainSubsetPercentage))
    ensures r.Ok? && 0.0 <= config.trainSubsetPercentage < 1.0 ==>
              |r.value.0.dataset.labels| ==
                SubsetSize(config.trainSubsetPercentage, |LoadDataAndLabel(store, config.batchSize, Train, None).value.dataset.labels|)
  {
    var train :- LoadDataAndLabel(store, config.batchSize, Train, None);
    var p := config.trainSubsetPercentage;
    var trainLoader :-
      if p < 1.0 then
        var n := |train.dataset.labels|;
        var indices := SubsetIndices(randperm(n), p);
        SubsetIndicesValid(randperm(n), n, p);
        if |indices| == 0 then Err(EmptySubset)
        else Ok(Loader(Subset(train.dataset, indices), config.batchSize, true, true))
      else Ok(train);
    var val :- LoadDataAndLabel(store, config.batchSize, Val, None);
    var test :- LoadDataAndLabel(store, config.batchSize, Test, None);
    Ok((trainLoader, val, test))
  }

  /** `_get_noisy_test_data_loader`: the test split with the noisy signals of
      the given SNR. */
  function GetNoisyTestDataLoader(store: Store, config: RadioConfig, snr: int): (r: Result<Loader, RadioError>)
    ensures r.Ok? <==>
              && CleanSignals(Test) in store.signals && Test in store.labels
              && NoisySignals(Test, snr) in store.signals
              && ScaleBatch(store.signals[NoisySignals(Test, snr)]).Ok?
              && |store.labels[Test]| == store.signals[NoisySignals(Test, snr)].shape.batch
              && config.batchSize > 0
    ensures r.Ok? ==>
              && !r.value.shuffle && r.value.dropLast && r.value.batchSize == config.batchSize
              && r.value.dataset.labels == store.labels[Test]
              && r.value.dataset.signals == ScaleBatch(store.signals[NoisySignals(Test, snr)]).value
  {
    LoadDataAndLabel(store, config.batchSize, Test, Some(snr))
  }
}
