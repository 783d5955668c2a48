/** The batch scheduler of `System_torch.fit` and `fit_val_multiprocess`.

    The requested batch size is clamped to the number of training samples,
    the sample indices are shuffled once per epoch, and the loop
    `for i in range(B, N + 1, B): ids_batch = ids[i - B:i]` cuts them into
    consecutive windows of B indices; a trailing partial window is dropped. */
module Batching {

  /** `min(batch_size, N_training_samples)`. */
  function EffectiveBatchSize(batchSize: nat, n: nat): (b: nat)
    ensures b <= batchSize && b <= n
    ensures b == batchSize || b == n
  {
    if batchSize < n then batchSize else n
  }

  /** `N_training_samples // batch_size`: the number of optimisation steps
      per epoch. */
  function StepsPerEpoch(n: nat, b: nat): (k: nat)
    requires b >= 1
    ensures k * b <= n < (k + 1) * b
  {
    n / b
  }

  /** The end points of `range(b, n + 1, b)`: the k-th window ends at (k+1)*b. */
  lemma WindowEndInside(k: nat, b: nat, n: nat)
    requires b >= 1 && k < n / b
    ensures k * b + b <= n
  {
    var q := n / b;
    assert q * b <= n;
    assert k + 1 <= q;
    MulMono(k + 1, q, b);
    assert (k + 1) * b == k * b + b;
  }

  /** The loop `for i in range(b, n + 1, b)` runs while the next window
      fits: window `k` ends inside the samples exactly when `k < n // b`. */
  lemma WindowFits(k: nat, b: nat, n: nat)
    requires b >= 1
    ensures k * b + b <= n <==> k < StepsPerEpoch(n, b)
  {
    var q := StepsPerEpoch(n, b);
    if k < q {
      WindowEndInside(k, b, n);
    } else {
      MulMono(q + 1, k + 1, b);
      assert (k + 1) * b == k * b + b;
    }
  }

  lemma MulMono(x: nat, y: nat, b: nat)
    requires x <= y
    ensures x * b <= y * b
  {
  }

  /** The batches one epoch visits: the window ending at `i = (k+1)*b` is
      `ids[i - b:i]`, for each `i` in `range(b, |ids| + 1, b)`. */
  function Windows<T>(ids: seq<T>, b: nat): (w: seq<seq<T>>)
    requires b >= 1
  {
    seq(|ids| / b, k requires 0 <= k < |ids| / b =>
      WindowEndInside(k, b, |ids|); ids[k * b..k * b + b])
  }

  /** The loop yields exactly `N // B` windows and the k-th one is the slice
      `ids[k*B:(k+1)*B]` of B indices. */
  lemma WindowsShape<T>(ids: seq<T>, b: nat)
    requires b >= 1
    ensures |Windows(ids, b)| == StepsPerEpoch(|ids|, b)
    ensures forall k :: 0 <= k < |Windows(ids, b)| ==>
      k * b + b <= |ids| && Windows(ids, b)[k] == ids[k * b..k * b + b] && |Windows(ids, b)[k]| == b
  {
    forall k | 0 <= k < |Windows(ids, b)|
      ensures k * b + b <= |ids|
    {
      WindowEndInside(k, b, |ids|);
    }
  }

  /** Concatenation of a sequence of windows. */
  function Flatten<T>(ws: seq<seq<T>>): seq<T> {
    if ws == [] then [] else Flatten(ws[..|ws| - 1]) + ws[|ws| - 1]
  }

  /** Together the windows are exactly the prefix `ids[:(N // B) * B]`. */
  lemma {:induction false} WindowsCover<T>(ids: seq<T>, b: nat)
    requires b >= 1
    ensures Flatten(Windows(ids, b)) == ids[..StepsPerEpoch(|ids|, b) * b]
  {
    WindowsShape(ids, b);
    var w := Windows(ids, b);
    var m := |w|;
    CoverPrefix(ids, b, w, m);
    assert w[..m] == w;
  }

  lemma {:induction false} CoverPrefix<T>(ids: seq<T>, b: nat, w: seq<seq<T>>, m: nat)
    requires b >= 1 && w == Windows(ids, b) && m <= |w|
    ensures m * b <= |ids|
    ensures Flatten(w[..m]) == ids[..m * b]
  {
    if m == 0 {
      assert w[..0] == [];
    } else {
      CoverPrefix(ids, b, w, m - 1);
      WindowStart(m, b);
      var lo := (m - 1) * b;
      WindowAt(ids, b, m - 1);
      FlattenSnoc(w, m);
      PrefixJoin(ids, lo, lo + b);
    }
  }

  /** The window before the m-th end point starts `b` before it. */
  lemma WindowStart(m: nat, b: nat)
    requires m >= 1
    ensures 0 <= (m - 1) * b && (m - 1) * b + b == m * b
  {
  }

  /** The k-th window, on its own. */
  lemma WindowAt<T>(ids: seq<T>, b: nat, k: nat)
    requires b >= 1 && k < |ids| / b
    ensures k * b + b <= |ids| && Windows(ids, b)[k] == ids[k * b..k * b + b]
  {
    WindowEndInside(k, b, |ids|);
  }

  /** Flattening one more window appends it. */
  lemma FlattenSnoc<T>(w: seq<seq<T>>, m: nat)
    requires 1 <= m <= |w|
    ensures Flatten(w[..m]) == Flatten(w[..m - 1]) + w[m - 1]
  {
    assert w[..m][..m - 1] == w[..m - 1];
  }

  /** A prefix followed by the next slice is the longer prefix. */
  lemma PrefixJoin<T>(ids: seq<T>, lo: nat, hi: nat)
    requires lo <= hi <= |ids|
    ensures ids[..lo] + ids[lo..hi] == ids[..hi]
  {
  }

  /** No index repeats in `s`. */
  ghost predicate Distinct<T>(s: seq<T>) {
    forall p, q :: 0 <= p < q < |s| ==> s[p] != s[q]
  }

  /** A position of `ids`, inside the k-th window, that holds `x`. */
  lemma SlotOfWindow<T>(ids: seq<T>, b: nat, k: nat, x: T) returns (p: nat)
    requires b >= 1 && k < |Windows(ids, b)| && x in Windows(ids, b)[k]
    ensures k * b <= p < k * b + b && p < |ids| && ids[p] == x
  {
    WindowsShape(ids, b);
    var w := Windows(ids, b)[k];
    var j :| 0 <= j < |w| && w[j] == x;
    p := k * b + j;
  }

  /** Over distinct indices, two different windows of an epoch share no sample. */
  lemma WindowsDisjoint<T>(ids: seq<T>, b: nat, j: nat, k: nat, x: T)
    requires b >= 1 && Distinct(ids)
    requires j < k < |Windows(ids, b)|
    requires x in Windows(ids, b)[j]
    ensures x !in Windows(ids, b)[k]
  {
    var p := SlotOfWindow(ids, b, j, x);
    MulMono(j + 1, k, b);
    assert (j + 1) * b == j * b + b;
    if x in Windows(ids, b)[k] {
      var q := SlotOfWindow(ids, b, k, x);
      assert false;
    }
  }

  /** The trailing `N % B` samples of a shuffled epoch are never visited. */
  lemma LeftoverUnused<T>(ids: seq<T>, b: nat, p: nat, k: nat)
    requires b >= 1 && Distinct(ids)
    requires StepsPerEpoch(|ids|, b) * b <= p < |ids|
    requires k < |Windows(ids, b)|
    ensures ids[p] !in Windows(ids, b)[k]
  {
    MulMono(k + 1, |ids| / b, b);
    assert (k + 1) * b == k * b + b;
    if ids[p] in Windows(ids, b)[k] {
      var q := SlotOfWindow(ids, b, k, ids[p]);
      assert false;
    }
  }

  /** A batch size at least the number of samples is clamped to it, and the
      epoch then takes exactly one step, on all samples. */
  lemma ClampedToOneStep<T>(ids: seq<T>, batchSize: nat)
    requires 1 <= |ids| <= batchSize
    ensures EffectiveBatchSize(batchSize, |ids|) == |ids|
    ensures StepsPerEpoch(|ids|, |ids|) == 1
    ensures Windows(ids, |ids|) == [ids]
  {
    WindowsShape(ids, |ids|);
    assert Windows(ids, |ids|)[0] == ids[0..|ids|] == ids;
  }
}
