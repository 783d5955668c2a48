/** Losses and validation scores of the fit engine.

    The engine only ever compares scores and keeps a running minimum, so a
    score is an ordered value: a finite real or +infinity (`float('inf')`,
    the value `bestfit` starts from). NaN is not modelled. */
module Scores {

  datatype Score = Fin(v: real) | PosInf

  /** Python's `a < b` on the float values. */
  predicate Below(a: Score, b: Score) {
    match a
    case PosInf => false
    case Fin(x) => b.PosInf? || x < b.v
  }

  /** Python's `a <= b` on the float values (the order is total). */
  predicate AtMost(a: Score, b: Score) {
    !Below(b, a)
  }

  /** The smaller of two scores. */
  function Min(a: Score, b: Score): (m: Score)
    ensures m == a || m == b
    ensures AtMost(m, a) && AtMost(m, b)
  {
    if Below(b, a) then b else a
  }

  /** The value a running minimum holds after starting at `start` and being
      offered every element of `s` in turn. */
  function RunningMin(start: Score, s: seq<Score>): (m: Score)
    ensures m == start || m in s
    ensures AtMost(m, start)
    ensures forall i :: 0 <= i < |s| ==> AtMost(m, s[i])
  {
    if s == [] then start else Min(RunningMin(start, s[..|s| - 1]), s[|s| - 1])
  }

  /** Offering one more score extends the running minimum by one `Min`. */
  lemma RunningMinSnoc(start: Score, s: seq<Score>, x: Score)
    ensures RunningMin(start, s + [x]) == Min(RunningMin(start, s), x)
  {
    assert (s + [x])[..|s|] == s;
  }

  /** Starting from `Min(start, x)` is the same as offering `x` first. */
  lemma {:induction false} RunningMinFirst(start: Score, x: Score, s: seq<Score>)
    ensures RunningMin(Min(start, x), s) == RunningMin(start, [x] + s)
  {
    if s == [] {
      assert ([x] + s)[..0] == [];
    } else {
      var init := s[..|s| - 1];
      RunningMinFirst(start, x, init);
      assert ([x] + s)[..|s|] == [x] + init;
    }
  }

  /** Both comparisons the engine uses improve on `best` exactly when they
      change it: `best > x` (synchronous path) and `best >= x` (worker)
      leave the same value behind, namely `Min(best, x)`. */
  lemma StrictAndWeakUpdatesAgree(best: Score, x: Score)
    ensures (if Below(x, best) then x else best) == Min(best, x)
    ensures (if AtMost(x, best) then x else best) == Min(best, x)
  {
  }
}
