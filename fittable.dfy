/** `System_fittable.fit`: on the first call the normaliser is fitted on
    the data (when the system uses one) and the input and output dimensions
    are taken from it; every call then hands the normalised data to the
    subclass's `_fit` and, if that returns, marks the system fitted, which
    freezes the norm for later calls. */
module Fittable {
  import opened Checkpoint
  import opened Session

  /** What the surroundings supply: `self.norm.fit(sys_data)`,
      `norm.transform(sys_data)` and whether the subclass's `_fit` raises on
      the normalised data (the base class always raises
      `NotImplementedError`). What `_fit` does to the model otherwise is not
      part of this model. */
  datatype FitHooks = FitHooks(
    normFit: SysData -> Norm,
    transform: (Norm, SysData) -> SysData,
    innerRaises: SysData -> bool)

  /** The attributes `fit` reads and writes. */
  datatype FitState = FitState(useNorm: bool, norm: Norm, nu: int, ny: int, fitted: bool)

  /** Lines 21-29: the state after one call and whether `_fit` raised. */
  function FitOnce(s: FitState, data: SysData, h: FitHooks): (r: (FitState, bool))
    ensures r.0.useNorm == s.useNorm
    ensures r.0.norm == if !s.fitted && s.useNorm then h.normFit(data) else s.norm
    ensures !s.fitted ==> r.0.nu == data.nu && r.0.ny == data.ny
    ensures s.fitted ==> r.0.nu == s.nu && r.0.ny == s.ny
    ensures r.1 == h.innerRaises(h.transform(r.0.norm, data))
    ensures r.0.fitted <==> s.fitted || !r.1
  {
    var shaped := if s.fitted then s
                  else s.(norm := if s.useNorm then h.normFit(data) else s.norm, nu := data.nu, ny := data.ny);
    var raised := h.innerRaises(h.transform(shaped.norm, data));
    (shaped.(fitted := shaped.fitted || !raised), raised)
  }

  /** Once a call returned normally, no later call changes the norm or the
      dimensions, whatever data it is given and whether it raises. */
  lemma {:induction false} FrozenAfterFit(s: FitState, d1: SysData, d2: SysData, h: FitHooks)
    requires !FitOnce(s, d1, h).1
    ensures var t := FitOnce(s, d1, h).0;
      var u := FitOnce(t, d2, h).0;
      u.fitted && u.norm == t.norm && u.nu == t.nu && u.ny == t.ny
  {
    var t := FitOnce(s, d1, h).0;
    assert t.fitted;
  }

  /** A first call whose `_fit` raised still fitted the norm and took the
      dimensions, but the system stays unfitted, so the next call fits the
      norm again, on its own data. */
  lemma {:induction false} RefitAfterRaise(s: FitState, d1: SysData, d2: SysData, h: FitHooks)
    requires !s.fitted && FitOnce(s, d1, h).1
    ensures var t := FitOnce(s, d1, h).0;
      && !t.fitted && t.nu == d1.nu && t.ny == d1.ny
      && FitOnce(t, d2, h).0.norm == (if s.useNorm then h.normFit(d2) else s.norm)
      && FitOnce(t, d2, h).0.nu == d2.nu && FitOnce(t, d2, h).0.ny == d2.ny
  {
    var t := FitOnce(s, d1, h).0;
    assert !t.fitted && t.useNorm == s.useNorm;
    assert !s.useNorm ==> t.norm == s.norm;
  }

  /** A call that returns normally, repeated on the same data, changes
      nothing further. */
  lemma {:induction false} FitSettles(s: FitState, data: SysData, h: FitHooks)
    requires !FitOnce(s, data, h).1
    ensures FitOnce(FitOnce(s, data, h).0, data, h) == FitOnce(s, data, h)
  {
    var t := FitOnce(s, data, h).0;
    assert t.fitted;
    assert FitOnce(t, data, h).0 == t;
  }

  /** A `System_fittable` instance. */
  class FittableSystem {
    const useNorm: bool
    var norm: Norm
    var nu: int
    var ny: int
    var fitted: bool

    /** The value of the attributes `fit` touches. */
    function State(): FitState
      reads this
    {
      FitState(useNorm, norm, nu, ny, fitted)
    }

    /** A system in the given state. */
    constructor(s: FitState)
      ensures State() == s
    {
      useNorm := s.useNorm;
      norm := s.norm;
      nu := s.nu;
      ny := s.ny;
      fitted := s.fitted;
    }

    /** Lines 21-29; `raised` is whether `_fit` raised, in which case
        `self.fitted = True` is not reached. */
    method Fit(data: SysData, h: FitHooks) returns (raised: bool)
      modifies this
      ensures (State(), raised) == FitOnce(old(State()), data, h)
    {
      if !fitted {
        if useNorm {
          norm := h.normFit(data);
        }
        nu := data.nu;
        ny := data.ny;
      }
      raised := h.innerRaises(h.transform(norm, data));
      if !raised {
        fitted := true;
      }
    }
  }
}
