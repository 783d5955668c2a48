/** `System_torch.init_optimizer`: which optimizer factory is used and which
    keyword arguments are passed on to it. */
module Optimizers {

  /** A value of the `optimizer_kwargs` dictionary. `FactoryV` stands for an
      optimizer class such as `torch.optim.Adam`. */
  datatype KwValue = NoneV | FactoryV(name: string) | NumV(r: real) | BoolV(b: bool) | StrV(s: string)

  /** The optimizer `init_optimizer` constructs: `factory(parameters, **kwargs)`. */
  datatype OptimizerSetup = OptimizerSetup(factory: KwValue, kwargs: map<string, KwValue>)

  const Adam: KwValue := FactoryV("Adam")

  /** The factory is `kwargs['optimizer']` when that is present and not None,
      otherwise Adam; the key is removed from a copy of the arguments only in
      the first case, so a present `optimizer=None` is passed on to Adam. */
  function InitOptimizer(kwargs: map<string, KwValue>): (r: OptimizerSetup)
    ensures r.factory != NoneV
    ensures "optimizer" in kwargs && kwargs["optimizer"] != NoneV ==> r.factory == kwargs["optimizer"]
    ensures !("optimizer" in kwargs && kwargs["optimizer"] != NoneV) ==> r.factory == Adam && r.kwargs == kwargs
    ensures "optimizer" in r.kwargs ==> r.kwargs["optimizer"] == NoneV
    ensures forall k :: k != "optimizer" ==> (k in r.kwargs <==> k in kwargs)
    ensures forall k :: k in r.kwargs ==> k in kwargs && r.kwargs[k] == kwargs[k]
  {
    if "optimizer" in kwargs && kwargs["optimizer"] != NoneV then
      OptimizerSetup(kwargs["optimizer"], kwargs - {"optimizer"})
    else
      OptimizerSetup(Adam, kwargs)
  }
}
