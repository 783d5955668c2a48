/** The stateful parts of a `System_torch`: its `nn.Module` attributes (the
    networks made by `init_nets`) and its `optim.Optimizer` attribute.

    The source finds them by scanning `dir(self)`; here they are an explicit
    map from attribute name to component. A component's state dictionary maps
    parameter names to (flattened) tensors. */
module Components {
  import opened Optimizers

  type StateDict = map<string, seq<real>>

  datatype Kind = Module | Optimizer(setup: OptimizerSetup)

  datatype Device = Cpu | Cuda

  /** `training` and `device` only mean something for modules: `eval`,
      `train` and `to_device` touch `nn.Module` attributes only. */
  datatype Component = Component(kind: Kind, state: StateDict, training: bool, device: Device)

  /** A stored dictionary fits a live one: same parameter names, same sizes. */
  ghost predicate Matches(live: StateDict, stored: StateDict) {
    live.Keys == stored.Keys && forall p :: p in live ==> |live[p]| == |stored[p]|
  }

  /** What `attribute.load_state_dict(stored)` does. */
  datatype Restore =
    | Loaded(state: StateDict)  // the stored tensors are copied in
    | Caught                    // ValueError: the source prints and skips the component
    | Raised                    // RuntimeError: not caught by the source

  /** A matching dictionary is loaded. On a mismatch an optimizer raises
      ValueError, which `_load_system_torch` catches, while a module's strict
      `load_state_dict` raises RuntimeError, which it does not. */
  function RestoreState(c: Component, stored: StateDict): (r: Restore)
    ensures r.Loaded? <==> Matches(c.state, stored)
    ensures r.Loaded? ==> r.state == stored
    ensures r.Caught? <==> !Matches(c.state, stored) && c.kind.Optimizer?
  {
    if c.state.Keys == stored.Keys && forall p :: p in c.state ==> |c.state[p]| == |stored[p]| then
      Loaded(stored)
    else if c.kind.Optimizer? then
      Caught
    else
      Raised
  }

  /** Every module put in training (`t`) or evaluation (`!t`) mode. */
  function WithTraining(cs: map<string, Component>, t: bool): (r: map<string, Component>)
    ensures r.Keys == cs.Keys
    ensures forall k :: k in cs ==>
      r[k].kind == cs[k].kind && r[k].state == cs[k].state && r[k].device == cs[k].device
    ensures forall k :: k in cs && cs[k].kind.Module? ==> r[k].training == t
    ensures forall k :: k in cs && !cs[k].kind.Module? ==> r[k] == cs[k]
  {
    map k | k in cs :: if cs[k].kind.Module? then cs[k].(training := t) else cs[k]
  }

  /** Every module moved to device `d`. */
  function OnDevice(cs: map<string, Component>, d: Device): (r: map<string, Component>)
    ensures r.Keys == cs.Keys
    ensures forall k :: k in cs ==>
      r[k].kind == cs[k].kind && r[k].state == cs[k].state && r[k].training == cs[k].training
    ensures forall k :: k in cs && cs[k].kind.Module? ==> r[k].device == d
    ensures forall k :: k in cs && !cs[k].kind.Module? ==> r[k] == cs[k]
  {
    map k | k in cs :: if cs[k].kind.Module? then cs[k].(device := d) else cs[k]
  }
}
