/** The calibration controller `Calibration` of quanto/calibrate.py: the two
    module hooks that re-estimate a quantized module's activation scales, and
    the scope that registers and removes them. */
module Calibrate {
  import opened Tensors
  import opened Scales

  /** The activation quantization type of a module (`module.activations`). */
  datatype QType = QType(name: string)

  /** A quantized tensor: its integer data and the `_scale` it was quantized with. */
  datatype QTensor = QTensor(data: seq<int>, scale: Tensor)

  /** What a module receives or produces: a plain tensor or a quantized one. */
  datatype Value = Plain(tensor: Tensor) | Quantized(qtensor: QTensor)

  /** The `axis` argument of `absmax_scale`: left at its default, or `axis=None`. */
  datatype Axis = DefaultAxis | NoAxis

  /** The code the hooks call whose bodies are not part of this model:
      `absmax_scale(base, qtype, axis)` and `QTensor.dequantize()`. */
  datatype Kernels = Kernels(
    absmaxScale: (Tensor, QType, Axis) -> Tensor,
    dequantize: QTensor -> Tensor)

  /** A module's forward computation, given the module's current input scale
      and output scale and the first positional input. */
  type Forward = (Tensor, Tensor, Value) -> Value

  /** What a hook hands back to the framework: Python's `None` (the original
      input or output stands), a replacement value, or a raised exception. */
  datatype HookResult = ReturnsNone | Returns(value: Value) | Raises(error: Error)

  /** A module of the model being calibrated. Only the input and output
      scales change during calibration; the rest is fixed. */
  class Module {
    const isQuantized: bool          // `isinstance(module, QModuleMixin)`
    const activations: Option<QType> // `None` when activations are not quantized
    const qforward: Forward          // the raw quantized computation
    const forward: Forward           // the full forward pass, honouring the scales
    var inputScale: Tensor
    var outputScale: Tensor

    constructor (isQuantized: bool, activations: Option<QType>, qforward: Forward, forward: Forward,
                 inputScale: Tensor, outputScale: Tensor)
      ensures this.isQuantized == isQuantized && this.activations == activations
      ensures this.qforward == qforward && this.forward == forward
      ensures this.inputScale == inputScale && this.outputScale == outputScale
    {
      this.isQuantized := isQuantized;
      this.activations := activations;
      this.qforward := qforward;
      this.forward := forward;
      this.inputScale := inputScale;
      this.outputScale := outputScale;
    }

    /** The guard of both hooks: a quantized module with quantized activations. */
    predicate Calibrates() {
      isQuantized && activations.Some?
    }
  }

  /** The tensor an output estimate is taken from: a quantized output is
      dequantized first. */
  function AsPlain(v: Value, kernels: Kernels): Tensor {
    match v
    case Plain(t) => t
    case Quantized(q) => kernels.dequantize(q)
  }

  /** Which of the controller's two hooks a registered handle stands for. */
  datatype HookKind = InputHook | OutputHook

  /** The calibration controller. The framework's global hook registry is
      represented by `hooks`, the handles this controller has registered and
      not yet removed; `modeDepth` counts how often the controller's dispatch
      mode is on the mode stack (0 is INACTIVE). */
  class Calibration {
    const momentum: real
    var modeDepth: nat
    var preHandle: Option<nat>
    var postHandle: Option<nat>
    var hooks: map<nat, HookKind>
    var nextHandle: nat

    /** Every registered handle was issued by the registry. */
    ghost predicate HandlesIssued()
      reads this
    {
      forall h :: h in hooks ==> h < nextHandle
    }

    ghost predicate Valid()
      reads this
    {
      HandlesIssued() &&
      (preHandle.Some? <==> postHandle.Some?) &&
      (modeDepth > 0 ==> preHandle.Some?)
    }

    /** `Calibration(momentum=0.9)`. */
    constructor (momentum: real := 0.9)
      ensures Valid()
      ensures this.momentum == momentum
      ensures modeDepth == 0 && hooks == map[] && nextHandle == 0
      ensures preHandle == None && postHandle == None
    {
      this.momentum := momentum;
      modeDepth := 0;
      preHandle, postHandle := None, None;
      hooks := map[];
      nextHandle := 0;
    }

    /** `__torch_function__`: calls `func` with the positional arguments and
        the keyword arguments, an absent `kwargs` being an empty one. */
    function TorchFunction<A, K, R>(func: (seq<A>, map<string, K>) -> R, args: seq<A>,
                                    kwargs: Option<map<string, K>>): R
    {
      func(args, if kwargs.Some? then kwargs.value else map[])
    }

    /** Dispatch interception is a pass-through: the result is the call's own. */
    lemma TorchFunctionPassesThrough<A, K, R>(func: (seq<A>, map<string, K>) -> R, args: seq<A>,
                                              kwargs: map<string, K>)
      ensures TorchFunction(func, args, Some(kwargs)) == func(args, kwargs)
      ensures TorchFunction(func, args, None) == func(args, map[])
    {
    }

    /** `register_module_forward_pre_hook` / `register_module_forward_hook`:
        a new handle, not registered before, now stands for `kind`. */
    method Register(kind: HookKind) returns (handle: nat)
      requires HandlesIssued()
      modifies this`hooks, this`nextHandle
      ensures HandlesIssued()
      ensures handle == old(nextHandle) && handle !in old(hooks)
      ensures hooks == old(hooks)[handle := kind] && nextHandle == old(nextHandle) + 1
    {
      handle := nextHandle;
      hooks := hooks[handle := kind];
      nextHandle := nextHandle + 1;
    }

    /** `RemovableHandle.remove()`: the handle is no longer registered;
        removing it again does nothing. */
    method Remove(handle: nat)
      requires HandlesIssued()
      modifies this`hooks
      ensures HandlesIssued()
      ensures hooks == old(hooks) - {handle}
    {
      hooks := hooks - {handle};
    }

    /** `__enter__`: push the dispatch mode, then register the input hook,
        then the output hook. Entering again before leaving overwrites the
        stored handles, so the earlier pair stays registered. */
    method Enter()
      requires Valid()
      modifies this
      ensures Valid()
      ensures modeDepth == old(modeDepth) + 1
      ensures old(nextHandle) !in old(hooks) && old(nextHandle) + 1 !in old(hooks)
      ensures preHandle == Some(old(nextHandle)) && postHandle == Some(old(nextHandle) + 1)
      ensures hooks == old(hooks)[old(nextHandle) := InputHook][old(nextHandle) + 1 := OutputHook]
      ensures nextHandle == old(nextHandle) + 2
    {
      modeDepth := modeDepth + 1;
      var pre := Register(InputHook);
      preHandle := Some(pre);
      var post := Register(OutputHook);
      postHandle := Some(post);
    }

    /** `__exit__`: pop the dispatch mode, then remove the input hook and the
        output hook. With the mode not on the stack the pop raises and
        nothing else happens. */
    method Exit() returns (raised: Option<Error>)
      requires Valid()
      modifies this
      ensures Valid()
      ensures preHandle == old(preHandle) && postHandle == old(postHandle)
      ensures nextHandle == old(nextHandle)
      ensures old(modeDepth) == 0 ==>
        raised == Some(EmptyModeStack) && modeDepth == 0 && hooks == old(hooks)
      ensures old(modeDepth) > 0 ==>
        raised == None && modeDepth == old(modeDepth) - 1 &&
        hooks == old(hooks) - {old(preHandle).value, old(postHandle).value}
    {
      if modeDepth == 0 {
        return Some(EmptyModeStack);
      }
      modeDepth := modeDepth - 1;
      Remove(preHandle.value);
      Remove(postHandle.value);
      assert hooks == old(hooks) - {preHandle.value, postHandle.value};
      raised := None;
    }

    /** `calibrate_input`, the pre-hook. For a module it calibrates, a
        quantized first input makes the input scale the maximum of that
        input's scale; a plain first input is estimated with `absmax_scale`
        and smoothed into the input scale with this hook's own `momentum`.
        The result is the first input. The output scale is never touched. */
    method CalibrateInput(layer: Module, input: seq<Value>, kernels: Kernels, momentum: real := 0.9)
      returns (r: HookResult)
      modifies layer`inputScale
      ensures layer.outputScale == old(layer.outputScale)
      ensures !layer.Calibrates() ==>
        r == ReturnsNone && layer.inputScale == old(layer.inputScale)
      ensures layer.Calibrates() && |input| == 0 ==>
        r == Raises(IndexOutOfRange) && layer.inputScale == old(layer.inputScale)
      ensures layer.Calibrates() && |input| > 0 && input[0].Quantized? ==>
        if |input[0].qtensor.scale| == 0 then
          r == Raises(EmptyReduction) && layer.inputScale == old(layer.inputScale)
        else
          r == Returns(input[0]) && layer.inputScale == [Max(input[0].qtensor.scale)]
      ensures layer.Calibrates() && |input| > 0 && input[0].Plain? ==>
        var update := UpdatedScale(old(layer.inputScale),
                                   kernels.absmaxScale(input[0].tensor, layer.activations.value, DefaultAxis),
                                   momentum);
        if update.Raised? then
          r == Raises(update.error) && layer.inputScale == old(layer.inputScale)
        else
          r == Returns(input[0]) && layer.inputScale == update.value
    {
      if !layer.Calibrates() {
        return ReturnsNone;
      }
      if |input| == 0 {
        return Raises(IndexOutOfRange);
      }
      var first := input[0];
      match first {
        case Quantized(q) =>
          if |q.scale| == 0 {
            return Raises(EmptyReduction);
          }
          layer.inputScale := [Max(q.scale)];
        case Plain(t) =>
          var estimate := kernels.absmaxScale(t, layer.activations.value, DefaultAxis);
          var update := UpdatedScale(layer.inputScale, estimate, momentum);
          if update.Raised? {
            return Raises(update.error);
          }
          layer.inputScale := update.value;
      }
      r := Returns(first);
    }

    /** `calibrate_output`, the post-hook. For a module it calibrates, the raw
        quantized output is recomputed from the first input (dequantized if
        quantized), estimated over the whole tensor with `absmax_scale`, and
        smoothed into the output scale with the controller's `momentum`. The
        result is the module's forward pass on the first input, computed with
        the updated output scale; the `output` received is not used. The
        input scale is never touched. */
    method CalibrateOutput(layer: Module, input: seq<Value>, output: Value, kernels: Kernels)
      returns (r: HookResult)
      modifies layer`outputScale
      ensures layer.inputScale == old(layer.inputScale)
      ensures !layer.Calibrates() ==>
        r == ReturnsNone && layer.outputScale == old(layer.outputScale)
      ensures layer.Calibrates() && |input| == 0 ==>
        r == Raises(IndexOutOfRange) && layer.outputScale == old(layer.outputScale)
      ensures layer.Calibrates() && |input| > 0 ==>
        var raw := layer.qforward(layer.inputScale, old(layer.outputScale), input[0]);
        var update := UpdatedScale(old(layer.outputScale),
                                   kernels.absmaxScale(AsPlain(raw, kernels), layer.activations.value, NoAxis),
                                   momentum);
        if update.Raised? then
          r == Raises(update.error) && layer.outputScale == old(layer.outputScale)
        else
          layer.outputScale == update.value &&
          r == Returns(layer.forward(layer.inputScale, update.value, input[0]))
    {
      if !layer.Calibrates() {
        return ReturnsNone;
      }
      if |input| == 0 {
        return Raises(IndexOutOfRange);
      }
      var raw := layer.qforward(layer.inputScale, layer.outputScale, input[0]);
      var observed := AsPlain(raw, kernels);
      var estimate := kernels.absmaxScale(observed, layer.activations.value, NoAxis);
      var update := UpdatedScale(layer.outputScale, estimate, momentum);
      if update.Raised? {
        return Raises(update.error);
      }
      layer.outputScale := update.value;
      r := Returns(layer.forward(layer.inputScale, layer.outputScale, input[0]));
    }
  }
}
