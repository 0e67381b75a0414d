# Activation calibration for quantized modules (quanto `Calibration`)

This project models the calibration controller of quanto, `Calibration` in
`quanto/calibrate.py`, and proves what it promises. While a calibration scope
is active, two module hooks observe each quantized module's activations and
re-estimate its `input_scale` and `output_scale`:

- the scale update rule `_updated_scale`: a scale still holding the all-ones
  "never set" sentinel is replaced by the new estimate, any other scale is
  smoothed into an exponential moving average `momentum * scale + (1 - momentum) * new`;
- the pre-hook `calibrate_input`: a quantized first input makes the input
  scale the maximum of that input's own scale; a plain first input is
  estimated with `absmax_scale` and smoothed with the hook's own `momentum`
  parameter (default 0.9);
- the post-hook `calibrate_output`: the raw quantized output is recomputed,
  dequantized, estimated over the whole tensor, smoothed into the output scale
  with the controller's `momentum`, and the module's forward pass, run again
  with the new output scale, replaces the output;
- the scope: `__enter__` pushes the dispatch mode and registers both hooks,
  `__exit__` pops the mode and removes both hooks; `__torch_function__`
  passes every call through.

Files:

- `tensors.dfy` (module `Tensors`): tensors as `seq<real>`, the errors the
  code can raise, `Option`/`Result`, the sentinel test and `torch.max`.
- `scales.dfy` (module `Scales`): `_updated_scale` and its lemmas.
- `calibrate.dfy` (module `Calibrate`): values and quantized tensors, the
  `Module` class with its mutable scales, and the `Calibration` class with
  the hooks and the scope.
- `scenarios.dfy` (module `Scenarios`): calibration steps on fresh objects whose outcome
  follows from the hooks' and the scope's contracts alone.

The functions the hooks call but whose code lives elsewhere are parameters:
`absmax_scale` and `QTensor.dequantize` are the fields of a `Kernels` value
passed to each hook, and `qforward` and `forward` are function-valued
constants of each `Module`, taking the module's current input and output
scales, so that "forward runs after the output scale is updated" is visible
in the post-hook's contract.

Points where the model commits to a reading of the code:

- `__exit__` does not undo `__enter__` in reverse order: it pops the mode
  (`quanto/calibrate.py:49`) before it removes the hooks (lines 50-51), and
  the model keeps that order.
- The pre-hook smooths with its own `momentum` parameter (default 0.9), not
  with the controller's `momentum`; `Scenarios.InputScaleOverTwoBatches`
  proves that under a controller built with momentum 0.5 the input scale
  becomes 2.0, then 2.2.
  The post-hook does use the controller's momentum
  (`Scenarios.OutputScaleOverTwoBatches`).
- The pre-hook returns the first positional input itself, not the input tuple.
- Entering a controller that is already entered overwrites `pre_handle` and
  `post_handle`, so the first pair of hooks can no longer be removed
  (`Scenarios.ReenteredScopeLeaksHooks`). The code does not guard against
  nesting; the model shows what it does.
- A hook that raises leaves the module's scales as they were: the exception
  comes before the assignment.
- A scale that happens to be exactly 1 everywhere after calibration is
  indistinguishable from the sentinel, and the next estimate replaces it
  outright; this is what line 16 does and what `Scales.UpdatedScale` states.

## Model

| member | source | states |
|---|---|---|
| `Tensors.Max` | quanto/calibrate.py:58 | `torch.max` of a non-empty tensor is one of its elements and no element exceeds it |
| `Scales.Ema` | quanto/calibrate.py:18 | the elementwise moving average has the size of its operands |
| `Scales.UpdatedScale` | quanto/calibrate.py:15-18 | the sentinel test `torch.all(scale == 1)` (line 16) is `Tensors.AllOnes`; an all-ones scale gives back the new estimate unchanged, whatever the momentum and sizes; otherwise the update fails exactly when the sizes differ, with a shape error, and a successful update has the estimate's size |
| `Scales.EmaAt` | quanto/calibrate.py:18 | element i of the average is `momentum * scale[i] + (1 - momentum) * new[i]` |
| `Scales.UpdateIsMovingAverage` | quanto/calibrate.py:16-18 | for a non-sentinel scale of the estimate's size the update succeeds and is exactly the elementwise moving average |
| `Scales.UpdateStaysBetween` | quanto/calibrate.py:15-18 | for momentum in [0, 1] and equal sizes every updated element lies between the old element and the new estimate |
| `Scales.MomentumOneKeepsScale` | quanto/calibrate.py:18 | with momentum 1 a scale that has been set is kept |
| `Scales.MomentumZeroAdoptsEstimate` | quanto/calibrate.py:15-18 | with momentum 0 the new estimate is adopted, sentinel or not |
| `Scales.AgreeingEstimateIsFixedPoint` | quanto/calibrate.py:15-18 | an estimate equal to the current scale leaves it unchanged |
| `Scales.TwoBatchesAtDefaultMomentum` | quanto/calibrate.py:15-18 | at momentum 0.9 a sentinel scale becomes 2.0 on estimate 2.0, and 2.0 becomes 2.2 on estimate 4.0 |
| `Calibrate.Calibration.constructor` | quanto/calibrate.py:35-37 | a new controller keeps the given momentum (default 0.9), is inactive and has no hook registered |
| `Calibrate.Calibration.TorchFunctionPassesThrough` | quanto/calibrate.py:39-41 | `Calibrate.Calibration.TorchFunction` models `__torch_function__`; intercepting a call returns the call's own result; absent keyword arguments are empty ones |
| `Calibrate.Calibration.Register` | quanto/calibrate.py:45-46 | registering a hook issues a handle not registered before and maps it to that hook, nothing else registered changes |
| `Calibrate.Calibration.Remove` | quanto/calibrate.py:50-51 | removing a handle unregisters exactly that handle; removing it again changes nothing |
| `Calibrate.Calibration.Enter` | quanto/calibrate.py:43-46 | entering pushes the mode once and registers two fresh handles, the input hook then the output hook, stored as `pre_handle` and `post_handle`; earlier registrations stay |
| `Calibrate.Calibration.Exit` | quanto/calibrate.py:48-51 | leaving an entered scope pops the mode once and unregisters exactly the stored two handles; leaving an inactive one raises at the pop and changes nothing |
| `Calibrate.Calibration.CalibrateInput` | quanto/calibrate.py:53-63 | the guard of line 54 is `Calibrate.Module.Calibrates` (a quantized module whose `activations` is not `None`); ineligible module: returns `None`, nothing changes; no inputs: raises; quantized first input: input scale becomes the maximum of its scale (raises on an empty scale); plain first input: input scale becomes `_updated_scale(old, absmax_scale(x, activations), momentum)` or raises with it; the first input is returned; the output scale never changes |
| `Calibrate.Calibration.CalibrateOutput` | quanto/calibrate.py:65-80 | the guard of line 71 is `Calibrate.Module.Calibrates`; ineligible module: returns `None`, nothing changes; no inputs: raises; the dequantizing of lines 74-75 is `Calibrate.AsPlain`; otherwise the output scale becomes `_updated_scale(old, absmax_scale(dequantized qforward(x), activations, axis=None), self.momentum)` and the result is `forward(x)` run with the new output scale, independent of the `output` received; the input scale never changes |
| `Scenarios.InputScaleOverTwoBatches` | quanto/calibrate.py:53-63 | plain estimates 2.0 then 4.0 take a sentinel input scale to 2.0 then 2.2 under the hook's default momentum, even with controller momentum 0.5; the hook returns only the first input |
| `Scenarios.QuantizedInputAdoptsMaximum` | quanto/calibrate.py:56-58 | a quantized input with scales [1.0, 3.0, 2.0] sets the input scale to 3.0 for every previous scale and momentum |
| `Scenarios.IneligibleModuleUntouched` | quanto/calibrate.py:53-80 | for a non-quantized module or one without activation quantization, both hooks return `None` and both scales stay as they were, for all inputs |
| `Scenarios.OutputScaleOverTwoBatches` | quanto/calibrate.py:65-80 | raw outputs 5.0 then 1.0 (the second dequantized) take a sentinel output scale to 5.0 then 3.0 at controller momentum 0.5, ignoring the output passed in, and the returned output sees the updated scale |
| `Scenarios.SequentialScopes` | quanto/calibrate.py:43-51 | two scopes in sequence each register exactly one input and one output hook and leave none registered after exit |
| `Scenarios.EnterExitRestoresRegistry` | quanto/calibrate.py:43-51 | for every valid controller state, entering and then exiting succeeds and leaves the registered hooks and the mode depth exactly as they were, so sequential scopes never accumulate hooks |
| `Scenarios.ReenteredScopeLeaksHooks` | quanto/calibrate.py:43-51 | entering twice and exiting twice leaves the first pair of hooks registered |
| `Scenarios.ExitWithoutEnter` | quanto/calibrate.py:48-51 | leaving a scope never entered raises at the mode pop and registers nothing |

## Left out

- The bodies of `absmax_scale`, `QTensor.dequantize`, `qforward` and `forward`: they are defined outside `quanto/calibrate.py` and enter the model as parameters, so any exception they raise is not modelled.
- `QModuleMixin` and the module classes: `quanto/nn` is not part of this model. The `isinstance` test becomes the `isQuantized` flag of a `Module`, and the initial scales are constructor arguments.
- The framework's process-wide hook registry and its `TorchFunctionMode` stack: they are represented by the controller's own `hooks` map and `modeDepth` counter. Other modes on the stack, other code registering hooks, and the framework's calling of the hooks around every module invocation are not modelled; "no hook side effects after exit" is stated as "no handle of the controller is registered".
- `Scales.UpdatedScale`: tensor shapes and broadcasting are not modelled; two tensors of different element counts are a shape error in the model, although torch would broadcast a one-element operand.
- Floating-point rounding: scales are reals, and the `== 1` test is an exact real equality.
- `Calibrate.Calibration.CalibrateInput`: `torch.max` returns a zero-dimensional tensor; the model stores it as a one-element tensor.
- The framework's wrapping of a non-tuple pre-hook result into a one-element input tuple.
- The `types` argument of `__torch_function__`, which the code does not use, and the exception arguments of `__exit__`, which are only passed on to the mode.
- Concurrent or nested scopes of different controllers, and thread safety: the code does no locking.
