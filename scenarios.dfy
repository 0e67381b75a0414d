/** Calibration steps on concrete modules and controllers, proved from the
    contracts of the hooks and of the scope alone. */
module Scenarios {
  import opened Tensors
  import opened Scales
  import opened Calibrate

  /** An estimator that reports the observed tensor itself as its scale, so a
      scenario chooses its estimates directly. */
  function EchoKernels(): Kernels {
    Kernels((t: Tensor, q: QType, a: Axis) => t, (q: QTensor) => q.scale)
  }

  function EchoInput(): Forward {
    (inputScale: Tensor, outputScale: Tensor, x: Value) => x
  }

  /** A forward pass that reports the output scale it was run with. */
  function ShowOutputScale(): Forward {
    (inputScale: Tensor, outputScale: Tensor, x: Value) => Plain(outputScale)
  }

  /** Two plain batches whose estimates are 2.0 and 4.0 bring a sentinel input
      scale to 2.0 and then to 0.9 * 2.0 + 0.1 * 4.0 == 2.2: the input hook
      smooths with its own default momentum 0.9, not the controller's 0.5. */
  method InputScaleOverTwoBatches() returns (first: Tensor, second: Tensor, r: HookResult)
    ensures first == [2.0] && second == [2.2]
    ensures r == Returns(Plain([4.0]))
  {
    var c := new Calibration(0.5);
    var layer := new Module(true, Some(QType("qint8")), EchoInput(), EchoInput(), [1.0], [1.0]);
    r := c.CalibrateInput(layer, [Plain([2.0])], EchoKernels());
    first := layer.inputScale;
    r := c.CalibrateInput(layer, [Plain([4.0]), Plain([9.0])], EchoKernels());
    second := layer.inputScale;
    TwoBatchesAtDefaultMomentum();
  }

  /** A quantized input with scales [1.0, 3.0, 2.0] sets the input scale to
      3.0, whatever the previous input scale and the momentum. */
  method QuantizedInputAdoptsMaximum(previous: Tensor, momentum: real) returns (scale: Tensor, r: HookResult)
    ensures scale == [3.0]
    ensures r == Returns(Quantized(QTensor([7, -2], [1.0, 3.0, 2.0])))
  {
    var c := new Calibration();
    var layer := new Module(true, Some(QType("qint8")), EchoInput(), EchoInput(), previous, [1.0]);
    var x := Quantized(QTensor([7, -2], [1.0, 3.0, 2.0]));
    r := c.CalibrateInput(layer, [x], EchoKernels(), momentum);
    scale := layer.inputScale;
    assert [1.0, 3.0, 2.0][1] == 3.0;
  }

  /** A module that is not a quantized module, or whose activations are not
      quantized, comes out of both hooks with its scales unchanged, and
      neither hook replaces the input or the output. */
  method IneligibleModuleUntouched(isQuantized: bool, activations: Option<QType>,
                                   inputScale: Tensor, outputScale: Tensor,
                                   input: seq<Value>, output: Value, kernels: Kernels)
    returns (pre: HookResult, post: HookResult, inputAfter: Tensor, outputAfter: Tensor)
    requires !isQuantized || activations.None?
    ensures pre == ReturnsNone && post == ReturnsNone
    ensures inputAfter == inputScale && outputAfter == outputScale
  {
    var c := new Calibration();
    var layer := new Module(isQuantized, activations, EchoInput(), EchoInput(), inputScale, outputScale);
    pre := c.CalibrateInput(layer, input, kernels);
    post := c.CalibrateOutput(layer, input, output, kernels);
    inputAfter, outputAfter := layer.inputScale, layer.outputScale;
  }

  /** The output hook estimates from the recomputed raw output, not from the
      output it is given, smooths with the controller's momentum (0.5 here),
      and returns a forward pass run with the updated output scale. */
  method OutputScaleOverTwoBatches() returns (first: Tensor, second: Tensor, r: HookResult)
    ensures first == [5.0] && second == [3.0]
    ensures r == Returns(Plain([3.0]))
  {
    var c := new Calibration(0.5);
    var layer := new Module(true, Some(QType("qint8")), EchoInput(), ShowOutputScale(), [1.0], [1.0]);
    r := c.CalibrateOutput(layer, [Plain([5.0])], Plain([8.0]), EchoKernels());
    first := layer.outputScale;
    r := c.CalibrateOutput(layer, [Quantized(QTensor([1], [1.0]))], Plain([8.0]), EchoKernels());
    second := layer.outputScale;
    assert !AllOnes([5.0]);
    UpdateIsMovingAverage([5.0], [1.0], 0.5);
    assert UpdatedScale([5.0], [1.0], 0.5).value[0] == 3.0;
    assert UpdatedScale([5.0], [1.0], 0.5).value == [3.0];
  }

  /** Two scopes one after the other: each registers one input hook and one
      output hook, and after each exit no hook of the controller is left. */
  method SequentialScopes() returns (inFirst: map<nat, HookKind>, afterFirst: map<nat, HookKind>,
                                     inSecond: map<nat, HookKind>, afterSecond: map<nat, HookKind>)
    ensures inFirst == map[0 := InputHook, 1 := OutputHook] && afterFirst == map[]
    ensures inSecond == map[2 := InputHook, 3 := OutputHook] && afterSecond == map[]
  {
    var c := new Calibration();
    c.Enter();
    inFirst := c.hooks;
    var raised := c.Exit();
    afterFirst := c.hooks;
    assert afterFirst.Keys == {};
    c.Enter();
    inSecond := c.hooks;
    raised := c.Exit();
    afterSecond := c.hooks;
    assert afterSecond.Keys == {};
  }

  /** A scope entered and left on any controller, in any state, leaves the
      registered hooks and the mode depth as they were before it. */
  method EnterExitRestoresRegistry(c: Calibration) returns (raised: Option<Error>)
    requires c.Valid()
    modifies c
    ensures c.Valid()
    ensures raised == None
    ensures c.hooks == old(c.hooks) && c.modeDepth == old(c.modeDepth)
  {
    c.Enter();
    raised := c.Exit();
  }

  /** Entering the same controller twice before leaving it overwrites the
      stored handles: the two exits remove the second pair twice and the
      first pair stays registered. */
  method ReenteredScopeLeaksHooks() returns (after: map<nat, HookKind>, depth: nat)
    ensures after == map[0 := InputHook, 1 := OutputHook] && depth == 0
  {
    var c := new Calibration();
    c.Enter();
    c.Enter();
    var raised := c.Exit();
    raised := c.Exit();
    after, depth := c.hooks, c.modeDepth;
    assert after.Keys == {0, 1};
  }

  /** Leaving a scope that was never entered raises at the mode pop and
      leaves the registry as it was. */
  method ExitWithoutEnter() returns (raised: Option<Error>, after: map<nat, HookKind>)
    ensures raised == Some(EmptyModeStack) && after == map[]
  {
    var c := new Calibration();
    raised := c.Exit();
    after := c.hooks;
  }
}
