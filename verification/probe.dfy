/** The downstream probe's access to the encoder
    (linear_classifiers/logistic_regression.py, class `ClassifierModel` and
    `main`): the addressing `(regression, which_module, which_layer)` is
    validated and resolved to one of four forward paths of the encoder, the
    path is called with as many arguments as it takes, the result is detached
    when only the probe trains, and the probe's optimizer receives the
    parameters that the model type allows to change. */
module Probe {
  import opened Results
  import opened Tensors

  /** The model types the probe distinguishes (`ModelType` of the configuration). */
  datatype ModelType = FullySupervised | OnlyDownstreamTask | OnlyEncoder

  /** The datasets a probe configuration may name; only De Boer is supported. */
  datatype Dataset = DeBoer | OtherDataset

  /** The four forward paths of the encoder the probe can read from. */
  datatype Method = ThroughAllModules | ThroughAllCnnModules | ThroughModule | ThroughLayer

  /** The errors the probe code raises. */
  datatype ProbeError =
    | RegressionHasNoModules          // the assertion guarding the regression case
    | InvalidAddress                  // "Invalid layer/module specification"
    | ArgumentNotInt                  // `_forward`'s assertion that arg2 is an int
    | WrongArity(path: Method, given: nat)  // a Python call with the wrong argument count
    | UnsupportedModelType            // neither FULLY_SUPERVISED nor ONLY_DOWNSTREAM_TASK
    | UndefinedGlobalOptions          // the module-level `options` read when it does not exist
    | MissingClassifierConfig         // `classifier_config.bias` read on None
    | UnsupportedDataset              // a dataset other than De Boer

  /** The encoder's forward paths. Their bodies are not part of this model:
      each is a function of the input and of its index arguments. */
  datatype Encoder<!X> = Encoder(
    allModules: X -> Tensor3,
    allCnnModules: X -> Tensor3,
    throughModule: (X, int) -> Tensor3,
    throughLayer: (X, int, int) -> Tensor3)

  /** How many arguments, the input included, a forward path takes. */
  function Arity(m: Method): nat
  {
    match m
    case ThroughAllModules => 1
    case ThroughAllCnnModules => 1
    case ThroughModule => 2
    case ThroughLayer => 3
  }

  /* ----------------------------------------------------------------------- */
  /* Addressing                                                               */
  /* ----------------------------------------------------------------------- */

  /** A validated address: the tagged variant that the index pair encodes. */
  datatype Address =
    | FullStack                          // through every module, regression layer included
    | AllCnnModules                      // through every convolutional module
    | ModuleOutput(moduleIndex: nat)          // the output of one module
    | LayerOutput(moduleIndex: nat, layerIndex: nat)  // one layer inside one module

  /** The validation `get_z` performs on its addressing arguments, in its order:
      the regression case first, then the three non-regression cases. */
  function Resolve(regression: bool, whichModule: int, whichLayer: int): (r: Result<Address, ProbeError>)
    ensures regression ==> (r.Ok? <==> whichModule == -1 && whichLayer == -1)
    ensures regression && r.Ok? ==> r.value == FullStack
    ensures regression && r.Err? ==> r.error == RegressionHasNoModules
    ensures !regression ==> (r == Ok(AllCnnModules) <==> whichModule == -1 && whichLayer == -1)
    ensures !regression ==> ((r.Ok? && r.value.ModuleOutput?) <==> whichModule >= 0 && whichLayer == -1)
    ensures !regression ==> ((r.Ok? && r.value.LayerOutput?) <==> whichModule >= 0 && whichLayer >= 0)
    ensures r.Ok? && r.value.ModuleOutput? ==> r.value.moduleIndex == whichModule
    ensures r.Ok? && r.value.LayerOutput? ==> r.value.moduleIndex == whichModule && r.value.layerIndex == whichLayer
    ensures !regression ==> (r.Err? <==> whichLayer < -1 || (whichModule < 0 && !(whichModule == -1 && whichLayer == -1)))
    ensures !regression && r.Err? ==> r.error == InvalidAddress
  {
    if regression then
      if whichModule == -1 && whichLayer == -1 then Ok(FullStack) else Err(RegressionHasNoModules)
    else if whichModule == -1 && whichLayer == -1 then Ok(AllCnnModules)
    else if whichModule >= 0 && whichLayer == -1 then Ok(ModuleOutput(whichModule))
    else if whichModule >= 0 && whichLayer >= 0 then Ok(LayerOutput(whichModule, whichLayer))
    else Err(InvalidAddress)
  }

  /** What each address reads, stated directly on the encoder: the reference
      the dispatching code below is compared against. */
  function Read<X>(enc: Encoder<X>, a: Address, x: X): Tensor3
  {
    match a
    case FullStack => enc.allModules(x)
    case AllCnnModules => enc.allCnnModules(x)
    case ModuleOutput(m) => enc.throughModule(x, m)
    case LayerOutput(m, l) => enc.throughLayer(x, m, l)
  }

  /* ----------------------------------------------------------------------- */
  /* Argument-count dispatch of `_forward`                                     */
  /* ----------------------------------------------------------------------- */

  /** An optional argument: an `int`, or anything else (in practice `None`). */
  datatype Arg = IntArg(n: int) | NonInt

  /** The call `_forward` makes: the input alone, or with one or two indices. */
  datatype Call = Call1 | Call2(a2: int) | Call3(a2: int, a3: int)

  function CallArity(c: Call): nat
  {
    match c
    case Call1 => 1
    case Call2(_) => 2
    case Call3(_, _) => 3
  }

  /** `_forward`'s choice of call from the types of its optional arguments. */
  function Dispatch(arg2: Arg, arg3: Arg): (r: Result<Call, ProbeError>)
    ensures (r.Ok? && r.value.Call3?) <==> arg3.IntArg? && arg2.IntArg?
    ensures r == Err(ArgumentNotInt) <==> arg3.IntArg? && arg2.NonInt?
    ensures (r.Ok? && r.value.Call2?) <==> arg3.NonInt? && arg2.IntArg?
    ensures r == Ok(Call1) <==> arg3.NonInt? && arg2.NonInt?
    ensures r.Ok? && r.value.Call2? ==> r.value.a2 == arg2.n
    ensures r.Ok? && r.value.Call3? ==> r.value.a2 == arg2.n && r.value.a3 == arg3.n
  {
    if arg3.IntArg? then
      if arg2.IntArg? then Ok(Call3(arg2.n, arg3.n)) else Err(ArgumentNotInt)
    else if arg2.IntArg? then Ok(Call2(arg2.n))
    else Ok(Call1)
  }

  /** Calling a forward path: Python raises when the argument count does not
      match the path's signature. */
  function Invoke<X>(enc: Encoder<X>, m: Method, x: X, c: Call): (r: Result<Tensor3, ProbeError>)
    ensures r.Ok? <==> Arity(m) == CallArity(c)
    ensures r.Err? ==> r.error == WrongArity(m, CallArity(c))
  {
    match (m, c)
    case (ThroughAllModules, Call1) => Ok(enc.allModules(x))
    case (ThroughAllCnnModules, Call1) => Ok(enc.allCnnModules(x))
    case (ThroughModule, Call2(a2)) => Ok(enc.throughModule(x, a2))
    case (ThroughLayer, Call3(a2, a3)) => Ok(enc.throughLayer(x, a2, a3))
    case _ => Err(WrongArity(m, CallArity(c)))
  }

  /* ----------------------------------------------------------------------- */
  /* Representation extraction                                                */
  /* ----------------------------------------------------------------------- */

  /** Whether the representation is cut from the autograd graph. */
  datatype GradMode = Detached | Tracked

  datatype Representation = Representation(value: Tensor3, grad: GradMode)

  /** `_get_representation`: dispatch, call, and detach (under no-grad) exactly
      when only the downstream probe trains. */
  function GetRepresentation<X>(modelType: ModelType, enc: Encoder<X>, m: Method, x: X, arg2: Arg, arg3: Arg)
    : (r: Result<Representation, ProbeError>)
    ensures r.Ok? ==> (r.value.grad == Detached <==> modelType == OnlyDownstreamTask)
    ensures r.Ok? <==> Dispatch(arg2, arg3).Ok? && Arity(m) == CallArity(Dispatch(arg2, arg3).value)
    ensures r.Ok? ==> r.value.value == Invoke(enc, m, x, Dispatch(arg2, arg3).value).value
    ensures r.Err? && Dispatch(arg2, arg3).Err? ==> r.error == Dispatch(arg2, arg3).error
  {
    var call :- Dispatch(arg2, arg3);
    var z :- Invoke(enc, m, x, call);
    Ok(Representation(z, if modelType == OnlyDownstreamTask then Detached else Tracked))
  }

  /** `get_z`: the regression case returns the full stack's output as it is; the
      other cases return the chosen path's output with its last two axes swapped. */
  function GetZ<X>(modelType: ModelType, enc: Encoder<X>, x: X, regression: bool, whichModule: int, whichLayer: int)
    : (r: Result<Representation, ProbeError>)
    ensures r.Ok? <==> Resolve(regression, whichModule, whichLayer).Ok?
    ensures r.Err? ==> r.error == Resolve(regression, whichModule, whichLayer).error
    ensures r.Ok? ==> (r.value.grad == Detached <==> modelType == OnlyDownstreamTask)
    ensures r.Ok? && regression ==> r.value.value == enc.allModules(x)
    ensures r.Ok? && !regression ==>
              r.value.value == SwapLastAxes(Read(enc, Resolve(regression, whichModule, whichLayer).value, x))
  {
    if regression && !(whichModule == -1 && whichLayer == -1) then
      Err(RegressionHasNoModules)
    else if regression then
      GetRepresentation(modelType, enc, ThroughAllModules, x, NonInt, NonInt)
    else
      var z :-
        if whichModule == -1 && whichLayer == -1 then
          GetRepresentation(modelType, enc, ThroughAllCnnModules, x, NonInt, NonInt)
        else if whichModule >= 0 && whichLayer == -1 then
          GetRepresentation(modelType, enc, ThroughModule, x, IntArg(whichModule), NonInt)
        else if whichModule >= 0 && whichLayer >= 0 then
          GetRepresentation(modelType, enc, ThroughLayer, x, IntArg(whichModule), IntArg(whichLayer))
        else
          Err(InvalidAddress);
      Ok(Representation(SwapLastAxes(z.value), z.grad))
  }

  /** Every address reaches its forward path with exactly that path's arity, so
      neither `_forward`'s assertion nor a wrong-arity call can fail for an
      address `get_z` accepts. */
  lemma GetZNeverMisdispatches<X>(modelType: ModelType, enc: Encoder<X>, x: X, regression: bool, whichModule: int, whichLayer: int)
    ensures GetZ(modelType, enc, x, regression, whichModule, whichLayer).Err? ==>
              GetZ(modelType, enc, x, regression, whichModule, whichLayer).error in {RegressionHasNoModules, InvalidAddress}
  {
  }

  /** A non-regression representation, swapped back, is the forward path's own output. */
  lemma ProbeOutputSwapsBack<X>(modelType: ModelType, enc: Encoder<X>, x: X, whichModule: int, whichLayer: int)
    requires GetZ(modelType, enc, x, false, whichModule, whichLayer).Ok?
    ensures SwapLastAxes(GetZ(modelType, enc, x, false, whichModule, whichLayer).value.value) ==
            Read(enc, Resolve(false, whichModule, whichLayer).value, x)
  {
    SwapLastAxesInvolution(Read(enc, Resolve(false, whichModule, whichLayer).value, x));
  }

  /* ----------------------------------------------------------------------- */
  /* Optimizer parameter set                                                  */
  /* ----------------------------------------------------------------------- */

  /** Whether the encoder is put in training or evaluation mode. */
  datatype EncoderMode = Training | Evaluation

  datatype OptimizerSetup<P> = OptimizerSetup(params: seq<P>, encoderMode: EncoderMode)

  /** `configure_optimizers` as written: the second test reads the module-level
      `options`, which exists only when the file runs as a script (`None` here
      when it does not). */
  function ConfigureOptimizersAsWritten<P>(selfType: ModelType, globalType: Option<ModelType>,
                                           encoderParams: seq<P>, classifierParams: seq<P>)
    : (r: Result<OptimizerSetup<P>, ProbeError>)
    ensures selfType == FullySupervised ==> r == Ok(OptimizerSetup(encoderParams + classifierParams, Training))
    ensures selfType != FullySupervised && globalType.None? ==> r == Err(UndefinedGlobalOptions)
    ensures selfType != FullySupervised && globalType.Some? ==>
              (r.Ok? <==> globalType.value == OnlyDownstreamTask)
    ensures selfType != FullySupervised && globalType == Some(OnlyDownstreamTask) ==>
              r == Ok(OptimizerSetup(classifierParams, Evaluation))
    ensures r.Err? && globalType.Some? ==> r.error == UnsupportedModelType
  {
    if selfType == FullySupervised then
      Ok(OptimizerSetup(encoderParams + classifierParams, Training))
    else if globalType.None? then
      Err(UndefinedGlobalOptions)
    else if globalType.value == OnlyDownstreamTask then
      Ok(OptimizerSetup(classifierParams, Evaluation))
    else
      Err(UnsupportedModelType)
  }

  /** `configure_optimizers` reading the probe's own options throughout: the
      encoder's parameters are optimised together with the classifier's when
      the whole model is supervised, the classifier's alone when only the
      downstream task trains, and any other model type is refused. */
  function ConfigureOptimizers<P>(modelType: ModelType, encoderParams: seq<P>, classifierParams: seq<P>)
    : (r: Result<OptimizerSetup<P>, ProbeError>)
    ensures r.Ok? <==> modelType == FullySupervised || modelType == OnlyDownstreamTask
    ensures r.Err? ==> r.error == UnsupportedModelType
    ensures r.Ok? ==> (r.value.encoderMode == Training <==> modelType == FullySupervised)
    ensures r.Ok? && r.value.encoderMode == Training ==>
              |r.value.params| == |encoderParams| + |classifierParams| &&
              r.value.params[..|encoderParams|] == encoderParams &&
              r.value.params[|encoderParams|..] == classifierParams
    ensures r.Ok? && r.value.encoderMode == Evaluation ==> r.value.params == classifierParams
  {
    if modelType == FullySupervised then
      Ok(OptimizerSetup(encoderParams + classifierParams, Training))
    else if modelType == OnlyDownstreamTask then
      Ok(OptimizerSetup(classifierParams, Evaluation))
    else
      Err(UnsupportedModelType)
  }

  /** Run as a script, the global and the probe's options are the same object,
      and the code as written agrees with the corrected reading. */
  lemma AsWrittenAgreesWhenGlobalIsOwn<P>(modelType: ModelType, encoderParams: seq<P>, classifierParams: seq<P>)
    ensures ConfigureOptimizersAsWritten(modelType, Some(modelType), encoderParams, classifierParams) ==
            ConfigureOptimizers(modelType, encoderParams, classifierParams)
  {
  }

  /** Imported rather than run, the code as written raises for a probe whose own
      model type is ONLY_DOWNSTREAM_TASK, which the corrected reading accepts. */
  lemma GlobalOptionsDivergence<P>(encoderParams: seq<P>, classifierParams: seq<P>)
    ensures ConfigureOptimizersAsWritten(OnlyDownstreamTask, None, encoderParams, classifierParams) == Err(UndefinedGlobalOptions)
    ensures ConfigureOptimizers(OnlyDownstreamTask, encoderParams, classifierParams) == Ok(OptimizerSetup(classifierParams, Evaluation))
  {
  }

  /** Gradient isolation of a frozen encoder: when only the probe trains, the
      representation handed to it is detached and none of the encoder's
      parameters is given to the optimizer; otherwise the representation keeps
      its gradient and the encoder's parameters are optimised. */
  lemma FrozenEncoderIsIsolated<X, P>(modelType: ModelType, enc: Encoder<X>, x: X, regression: bool,
                                      whichModule: int, whichLayer: int,
                                      encoderParams: seq<P>, classifierParams: seq<P>)
    requires ConfigureOptimizers(modelType, encoderParams, classifierParams).Ok?
    requires GetZ(modelType, enc, x, regression, whichModule, whichLayer).Ok?
    requires |encoderParams| > 0
    requires forall p :: p in encoderParams ==> p !in classifierParams
    ensures GetZ(modelType, enc, x, regression, whichModule, whichLayer).value.grad == Detached <==>
            (forall p :: p in encoderParams ==> p !in ConfigureOptimizers(modelType, encoderParams, classifierParams).value.params)
  {
    var setup := ConfigureOptimizers(modelType, encoderParams, classifierParams).value;
    if modelType == FullySupervised {
      assert encoderParams[0] in setup.params;
    }
  }

  /* ----------------------------------------------------------------------- */
  /* Probe configuration and the checks of `main`                             */
  /* ----------------------------------------------------------------------- */

  /** The fields of the classifier configuration the probe reads. */
  datatype ClassifierConfig = ClassifierConfig(bias: bool, encoderModule: int, encoderLayer: int, dataset: Dataset)

  /** `ClassifierModel.forward`'s addressing: the bias flag selects the regression case. */
  function ProbeRepresentation<X>(cfg: ClassifierConfig, modelType: ModelType, enc: Encoder<X>, x: X)
    : (r: Result<Representation, ProbeError>)
    ensures cfg.bias ==> (r.Ok? <==> cfg.encoderModule == -1 && cfg.encoderLayer == -1)
    ensures cfg.bias && r.Ok? ==> r.value.value == enc.allModules(x)
    ensures !cfg.bias && cfg.encoderModule == -1 && cfg.encoderLayer == -1 ==>
              r.Ok? && r.value.value == SwapLastAxes(enc.allCnnModules(x))
  {
    GetZ(modelType, enc, x, cfg.bias, cfg.encoderModule, cfg.encoderLayer)
  }

  /** The checks at the start of `main`, in order: the configuration's `bias`
      is read before the assertion that the configuration exists. */
  function CheckMain(cfg: Option<ClassifierConfig>, modelType: ModelType): (r: Result<ClassifierConfig, ProbeError>)
    ensures r.Ok? <==> cfg.Some? && (modelType == FullySupervised || modelType == OnlyDownstreamTask) && cfg.value.dataset == DeBoer
    ensures r.Ok? ==> r.value == cfg.value
    ensures cfg.None? ==> r == Err(MissingClassifierConfig)
    ensures cfg.Some? && modelType == OnlyEncoder ==> r == Err(UnsupportedModelType)
    ensures cfg.Some? && (modelType == FullySupervised || modelType == OnlyDownstreamTask) && cfg.value.dataset != DeBoer ==>
              r == Err(UnsupportedDataset)
  {
    if cfg.None? then Err(MissingClassifierConfig)
    else if !(modelType == FullySupervised || modelType == OnlyDownstreamTask) then Err(UnsupportedModelType)
    else if cfg.value.dataset != DeBoer then Err(UnsupportedDataset)
    else Ok(cfg.value)
  }

  /** A run that passes `main`'s checks never reaches the refusal in
      `configure_optimizers`. */
  lemma MainChecksEnableOptimizer<P>(cfg: Option<ClassifierConfig>, modelType: ModelType,
                                     encoderParams: seq<P>, classifierParams: seq<P>)
    requires CheckMain(cfg, modelType).Ok?
    ensures ConfigureOptimizers(modelType, encoderParams, classifierParams).Ok?
  {
  }
}
