/**
 The configuration decisions `load_models` makes before and around its library
 calls: the load arguments for the base weights, the LCM LoRA to fuse, the
 device the pipeline moves to, and whether inference runs under CUDA autocast.
 The library calls themselves are not modelled; a `Session` records what they
 are asked to do.
 */
module PipelineSetup {
  import opened Options
  import opened Precision
  import opened Registry

  /** The only reduced-precision tensor type the loader is asked for. */
  datatype DType = Float16

  /**
   The keyword arguments passed to `from_pretrained`. For `torchDtype` and
   `variant`, None stands for an argument left unset. `disableSafetyChecker`
   records an explicit `safety_checker=None`, which turns the checker off
   (leaving the argument out would load the model's default checker).
   */
  datatype LoadArgs = LoadArgs(
    modelId: string,
    torchDtype: Option<DType>,
    variant: Option<string>,
    disableSafetyChecker: bool)

  /**
   What `load_models` sets up: whether it switches TF32 matmuls on (on macOS the
   flag is left at torch's default), the load arguments, the fused LoRA, the
   target device, and the wrappers each `infer` call runs under.
   */
  datatype Session = Session(
    setsTf32: bool,
    load: LoadArgs,
    loraId: string,
    device: string,
    inferenceMode: bool,
    autocast: bool)

  /** The latent-consistency LoRA fused into every pipeline. */
  const LcmLoraId: string := "latent-consistency/lcm-lora-sdv1-5"

  /** The weight variant requested together with float16. */
  const Fp16Variant: string := "fp16"

  /** Metal on macOS, CUDA everywhere else. */
  function DeviceFor(isMac: bool): (d: string)
    ensures d == "mps" <==> isMac
    ensures d == "cuda" <==> !isMac
  {
    if isMac then "mps" else "cuda"
  }

  /** The autocast wrapper is chosen by comparing the device name with "cuda". */
  predicate UsesAutocast(device: string)
  {
    device == "cuda"
  }

  /** The `from_pretrained` arguments for one model under one precision decision. */
  function LoadArgsFor(modelId: string, useFp16: bool): (a: LoadArgs)
    ensures a.modelId == modelId
    ensures useFp16 ==> a.torchDtype == Some(Float16) && a.variant == Some(Fp16Variant)
    ensures !useFp16 ==> a.torchDtype == None && a.variant == None
    ensures a.disableSafetyChecker
  {
    if useFp16 then LoadArgs(modelId, Some(Float16), Some(Fp16Variant), true)
    else LoadArgs(modelId, None, None, true)
  }

  /** `load_models(model_id)` on a host described by `h`; the id defaults to Dreamshaper 7. */
  function LoadModels(h: HostFacts, modelId: string := DefaultModelId): (s: Session)
    ensures s.device == "mps" <==> h.isMac
    ensures s.device == "cuda" <==> !h.isMac
    ensures s.autocast <==> s.device == "cuda"
    ensures s.autocast <==> !h.isMac
    ensures s.setsTf32 <==> !h.isMac
    ensures s.inferenceMode
    ensures s.loraId == LcmLoraId
    ensures s.load.modelId == modelId
    ensures s.load.disableSafetyChecker
    ensures s.load.torchDtype == Some(Float16) <==> Fp16Safe(h)
    ensures s.load.variant == Some(Fp16Variant) <==> Fp16Safe(h)
    ensures !Fp16Safe(h) ==> s.load.torchDtype == None && s.load.variant == None
  {
    var device := DeviceFor(h.isMac);
    Session(
      setsTf32 := !h.isMac,
      load := LoadArgsFor(modelId, UseFp16(h)),
      loraId := LcmLoraId,
      device := device,
      inferenceMode := true,
      autocast := UsesAutocast(device))
  }

  /** The two load branches differ in dtype and variant and in nothing else. */
  lemma LoadBranchesDifferOnlyInPrecision(modelId: string)
    ensures LoadArgsFor(modelId, true).(torchDtype := None, variant := None) == LoadArgsFor(modelId, false)
    ensures LoadArgsFor(modelId, true) != LoadArgsFor(modelId, false)
  {
  }

  /**
   On macOS the pipeline always loads half-precision weights and runs on Metal
   without autocast, whatever the reported GPU.
   */
  lemma MacSessionIndependentOfGpu(major1: int, name1: string, major2: int, name2: string, modelId: string)
    ensures LoadModels(HostFacts(true, major1, name1), modelId) == LoadModels(HostFacts(true, major2, name2), modelId)
    ensures LoadModels(HostFacts(true, major1, name1), modelId).load.torchDtype == Some(Float16)
    ensures !LoadModels(HostFacts(true, major1, name1), modelId).autocast
  {
  }

  /** Called without an id, `load_models` builds the first registered model. */
  lemma DefaultSessionLoadsFirstModel(h: HostFacts)
    ensures LoadModels(h).load.modelId == ModelIds[0]
    ensures Resolve(ModelList[0]) == Some(LoadModels(h).load.modelId)
  {
    ResolveAtIndex(0);
  }

  /** A GTX 1660 Ti host gets full-precision weights on CUDA, under autocast. */
  lemma Gtx1660TiSession(modelId: string)
    ensures LoadModels(HostFacts(false, 7, "NVIDIA GeForce GTX 1660 Ti"), modelId).load.variant == None
    ensures LoadModels(HostFacts(false, 7, "NVIDIA GeForce GTX 1660 Ti"), modelId).autocast
  {
    Gtx1660TiIsFullPrecision();
  }
}
