# LCM canvas back end: precision, device and model registry

This project models the decision logic of `lcm.py` in FocusPocusAI, a
sketch-to-image application driven by a latent-consistency (LCM) diffusion
pipeline. Three parts of that file are deterministic once the hardware queries
become inputs, and they are what the model covers:

- **Precision selection** (`should_use_fp16`). The host facts are macOS or not,
  the CUDA compute-capability major version and the GPU name. They form the
  record `Precision.HostFacts`. The decision chooses the weights that are
  loaded: half-precision weights (float16 dtype, "fp16" variant) are requested
  on macOS always, and off macOS only when the capability is at least 6 and
  the GPU name contains none of the GTX 16-series numbers "1660", "1650" or
  "1630". It does not govern the arithmetic of each call: off macOS every
  `infer` call runs under CUDA autocast whatever the weights. Python's `x in name` is
  modelled as the substring predicate `Substrings.Contains`. The denylist loop
  has two models: a first-match recursion (`DeniedBy`) and a loop with an
  invariant (`ScanDenylist`). Both are proved equal to "some entry occurs in
  the name".
- **Pipeline setup** (`load_models`). `PipelineSetup.LoadModels` returns a
  `Session` record. It holds the `from_pretrained` arguments (float16 dtype
  and "fp16" variant only when fp16 is chosen, and an explicit
  `safety_checker=None` that disables the checker in both branches) and the
  fixed LCM LoRA id. The model id defaults to "Lykon/dreamshaper-7", the
  first registered model. It also holds the device ("mps" on macOS, "cuda"
  otherwise), whether TF32 matmuls are switched on (only off macOS; on macOS
  the flag is left at torch's default), and the wrappers every `infer` call runs under:
  inference mode always, and CUDA autocast exactly when the device is "cuda".
- **Model registry** (`model_list` / `model_ids`). These are two parallel lists
  of five entries. The program never looks them up by name, so
  `Registry.Resolve` is a lookup the model adds: it maps a display name to the
  backend id at the same index, and returns `None` for a name that is not
  listed.

Off macOS the device is always "cuda". The fp16 decision changes only the
load arguments, not the device.

## Model

| member | source | states |
|---|---|---|
| Precision.DeniedBy | lcm.py:51-57 | scanning the denylist in order and stopping at the first entry found in the name reports a hit exactly when some entry is a substring of the name |
| Precision.ScanDenylist | lcm.py:53-57 | the loop over the denylist with early return reports a hit iff some entry occurs in the name, so the order of the entries does not matter |
| Precision.UseFp16 | lcm.py:42-57 | true on macOS whatever the GPU; off macOS false when major < 6, and false when the name contains a 16-series number; overall true exactly when macOS, or major >= 6 and no denylist entry occurs in the name |
| Precision.ShouldUseFp16 | lcm.py:42-57 | the step-by-step procedure (Mac check, capability check, denylist loop) returns true exactly when macOS, or major >= 6 and no denylist entry occurs in the name, and agrees with the functional form |
| Precision.DenylistOrderIrrelevant | lcm.py:51-55 | two denylists holding the same entries, in any order and with any repetition, give the same verdict for every name |
| Precision.Gtx1660TiIsFullPrecision | lcm.py:51-55 | a GTX 1660 Ti with capability 7 off macOS is refused fp16 because "1660" occurs in its name |
| Precision.Rtx3090UsesFp16 | lcm.py:46-57 | an RTX 3090 with capability 8 off macOS gets fp16, since no denylist entry occurs in its name |
| Substrings.EmptyOccursEverywhere | lcm.py:54 | the empty string is a substring of every name |
| Substrings.LongerNeverOccurs | lcm.py:54 | a denylist entry longer than the name is never a substring of it |
| Substrings.FirstCharAbsent | lcm.py:54 | a denylist entry whose first character does not appear in the GPU name is not a substring of it |
| Registry.IndexOf | lcm.py:21 | the lookup yields the first index holding the display name, and None exactly when the name is not listed |
| Registry.RegistryWellFormed | lcm.py:21-22 | the display-name and backend-id lists are parallel with five entries each, neither repeats an entry, and every backend id is non-empty |
| Registry.Resolve | lcm.py:21-22 | an unlisted name yields None; a listed name yields the id at the same index, and only ids from the list are ever returned |
| Registry.ResolveAtIndex | lcm.py:21-22 | for every index i, resolving the i-th display name gives the i-th backend id |
| Registry.EveryIdResolvable | lcm.py:21-22 | every backend id is reachable from some display name |
| Registry.ResolveExamples | lcm.py:21-22 | "Dreamshaper7" resolves to "Lykon/dreamshaper-7", the default model of `load_models`, and "Nonexistent" resolves to None |
| PipelineSetup.DeviceFor | lcm.py:103 | the device is "mps" exactly on macOS and "cuda" exactly off it |
| PipelineSetup.LoadArgsFor | lcm.py:83-96 | fp16 requests dtype float16 with variant "fp16"; otherwise neither is set; the model id is passed through and the safety checker is explicitly disabled (`safety_checker=None`) in both branches |
| PipelineSetup.LoadModels | lcm.py:72-118 | device "mps" iff macOS, else "cuda"; autocast iff the device is "cuda", so never on macOS; the safety checker explicitly disabled; TF32 switched on iff not macOS (left at torch's default on macOS); inference mode always; the fixed LCM LoRA id; the fp16 dtype and variant requested exactly when the precision rule allows it |
| PipelineSetup.LoadBranchesDifferOnlyInPrecision | lcm.py:83-96 | the fp16 and full-precision load arguments differ, and only in dtype and variant |
| PipelineSetup.MacSessionIndependentOfGpu | lcm.py:76-118 | on macOS the whole setup is the same whatever GPU facts are reported: half-precision weights and no autocast |
| PipelineSetup.DefaultSessionLoadsFirstModel | lcm.py:72 | called without an id, the setup loads "Lykon/dreamshaper-7", the id the first display name resolves to |
| PipelineSetup.Gtx1660TiSession | lcm.py:79-118 | a GTX 1660 Ti host loads without the fp16 variant and runs on CUDA under autocast |

## Left out

- The diffusers and torch calls are not modelled, because they are foreign library code with no visible semantics. This covers `from_pretrained`, `LCMScheduler.from_config`, `load_lora_weights`, `fuse_lora`, `pipe.to`, `torch.Generator`, `manual_seed` and the pipeline call in `infer`. A `Session` records only what those calls are asked to do.
- The hardware queries (`sys.platform`, `torch.cuda.get_device_properties`) are not modelled. Their results are the inputs of `HostFacts`.
- The model assumes a CUDA device is present off macOS. Without one, `torch.cuda.get_device_properties("cuda")` (lcm.py:46) raises inside `should_use_fp16`, and `load_models` raises with it (its `pipe.to(device="cuda")` at lcm.py:105 would fail too). The model returns a verdict and a "cuda" `Session` for every non-macOS host instead.
- The `infer` sampling arguments are not modelled. `guidance_scale` and `strength` are floating point, and `infer` (lcm.py:109-127) forwards all of them unchecked.
- The dtype autocast computes in is not modelled. `torch.autocast("cuda")` (lcm.py:118) picks its own default, so off macOS operations may run in half precision even when full-precision weights were loaded.
- The default seed of `infer` is not modelled, because it is randomness. `random.randrange(0, 2**63)` is evaluated once, when `infer` is defined, so every call that omits `seed` gets the same value.
- `create_video` is not modelled: it is file-system and OpenCV video I/O.
- The `timer` context manager is not modelled: it only logs wall-clock time.
- The cache-path and environment-variable setup is not modelled, because it is process-global I/O configuration.
- sd_maker.py is not modelled: it builds a module-level pipeline and wraps one call, with no logic beyond the library calls.
- main.py and widgets.py are not modelled: they are Qt user interface, event wiring, rendering and file saves.
