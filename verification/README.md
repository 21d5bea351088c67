# Stable-diffusion ONNX Runtime helpers, modelled in Dafny

This project models the decision logic of the ONNX Runtime helpers in the
stable-diffusion example of Olive (`examples/stable_diffusion/sd_utils/ort.py`).
That logic turns Olive workflow results into a deployable ONNX pipeline:

- **Configuration adapters** (`update_dml_config`, `update_cuda_config`). Each
  keeps only the passes its accelerator runs. Each pins the execution-provider
  list to one provider. On runtimes older than 1.17.0, the CUDA adapter first
  turns off SkipGroupNorm fusion in the `optimize_cuda` options.
- **Runtime-version gate** (`validate_ort_version`). This is a decision table
  over the provider and the installed runtime version. Its outcomes are
  proceed, warn or exit.
- **Footprint resolution** (the loop of `save_optimized_onnx_submodel`). Each
  pass name is first normalised into a pass kind. The resolution then
  scans a submodel's provenance records in document order. It picks the
  converted (unoptimized) artifact and the optimized artifact. Both picks are
  last-seen-wins. The `only_conversion` switch lets a conversion footprint
  stand in as the optimized artifact.
- **Session setup** (`get_ort_pipeline`). Static mode binds 15 free-dimension
  overrides from the batch and image geometry. The unet batch is doubled under
  classifier-free guidance. The memory pattern is turned off. The provider key
  is looked up, and only `dml` and `cuda` are accepted.
- **Pipeline saving** (`save_onnx_pipeline`). The pipeline is assembled from
  the unoptimized artifacts. The optimized directory is then produced as a copy
  of the saved unoptimized tree without its `weights.pb` blobs, with each
  submodel's `model.onnx` overwritten by its optimized artifact.

Modules, one per component: `Wrappers` (Option/Result), `Versions` (release
triples), `ConfigAdapter`, `VersionGate`, `Footprints`, `SessionSetup` and
`PipelineSave`. Everything is a pure function over immutable datatypes. The
source has four `for` loops:

- The pass-filtering loops of the two adapters (ort.py:25 and ort.py:37) are
  one method with a loop invariant, `ConfigAdapter.PopUnusedPasses`. It is
  proved equal to the functional `KeepPasses`.
- The footprint scan (ort.py:76) is the method `Footprints.ResolveFootprints`,
  with loop invariants. It is proved equal to the functional `Resolve`.
- The copy loop (ort.py:134) is the recursive function `PipelineSave.Overlay`.

Behaviour notes:

- Both footprint roles are last-seen-wins. Under `only_conversion`, a later
  optimization or quantization footprint still overrides the optimized pick
  (`Footprints.LaterOptimizerOverrides`).
- Shape binding performs no validation of the geometry and is total.
- Only the session setup rejects an unknown provider key. `validate_ort_version`
  lets any key other than `dml` and `cuda` proceed.
- The copy of a submodel's optimized artifact fails when the submodel has no
  directory in the copied tree. A submodel named `weights.pb` is one such case
  (`PipelineSave.WeightsNamedSubmodelFails`).

Modelling choices:

- A runtime version is a `(major, minor, patch)` triple of naturals.
  `Versions.LessIsTupleLess` shows its order is Python's tuple order on the
  release numbers.
- A configuration is the pass map, the provider slot
  `systems.local_system.accelerators[0].execution_providers`, and a `rest` map
  that stands for all other content.
- Directory trees are maps from relative paths (component sequences) to file
  contents. Artifact files outside the trees are the map `files`.
- The runtime version, the `only_conversion` flag and the sample sizes of the
  pipeline configuration are parameters instead of module globals.

## Model

| member | source | states |
|---|---|---|
| ConfigAdapter.PopUnusedPasses | examples/stable_diffusion/sd_utils/ort.py:25-27 | Popping every unused name from a snapshot of the pass names leaves exactly the used passes, with their options unchanged |
| ConfigAdapter.UpdateDml | examples/stable_diffusion/sd_utils/ort.py:23-29 | The pass names become the input's names intersected with {convert, optimize}; kept options are unchanged; the providers become exactly [DmlExecutionProvider]; the rest of the configuration is untouched |
| ConfigAdapter.UpdateDmlIdempotent | examples/stable_diffusion/sd_utils/ort.py:23-29 | Adapting for DML twice gives the same configuration as once |
| ConfigAdapter.PatchCudaOptions | examples/stable_diffusion/sd_utils/ort.py:33-35 | On runtimes below 1.17.0, `optimization_options` of `optimize_cuda` becomes exactly {enable_skip_group_norm: false}. All other options and passes keep their values. A missing `optimize_cuda` is a KeyError and a non-object one a TypeError. From 1.17.0 on, nothing changes |
| ConfigAdapter.UpdateCuda | examples/stable_diffusion/sd_utils/ort.py:32-41 | Succeeds exactly when no patch is due or `optimize_cuda` is an object. Pass names become the input's names intersected with {convert, optimize_cuda}. Providers become [CUDAExecutionProvider]. On old runtimes the patched options survive the filter; on new ones every kept pass is unchanged |
| ConfigAdapter.UpdateCudaIdempotent | examples/stable_diffusion/sd_utils/ort.py:32-41 | Adapting a CUDA configuration again on the same runtime changes nothing |
| ConfigAdapter.AdaptersNeverAddPasses | examples/stable_diffusion/sd_utils/ort.py:24-39 | Neither adapter introduces a pass absent from its input; a CUDA-adapted configuration re-adapted for DML keeps at most `convert` |
| Versions.LessIsTupleLess | examples/stable_diffusion/sd_utils/ort.py:33 | The version comparison is the lexicographic comparison of the release tuples |
| Versions.LessIsStrictTotalOrder | examples/stable_diffusion/sd_utils/ort.py:56-60 | The version order is irreflexive, transitive, asymmetric and total, so each threshold splits the versions cleanly |
| VersionGate.ValidateOrtVersion | examples/stable_diffusion/sd_utils/ort.py:55-66 | Fatal exactly for dml below 1.16.0 or cuda below 1.16.2, naming that minimum. A warning exactly for cuda from 1.16.2 up to but excluding 1.17.0. Proceeds in every other case, including any other provider |
| VersionGate.UpgradeNeverHurts | examples/stable_diffusion/sd_utils/ort.py:55-66 | A newer runtime never gets a worse verdict than an older one for the same provider |
| VersionGate.WarningMatchesCudaPatch | examples/stable_diffusion/sd_utils/ort.py:59-66 | For every CUDA runtime that is not rejected, the SkipGroupNorm warning is given exactly when the CUDA adapter patches the options |
| Footprints.Kind | examples/stable_diffusion/sd_utils/ort.py:77-82 | A footprint is a conversion, optimization or quantization footprint exactly when its lower-cased pass name is the corresponding Olive pass name |
| Footprints.KindIgnoresCase | examples/stable_diffusion/sd_utils/ort.py:77 | Two pass names that lower-case alike classify alike |
| Footprints.UnnamedIsOtherPass | examples/stable_diffusion/sd_utils/ort.py:77 | A null or empty `from_pass` is of no known pass, so it matches no role |
| Footprints.ConversionNameClassifies | examples/stable_diffusion/sd_utils/ort.py:78 | "OnnxConversion" is a conversion footprint |
| Footprints.OptimizationNameClassifies | examples/stable_diffusion/sd_utils/ort.py:82 | "OrtTransformersOptimization" is an optimization footprint |
| Footprints.QuantizationNameClassifies | examples/stable_diffusion/sd_utils/ort.py:82 | "OnnxStaticQuantization" is a quantization footprint |
| Footprints.LastPlaying | examples/stable_diffusion/sd_utils/ort.py:76-83 | Returns the index of a record playing the role with no later one playing it, or nothing when none does |
| Footprints.Resolve | examples/stable_diffusion/sd_utils/ort.py:74-86 | Fails on the conversion role exactly when no conversion footprint exists. Fails on the optimized role exactly when a conversion exists but no candidate does. On success, unoptimized is the last conversion artifact and optimized the last candidate artifact |
| Footprints.ResolveFootprints | examples/stable_diffusion/sd_utils/ort.py:74-86 | The scan over the raw footprints normalises each pass name and overwrites a pick on every match. It returns exactly the last-seen resolution of the normalised records |
| Footprints.PickAppend | examples/stable_diffusion/sd_utils/ort.py:76-83 | One more record takes over exactly the roles it plays; the other picks stay |
| Footprints.LaterOptimizerOverrides | examples/stable_diffusion/sd_utils/ort.py:80-83 | A later optimization or quantization footprint replaces the optimized artifact, with or without `only_conversion`, and leaves the unoptimized one |
| Footprints.LaterConversionOverrides | examples/stable_diffusion/sd_utils/ort.py:78-81 | A later conversion footprint replaces the unoptimized artifact, and under `only_conversion` the optimized one too |
| Footprints.OtherPassIgnored | examples/stable_diffusion/sd_utils/ort.py:76-83 | A footprint of any other pass changes neither pick |
| Footprints.OnlyConversionPicksAgree | examples/stable_diffusion/sd_utils/ort.py:78-83 | Under `only_conversion` with no optimization or quantization footprint, both roles pick the same footprint |
| Footprints.OnlyConversionCollapses | examples/stable_diffusion/sd_utils/ort.py:78-86 | Under `only_conversion`, conversion footprints alone resolve, and unoptimized equals optimized |
| Footprints.UnetScenario | examples/stable_diffusion/sd_utils/ort.py:74-86 | [OnnxConversion a, OrtTransformersOptimization b] resolves to (a, b) |
| SessionSetup.HiddenBatch | examples/stable_diffusion/sd_utils/ort.py:157 | The unet batch is the batch size when guidance is at most 1.0 and twice it otherwise |
| SessionSetup.DimensionOverrides | examples/stable_diffusion/sd_utils/ort.py:156-177 | Dynamic mode overrides nothing; static mode overrides exactly the fifteen named dimensions |
| SessionSetup.OverridesCoverInputs | examples/stable_diffusion/sd_utils/ort.py:161-177 | The override names are exactly the dimension names of the unet sample, timestep and hidden states and the decoder and encoder inputs |
| SessionSetup.StaticShapes | examples/stable_diffusion/sd_utils/ort.py:156-177 | Static mode fixes every input shape. Unet sample [h,4,s/8,s/8], timestep [1] and hidden states [h,77] share the guidance batch h. Decoder is [b,4,u,u] and encoder [b,3,v,v] at the plain batch b |
| SessionSetup.DynamicShapesUnbound | examples/stable_diffusion/sd_utils/ort.py:149-156 | In dynamic mode no input has a bound shape, whatever the geometry |
| SessionSetup.DoublingLaw | examples/stable_diffusion/sd_utils/ort.py:157-174 | At guidance 1.0 the unet batches equal b; at 7.5 they are 2b; decoder and encoder batches are b in both cases |
| SessionSetup.LatentSizeIsFloorDivision | examples/stable_diffusion/sd_utils/ort.py:163-164 | The latent side h satisfies 8h <= image size < 8h+8, that is, floor division as Python's `//` does it |
| SessionSetup.ProviderFor | examples/stable_diffusion/sd_utils/ort.py:179-183 | A provider is found exactly for `dml` and `cuda`: DmlExecutionProvider and CUDAExecutionProvider respectively |
| SessionSetup.OrtPipelineSetup | examples/stable_diffusion/sd_utils/ort.py:146-185 | Succeeds exactly for `dml` and `cuda`, else fails naming the key. The memory pattern is always off. The overrides are those of the static or dynamic mode. The provider is the mapped one |
| SessionSetup.ProviderAgreesWithAdapters | examples/stable_diffusion/sd_utils/ort.py:179-182 | The provider the session uses for a key is the one the matching adapter writes into the configuration |
| PipelineSave.AssemblePipeline | examples/stable_diffusion/sd_utils/ort.py:111-126 | Succeeds exactly when every looked-up submodel (safety checker only when present) has a result, else names the first missing one in lookup order. Each submodel loads from its unoptimized artifact's directory; shared components are reused; `requires_safety_checker` is always true |
| PipelineSave.CopyWithoutWeights | examples/stable_diffusion/sd_utils/ort.py:133 | The copy holds exactly the files with no `weights.pb` component on their path, with the same content |
| PipelineSave.Overlay | examples/stable_diffusion/sd_utils/ort.py:134-137 | Succeeds exactly when every listed submodel has a result, an existing optimized artifact and a directory in the tree. Otherwise it fails at the first that does not: a missing result, then a missing source, then a missing destination. On success the tree gains each `<name>/model.onnx` with that artifact's content and no other file changes |
| PipelineSave.Materialize | examples/stable_diffusion/sd_utils/ort.py:133-137 | Succeeds exactly when every listed submodel can be overlaid on the `weights.pb`-free copy. The optimized tree is then that copy plus every `<name>/model.onnx` set to the optimized artifact; every other entry is unchanged |
| PipelineSave.MaterializeDropsWeights | examples/stable_diffusion/sd_utils/ort.py:133-137 | No path of a successfully materialized tree has a `weights.pb` component |
| PipelineSave.WeightsNamedSubmodelFails | examples/stable_diffusion/sd_utils/ort.py:133-137 | Overlaying a submodel named `weights.pb` fails, since the copy has no such directory |
| PipelineSave.OverlayOrderIrrelevant | examples/stable_diffusion/sd_utils/ort.py:134-137 | The order of the listed submodels, and repeats among them, do not change the result |
| PipelineSave.SaveOnnxPipeline | examples/stable_diffusion/sd_utils/ort.py:104-137 | A failed assembly stops everything before any copy. On success the pipeline is the assembled one, the unoptimized tree is what it saves, and the optimized tree is the materialization of that tree. Success requires every constructor input and every overlay |

## Left out

- JSON loading of `footprints.json` and the construction of its path (ort.py:70-72) are left out. The model takes the footprint records, in document order, as its input.
- `ONNXModelHandler` (ort.py:88-89) is left out. A footprint's `model_config.config` is represented by the artifact path it resolves to.
- The `print` calls and logger severity settings (ort.py:45, 143) are side effects with no semantics. `validate_args` (ort.py:44-52) adds nothing beyond a deprecation print.
- `sys.exit(1)` is represented by the `Fatal` verdict.
- `OnnxRuntimeModel.from_pretrained` (ort.py:112, 117-121) and `OnnxStableDiffusionPipeline.from_pretrained` (ort.py:184-186) are foreign loaders. Each submodel handle is the directory it is loaded from, and the session setup is the value handed to the loader.
- `save_pretrained` (ort.py:129) is a foreign writer. The tree it writes is a parameter (`saveTree`).
- The `ort.SessionOptions` object is reduced to its two settings: the memory pattern and the dimension overrides.
- Version-string parsing by `packaging.version` (pre-release, post-release and local tags) is left out. Versions are plain release triples.
- Footprints.Lower: lower-casing covers ASCII letters only, while Python's `str.lower` also folds non-ASCII letters. This cannot change a classification. The only non-ASCII characters that lower into ASCII are the Kelvin sign (U+212A, to `k`) and U+0130 (to two code points, `i` and a combining dot). None of the three pass names contains a `k`, and the combining dot is not ASCII.
- ConfigAdapter.UpdateDml: the order of the passes in the configuration is not represented, because passes are a map. The source keeps the surviving passes in their original order.
- ConfigAdapter.UpdateCuda: the order of the passes in the configuration is not represented, because passes are a map. The source keeps the surviving passes in their original order.
- The adapters assume `passes` and `systems.local_system.accelerators[0]` exist. The KeyError or IndexError their absence raises is not modelled.
- The adapters mutate their argument in place and return it. The model returns a new value instead.
- PipelineSave.Overlay: a failure returns only the error. The partially overwritten directory the source leaves behind is not represented.
- PipelineSave.Overlay: a tree records files only, so a directory exists when some file lies below it. An empty `<name>/` directory, which `copyfile` could write into, counts as missing and makes the overlay fail.
- PipelineSave.Materialize: the same approximation of directory existence applies, inherited from `PipelineSave.Overlay`.
- PipelineSave.SaveOnnxPipeline: the same approximation of directory existence applies. The tree `save_pretrained` writes is a parameter, so nothing ties the listed submodels to the directories it creates.
- PipelineSave.CopyWithoutWeights: `copytree` fails when the destination already exists, and that is not modelled. The platform case-folding of `ignore_patterns` on Windows is not modelled either; the name match is exact.
- Floating-point behaviour of the guidance scale is not modelled beyond its single comparison with 1.0, which is taken on reals.
- Integer overflow is not modelled, because Python integers are unbounded.
- test/unit_test/passes/onnx/test_insert_beam_search.py only drives the `InsertBeamSearch` pass and `CompositeModelHandler`. Neither is part of this model, and the test has no assertion to state.
