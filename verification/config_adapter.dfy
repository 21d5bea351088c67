/**
 * The accelerator-specific configuration adapters of the stable-diffusion
 * example (`update_dml_config`, `update_cuda_config` in
 * examples/stable_diffusion/sd_utils/ort.py). Each one keeps only the passes its
 * accelerator runs and pins the execution-provider list to a single entry; the
 * CUDA one first patches the `optimize_cuda` options on old runtimes.
 */
module ConfigAdapter {
  import opened Wrappers
  import opened Versions

  /** The JSON values a workflow configuration is made of. */
  datatype Json =
    | JNull
    | JBool(b: bool)
    | JNum(n: int)
    | JStr(s: string)
    | JArr(items: seq<Json>)
    | JObj(fields: map<string, Json>)

  /**
   * A workflow configuration: `passes` maps a pass name to its options,
   * `executionProviders` is the slot
   * `systems.local_system.accelerators[0].execution_providers`, and `rest`
   * stands for everything else in the document, which the adapters never touch.
   */
  datatype Config = Config(
    passes: map<string, Json>,
    executionProviders: seq<string>,
    rest: map<string, Json>)

  /** Why the CUDA adapter raises instead of returning a configuration. */
  datatype AdaptError =
    | MissingOptimizeCuda      // `passes["optimize_cuda"]` raises KeyError
    | OptimizeCudaNotObject    // item assignment on a non-dict raises TypeError

  const DmlProvider := "DmlExecutionProvider"
  const CudaProvider := "CUDAExecutionProvider"

  const DmlPasses: set<string> := {"convert", "optimize"}
  const CudaPasses: set<string> := {"convert", "optimize_cuda"}

  /** The options written on runtimes older than 1.17.0: SkipGroupNorm fusion off. */
  const SkipGroupNormOff := JObj(map["enable_skip_group_norm" := JBool(false)])

  /** The passes of `passes` whose name is in `used`, with their options. */
  function KeepPasses(passes: map<string, Json>, used: set<string>): (r: map<string, Json>)
    ensures r.Keys == passes.Keys * used
    ensures forall k :: k in r ==> r[k] == passes[k]
  {
    map k | k in passes && k in used :: passes[k]
  }

  /**
   * The source's filtering loop: walk a snapshot of the pass names and pop every
   * name that is not used. It computes exactly `KeepPasses`.
   */
  method PopUnusedPasses(passes: map<string, Json>, used: set<string>) returns (r: map<string, Json>)
    ensures r == KeepPasses(passes, used)
  {
    r := passes;
    var todo := passes.Keys;
    while todo != {}
      invariant todo <= passes.Keys
      invariant forall k :: k in r <==> k in passes && (k in todo || k in used)
      invariant forall k :: k in r ==> r[k] == passes[k]
      decreases todo
    {
      var name :| name in todo;
      if name !in used {
        r := r - {name};
      }
      todo := todo - {name};
    }
  }

  /** `update_dml_config`. */
  function UpdateDml(c: Config): (r: Config)
    ensures r.passes.Keys == c.passes.Keys * DmlPasses
    ensures forall k :: k in r.passes ==> r.passes[k] == c.passes[k]
    ensures r.executionProviders == [DmlProvider]
    ensures r.rest == c.rest
  {
    Config(KeepPasses(c.passes, DmlPasses), [DmlProvider], c.rest)
  }

  /** True when the runtime predates the SkipGroupNorm shape-inference fix. */
  predicate NeedsSkipGroupNormPatch(v: Version) {
    Less(v, V1_17_0)
  }

  /** The version-gated first step of `update_cuda_config`. */
  function PatchCudaOptions(v: Version, passes: map<string, Json>): (r: Result<map<string, Json>, AdaptError>)
    ensures !NeedsSkipGroupNormPatch(v) ==> r == Success(passes)
    ensures NeedsSkipGroupNormPatch(v) && "optimize_cuda" !in passes ==> r == Failure(MissingOptimizeCuda)
    ensures (NeedsSkipGroupNormPatch(v) && "optimize_cuda" in passes && !passes["optimize_cuda"].JObj?)
              ==> r == Failure(OptimizeCudaNotObject)
    ensures r.Success? ==> r.value.Keys == passes.Keys
    ensures r.Success? ==> forall k :: k in passes && k != "optimize_cuda" ==> r.value[k] == passes[k]
    ensures r.Success? && NeedsSkipGroupNormPatch(v) ==>
              && r.value["optimize_cuda"].JObj?
              && r.value["optimize_cuda"].fields.Keys
                 == passes["optimize_cuda"].fields.Keys + {"optimization_options"}
              && r.value["optimize_cuda"].fields["optimization_options"] == SkipGroupNormOff
              && (forall o :: o in passes["optimize_cuda"].fields && o != "optimization_options"
                    ==> r.value["optimize_cuda"].fields[o] == passes["optimize_cuda"].fields[o])
  {
    if !NeedsSkipGroupNormPatch(v) then Success(passes)
    else if "optimize_cuda" !in passes then Failure(MissingOptimizeCuda)
    else match passes["optimize_cuda"]
      case JObj(fields) =>
        Success(passes["optimize_cuda" := JObj(fields["optimization_options" := SkipGroupNormOff])])
      case _ => Failure(OptimizeCudaNotObject)
  }

  /** `update_cuda_config`, run against the installed runtime version `v`. */
  function UpdateCuda(v: Version, c: Config): (r: Result<Config, AdaptError>)
    ensures r.Success? <==>
              !NeedsSkipGroupNormPatch(v) || ("optimize_cuda" in c.passes && c.passes["optimize_cuda"].JObj?)
    ensures r.Failure? ==>
              r.error == (if "optimize_cuda" in c.passes then OptimizeCudaNotObject else MissingOptimizeCuda)
    ensures r.Success? ==> r.value.passes.Keys == c.passes.Keys * CudaPasses
    ensures r.Success? ==> r.value.executionProviders == [CudaProvider]
    ensures r.Success? ==> r.value.rest == c.rest
    ensures r.Success? ==> "convert" in c.passes ==> r.value.passes["convert"] == c.passes["convert"]
    ensures r.Success? && !NeedsSkipGroupNormPatch(v) ==>
              forall k :: k in r.value.passes ==> r.value.passes[k] == c.passes[k]
    ensures r.Success? && NeedsSkipGroupNormPatch(v) ==>
              r.value.passes["optimize_cuda"]
              == JObj(c.passes["optimize_cuda"].fields["optimization_options" := SkipGroupNormOff])
  {
    var patched :- PatchCudaOptions(v, c.passes);
    Success(Config(KeepPasses(patched, CudaPasses), [CudaProvider], c.rest))
  }

  /** Adapting a DML configuration a second time changes nothing. */
  lemma UpdateDmlIdempotent(c: Config)
    ensures UpdateDml(UpdateDml(c)) == UpdateDml(c)
  {
  }

  /** Adapting a CUDA configuration a second time, on the same runtime, changes nothing. */
  lemma UpdateCudaIdempotent(v: Version, c: Config)
    requires UpdateCuda(v, c).Success?
    ensures UpdateCuda(v, UpdateCuda(v, c).value) == UpdateCuda(v, c)
  {
    var once := UpdateCuda(v, c).value;
    var twice := UpdateCuda(v, once);
    assert twice.Success?;
    if NeedsSkipGroupNormPatch(v) {
      var f := c.passes["optimize_cuda"].fields;
      assert once.passes["optimize_cuda"] == JObj(f["optimization_options" := SkipGroupNormOff]);
      assert f["optimization_options" := SkipGroupNormOff]["optimization_options" := SkipGroupNormOff]
          == f["optimization_options" := SkipGroupNormOff];
    }
    assert twice.value.passes == once.passes;
  }

  /** Neither adapter ever introduces a pass that was not in its input. */
  lemma AdaptersNeverAddPasses(v: Version, c: Config)
    ensures UpdateDml(c).passes.Keys <= c.passes.Keys * DmlPasses
    ensures UpdateCuda(v, c).Success? ==> UpdateCuda(v, c).value.passes.Keys <= c.passes.Keys * CudaPasses
    ensures UpdateCuda(v, c).Success? ==> UpdateDml(UpdateCuda(v, c).value).passes.Keys <= {"convert"}
  {
  }
}
