/**
 * `save_onnx_pipeline`: assemble the ONNX pipeline from the resolved
 * unoptimized artifacts, then produce the optimized pipeline directory as a
 * copy of the saved unoptimized one without its `weights.pb` blobs, with each
 * listed submodel's `model.onnx` overwritten by its optimized artifact.
 * Directory trees are maps from relative paths to file contents.
 */
module PipelineSave {
  import opened Wrappers
  import opened Footprints

  type Bytes = seq<bv8>

  /** A directory tree: every file under the root, by its relative path. */
  type Tree = map<Path, Bytes>

  /** A component the pipeline reuses from the reference pipeline as it is. */
  type Component = string

  datatype ReferencePipeline = ReferencePipeline(
    tokenizer: Component,
    scheduler: Component,
    featureExtractor: Component)

  /** The assembled pipeline; each ONNX submodel is the directory it is loaded from. */
  datatype OnnxPipeline = OnnxPipeline(
    vaeEncoder: Path,
    vaeDecoder: Path,
    textEncoder: Path,
    unet: Path,
    safetyChecker: Option<Path>,
    tokenizer: Component,
    scheduler: Component,
    featureExtractor: Component,
    requiresSafetyChecker: bool)

  datatype SaveError =
    | MissingSubmodel(name: string)   // `model_info[name]` raises KeyError
    | ArtifactNotFound(path: Path)    // `copyfile` cannot open its source
    | DestinationNotFound(path: Path) // `copyfile` cannot create its destination

  /** `Path.parent`. */
  function Parent(p: Path): Path {
    if |p| == 0 then p else p[..|p| - 1]
  }

  /** The submodels the pipeline constructor looks up, in the order it looks them up. */
  function RequiredSubmodels(hasSafetyChecker: bool): seq<string> {
    (if hasSafetyChecker then ["safety_checker"] else [])
    + ["vae_encoder", "vae_decoder", "text_encoder", "unet"]
  }

  /** The first name without a resolution result. */
  function FirstMissing(names: seq<string>, info: map<string, Resolved>): (r: Option<nat>)
    ensures r.None? ==> forall n :: n in names ==> n in info
    ensures r.Some? ==> r.value < |names| && names[r.value] !in info
    ensures r.Some? ==> forall j :: 0 <= j < r.value ==> names[j] in info
    decreases |names|
  {
    if |names| == 0 then None
    else if names[0] !in info then Some(0)
    else match FirstMissing(names[1..], info)
      case None => None
      case Some(i) => Some(i + 1)
  }

  /** The `OnnxStableDiffusionPipeline(...)` construction. */
  function AssemblePipeline(hasSafetyChecker: bool, info: map<string, Resolved>, reference: ReferencePipeline)
    : (r: Result<OnnxPipeline, SaveError>)
    ensures r.Success? <==> forall n :: n in RequiredSubmodels(hasSafetyChecker) ==> n in info
    ensures r.Failure? ==>
              exists i :: 0 <= i < |RequiredSubmodels(hasSafetyChecker)|
                && r.error == MissingSubmodel(RequiredSubmodels(hasSafetyChecker)[i])
                && RequiredSubmodels(hasSafetyChecker)[i] !in info
                && forall j :: 0 <= j < i ==> RequiredSubmodels(hasSafetyChecker)[j] in info
    ensures r.Success? ==>
              && r.value.unet == Parent(info["unet"].unoptimized)
              && r.value.textEncoder == Parent(info["text_encoder"].unoptimized)
              && r.value.vaeEncoder == Parent(info["vae_encoder"].unoptimized)
              && r.value.vaeDecoder == Parent(info["vae_decoder"].unoptimized)
    ensures r.Success? ==>
              r.value.safetyChecker
              == if hasSafetyChecker then Some(Parent(info["safety_checker"].unoptimized)) else None
    ensures r.Success? ==>
              && r.value.tokenizer == reference.tokenizer
              && r.value.scheduler == reference.scheduler
              && r.value.featureExtractor == reference.featureExtractor
              && r.value.requiresSafetyChecker
  {
    var required := RequiredSubmodels(hasSafetyChecker);
    match FirstMissing(required, info)
    case Some(i) => Failure(MissingSubmodel(required[i]))
    case None =>
      assert "unet" in required && "text_encoder" in required;
      assert "vae_encoder" in required && "vae_decoder" in required;
      Success(OnnxPipeline(
        Parent(info["vae_encoder"].unoptimized),
        Parent(info["vae_decoder"].unoptimized),
        Parent(info["text_encoder"].unoptimized),
        Parent(info["unet"].unoptimized),
        if hasSafetyChecker then Some(Parent(info["safety_checker"].unoptimized)) else None,
        reference.tokenizer,
        reference.scheduler,
        reference.featureExtractor,
        true))
  }

  const WeightsBlob := "weights.pb"
  const ModelFileName := "model.onnx"

  /** `ignore_patterns("weights.pb")` skips a file or directory by that name, and all below it. */
  predicate Ignored(p: Path) {
    WeightsBlob in p
  }

  /** `copytree` with the weight blobs ignored. */
  function CopyWithoutWeights(t: Tree): (r: Tree)
    ensures forall p :: p in r <==> p in t && !Ignored(p)
    ensures forall p :: p in r ==> r[p] == t[p]
  {
    map p | p in t && !Ignored(p) :: t[p]
  }

  /** `<submodel>/model.onnx`. */
  function ModelFile(name: string): Path {
    [name, ModelFileName]
  }

  /** Whether `p` is the model file of one of `names`. */
  predicate IsModelFileOf(p: Path, names: seq<string>) {
    |p| == 2 && p[0] in names && p[1] == ModelFileName
  }

  /** Every model file path is the model file of its first component. */
  lemma ModelFileShape(p: Path)
    requires |p| == 2 && p[1] == ModelFileName
    ensures p == ModelFile(p[0])
  {
  }

  /** Whether directory `<name>/` exists in `tree`: some file lies below it. */
  predicate HasDir(tree: Tree, name: string) {
    exists p :: p in tree && |p| >= 2 && p[0] == name
  }

  /**
   * Whether submodel `n` can be overlaid on `tree`: it has a resolution
   * result, its optimized artifact exists, and its directory exists to
   * receive `model.onnx`.
   */
  predicate CanOverlay(n: string, info: map<string, Resolved>, files: map<Path, Bytes>, tree: Tree) {
    n in info && info[n].optimized in files && HasDir(tree, n)
  }

  /**
   * The error the copy loop stops with at a submodel it cannot overlay: the
   * `model_info` lookup fails first, then `copyfile` opening its source, then
   * `copyfile` opening its destination.
   */
  function OverlayError(n: string, info: map<string, Resolved>, files: map<Path, Bytes>): SaveError {
    if n !in info then MissingSubmodel(n)
    else if info[n].optimized !in files then ArtifactNotFound(info[n].optimized)
    else DestinationNotFound(ModelFile(n))
  }

  /** Writing a model file into an existing submodel directory creates no directory. */
  lemma HasDirAfterWrite(tree: Tree, n: string, content: Bytes, m: string)
    requires HasDir(tree, n)
    ensures HasDir(tree[ModelFile(n) := content], m) <==> HasDir(tree, m)
  {
    if HasDir(tree[ModelFile(n) := content], m) {
      var p :| p in tree[ModelFile(n) := content] && |p| >= 2 && p[0] == m;
      if p !in tree {
        assert p == ModelFile(n);
      }
    }
  }

  /**
   * The copy loop: for each submodel in turn, overwrite its `model.onnx` with
   * the content of its optimized artifact, read from `files`.
   */
  function Overlay(tree: Tree, names: seq<string>, info: map<string, Resolved>, files: map<Path, Bytes>)
    : (r: Result<Tree, SaveError>)
    ensures r.Success? <==> forall n :: n in names ==> CanOverlay(n, info, files, tree)
    ensures r.Failure? ==>
              exists i :: 0 <= i < |names| && !CanOverlay(names[i], info, files, tree)
                && r.error == OverlayError(names[i], info, files)
                && forall j :: 0 <= j < i ==> CanOverlay(names[j], info, files, tree)
    ensures r.Success? ==> forall p :: p in r.value <==> p in tree || IsModelFileOf(p, names)
    ensures r.Success? ==>
              forall n :: n in names ==> ModelFile(n) in r.value && r.value[ModelFile(n)] == files[info[n].optimized]
    ensures r.Success? ==> forall p :: p in tree && !IsModelFileOf(p, names) ==> r.value[p] == tree[p]
    decreases |names|
  {
    if |names| == 0 then Success(tree)
    else
      var n := names[0];
      if !CanOverlay(n, info, files, tree) then Failure(OverlayError(n, info, files))
      else
        var next := tree[ModelFile(n) := files[info[n].optimized]];
        var r := Overlay(next, names[1..], info, files);
        assert forall m :: CanOverlay(m, info, files, next) <==> CanOverlay(m, info, files, tree) by {
          forall m ensures HasDir(next, m) <==> HasDir(tree, m) {
            HasDirAfterWrite(tree, n, files[info[n].optimized], m);
          }
        }
        assert forall m :: m in names <==> m == n || m in names[1..];
        assert forall p :: IsModelFileOf(p, names) <==> p == ModelFile(n) || IsModelFileOf(p, names[1..]) by {
          forall p | IsModelFileOf(p, names) && p != ModelFile(n) ensures IsModelFileOf(p, names[1..]) {
            ModelFileShape(p);
          }
        }
        assert r.Failure? ==> forall j :: 0 <= j < |names| - 1 ==> names[1..][j] == names[j + 1];
        r
  }

  /** The copy-then-overlay step of `save_onnx_pipeline`. */
  function Materialize(unoptimized: Tree, names: seq<string>, info: map<string, Resolved>, files: map<Path, Bytes>)
    : (r: Result<Tree, SaveError>)
    ensures r.Success? <==>
              forall n :: n in names ==> CanOverlay(n, info, files, CopyWithoutWeights(unoptimized))
    ensures r.Success? ==>
              forall p :: p in r.value <==> (p in unoptimized && !Ignored(p)) || IsModelFileOf(p, names)
    ensures r.Success? ==>
              forall n :: n in names ==> ModelFile(n) in r.value && r.value[ModelFile(n)] == files[info[n].optimized]
    ensures r.Success? ==>
              forall p :: p in unoptimized && !Ignored(p) && !IsModelFileOf(p, names) ==> r.value[p] == unoptimized[p]
  {
    Overlay(CopyWithoutWeights(unoptimized), names, info, files)
  }

  /**
   * No `weights.pb` file or directory of the unoptimized tree reaches the
   * optimized one. A submodel named `weights.pb` cannot be overlaid, because
   * the copy has no such directory.
   */
  lemma MaterializeDropsWeights(unoptimized: Tree, names: seq<string>, info: map<string, Resolved>, files: map<Path, Bytes>)
    requires Materialize(unoptimized, names, info, files).Success?
    ensures forall p :: p in Materialize(unoptimized, names, info, files).value ==> !Ignored(p)
  {
    var copy := CopyWithoutWeights(unoptimized);
    forall p | p in Materialize(unoptimized, names, info, files).value && IsModelFileOf(p, names)
      ensures !Ignored(p)
    {
      assert HasDir(copy, p[0]);
      var q :| q in copy && |q| >= 2 && q[0] == p[0];
      assert q[0] in q;
      assert p == [p[0], p[1]];
    }
  }

  /** A submodel named `weights.pb` has no directory in the copy, so overlaying it fails. */
  lemma WeightsNamedSubmodelFails(unoptimized: Tree, info: map<string, Resolved>, files: map<Path, Bytes>)
    ensures Materialize(unoptimized, [WeightsBlob], info, files).Failure?
  {
    assert !CanOverlay(WeightsBlob, info, files, CopyWithoutWeights(unoptimized));
  }

  /** Listing a submodel twice, or in another order, produces the same tree. */
  lemma OverlayOrderIrrelevant(tree: Tree, names: seq<string>, names': seq<string>,
                               info: map<string, Resolved>, files: map<Path, Bytes>)
    requires forall n :: n in names <==> n in names'
    ensures Overlay(tree, names, info, files).Success? <==> Overlay(tree, names', info, files).Success?
    ensures Overlay(tree, names, info, files).Success? ==>
              Overlay(tree, names, info, files) == Overlay(tree, names', info, files)
  {
    var r, r' := Overlay(tree, names, info, files), Overlay(tree, names', info, files);
    assert r.Success? <==> r'.Success?;
    if r.Success? {
      assert forall p :: IsModelFileOf(p, names) <==> IsModelFileOf(p, names');
      assert r.value.Keys == r'.value.Keys;
      forall p | p in r.value ensures r.value[p] == r'.value[p] {
        if IsModelFileOf(p, names) {
          ModelFileShape(p);
        }
      }
      assert r.value == r'.value;
    }
  }

  /**
   * The whole of `save_onnx_pipeline`: assemble, then (given the tree the
   * assembled pipeline saves as) copy and overlay. A missing constructor input
   * stops it before anything is copied.
   */
  function SaveOnnxPipeline(
    hasSafetyChecker: bool,
    info: map<string, Resolved>,
    reference: ReferencePipeline,
    saveTree: OnnxPipeline -> Tree,
    names: seq<string>,
    files: map<Path, Bytes>)
    : (r: Result<(OnnxPipeline, Tree, Tree), SaveError>)
    ensures AssemblePipeline(hasSafetyChecker, info, reference).Failure? ==>
              r == Failure(AssemblePipeline(hasSafetyChecker, info, reference).error)
    ensures r.Success? <==>
              && AssemblePipeline(hasSafetyChecker, info, reference).Success?
              && var saved := saveTree(AssemblePipeline(hasSafetyChecker, info, reference).value);
                 forall n :: n in names ==> CanOverlay(n, info, files, CopyWithoutWeights(saved))
    ensures r.Success? ==>
              && AssemblePipeline(hasSafetyChecker, info, reference).Success?
              && r.value.0 == AssemblePipeline(hasSafetyChecker, info, reference).value
    ensures r.Success? ==> r.value.1 == saveTree(r.value.0)
    ensures r.Success? ==> Materialize(r.value.1, names, info, files) == Success(r.value.2)
    ensures r.Success? ==>
              forall n :: n in names ==> ModelFile(n) in r.value.2 && r.value.2[ModelFile(n)] == files[info[n].optimized]
  {
    match AssemblePipeline(hasSafetyChecker, info, reference)
    case Failure(e) => Failure(e)
    case Success(pipeline) =>
      var unoptimized := saveTree(pipeline);
      match Materialize(unoptimized, names, info, files)
      case Failure(e) => Failure(e)
      case Success(optimized) => Success((pipeline, unoptimized, optimized))
  }
}
