/**
 * Footprint resolution: the loop of `save_optimized_onnx_submodel` that scans a
 * submodel's footprint records, in the insertion order of the footprints
 * document, and picks the converted ("unoptimized") and the optimized
 * artifact. Every match overwrites the previous pick, so both roles are
 * last-seen-wins.
 */
module Footprints {
  import opened Wrappers

  /** A filesystem path as its sequence of components. */
  type Path = seq<string>

  /** A provenance record: the pass that produced it (null allowed) and its artifact. */
  datatype Footprint = Footprint(fromPass: Option<string>, artifact: Path)

  /** The pass families the resolver tells apart, after case normalisation. */
  datatype PassKind = ConversionPass | OptimizationPass | QuantizationPass | OtherPass

  /** The two artifacts a submodel resolves to. */
  datatype Role = Unoptimized | Optimized

  datatype Resolved = Resolved(unoptimized: Path, optimized: Path)

  /** A role with no footprint: the source's failing `assert`. */
  datatype MissingArtifact = MissingArtifact(role: Role)

  function LowerChar(c: char): char {
    if 'A' <= c <= 'Z' then (c as int + ('a' as int - 'A' as int)) as char else c
  }

  /** `str.lower`, on the ASCII letters. */
  function Lower(s: string): (r: string)
    ensures |r| == |s|
    ensures forall i :: 0 <= i < |s| ==> r[i] == LowerChar(s[i])
  {
    seq(|s|, i requires 0 <= i < |s| => LowerChar(s[i]))
  }

  /** The normalised pass name; a null or empty `from_pass` becomes "". */
  function NormalizedPass(fp: Footprint): string {
    match fp.fromPass
    case None => ""
    case Some(name) => if name == "" then "" else Lower(name)
  }

  function Kind(fp: Footprint): (k: PassKind)
    ensures k == ConversionPass <==> NormalizedPass(fp) == "onnxconversion"
    ensures k == OptimizationPass <==> NormalizedPass(fp) == "orttransformersoptimization"
    ensures k == QuantizationPass <==> NormalizedPass(fp) == "onnxstaticquantization"
  {
    var name := NormalizedPass(fp);
    if name == "onnxconversion" then ConversionPass
    else if name == "orttransformersoptimization" then OptimizationPass
    else if name == "onnxstaticquantization" then QuantizationPass
    else OtherPass
  }

  /** A footprint after normalisation: its pass kind and its artifact. */
  datatype Record = Record(kind: PassKind, artifact: Path)

  /** The normalisation boundary: classify the pass name once. */
  function Normalize(fp: Footprint): (r: Record)
    ensures r.artifact == fp.artifact && r.kind == Kind(fp)
  {
    Record(Kind(fp), fp.artifact)
  }

  function NormalizeAll(fps: seq<Footprint>): (rs: seq<Record>)
    ensures |rs| == |fps|
    ensures forall i :: 0 <= i < |fps| ==> rs[i] == Normalize(fps[i])
  {
    seq(|fps|, i requires 0 <= i < |fps| => Normalize(fps[i]))
  }

  /** Whether a footprint of kind `k` is a candidate for `role` under the `only_conversion` switch. */
  predicate Plays(k: PassKind, role: Role, onlyConversion: bool) {
    match role
    case Unoptimized => k == ConversionPass
    case Optimized => k == OptimizationPass || k == QuantizationPass || (onlyConversion && k == ConversionPass)
  }

  /** The index of the last record playing `role`, if any. */
  function LastPlaying(rs: seq<Record>, role: Role, onlyConversion: bool): (r: Option<nat>)
    ensures r.Some? ==>
              && r.value < |rs|
              && Plays(rs[r.value].kind, role, onlyConversion)
              && forall j :: r.value < j < |rs| ==> !Plays(rs[j].kind, role, onlyConversion)
    ensures r.None? ==> forall j :: 0 <= j < |rs| ==> !Plays(rs[j].kind, role, onlyConversion)
    decreases |rs|
  {
    if |rs| == 0 then None
    else if Plays(rs[|rs| - 1].kind, role, onlyConversion) then Some(|rs| - 1)
    else LastPlaying(rs[..|rs| - 1], role, onlyConversion)
  }

  /** The record that ends up assigned to `role` after the scan. */
  function Pick(rs: seq<Record>, role: Role, onlyConversion: bool): Option<Record> {
    match LastPlaying(rs, role, onlyConversion)
    case None => None
    case Some(i) => Some(rs[i])
  }

  /**
   * The resolution as a specification: the last conversion record gives the
   * unoptimized artifact, the last optimization, quantization or (under
   * `only_conversion`) conversion record gives the optimized one; a missing
   * conversion is reported before a missing optimized artifact.
   */
  function Resolve(rs: seq<Record>, onlyConversion: bool): (r: Result<Resolved, MissingArtifact>)
    ensures r == Failure(MissingArtifact(Unoptimized)) <==>
              forall j :: 0 <= j < |rs| ==> rs[j].kind != ConversionPass
    ensures r == Failure(MissingArtifact(Optimized)) <==>
              && (exists j :: 0 <= j < |rs| && rs[j].kind == ConversionPass)
              && forall j :: 0 <= j < |rs| ==> !Plays(rs[j].kind, Optimized, onlyConversion)
    ensures r.Success? ==>
              exists i :: 0 <= i < |rs| && rs[i].kind == ConversionPass
                && r.value.unoptimized == rs[i].artifact
                && forall j :: i < j < |rs| ==> rs[j].kind != ConversionPass
    ensures r.Success? ==>
              exists i :: 0 <= i < |rs| && Plays(rs[i].kind, Optimized, onlyConversion)
                && r.value.optimized == rs[i].artifact
                && forall j :: i < j < |rs| ==> !Plays(rs[j].kind, Optimized, onlyConversion)
  {
    match (Pick(rs, Unoptimized, onlyConversion), Pick(rs, Optimized, onlyConversion))
    case (None, _) => Failure(MissingArtifact(Unoptimized))
    case (_, None) => Failure(MissingArtifact(Optimized))
    case (Some(conversion), Some(optimizer)) => Success(Resolved(conversion.artifact, optimizer.artifact))
  }

  /** The last-seen pick after one more record: the new one wins any role it plays. */
  lemma PickAppend(rs: seq<Record>, rec: Record, role: Role, onlyConversion: bool)
    ensures Pick(rs + [rec], role, onlyConversion)
            == if Plays(rec.kind, role, onlyConversion) then Some(rec) else Pick(rs, role, onlyConversion)
  {
  }

  /** The normalised footprint a pick variable of the scan holds. */
  function NormalizeOpt(fp: Option<Footprint>): Option<Record> {
    match fp
    case None => None
    case Some(f) => Some(Normalize(f))
  }

  /**
   * The scan itself, as written: one pass over the raw footprints, normalising
   * each pass name and overwriting a pick on every match. It returns exactly
   * the resolution of the normalised records.
   */
  method ResolveFootprints(fps: seq<Footprint>, onlyConversion: bool)
    returns (r: Result<Resolved, MissingArtifact>)
    ensures r == Resolve(NormalizeAll(fps), onlyConversion)
  {
    var conversion: Option<Footprint> := None;
    var optimizer: Option<Footprint> := None;
    for i := 0 to |fps|
      invariant NormalizeOpt(conversion) == Pick(NormalizeAll(fps)[..i], Unoptimized, onlyConversion)
      invariant NormalizeOpt(optimizer) == Pick(NormalizeAll(fps)[..i], Optimized, onlyConversion)
    {
      var fp := fps[i];
      assert NormalizeAll(fps)[..i + 1] == NormalizeAll(fps)[..i] + [Normalize(fp)];
      PickAppend(NormalizeAll(fps)[..i], Normalize(fp), Unoptimized, onlyConversion);
      PickAppend(NormalizeAll(fps)[..i], Normalize(fp), Optimized, onlyConversion);
      var kind := Kind(fp);
      if kind == ConversionPass {
        conversion := Some(fp);
        if onlyConversion {
          optimizer := Some(fp);
        }
      } else if kind == OptimizationPass || kind == QuantizationPass {
        optimizer := Some(fp);
      }
    }
    assert NormalizeAll(fps)[..|fps|] == NormalizeAll(fps);
    if conversion.None? {
      return Failure(MissingArtifact(Unoptimized));
    }
    if optimizer.None? {
      return Failure(MissingArtifact(Optimized));
    }
    r := Success(Resolved(conversion.value.artifact, optimizer.value.artifact));
  }

  /**
   * A later optimization or quantization record takes over the optimized
   * artifact, even under `only_conversion`, and never touches the unoptimized one.
   */
  lemma LaterOptimizerOverrides(rs: seq<Record>, rec: Record, onlyConversion: bool)
    requires Resolve(rs, onlyConversion).Success?
    requires rec.kind == OptimizationPass || rec.kind == QuantizationPass
    ensures Resolve(rs + [rec], onlyConversion)
            == Success(Resolved(Resolve(rs, onlyConversion).value.unoptimized, rec.artifact))
  {
  }

  /** A later conversion record takes over the unoptimized artifact, and under `only_conversion` the optimized one too. */
  lemma LaterConversionOverrides(rs: seq<Record>, rec: Record, onlyConversion: bool)
    requires Resolve(rs, onlyConversion).Success?
    requires rec.kind == ConversionPass
    ensures Resolve(rs + [rec], onlyConversion)
            == Success(Resolved(rec.artifact,
                 if onlyConversion then rec.artifact else Resolve(rs, onlyConversion).value.optimized))
  {
  }

  /** A record of no known pass leaves the resolution as it was. */
  lemma OtherPassIgnored(rs: seq<Record>, rec: Record, onlyConversion: bool)
    requires rec.kind == OtherPass
    ensures Resolve(rs + [rec], onlyConversion) == Resolve(rs, onlyConversion)
  {
  }

  /** Under `only_conversion`, with no optimization or quantization record, both roles pick the same record. */
  lemma OnlyConversionPicksAgree(rs: seq<Record>)
    requires forall j :: 0 <= j < |rs| ==> rs[j].kind != OptimizationPass && rs[j].kind != QuantizationPass
    ensures Pick(rs, Optimized, true) == Pick(rs, Unoptimized, true)
  {
  }

  /** Hence the conversion-only mode resolves both artifacts to the same path. */
  lemma OnlyConversionCollapses(rs: seq<Record>)
    requires exists j :: 0 <= j < |rs| && rs[j].kind == ConversionPass
    requires forall j :: 0 <= j < |rs| ==> rs[j].kind != OptimizationPass && rs[j].kind != QuantizationPass
    ensures Resolve(rs, true).Success?
    ensures Resolve(rs, true).value.unoptimized == Resolve(rs, true).value.optimized
  {
  }

  /** Pass names are compared without regard to letter case. */
  lemma KindIgnoresCase(a: string, b: string, pa: Path, pb: Path)
    requires Lower(a) == Lower(b)
    ensures Kind(Footprint(Some(a), pa)) == Kind(Footprint(Some(b), pb))
  {
  }

  /** A null or empty `from_pass` is of no known pass. */
  lemma UnnamedIsOtherPass(p: Path)
    ensures Kind(Footprint(None, p)) == OtherPass
    ensures Kind(Footprint(Some(""), p)) == OtherPass
  {
  }

  /** The pass names as the pipeline writes them classify as expected. */
  lemma ConversionNameClassifies(p: Path)
    ensures Kind(Footprint(Some("OnnxConversion"), p)) == ConversionPass
  {
  }

  lemma OptimizationNameClassifies(p: Path)
    ensures Kind(Footprint(Some("OrtTransformersOptimization"), p)) == OptimizationPass
  {
  }

  lemma QuantizationNameClassifies(p: Path)
    ensures Kind(Footprint(Some("OnnxStaticQuantization"), p)) == QuantizationPass
  {
  }

  /** The conversion-then-optimization scenario of a typical `unet` run. */
  lemma UnetScenario(a: Path, b: Path)
    ensures Resolve(NormalizeAll([Footprint(Some("OnnxConversion"), a),
                                  Footprint(Some("OrtTransformersOptimization"), b)]), false)
            == Success(Resolved(a, b))
  {
    var conv, opt := Footprint(Some("OnnxConversion"), a), Footprint(Some("OrtTransformersOptimization"), b);
    ConversionNameClassifies(a);
    OptimizationNameClassifies(b);
    var rs := NormalizeAll([conv, opt]);
    assert rs == [] + [Normalize(conv)] + [Normalize(opt)];
    PickAppend([], Normalize(conv), Unoptimized, false);
    PickAppend([], Normalize(conv), Optimized, false);
    PickAppend([Normalize(conv)], Normalize(opt), Unoptimized, false);
    PickAppend([Normalize(conv)], Normalize(opt), Optimized, false);
    assert [] + [Normalize(conv)] == [Normalize(conv)];
  }
}
