/**
 * `validate_ort_version`: the decision table that decides, before any pass
 * runs, whether the installed runtime is good enough for the chosen provider.
 * The source prints and calls `sys.exit(1)`; here the decision is a value.
 */
module VersionGate {
  import opened Versions
  import ConfigAdapter

  datatype Verdict =
    | Proceed
      /** The script goes on, but SkipGroupNorm fusion will be disabled. */
    | WarnSkipGroupNorm
      /** The script exits with status 1, naming the oldest acceptable runtime. */
    | Fatal(minimum: Version)

  function ValidateOrtVersion(provider: string, v: Version): (r: Verdict)
    ensures r.Fatal? <==>
              || (provider == "dml" && Less(v, V1_16_0))
              || (provider == "cuda" && Less(v, V1_16_2))
    ensures r.WarnSkipGroupNorm? <==>
              provider == "cuda" && LessEq(V1_16_2, v) && Less(v, V1_17_0)
    ensures r.Proceed? <==>
              || (provider != "dml" && provider != "cuda")
              || (provider == "dml" && LessEq(V1_16_0, v))
              || (provider == "cuda" && LessEq(V1_17_0, v))
    ensures r.Fatal? ==> Less(v, r.minimum)
    ensures r.Fatal? ==> r.minimum == (if provider == "dml" then V1_16_0 else V1_16_2)
  {
    LessIsStrictTotalOrder(v, V1_16_0, V1_16_2);
    LessIsStrictTotalOrder(v, V1_16_2, V1_17_0);
    if provider == "dml" && Less(v, V1_16_0) then Fatal(V1_16_0)
    else if provider == "cuda" && Less(v, V1_17_0) then
      if Less(v, V1_16_2) then Fatal(V1_16_2) else WarnSkipGroupNorm
    else Proceed
  }

  /** How bad a verdict is: proceeding, warning, exiting. */
  function Severity(r: Verdict): nat {
    match r
    case Proceed => 0
    case WarnSkipGroupNorm => 1
    case Fatal(_) => 2
  }

  /** Upgrading the runtime never makes the verdict worse. */
  lemma UpgradeNeverHurts(provider: string, v: Version, w: Version)
    requires LessEq(v, w)
    ensures Severity(ValidateOrtVersion(provider, w)) <= Severity(ValidateOrtVersion(provider, v))
  {
  }

  /**
   * The warning is given exactly when the CUDA adapter patches the
   * `optimize_cuda` options, for every CUDA runtime the gate lets through.
   */
  lemma WarningMatchesCudaPatch(v: Version)
    requires !ValidateOrtVersion("cuda", v).Fatal?
    ensures ValidateOrtVersion("cuda", v).WarnSkipGroupNorm? <==> ConfigAdapter.NeedsSkipGroupNormPatch(v)
  {
  }
}
