/**
 * The session configuration of `get_ort_pipeline`: the static free-dimension
 * overrides derived from the image geometry, the disabled memory pattern, and
 * the lookup of the execution provider from the `dml`/`cuda` key.
 */
module SessionSetup {
  import opened Wrappers
  import ConfigAdapter

  /**
   * What the overrides are computed from: the command line's batch and image
   * size, the guidance scale, and the unet and VAE sample sizes of the
   * pipeline configuration. Nothing validates these values.
   */
  datatype Geometry = Geometry(
    batchSize: int,
    imageSize: int,
    guidanceScale: real,
    unetSampleSize: int,
    vaeSampleSize: int)

  datatype SessionOptions = SessionOptions(enableMemPattern: bool, dimensionOverrides: map<string, int>)

  datatype OrtSetup = OrtSetup(provider: string, sessionOptions: SessionOptions)

  datatype SetupError = UnsupportedProvider(key: string)

  /** The batch the unet sees: classifier-free guidance doubles it once the scale exceeds 1. */
  function HiddenBatch(batchSize: int, guidanceScale: real): (b: int)
    ensures guidanceScale <= 1.0 ==> b == batchSize
    ensures guidanceScale > 1.0 ==> b == batchSize + batchSize
  {
    if guidanceScale <= 1.0 then batchSize else batchSize * 2
  }

  /** Every dimension name the static branch binds. */
  const OverrideNames: set<string> := {
    "unet_sample_batch", "unet_sample_channels", "unet_sample_height", "unet_sample_width",
    "unet_time_batch", "unet_hidden_batch", "unet_hidden_sequence",
    "decoder_batch", "decoder_channels", "decoder_height", "decoder_width",
    "encoder_batch", "encoder_channels", "encoder_height", "encoder_width"}

  /**
   * The free-dimension overrides put on the session: none in dynamic mode,
   * and in static mode one per named dimension. `//` in the source floors; for
   * the positive divisor 8 that is Dafny's `/`.
   */
  function DimensionOverrides(staticDims: bool, g: Geometry): (r: map<string, int>)
    ensures !staticDims ==> r == map[]
    ensures staticDims ==> r.Keys == OverrideNames
  {
    if !staticDims then map[]
    else
      var hidden := HiddenBatch(g.batchSize, g.guidanceScale);
      map[
        "unet_sample_batch" := hidden,
        "unet_sample_channels" := 4,
        "unet_sample_height" := g.imageSize / 8,
        "unet_sample_width" := g.imageSize / 8,
        "unet_time_batch" := 1,
        "unet_hidden_batch" := hidden,
        "unet_hidden_sequence" := 77,
        "decoder_batch" := g.batchSize,
        "decoder_channels" := 4,
        "decoder_height" := g.unetSampleSize,
        "decoder_width" := g.unetSampleSize,
        "encoder_batch" := g.batchSize,
        "encoder_channels" := 3,
        "encoder_height" := g.vaeSampleSize,
        "encoder_width" := g.vaeSampleSize]
  }

  /** The model inputs whose symbolic dimensions the overrides name. */
  datatype ModelInput = UnetSample | UnetTimestep | UnetHiddenStates | DecoderLatent | EncoderSample

  /** The symbolic dimension names of each input, outermost first. */
  function InputDims(i: ModelInput): seq<string> {
    match i
    case UnetSample => ["unet_sample_batch", "unet_sample_channels", "unet_sample_height", "unet_sample_width"]
    case UnetTimestep => ["unet_time_batch"]
    case UnetHiddenStates => ["unet_hidden_batch", "unet_hidden_sequence"]
    case DecoderLatent => ["decoder_batch", "decoder_channels", "decoder_height", "decoder_width"]
    case EncoderSample => ["encoder_batch", "encoder_channels", "encoder_height", "encoder_width"]
  }

  /** The concrete shape of an input once every one of its dimensions is bound, if it is. */
  function BoundShape(overrides: map<string, int>, i: ModelInput): (r: Option<seq<int>>)
    ensures r.Some? <==> forall k :: k in InputDims(i) ==> k in overrides
    ensures r.Some? ==> |r.value| == |InputDims(i)|
    ensures r.Some? ==> forall j :: 0 <= j < |r.value| ==> r.value[j] == overrides[InputDims(i)[j]]
  {
    var dims := InputDims(i);
    if forall k :: k in dims ==> k in overrides then
      Some(seq(|dims|, j requires 0 <= j < |dims| => overrides[dims[j]]))
    else None
  }

  /** The `provider_map` lookup: only `dml` and `cuda` name a provider. */
  function ProviderFor(key: string): (r: Option<string>)
    ensures r.Some? <==> key == "dml" || key == "cuda"
    ensures key == "dml" ==> r == Some(ConfigAdapter.DmlProvider)
    ensures key == "cuda" ==> r == Some(ConfigAdapter.CudaProvider)
  {
    if key == "dml" then Some(ConfigAdapter.DmlProvider)
    else if key == "cuda" then Some(ConfigAdapter.CudaProvider)
    else None
  }

  /** What `get_ort_pipeline` hands to the pipeline loader, or the failed provider assertion. */
  function OrtPipelineSetup(dynamicDims: bool, g: Geometry, providerKey: string): (r: Result<OrtSetup, SetupError>)
    ensures r.Success? <==> providerKey == "dml" || providerKey == "cuda"
    ensures r.Failure? ==> r.error == UnsupportedProvider(providerKey)
    ensures r.Success? ==> !r.value.sessionOptions.enableMemPattern
    ensures r.Success? ==> r.value.sessionOptions.dimensionOverrides == DimensionOverrides(!dynamicDims, g)
    ensures r.Success? ==> Some(r.value.provider) == ProviderFor(providerKey)
  {
    var overrides := DimensionOverrides(!dynamicDims, g);
    match ProviderFor(providerKey)
    case None => Failure(UnsupportedProvider(providerKey))
    case Some(provider) => Success(OrtSetup(provider, SessionOptions(false, overrides)))
  }

  /** The names an input's dimensions use. */
  function DimSet(i: ModelInput): set<string> {
    set k | k in InputDims(i)
  }

  /** The overrides name exactly the dimensions of the five inputs, and nothing else. */
  lemma OverridesCoverInputs()
    ensures OverrideNames
            == DimSet(UnetSample) + DimSet(UnetTimestep) + DimSet(UnetHiddenStates)
               + DimSet(DecoderLatent) + DimSet(EncoderSample)
  {
  }

  /**
   * Static mode fixes every input shape: the unet sample and hidden states
   * share the (guidance-doubled) batch, the latent is an eighth of the image
   * size with 4 channels, the text context is 77 tokens, one timestep, the
   * decoder reads a 4-channel latent at the unet sample size and the encoder a
   * 3-channel image at the VAE sample size, both at the undoubled batch.
   */
  lemma StaticShapes(g: Geometry)
    ensures var o := DimensionOverrides(true, g);
      var hidden := HiddenBatch(g.batchSize, g.guidanceScale);
      && BoundShape(o, UnetSample) == Some([hidden, 4, g.imageSize / 8, g.imageSize / 8])
      && BoundShape(o, UnetTimestep) == Some([1])
      && BoundShape(o, UnetHiddenStates) == Some([hidden, 77])
      && BoundShape(o, DecoderLatent) == Some([g.batchSize, 4, g.unetSampleSize, g.unetSampleSize])
      && BoundShape(o, EncoderSample) == Some([g.batchSize, 3, g.vaeSampleSize, g.vaeSampleSize])
  {
    var o := DimensionOverrides(true, g);
    var hidden := HiddenBatch(g.batchSize, g.guidanceScale);
    ShapeOf(o, UnetSample, [hidden, 4, g.imageSize / 8, g.imageSize / 8]);
    ShapeOf(o, UnetTimestep, [1]);
    ShapeOf(o, UnetHiddenStates, [hidden, 77]);
    ShapeOf(o, DecoderLatent, [g.batchSize, 4, g.unetSampleSize, g.unetSampleSize]);
    ShapeOf(o, EncoderSample, [g.batchSize, 3, g.vaeSampleSize, g.vaeSampleSize]);
  }

  /** An input whose every dimension is bound to the matching entry of `shape` has that shape. */
  lemma ShapeOf(o: map<string, int>, i: ModelInput, shape: seq<int>)
    requires |shape| == |InputDims(i)|
    requires forall j :: 0 <= j < |shape| ==> InputDims(i)[j] in o && o[InputDims(i)[j]] == shape[j]
    ensures BoundShape(o, i) == Some(shape)
  {
    forall k | k in InputDims(i) ensures k in o {
      var j :| 0 <= j < |InputDims(i)| && InputDims(i)[j] == k;
    }
    var r := BoundShape(o, i);
    assert r.Some?;
    assert forall j :: 0 <= j < |shape| ==> r.value[j] == shape[j];
    assert r.value == shape;
  }

  /** Dynamic mode leaves every dimension of every input free, whatever the geometry. */
  lemma DynamicShapesUnbound(g: Geometry, i: ModelInput)
    ensures BoundShape(DimensionOverrides(false, g), i) == None
  {
    assert InputDims(i)[0] in InputDims(i);
  }

  /**
   * The doubling law: at guidance scale 1.0 the unet batch is the batch size,
   * at 7.5 it is twice the batch size, and the decoder and encoder batches stay
   * at the batch size in both cases.
   */
  lemma DoublingLaw(b: int, imageSize: int, unetSampleSize: int, vaeSampleSize: int)
    ensures var plain := DimensionOverrides(true, Geometry(b, imageSize, 1.0, unetSampleSize, vaeSampleSize));
      && plain["unet_hidden_batch"] == b && plain["unet_sample_batch"] == b
      && plain["decoder_batch"] == b && plain["encoder_batch"] == b
    ensures var guided := DimensionOverrides(true, Geometry(b, imageSize, 7.5, unetSampleSize, vaeSampleSize));
      && guided["unet_hidden_batch"] == 2 * b && guided["unet_sample_batch"] == 2 * b
      && guided["decoder_batch"] == b && guided["encoder_batch"] == b
  {
  }

  /** `image_size // 8`: the latent side is the largest whole multiple of 8 not above the image size, divided by 8. */
  lemma LatentSizeIsFloorDivision(g: Geometry)
    ensures var h := DimensionOverrides(true, g)["unet_sample_height"];
      8 * h <= g.imageSize < 8 * h + 8
  {
  }

  /** The provider the session runs on is the one the matching configuration adapter writes. */
  lemma ProviderAgreesWithAdapters(c: ConfigAdapter.Config, v: ConfigAdapter.Versions.Version)
    ensures ProviderFor("dml") == Some(ConfigAdapter.UpdateDml(c).executionProviders[0])
    ensures ConfigAdapter.UpdateCuda(v, c).Success? ==>
              ProviderFor("cuda") == Some(ConfigAdapter.UpdateCuda(v, c).value.executionProviders[0])
  {
  }
}
