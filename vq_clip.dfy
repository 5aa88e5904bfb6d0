/**
 * The VQ-CLIP model: a backbone dual encoder with an optional quantization
 * adapter after each tower, its forward pass, its feature-extraction entry
 * points, adapter-only saving and grafting of a separately loaded backbone.
 */
module VqClip {
  import opened Wrappers
  import opened Tensors
  import opened Config
  import opened Persistence
  import opened Capabilities
  import opened Quantization
  import opened Outputs

  /**
   * `ShapeMismatch`: the text and image embeddings cannot be multiplied (their
   * feature widths differ). `NonSquareLogits`: the backbone's `clip_loss` was
   * asked for on logits with different numbers of texts and images.
   */
  datatype ForwardError = ShapeMismatch | NonSquareLogits

  /** A checkpoint that could not be located or read. */
  datatype LoadError = LoadError(message: string)

  // ---------------------------------------------------------------------------
  // Flag resolution

  /** An explicit argument wins; `None` falls back to the backbone configuration. */
  function Resolve(explicit: Option<bool>, fallback: bool): bool
  {
    if explicit.Some? then explicit.value else fallback
  }

  function ResolveFlags(
    clipConfig: ClipConfig,
    outputAttentions: Option<bool>, outputHiddenStates: Option<bool>, returnDict: Option<bool>): (f: TowerFlags)
    ensures f.outputAttentions == if outputAttentions.Some? then outputAttentions.value else clipConfig.outputAttentions
    ensures f.outputHiddenStates == if outputHiddenStates.Some? then outputHiddenStates.value else clipConfig.outputHiddenStates
    ensures f.returnDict == if returnDict.Some? then returnDict.value else clipConfig.useReturnDict
  {
    TowerFlags(
      Resolve(outputAttentions, clipConfig.outputAttentions),
      Resolve(outputHiddenStates, clipConfig.outputHiddenStates),
      Resolve(returnDict, clipConfig.useReturnDict))
  }

  /** With every flag given explicitly, the backbone configuration plays no part. */
  lemma ExplicitFlagsIgnoreConfig(c: ClipConfig, d: ClipConfig, outputAttentions: bool, outputHiddenStates: bool, returnDict: bool)
    ensures ResolveFlags(c, Some(outputAttentions), Some(outputHiddenStates), Some(returnDict))
         == ResolveFlags(d, Some(outputAttentions), Some(outputHiddenStates), Some(returnDict))
         == TowerFlags(outputAttentions, outputHiddenStates, returnDict)
  {
  }

  /** With no flag given, all three come from the backbone configuration. */
  lemma OmittedFlagsFromConfig(c: ClipConfig)
    ensures ResolveFlags(c, None, None, None) == TowerFlags(c.outputAttentions, c.outputHiddenStates, c.useReturnDict)
  {
  }

  // ---------------------------------------------------------------------------
  // Model state and construction

  /** The fields of a model instance. */
  datatype ModelState = ModelState(
    config: VqClipConfig,
    clipConfig: ClipConfig,
    clipModel: Backbone,
    visionVqAdapter: Option<Adapter>,
    textVqAdapter: Option<Adapter>)

  /** An adapter is built from its configuration mapping only when that mapping is truthy. */
  function InstantiateAdapter(fragment: Option<ConfigDict>, lib: Library): Option<Adapter>
  {
    if IsTruthyFragment(fragment) then Some(lib.newVqAdapter(fragment.value)) else None
  }

  /** The state `VQCLIPModel(config)` builds. */
  function Init(config: VqClipConfig, lib: Library): ModelState
  {
    var clipConfig := lib.clipConfigFromDict(config.clipConfigDict);
    ModelState(
      config,
      clipConfig,
      lib.newClipModel(clipConfig),
      InstantiateAdapter(config.visionVqAdapterConfigDict, lib),
      InstantiateAdapter(config.textVqAdapterConfigDict, lib))
  }

  /**
   * Each adapter exists exactly when its configuration mapping is present and
   * non-empty, and is then built from that mapping.
   */
  lemma AdapterPresence(config: VqClipConfig, lib: Library)
    ensures var s := Init(config, lib);
      && (s.visionVqAdapter.Some? <==> config.visionVqAdapterConfigDict.Some? && config.visionVqAdapterConfigDict.value != map[])
      && (s.textVqAdapter.Some? <==> config.textVqAdapterConfigDict.Some? && config.textVqAdapterConfigDict.value != map[])
      && (s.visionVqAdapter.Some? ==> s.visionVqAdapter.value == lib.newVqAdapter(config.visionVqAdapterConfigDict.value))
      && (s.textVqAdapter.Some? ==> s.textVqAdapter.value == lib.newVqAdapter(config.textVqAdapterConfigDict.value))
  {
  }

  /** The default configuration quantizes the image side only. */
  lemma DefaultConfigQuantizesVisionOnly(defaults: ConfigDefaults, lib: Library)
    requires NonEmptyDefaults(defaults)
    ensures Init(DefaultVqClipConfig(defaults), lib).visionVqAdapter.Some?
    ensures Init(DefaultVqClipConfig(defaults), lib).textVqAdapter.None?
  {
  }

  // ---------------------------------------------------------------------------
  // Feature extraction and the forward pass, as functions of the state

  /**
   * `get_text_features`: the normalised projected pooled text output, through
   * the text adapter when present; the adapter is called without
   * `return_perplexity`, so its own default applies.
   */
  function TextFeaturesOf(
    s: ModelState, lib: Library, text: TextInput,
    outputAttentions: Option<bool>, outputHiddenStates: Option<bool>, returnDict: Option<bool>): Matrix
  {
    var flags := ResolveFlags(s.clipConfig, outputAttentions, outputHiddenStates, returnDict);
    var features := lib.normalize(s.clipModel.textProjection(s.clipModel.textModel(text, flags).pooled));
    if s.textVqAdapter.Some? then s.textVqAdapter.value.apply(features, s.textVqAdapter.value.defaultReturnPerplexity).z else features
  }

  /**
   * `get_image_features`: the normalised projected pooled image output, through
   * the vision adapter when present, called with its own `return_perplexity` default.
   */
  function ImageFeaturesOf(
    s: ModelState, lib: Library, image: ImageInput,
    outputAttentions: Option<bool>, outputHiddenStates: Option<bool>, returnDict: Option<bool>): Matrix
  {
    var flags := ResolveFlags(s.clipConfig, outputAttentions, outputHiddenStates, returnDict);
    var features := lib.normalize(s.clipModel.visualProjection(s.clipModel.visionModel(image, flags).pooled));
    if s.visionVqAdapter.Some? then s.visionVqAdapter.value.apply(features, s.visionVqAdapter.value.defaultReturnPerplexity).z else features
  }

  /** The quantization step of the forward pass, applied to both normalised projected tower outputs. */
  function ForwardQuantization(
    s: ModelState, lib: Library, text: TextInput, image: ImageInput, flags: TowerFlags,
    returnPerplexity: Option<bool>): Quantization
  {
    var imageEmbeds := lib.normalize(s.clipModel.visualProjection(s.clipModel.visionModel(image, flags).pooled));
    var textEmbeds := lib.normalize(s.clipModel.textProjection(s.clipModel.textModel(text, flags).pooled));
    QuantizationOf(s.textVqAdapter, s.visionVqAdapter, textEmbeds, imageEmbeds, returnPerplexity)
  }

  /**
   * The backbone's `clip_loss` labels text i with image i and image i with
   * text i, so it needs as many texts as images; it is called only for a
   * truthy `return_loss`.
   */
  predicate LossShapeMismatch(returnLoss: Option<bool>, q: Quantization)
  {
    IsTruthy(returnLoss) && |q.textEmbeds.rows| != |q.imageEmbeds.rows|
  }

  /** Everything the forward pass computes before packaging it, or the shape error that stops it. */
  function ForwardValuesOf(
    s: ModelState, lib: Library, text: TextInput, image: ImageInput, returnLoss: Option<bool>,
    outputAttentions: Option<bool>, outputHiddenStates: Option<bool>, returnDict: Option<bool>,
    returnPerplexity: Option<bool>): Result<ForwardValues, ForwardError>
  {
    var flags := ResolveFlags(s.clipConfig, outputAttentions, outputHiddenStates, returnDict);
    var q := ForwardQuantization(s, lib, text, image, flags, returnPerplexity);
    if !Conformable(q.textEmbeds, q.imageEmbeds) then
      Failure(ShapeMismatch)
    else if LossShapeMismatch(returnLoss, q) then
      Failure(NonSquareLogits)
    else
      var logitsPerText := ScaledSimilarity(q.textEmbeds, q.imageEmbeds, lib.exp(s.clipModel.logitScale));
      var logitsPerImage := Transpose(logitsPerText);
      var contrastive := if IsTruthy(returnLoss) then Some(lib.clipLoss(logitsPerText)) else None;
      var total := if contrastive.Some? then Some(contrastive.value + q.vqLoss) else None;
      Success(ForwardValues(
        logitsPerImage, logitsPerText,
        s.clipModel.textModel(text, flags), s.clipModel.visionModel(image, flags),
        q, contrastive, total))
  }

  /** `forward` as a function of the model state and its arguments. */
  function ForwardOf(
    s: ModelState, lib: Library, text: TextInput, image: ImageInput, returnLoss: Option<bool>,
    outputAttentions: Option<bool>, outputHiddenStates: Option<bool>, returnDict: Option<bool>,
    returnPerplexity: Option<bool>): Result<ForwardOutput, ForwardError>
  {
    var flags := ResolveFlags(s.clipConfig, outputAttentions, outputHiddenStates, returnDict);
    match ForwardValuesOf(s, lib, text, image, returnLoss, outputAttentions, outputHiddenStates, returnDict, returnPerplexity)
    case Failure(e) => Failure(e)
    case Success(v) => Success(Assemble(flags.returnDict, v))
  }

  /** The computation fails with the first shape error of the quantized embeddings. */
  lemma ForwardValuesOfFailures(
    s: ModelState, lib: Library, text: TextInput, image: ImageInput, returnLoss: Option<bool>,
    outputAttentions: Option<bool>, outputHiddenStates: Option<bool>, returnDict: Option<bool>,
    returnPerplexity: Option<bool>, flags: TowerFlags, q: Quantization)
    requires flags == ResolveFlags(s.clipConfig, outputAttentions, outputHiddenStates, returnDict)
    requires q == ForwardQuantization(s, lib, text, image, flags, returnPerplexity)
    ensures !Conformable(q.textEmbeds, q.imageEmbeds) ==>
      ForwardValuesOf(s, lib, text, image, returnLoss, outputAttentions, outputHiddenStates, returnDict, returnPerplexity)
        == Failure(ShapeMismatch)
    ensures Conformable(q.textEmbeds, q.imageEmbeds) && LossShapeMismatch(returnLoss, q) ==>
      ForwardValuesOf(s, lib, text, image, returnLoss, outputAttentions, outputHiddenStates, returnDict, returnPerplexity)
        == Failure(NonSquareLogits)
  {
  }

  /** The computation succeeds with the logits and losses formed from the quantized embeddings, when their shapes allow. */
  lemma ForwardValuesOfUnfold(
    s: ModelState, lib: Library, text: TextInput, image: ImageInput, returnLoss: Option<bool>,
    outputAttentions: Option<bool>, outputHiddenStates: Option<bool>, returnDict: Option<bool>,
    returnPerplexity: Option<bool>, flags: TowerFlags, q: Quantization)
    requires flags == ResolveFlags(s.clipConfig, outputAttentions, outputHiddenStates, returnDict)
    requires q == ForwardQuantization(s, lib, text, image, flags, returnPerplexity)
    requires Conformable(q.textEmbeds, q.imageEmbeds) && !LossShapeMismatch(returnLoss, q)
    ensures
      var logitsPerText := ScaledSimilarity(q.textEmbeds, q.imageEmbeds, lib.exp(s.clipModel.logitScale));
      var contrastive := if IsTruthy(returnLoss) then Some(lib.clipLoss(logitsPerText)) else None;
      ForwardValuesOf(s, lib, text, image, returnLoss, outputAttentions, outputHiddenStates, returnDict, returnPerplexity)
        == Success(ForwardValues(
             Transpose(logitsPerText), logitsPerText,
             s.clipModel.textModel(text, flags), s.clipModel.visionModel(image, flags),
             q, contrastive, if contrastive.Some? then Some(contrastive.value + q.vqLoss) else None))
  {
  }

  /** A successful computation is packaged according to the resolved `return_dict`. */
  lemma ForwardOfValues(
    s: ModelState, lib: Library, text: TextInput, image: ImageInput, returnLoss: Option<bool>,
    outputAttentions: Option<bool>, outputHiddenStates: Option<bool>, returnDict: Option<bool>,
    returnPerplexity: Option<bool>, v: ForwardValues)
    requires ForwardValuesOf(s, lib, text, image, returnLoss, outputAttentions, outputHiddenStates, returnDict, returnPerplexity) == Success(v)
    ensures ForwardOf(s, lib, text, image, returnLoss, outputAttentions, outputHiddenStates, returnDict, returnPerplexity)
         == Success(Assemble(ResolveFlags(s.clipConfig, outputAttentions, outputHiddenStates, returnDict).returnDict, v))
  {
  }

  // ---------------------------------------------------------------------------
  // Properties of the forward pass

  /**
   * The forward pass fails with `ShapeMismatch` exactly when the quantized
   * embeddings have different widths, with `NonSquareLogits` exactly when they
   * have the same width but the loss is asked for on different numbers of texts
   * and images, and in no other way.
   */
  lemma ForwardFailsOnlyOnShapeMismatch(
    s: ModelState, lib: Library, text: TextInput, image: ImageInput, returnLoss: Option<bool>,
    outputAttentions: Option<bool>, outputHiddenStates: Option<bool>, returnDict: Option<bool>,
    returnPerplexity: Option<bool>)
    ensures var flags := ResolveFlags(s.clipConfig, outputAttentions, outputHiddenStates, returnDict);
      var q := ForwardQuantization(s, lib, text, image, flags, returnPerplexity);
      var r := ForwardOf(s, lib, text, image, returnLoss, outputAttentions, outputHiddenStates, returnDict, returnPerplexity);
      && (r == Failure(ShapeMismatch) <==> !Conformable(q.textEmbeds, q.imageEmbeds))
      && (r == Failure(NonSquareLogits) <==>
            Conformable(q.textEmbeds, q.imageEmbeds) && IsTruthy(returnLoss) && |q.textEmbeds.rows| != |q.imageEmbeds.rows|)
      && (r.Failure? <==> r == Failure(ShapeMismatch) || r == Failure(NonSquareLogits))
  {
  }

  /**
   * The contrastive loss is present exactly when `return_loss` is truthy and is
   * the backbone's loss on the per-text logits; the total loss is present
   * exactly when the contrastive loss is, and is their sum with the
   * quantization loss.
   */
  lemma ForwardLosses(
    s: ModelState, lib: Library, text: TextInput, image: ImageInput, returnLoss: Option<bool>,
    outputAttentions: Option<bool>, outputHiddenStates: Option<bool>, returnDict: Option<bool>,
    returnPerplexity: Option<bool>)
    ensures var r := ForwardValuesOf(s, lib, text, image, returnLoss, outputAttentions, outputHiddenStates, returnDict, returnPerplexity);
      r.Success? ==>
        var v := r.value;
        && (v.contrastiveLoss.Some? <==> IsTruthy(returnLoss))
        && (v.contrastiveLoss.Some? ==> v.contrastiveLoss.value == lib.clipLoss(v.logitsPerText))
        && (v.totalLoss.Some? <==> v.contrastiveLoss.Some?)
        && (v.totalLoss.Some? ==> v.totalLoss.value == v.contrastiveLoss.value + v.quantization.vqLoss)
  {
  }

  /**
   * The per-image logits are the transpose of the per-text logits, and they are
   * the similarities computed from the image side.
   */
  lemma ForwardLogitsTranspose(
    s: ModelState, lib: Library, text: TextInput, image: ImageInput, returnLoss: Option<bool>,
    outputAttentions: Option<bool>, outputHiddenStates: Option<bool>, returnDict: Option<bool>,
    returnPerplexity: Option<bool>)
    ensures var r := ForwardValuesOf(s, lib, text, image, returnLoss, outputAttentions, outputHiddenStates, returnDict, returnPerplexity);
      r.Success? ==>
        var v := r.value;
        var q := v.quantization;
        && Conformable(q.imageEmbeds, q.textEmbeds)
        && v.logitsPerImage == ScaledSimilarity(q.imageEmbeds, q.textEmbeds, lib.exp(s.clipModel.logitScale))
        && v.logitsPerImage.width == |q.textEmbeds.rows|
        && Transpose(v.logitsPerImage) == v.logitsPerText
  {
    var r := ForwardValuesOf(s, lib, text, image, returnLoss, outputAttentions, outputHiddenStates, returnDict, returnPerplexity);
    if r.Success? {
      var q := r.value.quantization;
      var scale := lib.exp(s.clipModel.logitScale);
      SimilarityTranspose(q.textEmbeds, q.imageEmbeds, scale);
      TransposeInvolutive(r.value.logitsPerText);
    }
  }

  /**
   * The forward pass produces the same text embeddings as `get_text_features`
   * with the same flags when there is no text adapter or its `return_perplexity`
   * default is the one passed to the forward pass; likewise for images.
   */
  lemma FeaturesMatchForward(
    s: ModelState, lib: Library, text: TextInput, image: ImageInput, returnLoss: Option<bool>,
    outputAttentions: Option<bool>, outputHiddenStates: Option<bool>, returnDict: Option<bool>,
    returnPerplexity: Option<bool>)
    ensures var r := ForwardValuesOf(s, lib, text, image, returnLoss, outputAttentions, outputHiddenStates, returnDict, returnPerplexity);
      r.Success? ==>
        && ((s.textVqAdapter.None? || s.textVqAdapter.value.defaultReturnPerplexity == returnPerplexity) ==>
              r.value.quantization.textEmbeds == TextFeaturesOf(s, lib, text, outputAttentions, outputHiddenStates, returnDict))
        && ((s.visionVqAdapter.None? || s.visionVqAdapter.value.defaultReturnPerplexity == returnPerplexity) ==>
              r.value.quantization.imageEmbeds == ImageFeaturesOf(s, lib, image, outputAttentions, outputHiddenStates, returnDict))
  {
  }

  /**
   * With a falsy resolved `return_dict` the result is the flat tuple: six
   * elements, or seven with the contrastive loss (not the total loss) in front.
   */
  lemma ForwardFlatShape(
    s: ModelState, lib: Library, text: TextInput, image: ImageInput, returnLoss: Option<bool>,
    outputAttentions: Option<bool>, outputHiddenStates: Option<bool>, returnDict: Option<bool>,
    returnPerplexity: Option<bool>)
    requires !ResolveFlags(s.clipConfig, outputAttentions, outputHiddenStates, returnDict).returnDict
    ensures var r := ForwardOf(s, lib, text, image, returnLoss, outputAttentions, outputHiddenStates, returnDict, returnPerplexity);
      var v := ForwardValuesOf(s, lib, text, image, returnLoss, outputAttentions, outputHiddenStates, returnDict, returnPerplexity);
      r.Success? ==>
        && r.value.Flat?
        && |r.value.items| == (if IsTruthy(returnLoss) then 7 else 6)
        && (IsTruthy(returnLoss) ==> r.value.items[0] == LossItem(lib.clipLoss(v.value.logitsPerText)))
        && r.value.items[|r.value.items| - 6..] == FixedItems(v.value)
  {
  }

  /**
   * With a truthy resolved `return_dict` the result is the record: its loss is
   * the total loss, codes are present exactly for the quantized modalities, and
   * the perplexity is never reported, even when requested.
   */
  lemma ForwardStructuredShape(
    s: ModelState, lib: Library, text: TextInput, image: ImageInput, returnLoss: Option<bool>,
    outputAttentions: Option<bool>, outputHiddenStates: Option<bool>, returnDict: Option<bool>,
    returnPerplexity: Option<bool>)
    requires ResolveFlags(s.clipConfig, outputAttentions, outputHiddenStates, returnDict).returnDict
    ensures var r := ForwardOf(s, lib, text, image, returnLoss, outputAttentions, outputHiddenStates, returnDict, returnPerplexity);
      var v := ForwardValuesOf(s, lib, text, image, returnLoss, outputAttentions, outputHiddenStates, returnDict, returnPerplexity);
      r.Success? ==>
        && r.value.Structured?
        && var o := r.value.output;
        && o.loss == v.value.totalLoss
        && o.contrastiveLoss == v.value.contrastiveLoss
        && o.quantizationLoss == Some(v.value.quantization.vqLoss)
        && (o.textCodes.Some? <==> s.textVqAdapter.Some?)
        && (o.imageCodes.Some? <==> s.visionVqAdapter.Some?)
        && o.perplexity == None
  {
  }

  /**
   * The two output shapes, requested for the same inputs, carry the same logits,
   * embeddings and contrastive loss, provided the towers' pooled outputs do not
   * depend on the output-shape flag.
   */
  lemma FlatStructuredParity(
    s: ModelState, lib: Library, text: TextInput, image: ImageInput, returnLoss: Option<bool>,
    outputAttentions: Option<bool>, outputHiddenStates: Option<bool>, returnPerplexity: Option<bool>)
    requires PooledIgnoresReturnDict(s.clipModel)
    ensures var flat := ForwardOf(s, lib, text, image, returnLoss, outputAttentions, outputHiddenStates, Some(false), returnPerplexity);
      var structured := ForwardOf(s, lib, text, image, returnLoss, outputAttentions, outputHiddenStates, Some(true), returnPerplexity);
      && (flat.Success? <==> structured.Success?)
      && (flat.Success? ==>
            && flat.value.Flat? && structured.value.Structured?
            && var items := flat.value.items;
            && var r := structured.value.output;
            && var o := |items| - 6;
            && items[o] == MatrixItem(r.logitsPerImage)
            && items[o + 1] == MatrixItem(r.logitsPerText)
            && items[o + 2] == MatrixItem(r.textEmbeds)
            && items[o + 3] == MatrixItem(r.imageEmbeds)
            && (o == 1 <==> r.contrastiveLoss.Some?)
            && (o == 1 ==> items[0] == LossItem(r.contrastiveLoss.value)))
  {
    var flat := ForwardValuesOf(s, lib, text, image, returnLoss, outputAttentions, outputHiddenStates, Some(false), returnPerplexity);
    var structured := ForwardValuesOf(s, lib, text, image, returnLoss, outputAttentions, outputHiddenStates, Some(true), returnPerplexity);
    ValuesIgnoreReturnDict(s, lib, text, image, returnLoss, outputAttentions, outputHiddenStates, returnPerplexity);
    if flat.Success? {
      ForwardOfValues(s, lib, text, image, returnLoss, outputAttentions, outputHiddenStates, Some(false), returnPerplexity, flat.value);
      ForwardOfValues(s, lib, text, image, returnLoss, outputAttentions, outputHiddenStates, Some(true), returnPerplexity, structured.value);
      FlatStructuredAgree(flat.value, structured.value);
    }
  }

  /** Only the raw tower outputs depend on the output-shape flag. */
  lemma ValuesIgnoreReturnDict(
    s: ModelState, lib: Library, text: TextInput, image: ImageInput, returnLoss: Option<bool>,
    outputAttentions: Option<bool>, outputHiddenStates: Option<bool>, returnPerplexity: Option<bool>)
    requires PooledIgnoresReturnDict(s.clipModel)
    ensures var flat := ForwardValuesOf(s, lib, text, image, returnLoss, outputAttentions, outputHiddenStates, Some(false), returnPerplexity);
      var structured := ForwardValuesOf(s, lib, text, image, returnLoss, outputAttentions, outputHiddenStates, Some(true), returnPerplexity);
      && (flat.Success? <==> structured.Success?)
      && (flat.Success? ==>
            && flat.value.logitsPerImage == structured.value.logitsPerImage
            && flat.value.logitsPerText == structured.value.logitsPerText
            && flat.value.quantization == structured.value.quantization
            && flat.value.contrastiveLoss == structured.value.contrastiveLoss)
  {
    var f := ResolveFlags(s.clipConfig, outputAttentions, outputHiddenStates, Some(false));
    var g := ResolveFlags(s.clipConfig, outputAttentions, outputHiddenStates, Some(true));
    assert g == f.(returnDict := true);
    assert s.clipModel.textModel(text, f).pooled == s.clipModel.textModel(text, g).pooled;
    assert s.clipModel.visionModel(image, f).pooled == s.clipModel.visionModel(image, g).pooled;
    var q := ForwardQuantization(s, lib, text, image, f, returnPerplexity);
    assert q == ForwardQuantization(s, lib, text, image, g, returnPerplexity);
    ForwardValuesOfFailures(s, lib, text, image, returnLoss, outputAttentions, outputHiddenStates, Some(false), returnPerplexity, f, q);
    ForwardValuesOfFailures(s, lib, text, image, returnLoss, outputAttentions, outputHiddenStates, Some(true), returnPerplexity, g, q);
    if Conformable(q.textEmbeds, q.imageEmbeds) && !LossShapeMismatch(returnLoss, q) {
      ForwardValuesOfUnfold(s, lib, text, image, returnLoss, outputAttentions, outputHiddenStates, Some(false), returnPerplexity, f, q);
      ForwardValuesOfUnfold(s, lib, text, image, returnLoss, outputAttentions, outputHiddenStates, Some(true), returnPerplexity, g, q);
    }
  }

  // ---------------------------------------------------------------------------
  // Persistence and grafting, as functions of the state

  /** The model's state dict: backbone under `clip_model.`, then the adapters under their attribute names. */
  function StateDictOf(s: ModelState): StateDict
  {
    ModelStateDict(s.clipModel.params, AdapterParams(s.visionVqAdapter), AdapterParams(s.textVqAdapter))
  }

  /** The state after the backbone is replaced by `clip`. */
  function Graft(s: ModelState, clip: Backbone): ModelState
  {
    s.(clipModel := clip)
  }

  /** Grafting leaves the configuration and both adapters as they were, and grafting twice is grafting once. */
  lemma GraftTouchesOnlyBackbone(s: ModelState, clip: Backbone)
    ensures Graft(s, clip).clipModel == clip
    ensures Graft(s, clip).visionVqAdapter == s.visionVqAdapter && Graft(s, clip).textVqAdapter == s.textVqAdapter
    ensures Graft(s, clip).config == s.config && Graft(s, clip).clipConfig == s.clipConfig
    ensures Graft(Graft(s, clip), clip) == Graft(s, clip)
  {
  }

  /** What `save_adapter` writes is the adapters' parameters only, so a graft never changes it. */
  lemma {:induction false} GraftKeepsSavedAdapter(s: ModelState, clip: Backbone)
    ensures WithoutBackbone(StateDictOf(s)) == AdapterStateDict(AdapterParams(s.visionVqAdapter), AdapterParams(s.textVqAdapter))
    ensures WithoutBackbone(StateDictOf(Graft(s, clip))) == WithoutBackbone(StateDictOf(s))
  {
    WithoutBackboneKeepsAdapters(s.clipModel.params, AdapterParams(s.visionVqAdapter), AdapterParams(s.textVqAdapter));
    WithoutBackboneKeepsAdapters(clip.params, AdapterParams(s.visionVqAdapter), AdapterParams(s.textVqAdapter));
  }

  // ---------------------------------------------------------------------------
  // The model object

  class VqClipModel {
    /** The foreign library the model calls into. */
    const lib: Library
    var config: VqClipConfig
    var clipConfig: ClipConfig
    var clipModel: Backbone
    var visionVqAdapter: Option<Adapter>
    var textVqAdapter: Option<Adapter>

    function State(): ModelState
      reads this
    {
      ModelState(config, clipConfig, clipModel, visionVqAdapter, textVqAdapter)
    }

    /** `VQCLIPModel(config)`: parse the backbone configuration, build the backbone, build each configured adapter. */
    constructor (config: VqClipConfig, lib: Library)
      ensures this.lib == lib
      ensures State() == Init(config, lib)
    {
      this.lib := lib;
      this.config := config;
      var parsed := lib.clipConfigFromDict(config.clipConfigDict);
      clipConfig := parsed;
      clipModel := lib.newClipModel(parsed);
      visionVqAdapter, textVqAdapter := None, None;
      if IsTruthyFragment(config.visionVqAdapterConfigDict) {
        visionVqAdapter := Some(lib.newVqAdapter(config.visionVqAdapterConfigDict.value));
      }
      if IsTruthyFragment(config.textVqAdapterConfigDict) {
        textVqAdapter := Some(lib.newVqAdapter(config.textVqAdapterConfigDict.value));
      }
    }

    /** The learned temperature of the backbone, before exponentiation. */
    function LogitScale(): real
      reads this
    {
      clipModel.logitScale
    }

    /** The `get_text_features` entry point; `TextFeaturesOf` is its value on the model's state. */
    method GetTextFeatures(
      text: TextInput, outputAttentions: Option<bool>, outputHiddenStates: Option<bool>, returnDict: Option<bool>)
      returns (textFeatures: Matrix)
      ensures textFeatures == TextFeaturesOf(State(), lib, text, outputAttentions, outputHiddenStates, returnDict)
    {
      var flags := ResolveFlags(clipConfig, outputAttentions, outputHiddenStates, returnDict);
      var textOutputs := clipModel.textModel(text, flags);
      textFeatures := clipModel.textProjection(textOutputs.pooled);
      textFeatures := lib.normalize(textFeatures);
      if textVqAdapter.Some? {
        textFeatures := textVqAdapter.value.apply(textFeatures, textVqAdapter.value.defaultReturnPerplexity).z;
      }
    }

    /** The `get_image_features` entry point; `ImageFeaturesOf` is its value on the model's state. */
    method GetImageFeatures(
      image: ImageInput, outputAttentions: Option<bool>, outputHiddenStates: Option<bool>, returnDict: Option<bool>)
      returns (imageFeatures: Matrix)
      ensures imageFeatures == ImageFeaturesOf(State(), lib, image, outputAttentions, outputHiddenStates, returnDict)
    {
      var flags := ResolveFlags(clipConfig, outputAttentions, outputHiddenStates, returnDict);
      var visionOutputs := clipModel.visionModel(image, flags);
      imageFeatures := clipModel.visualProjection(visionOutputs.pooled);
      imageFeatures := lib.normalize(imageFeatures);
      if visionVqAdapter.Some? {
        imageFeatures := visionVqAdapter.value.apply(imageFeatures, visionVqAdapter.value.defaultReturnPerplexity).z;
      }
    }

    /**
     * The quantization step of `forward`: run each present adapter, text first,
     * accumulate loss and perplexity, halve both when both adapters ran.
     */
    method Quantize(textEmbeds: Matrix, imageEmbeds: Matrix, returnPerplexity: Option<bool>)
      returns (q: Quantization)
      ensures q == QuantizationOf(textVqAdapter, visionVqAdapter, textEmbeds, imageEmbeds, returnPerplexity)
    {
      var text, image := textEmbeds, imageEmbeds;
      var textCodes: Option<Codes>, imageCodes: Option<Codes> := None, None;
      var perplexity := 0.0;
      var vqLoss := 0.0;
      if textVqAdapter.Some? {
        var res := textVqAdapter.value.apply(text, returnPerplexity);
        text := res.z;
        textCodes := Some(res.codes);
        perplexity := perplexity + (if IsTruthy(returnPerplexity) then res.perplexity else 0.0);
        vqLoss := vqLoss + res.loss;
      }
      if visionVqAdapter.Some? {
        var res := visionVqAdapter.value.apply(image, returnPerplexity);
        image := res.z;
        imageCodes := Some(res.codes);
        perplexity := perplexity + (if IsTruthy(returnPerplexity) then res.perplexity else 0.0);
        vqLoss := vqLoss + res.loss;
      }
      if visionVqAdapter.Some? && textVqAdapter.Some? {
        perplexity := perplexity / 2.0;
        vqLoss := vqLoss / 2.0;
      }
      q := Quantization(text, image, textCodes, imageCodes, vqLoss, perplexity);
      var t := AdapterResult(textVqAdapter, textEmbeds, returnPerplexity);
      var v := AdapterResult(visionVqAdapter, imageEmbeds, returnPerplexity);
      MeanOfActiveCases(LossOf(t), LossOf(v));
      MeanOfActiveCases(PerplexityOf(t, returnPerplexity), PerplexityOf(v, returnPerplexity));
    }

    method Forward(
      text: TextInput, image: ImageInput, returnLoss: Option<bool>,
      outputAttentions: Option<bool>, outputHiddenStates: Option<bool>, returnDict: Option<bool>,
      returnPerplexity: Option<bool>)
      returns (out: Result<ForwardOutput, ForwardError>)
      ensures out == ForwardOf(State(), lib, text, image, returnLoss, outputAttentions, outputHiddenStates, returnDict, returnPerplexity)
    {
      var flags := ResolveFlags(clipConfig, outputAttentions, outputHiddenStates, returnDict);
      var visionOutputs := clipModel.visionModel(image, flags);
      var textOutputs := clipModel.textModel(text, flags);

      var imageEmbeds := clipModel.visualProjection(visionOutputs.pooled);
      var textEmbeds := clipModel.textProjection(textOutputs.pooled);
      imageEmbeds := lib.normalize(imageEmbeds);
      textEmbeds := lib.normalize(textEmbeds);

      var q := Quantize(textEmbeds, imageEmbeds, returnPerplexity);
      ghost var state := State();
      assert q == ForwardQuantization(state, lib, text, image, flags, returnPerplexity);
      ForwardValuesOfFailures(state, lib, text, image, returnLoss, outputAttentions, outputHiddenStates, returnDict, returnPerplexity, flags, q);
      if !Conformable(q.textEmbeds, q.imageEmbeds) {
        return Failure(ShapeMismatch);
      }
      if IsTruthy(returnLoss) && |q.textEmbeds.rows| != |q.imageEmbeds.rows| {
        return Failure(NonSquareLogits);
      }
      var logitScale := lib.exp(clipModel.logitScale);
      var logitsPerText := ScaledSimilarity(q.textEmbeds, q.imageEmbeds, logitScale);
      var logitsPerImage := Transpose(logitsPerText);

      var loss: Option<real> := None;
      if IsTruthy(returnLoss) {
        loss := Some(lib.clipLoss(logitsPerText));
      }
      var totalLoss: Option<real> := None;
      if loss.Some? {
        totalLoss := Some(loss.value + q.vqLoss);
      }

      var values := ForwardValues(logitsPerImage, logitsPerText, textOutputs, visionOutputs, q, loss, totalLoss);
      ForwardValuesOfUnfold(state, lib, text, image, returnLoss, outputAttentions, outputHiddenStates, returnDict, returnPerplexity, flags, q);
      ForwardOfValues(state, lib, text, image, returnLoss, outputAttentions, outputHiddenStates, returnDict, returnPerplexity, values);
      if !flags.returnDict {
        var output := FixedItems(values);
        out := Success(Flat(if loss.Some? then [LossItem(loss.value)] + output else output));
        assert out.value == Assemble(flags.returnDict, values);
        return;
      }
      return Success(Structured(StructuredOutput(values)));
    }

    /** `save_adapter`: the state dict without the backbone's entries, as handed to the checkpoint writer. */
    method SaveAdapter() returns (sd: StateDict)
      ensures forall k :: k in sd ==> !StartsWith(k, BackbonePrefix)
      ensures sd == AdapterStateDict(AdapterParams(visionVqAdapter), AdapterParams(textVqAdapter))
    {
      sd := FilterStateDict(StateDictOf(State()));
      GraftKeepsSavedAdapter(State(), clipModel);
    }

    /**
     * `from_pretrained_clip`: given the model loaded from the adapter checkpoint
     * and the backbone loaded from its own checkpoint, replace the model's
     * backbone. A failed load fails the whole operation with that load's error.
     */
    static method FromPretrainedClip(vqClip: Result<VqClipModel, LoadError>, clip: Result<Backbone, LoadError>)
      returns (r: Result<VqClipModel, LoadError>)
      modifies if vqClip.Success? then {vqClip.value} else {}
      ensures vqClip.Failure? ==> r == Failure(vqClip.error)
      ensures vqClip.Success? && clip.Failure? ==> r == Failure(clip.error) && unchanged(vqClip.value)
      ensures vqClip.Success? && clip.Success? ==>
        && r == Success(vqClip.value)
        && vqClip.value.State() == Graft(old(vqClip.value.State()), clip.value)
    {
      if vqClip.Failure? {
        return Failure(vqClip.error);
      }
      if clip.Failure? {
        return Failure(clip.error);
      }
      var model := vqClip.value;
      model.clipModel := clip.value;
      return Success(model);
    }
  }
}
