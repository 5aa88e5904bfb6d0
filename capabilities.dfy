/**
 * The foreign collaborators of a VQ-CLIP model, seen only through the values
 * they produce: the backbone dual encoder, the quantization adapters and the
 * numeric library. Each opaque computation is a function-valued field.
 */
module Capabilities {
  import opened Wrappers
  import opened Tensors
  import opened Config
  import opened Persistence

  /** Token ids, attention mask and position ids of a text batch, each optional. */
  datatype TextInput = TextInput(
    inputIds: Option<seq<seq<int>>>,
    attentionMask: Option<seq<seq<int>>>,
    positionIds: Option<seq<seq<int>>>)

  /** The pixel tensor of an image batch, flattened, optional. */
  datatype ImageInput = ImageInput(pixelValues: Option<seq<real>>)

  /** The diagnostic and output-shape flags handed to both towers. */
  datatype TowerFlags = TowerFlags(outputAttentions: bool, outputHiddenStates: bool, returnDict: bool)

  /**
   * What a tower returns: the pooled representation (element 1 of the tower's
   * output) and everything else it reports (last hidden state, hidden states,
   * attentions), kept opaque.
   */
  datatype TowerOutput = TowerOutput(pooled: Matrix, diagnostics: seq<Matrix>)

  /** The fields of the backbone's configuration that this model reads. */
  datatype ClipConfig = ClipConfig(outputAttentions: bool, outputHiddenStates: bool, useReturnDict: bool)

  /** The backbone dual encoder: two towers, two projections, a learned temperature and its parameters. */
  datatype Backbone = Backbone(
    params: StateDict,
    textModel: (TextInput, TowerFlags) -> TowerOutput,
    visionModel: (ImageInput, TowerFlags) -> TowerOutput,
    textProjection: Matrix -> Matrix,
    visualProjection: Matrix -> Matrix,
    logitScale: real)

  /** The discrete codes an adapter assigns to a batch. */
  type Codes = seq<seq<int>>

  /** The record an adapter returns for a batch of embeddings. */
  datatype AdapterOutput = AdapterOutput(z: Matrix, codes: Codes, loss: real, perplexity: real)

  /**
   * A quantization adapter: its parameters, its transform (embeddings,
   * `return_perplexity`) and the `return_perplexity` its transform takes when
   * a caller leaves that argument out.
   */
  datatype Adapter = Adapter(
    params: StateDict,
    apply: (Matrix, Option<bool>) -> AdapterOutput,
    defaultReturnPerplexity: Option<bool>)

  /**
   * The foreign library entry points the model calls: configuration parsing,
   * backbone and adapter construction, L2 normalisation along the feature axis,
   * the exponential and the backbone's symmetric contrastive loss.
   */
  datatype Library = Library(
    clipConfigFromDict: ConfigDict -> ClipConfig,
    newClipModel: ClipConfig -> Backbone,
    newVqAdapter: ConfigDict -> Adapter,
    normalize: Matrix -> Matrix,
    exp: real -> real,
    clipLoss: Matrix -> real)

  /** The parameters an optional adapter contributes: none when it is absent. */
  function AdapterParams(adapter: Option<Adapter>): StateDict
  {
    if adapter.Some? then adapter.value.params else map[]
  }

  /** A tower whose pooled output does not depend on the output-shape flag `return_dict`. */
  ghost predicate PooledIgnoresReturnDict(b: Backbone)
  {
    && (forall t, f :: b.textModel(t, f).pooled == b.textModel(t, f.(returnDict := true)).pooled)
    && (forall i, f :: b.visionModel(i, f).pooled == b.visionModel(i, f.(returnDict := true)).pooled)
  }
}
