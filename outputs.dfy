/**
 * Packaging of one forward pass: either a flat tuple compatible with the
 * backbone's own tuple contract, or a structured record.
 */
module Outputs {
  import opened Wrappers
  import opened Tensors
  import opened Capabilities
  import opened Quantization

  /** One element of the flat tuple. */
  datatype OutputItem = LossItem(loss: real) | MatrixItem(matrix: Matrix) | TowerItem(tower: TowerOutput)

  /** The structured record; every field the constructor call does not set stays `None`. */
  datatype VqClipOutput = VqClipOutput(
    loss: Option<real>,
    logitsPerImage: Matrix,
    logitsPerText: Matrix,
    textEmbeds: Matrix,
    imageEmbeds: Matrix,
    textModelOutput: Option<TowerOutput>,
    visionModelOutput: Option<TowerOutput>,
    textCodes: Option<Codes>,
    imageCodes: Option<Codes>,
    quantizationLoss: Option<real>,
    contrastiveLoss: Option<real>,
    perplexity: Option<real>)

  datatype ForwardOutput = Flat(items: seq<OutputItem>) | Structured(output: VqClipOutput)

  /** The values a forward pass has computed when it comes to package them. */
  datatype ForwardValues = ForwardValues(
    logitsPerImage: Matrix,
    logitsPerText: Matrix,
    textOutputs: TowerOutput,
    visionOutputs: TowerOutput,
    quantization: Quantization,
    contrastiveLoss: Option<real>,
    totalLoss: Option<real>)

  /** The six fixed elements of the flat tuple, in order. */
  function FixedItems(v: ForwardValues): seq<OutputItem>
  {
    [ MatrixItem(v.logitsPerImage),
      MatrixItem(v.logitsPerText),
      MatrixItem(v.quantization.textEmbeds),
      MatrixItem(v.quantization.imageEmbeds),
      TowerItem(v.textOutputs),
      TowerItem(v.visionOutputs) ]
  }

  /**
   * The flat tuple: the contrastive loss leads when there is one; after it come
   * the logits per image, the logits per text, the text and image embeddings
   * and the raw text and vision tower outputs.
   */
  function FlatTuple(v: ForwardValues): (items: seq<OutputItem>)
    ensures |items| == if v.contrastiveLoss.Some? then 7 else 6
    ensures v.contrastiveLoss.Some? ==> items[0] == LossItem(v.contrastiveLoss.value)
    ensures forall k :: 0 <= k < |items| ==> (items[k].LossItem? <==> k == 0 && v.contrastiveLoss.Some?)
    ensures var o := |items| - 6;
      && items[o] == MatrixItem(v.logitsPerImage)
      && items[o + 1] == MatrixItem(v.logitsPerText)
      && items[o + 2] == MatrixItem(v.quantization.textEmbeds)
      && items[o + 3] == MatrixItem(v.quantization.imageEmbeds)
      && items[o + 4] == TowerItem(v.textOutputs)
      && items[o + 5] == TowerItem(v.visionOutputs)
  {
    var output := FixedItems(v);
    if v.contrastiveLoss.Some? then [LossItem(v.contrastiveLoss.value)] + output else output
  }

  /** The structured record, filled in as the forward pass fills it in. */
  function StructuredOutput(v: ForwardValues): VqClipOutput
  {
    VqClipOutput(
      loss := v.totalLoss,
      quantizationLoss := Some(v.quantization.vqLoss),
      contrastiveLoss := v.contrastiveLoss,
      logitsPerImage := v.logitsPerImage,
      logitsPerText := v.logitsPerText,
      textEmbeds := v.quantization.textEmbeds,
      textCodes := v.quantization.textCodes,
      imageEmbeds := v.quantization.imageEmbeds,
      imageCodes := v.quantization.imageCodes,
      textModelOutput := None,
      visionModelOutput := None,
      perplexity := None)
  }

  /** A falsy `return_dict` selects the flat tuple, a truthy one the record. */
  function Assemble(returnDict: bool, v: ForwardValues): ForwardOutput
  {
    if !returnDict then Flat(FlatTuple(v)) else Structured(StructuredOutput(v))
  }

  /**
   * Both shapes carry the same logits and embeddings: element `o + k` of the
   * flat tuple is the record's corresponding field.
   */
  lemma FlatStructuredAgree(v: ForwardValues, w: ForwardValues)
    requires v.logitsPerImage == w.logitsPerImage && v.logitsPerText == w.logitsPerText
    requires v.quantization == w.quantization && v.contrastiveLoss == w.contrastiveLoss
    ensures var items := FlatTuple(v);
      var r := StructuredOutput(w);
      var o := |items| - 6;
      && items[o] == MatrixItem(r.logitsPerImage)
      && items[o + 1] == MatrixItem(r.logitsPerText)
      && items[o + 2] == MatrixItem(r.textEmbeds)
      && items[o + 3] == MatrixItem(r.imageEmbeds)
      && (o == 1 <==> r.contrastiveLoss.Some?)
      && (o == 1 ==> items[0] == LossItem(r.contrastiveLoss.value))
  {
  }

  /**
   * The record never reports the perplexity nor the raw tower outputs, whatever
   * was computed.
   */
  lemma StructuredOmitsPerplexity(v: ForwardValues)
    ensures StructuredOutput(v).perplexity == None
    ensures StructuredOutput(v).textModelOutput == None && StructuredOutput(v).visionModelOutput == None
  {
  }
}
