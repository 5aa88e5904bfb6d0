/**
 * Routing each modality's embedding through its optional adapter, and blending
 * the adapters' losses and perplexities.
 */
module Quantization {
  import opened Wrappers
  import opened Tensors
  import opened Capabilities

  /** What the quantization step leaves behind: the embeddings, the codes, the loss and the perplexity. */
  datatype Quantization = Quantization(
    textEmbeds: Matrix,
    imageEmbeds: Matrix,
    textCodes: Option<Codes>,
    imageCodes: Option<Codes>,
    vqLoss: real,
    perplexity: real)

  function Sum(xs: seq<real>): real
  {
    if |xs| == 0 then 0.0 else xs[0] + Sum(xs[1..])
  }

  /** The values of the active modalities, text first. */
  function Active(text: Option<real>, image: Option<real>): seq<real>
  {
    (if text.Some? then [text.value] else []) + (if image.Some? then [image.value] else [])
  }

  /** Reference averaging rule: the sum over the active modalities divided by their count, 0 when none is active. */
  function MeanOfActive(text: Option<real>, image: Option<real>): real
  {
    var active := Active(text, image);
    if |active| == 0 then 0.0 else Sum(active) / (|active| as real)
  }

  lemma MeanOfActiveCases(text: Option<real>, image: Option<real>)
    ensures text.None? && image.None? ==> MeanOfActive(text, image) == 0.0
    ensures text.Some? && image.None? ==> MeanOfActive(text, image) == text.value
    ensures text.None? && image.Some? ==> MeanOfActive(text, image) == image.value
    ensures text.Some? && image.Some? ==> MeanOfActive(text, image) == (text.value + image.value) / 2.0
  {
    var active := Active(text, image);
    if text.Some? && image.Some? {
      assert active == [text.value, image.value];
      assert active[1..] == [image.value];
      assert Sum([image.value]) == image.value + Sum([]);
      assert Sum(active) == text.value + image.value;
    } else if text.Some? {
      assert active == [text.value];
      assert Sum(active) == text.value + Sum([]);
    } else if image.Some? {
      assert active == [image.value];
      assert Sum(active) == image.value + Sum([]);
    }
  }

  /** The adapter's record for `x`, when there is an adapter. */
  function AdapterResult(adapter: Option<Adapter>, x: Matrix, returnPerplexity: Option<bool>): Option<AdapterOutput>
  {
    if adapter.Some? then Some(adapter.value.apply(x, returnPerplexity)) else None
  }

  function LossOf(result: Option<AdapterOutput>): Option<real>
  {
    if result.Some? then Some(result.value.loss) else None
  }

  /** An active adapter's perplexity contribution: its perplexity when requested, 0 otherwise. */
  function PerplexityOf(result: Option<AdapterOutput>, returnPerplexity: Option<bool>): Option<real>
  {
    if result.Some? then Some(if IsTruthy(returnPerplexity) then result.value.perplexity else 0.0) else None
  }

  /**
   * The quantization step, stated by its meaning: each present adapter replaces
   * its modality's embedding by its `z` and records its codes; loss and
   * perplexity are the mean over the active adapters.
   */
  function QuantizationOf(
    textAdapter: Option<Adapter>, visionAdapter: Option<Adapter>,
    textEmbeds: Matrix, imageEmbeds: Matrix, returnPerplexity: Option<bool>): Quantization
  {
    var t := AdapterResult(textAdapter, textEmbeds, returnPerplexity);
    var v := AdapterResult(visionAdapter, imageEmbeds, returnPerplexity);
    Quantization(
      if t.Some? then t.value.z else textEmbeds,
      if v.Some? then v.value.z else imageEmbeds,
      if t.Some? then Some(t.value.codes) else None,
      if v.Some? then Some(v.value.codes) else None,
      MeanOfActive(LossOf(t), LossOf(v)),
      MeanOfActive(PerplexityOf(t, returnPerplexity), PerplexityOf(v, returnPerplexity)))
  }

  /**
   * Codes are recorded for a modality exactly when it has an adapter, and then
   * its embedding is the adapter's `z`; otherwise the embedding passes through.
   */
  lemma CodesExactlyForAdapters(
    textAdapter: Option<Adapter>, visionAdapter: Option<Adapter>,
    textEmbeds: Matrix, imageEmbeds: Matrix, returnPerplexity: Option<bool>)
    ensures var q := QuantizationOf(textAdapter, visionAdapter, textEmbeds, imageEmbeds, returnPerplexity);
      && (q.textCodes.Some? <==> textAdapter.Some?)
      && (q.imageCodes.Some? <==> visionAdapter.Some?)
      && (textAdapter.Some? ==>
            var r := textAdapter.value.apply(textEmbeds, returnPerplexity);
            q.textCodes == Some(r.codes) && q.textEmbeds == r.z)
      && (visionAdapter.Some? ==>
            var r := visionAdapter.value.apply(imageEmbeds, returnPerplexity);
            q.imageCodes == Some(r.codes) && q.imageEmbeds == r.z)
      && (textAdapter.None? ==> q.textEmbeds == textEmbeds)
      && (visionAdapter.None? ==> q.imageEmbeds == imageEmbeds)
  {
  }

  /** The quantization loss is 0 with no adapter, the single adapter's loss with one, and `(a + b) / 2` with both. */
  lemma QuantizationLossRule(
    textAdapter: Option<Adapter>, visionAdapter: Option<Adapter>,
    textEmbeds: Matrix, imageEmbeds: Matrix, returnPerplexity: Option<bool>)
    ensures var q := QuantizationOf(textAdapter, visionAdapter, textEmbeds, imageEmbeds, returnPerplexity);
      var a := if textAdapter.Some? then textAdapter.value.apply(textEmbeds, returnPerplexity).loss else 0.0;
      var b := if visionAdapter.Some? then visionAdapter.value.apply(imageEmbeds, returnPerplexity).loss else 0.0;
      && (textAdapter.None? && visionAdapter.None? ==> q.vqLoss == 0.0)
      && (textAdapter.Some? && visionAdapter.None? ==> q.vqLoss == a)
      && (textAdapter.None? && visionAdapter.Some? ==> q.vqLoss == b)
      && (textAdapter.Some? && visionAdapter.Some? ==> q.vqLoss == (a + b) / 2.0)
  {
    var t := AdapterResult(textAdapter, textEmbeds, returnPerplexity);
    var v := AdapterResult(visionAdapter, imageEmbeds, returnPerplexity);
    MeanOfActiveCases(LossOf(t), LossOf(v));
  }

  /**
   * The perplexity follows the same averaging rule when it is requested, and
   * is 0 when it is not.
   */
  lemma PerplexityRule(
    textAdapter: Option<Adapter>, visionAdapter: Option<Adapter>,
    textEmbeds: Matrix, imageEmbeds: Matrix, returnPerplexity: Option<bool>)
    ensures var q := QuantizationOf(textAdapter, visionAdapter, textEmbeds, imageEmbeds, returnPerplexity);
      var p := if textAdapter.Some? then textAdapter.value.apply(textEmbeds, returnPerplexity).perplexity else 0.0;
      var r := if visionAdapter.Some? then visionAdapter.value.apply(imageEmbeds, returnPerplexity).perplexity else 0.0;
      && (!IsTruthy(returnPerplexity) ==> q.perplexity == 0.0)
      && (IsTruthy(returnPerplexity) ==>
            && (textAdapter.None? && visionAdapter.None? ==> q.perplexity == 0.0)
            && (textAdapter.Some? && visionAdapter.None? ==> q.perplexity == p)
            && (textAdapter.None? && visionAdapter.Some? ==> q.perplexity == r)
            && (textAdapter.Some? && visionAdapter.Some? ==> q.perplexity == (p + r) / 2.0))
  {
    var t := AdapterResult(textAdapter, textEmbeds, returnPerplexity);
    var v := AdapterResult(visionAdapter, imageEmbeds, returnPerplexity);
    MeanOfActiveCases(PerplexityOf(t, returnPerplexity), PerplexityOf(v, returnPerplexity));
  }

  /** When every active adapter reports a non-negative loss, the blended quantization loss is non-negative. */
  lemma QuantizationLossNonNegative(
    textAdapter: Option<Adapter>, visionAdapter: Option<Adapter>,
    textEmbeds: Matrix, imageEmbeds: Matrix, returnPerplexity: Option<bool>)
    requires textAdapter.Some? ==> textAdapter.value.apply(textEmbeds, returnPerplexity).loss >= 0.0
    requires visionAdapter.Some? ==> visionAdapter.value.apply(imageEmbeds, returnPerplexity).loss >= 0.0
    ensures QuantizationOf(textAdapter, visionAdapter, textEmbeds, imageEmbeds, returnPerplexity).vqLoss >= 0.0
  {
    QuantizationLossRule(textAdapter, visionAdapter, textEmbeds, imageEmbeds, returnPerplexity);
  }
}
