# VQ-CLIP composition layer in Dafny

This project models the composition and bookkeeping layer of `VQCLIPModel`
(`vq_clip/modeling_vq_clip.py`). A VQ-CLIP model is a CLIP dual encoder (the
*backbone*: a text tower, a vision tower, one projection per tower and a
learned temperature). After each tower's projection there may be a
vector-quantization *adapter*. The model covers:

- the composite configuration `VQCLIPConfig` and its defaults. An adapter is
  built only when its configuration mapping is truthy, so `None` and `{}` both
  mean "no adapter";
- flag resolution in `get_text_features`, `get_image_features` and `forward`.
  An explicit `output_attentions`, `output_hidden_states` or `return_dict`
  wins. `None` falls back to the backbone configuration;
- the forward bookkeeping:
  - each present adapter replaces its modality's embedding by its `z` and
    records its codes;
  - the adapters' losses and perplexities are accumulated and halved when both
    adapters ran. A requested-off perplexity contributes 0;
  - the contrastive loss exists only when `return_loss` is truthy;
  - the total loss is contrastive plus quantization loss;
  - the per-image logits are the transpose of the per-text logits;
- the two output shapes: the flat tuple, with the contrastive loss in front when
  there is one, and the structured `VQCLIPOutput` record;
- `save_adapter`, which builds the state dict without any entry whose name
  starts with `"clip_model"`;
- `from_pretrained_clip`, which replaces the model's `clip_model` field by a
  separately loaded backbone and leaves both adapters alone.

Code that belongs to other libraries is a function-valued field of a datatype:

- `Capabilities.Backbone` holds the towers, the projections and the raw
  temperature;
- `Capabilities.Adapter` holds the adapter's transform, which returns
  `z`/`codes`/`loss`/`perplexity`;
- `Capabilities.Library` holds configuration parsing, backbone and adapter
  construction, L2 normalisation, `exp` and `clip_loss`.

A 2-D tensor is `Tensors.Matrix`: rows of `real` together with the feature
width, which is kept even when the batch has no rows, as a tensor's shape is.
A similarity matrix is computed exactly as `a · bᵀ * scale` over reals.

Modules:

- `Wrappers`: `Option`, `Result` and Python truthiness of a flag.
- `Tensors`: matrices, dot product, scaled similarity, transpose.
- `Config`: configuration values and the composite configuration.
- `Persistence`: state dicts, prefixes and the adapter-only filter.
- `Capabilities`: the foreign collaborators.
- `Quantization`: adapter routing and loss/perplexity blending.
- `Outputs`: the flat tuple and the structured record.
- `VqClip`: the model state, the specification of each entry point as a
  function of that state, the properties, and the class `VqClipModel` whose
  methods follow the source step by step.

Points where the code's behaviour is easy to misread:

- The flat tuple's leading element is the *contrastive* loss, not the total loss.
- The structured record never carries the perplexity or the raw tower outputs.
  `return_perplexity` is passed to both adapters, so their `z`, codes and loss
  may depend on it; the perplexity it gates is computed and then dropped.
- `get_text_features` and `get_image_features` call the adapter without
  `return_perplexity`, so the adapter's own default applies there
  (`Capabilities.Adapter.defaultReturnPerplexity`).
- The averaging divides by 2 when both adapters ran. The model also states a
  reference rule, the mean over the active adapters, and proves the two agree.
- `from_pretrained_clip` does not update `clip_config`. After a graft, flag
  defaults still come from the configuration stored with the adapter checkpoint.

## Model

| member | source | states |
|---|---|---|
| `Config.NewVqClipConfig` | vq_clip/modeling_vq_clip.py:22-32 | an omitted backbone mapping is the backbone default, an omitted vision mapping is the adapter default, an omitted text mapping is `None`, and a given argument is stored as given |
| `VqClip.AdapterPresence` | vq_clip/modeling_vq_clip.py:44-53 | each adapter exists exactly when its configuration mapping is present and non-empty, and it is then built from that mapping |
| `VqClip.DefaultConfigQuantizesVisionOnly` | vq_clip/modeling_vq_clip.py:24-53 | the default configuration yields a vision adapter and no text adapter |
| `VqClip.VqClipModel.constructor` | vq_clip/modeling_vq_clip.py:38-53 | the new model's fields are the parsed backbone configuration, the backbone built from it, and the adapters that the configuration calls for |
| `VqClip.ResolveFlags` | vq_clip/modeling_vq_clip.py:151-163 | each resolved flag is the explicit argument when one is given, otherwise the backbone configuration's value (`use_return_dict` for `return_dict`) |
| `VqClip.ExplicitFlagsIgnoreConfig` | vq_clip/modeling_vq_clip.py:65-77 | with all three flags given, the backbone configuration has no influence |
| `VqClip.OmittedFlagsFromConfig` | vq_clip/modeling_vq_clip.py:105-117 | with no flag given, all three are the backbone configuration's |
| `VqClip.VqClipModel.GetTextFeatures` | vq_clip/modeling_vq_clip.py:55-95 | returns the text features: normalised projected pooled output, replaced by the text adapter's `z` when that adapter exists, the adapter being called with its own `return_perplexity` default |
| `VqClip.VqClipModel.GetImageFeatures` | vq_clip/modeling_vq_clip.py:97-132 | returns the image features: normalised projected pooled output, replaced by the vision adapter's `z` when that adapter exists, the adapter being called with its own `return_perplexity` default |
| `VqClip.FeaturesMatchForward` | vq_clip/modeling_vq_clip.py:88-204 | when the forward pass's `return_perplexity` is the text adapter's default (or there is no text adapter), it yields the same text embeddings as `get_text_features` with the same flags; likewise for the image side |
| `Quantization.MeanOfActiveCases` | vq_clip/modeling_vq_clip.py:207-210 | the mean over the active modalities is 0, the single value, or `(a + b) / 2` |
| `Quantization.CodesExactlyForAdapters` | vq_clip/modeling_vq_clip.py:192-206 | codes are recorded for a modality exactly when it has an adapter, and its embedding is then that adapter's `z`; otherwise it passes through |
| `Quantization.QuantizationLossRule` | vq_clip/modeling_vq_clip.py:194-210 | the quantization loss is 0 with no adapter, the single adapter's loss with one, and `(a + b) / 2` with both |
| `Quantization.PerplexityRule` | vq_clip/modeling_vq_clip.py:193-209 | the perplexity is 0 when not requested, and otherwise follows the same averaging rule |
| `Quantization.QuantizationLossNonNegative` | vq_clip/modeling_vq_clip.py:194-210 | non-negative adapter losses give a non-negative quantization loss |
| `VqClip.VqClipModel.Quantize` | vq_clip/modeling_vq_clip.py:191-210 | the step-by-step accumulation (text first, then vision, halved when both ran) equals the mean-over-active-adapters specification for embeddings, codes, loss and perplexity |
| `VqClip.VqClipModel.Forward` | vq_clip/modeling_vq_clip.py:138-246 | the forward pass returns exactly the specified result (`ForwardOf`) of the current state, including the failure of the logits product on different feature widths (also for empty batches) and the failure of `clip_loss` on non-square logits |
| `VqClip.ForwardFailsOnlyOnShapeMismatch` | vq_clip/modeling_vq_clip.py:212-219 | the forward pass fails with `ShapeMismatch` exactly when the quantized text and image embeddings have different widths, with `NonSquareLogits` exactly when the widths agree, `return_loss` is truthy and the numbers of texts and images differ, and in no other way |
| `VqClip.ForwardLosses` | vq_clip/modeling_vq_clip.py:217-223 | the contrastive loss exists exactly when `return_loss` is truthy and is `clip_loss` of the per-text logits; the total loss exists exactly when the contrastive loss does and equals it plus the quantization loss |
| `VqClip.ForwardLogitsTranspose` | vq_clip/modeling_vq_clip.py:212-215 | the per-image logits are the image-side similarities, and transposing them gives the per-text logits back |
| `Tensors.ScaledSimilarity` | vq_clip/modeling_vq_clip.py:214 | the scaled similarity of a batch of m rows against n rows of the same width is an m-by-n matrix |
| `Tensors.Transpose` | vq_clip/modeling_vq_clip.py:215 | the transpose has the swapped shape, and entry (i, j) is entry (j, i) of the input |
| `Tensors.DotCommutes` | vq_clip/modeling_vq_clip.py:214 | the dot product is symmetric in its arguments |
| `Tensors.SimilarityTranspose` | vq_clip/modeling_vq_clip.py:214-215 | transposing the text-against-image logits gives the image-against-text logits |
| `Tensors.TransposeInvolutive` | vq_clip/modeling_vq_clip.py:215 | transposing twice gives the matrix back |
| `Outputs.FlatTuple` | vq_clip/modeling_vq_clip.py:225-234 | the flat tuple has six elements, or seven with the contrastive loss first; a loss appears only at the head; the rest are logits per image, logits per text, text embeddings, image embeddings, text and vision tower outputs, in that order |
| `VqClip.ForwardFlatShape` | vq_clip/modeling_vq_clip.py:225-234 | with a falsy resolved `return_dict` the forward result is the flat tuple, whose leading loss exists exactly when `return_loss` is truthy and is the contrastive loss |
| `VqClip.ForwardStructuredShape` | vq_clip/modeling_vq_clip.py:236-246 | with a truthy resolved `return_dict` the record's loss is the total loss, its quantization and contrastive losses are the computed ones, it carries codes exactly for the quantized modalities, and its perplexity is `None` |
| `Outputs.StructuredOmitsPerplexity` | vq_clip/modeling_vq_clip.py:236-246 | the record never sets the perplexity nor the raw tower outputs |
| `Outputs.FlatStructuredAgree` | vq_clip/modeling_vq_clip.py:225-246 | the flat tuple's logits, embeddings and leading loss are the record's logits, embeddings and contrastive loss |
| `VqClip.ValuesIgnoreReturnDict` | vq_clip/modeling_vq_clip.py:165-223 | when the towers' pooled outputs do not depend on `return_dict`, neither do the logits, the quantization results or the contrastive loss |
| `VqClip.FlatStructuredParity` | vq_clip/modeling_vq_clip.py:225-246 | asked with `return_dict` false and true, the forward pass succeeds in both or neither, and the two shapes carry the same logits, embeddings and contrastive loss |
| `Persistence.Prefixed` | vq_clip/modeling_vq_clip.py:253 | a sub-module's parameter `k` appears in its owner's state dict as `namespace + k` with the same tensor, and nothing else appears |
| `Persistence.FilterStateDict` | vq_clip/modeling_vq_clip.py:252-256 | the result holds exactly the state dict's names that do not start with `"clip_model"`, each with its tensor unchanged |
| `Persistence.BackboneNamesDropped` | vq_clip/modeling_vq_clip.py:254-255 | every name in the backbone's namespace starts with `"clip_model"` |
| `Persistence.WithoutBackboneKeepsAdapters` | vq_clip/modeling_vq_clip.py:252-256 | filtering a model's state dict gives exactly the adapters' entries, whatever the backbone's parameters |
| `VqClip.VqClipModel.SaveAdapter` | vq_clip/modeling_vq_clip.py:248-258 | the mapping handed to the checkpoint writer has no backbone name and is exactly the adapters' parameters under their attribute names |
| `VqClip.GraftTouchesOnlyBackbone` | vq_clip/modeling_vq_clip.py:266-269 | a graft installs the new backbone, leaves the configuration, the backbone configuration and both adapters unchanged, and grafting the same backbone twice is the same as once |
| `VqClip.GraftKeepsSavedAdapter` | vq_clip/modeling_vq_clip.py:252-268 | what `save_adapter` writes is the adapters' parameters, so it is the same before and after a graft |
| `VqClip.VqClipModel.FromPretrainedClip` | vq_clip/modeling_vq_clip.py:260-269 | a failed adapter-checkpoint load fails with its error; otherwise a failed backbone load fails with its error and touches nothing; otherwise the same model object is returned with only its backbone replaced |

## Left out

- Tensor numerics are uninterpreted functions supplied by `Capabilities.Library` and `Capabilities.Backbone`. These are the encoder stacks, projections, L2 normalisation, `logit_scale.exp()` and `clip_loss`. Nothing is proved about their values, so the unit-norm property of the normalised embeddings is not modelled.
- The adapter internals (codebook, nearest-code search, commitment loss) are not part of this model. The adapter is used only through its `z`/`codes`/`loss`/`perplexity` record. That record always has a perplexity. The source reads it only when `return_perplexity` is truthy.
- Floating point: scalars and tensor entries are exact reals. Rounding and the order of the two additions are not modelled.
- The foreign towers are total functions. Their own errors (missing inputs, shape errors inside a tower) and any `ConfigError` from configuration parsing are not modelled. The two errors the forward pass itself meets are modelled: `ShapeMismatch`, the logits product of embeddings with different widths, and `NonSquareLogits`, below.
- `clip_loss` belongs to the backbone library. Its value is opaque (`Capabilities.Library.clipLoss`); only its shape requirement is modelled: with a truthy `return_loss` the numbers of texts and images must agree, otherwise the forward pass fails with `NonSquareLogits`. With a falsy `return_loss` the counts need not agree. The loss of an empty square batch (a mean over no rows) is left to the opaque function.
- `save_pretrained`, `from_pretrained` and the checkpoint files themselves are left out. So are configuration (de)serialisation and its round trip, and `**kwargs` forwarding to the base configuration. `SaveAdapter` returns the mapping the writer would receive. `FromPretrainedClip` takes the two load results as inputs, so the order of the loads shows up only in which error wins.
- The content of `CLIPConfig().to_dict()` and `VQAdapterConfig().to_dict()` belongs to foreign classes. They are inputs (`Config.ConfigDefaults`). `VqClip.DefaultConfigQuantizesVisionOnly` assumes the adapter default mapping is non-empty (`Config.NonEmptyDefaults`).
- Python's sharing of the mutable default argument dictionaries between calls is not modelled. Nothing in the core mutates them.
- `save_adapter`'s dictionary keeps the state dict's insertion order. A Dafny `map` has no order, so the model does not capture that order.
- The structured output inherits from the backbone's output class. Here it is one flat record whose unset fields are `None`.
- `VqClip.FlatStructuredParity`: proved only for backbones whose pooled tower outputs do not depend on `return_dict` (`Capabilities.PooledIgnoresReturnDict`), because the towers are opaque.
- The `logit_scale` property is modelled as `VqClipModel.LogitScale`, a plain accessor with no contract.
- `eval.py` (device selection, autocast, processor download, zero-shot evaluation, command line) is glue and is not part of this model.
- Concurrency: the core has no threads or locks, and callers must not overlap a graft with a forward pass. None of this is modelled.
