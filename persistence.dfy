/**
 * Parameter mappings ("state dicts") and the adapter-only selection that is
 * handed to the checkpoint writer.
 */
module Persistence {

  /** A parameter tensor, flattened; its values are never inspected. */
  type Tensor = seq<real>

  /** A flat mapping from dotted parameter names to tensors. */
  type StateDict = map<string, Tensor>

  /** Every backbone parameter name starts with this string. */
  const BackbonePrefix: string := "clip_model"

  const ClipModelNamespace: string := "clip_model."
  const VisionAdapterNamespace: string := "vision_vq_adapter."
  const TextAdapterNamespace: string := "text_vq_adapter."

  /** Python's `s.startswith(p)`. */
  predicate StartsWith(s: string, p: string)
  {
    |p| <= |s| && s[..|p|] == p
  }

  /** The parameters of a sub-module as they appear in its owner's state dict: every name gets `namespace` in front. */
  function Prefixed(namespace: string, params: StateDict): (sd: StateDict)
    ensures forall k :: k in params ==> namespace + k in sd && sd[namespace + k] == params[k]
    ensures forall key :: key in sd ==> StartsWith(key, namespace) && key[|namespace|..] in params
  {
    assert forall k :: k in params ==> (namespace + k)[|namespace|..] == k;
    var names := set k | k in params :: namespace + k;
    map key | key in names && |namespace| <= |key| && key[|namespace|..] in params :: params[key[|namespace|..]]
  }

  /** The entries of `sd` whose name does not start with the backbone prefix. */
  function WithoutBackbone(sd: StateDict): StateDict
  {
    map k | k in sd && !StartsWith(k, BackbonePrefix) :: sd[k]
  }

  /**
   * The selection `save_adapter` performs: walk every entry of the state dict,
   * skip the backbone ones, copy the rest unchanged.
   */
  method FilterStateDict(stateDict: StateDict) returns (sd: StateDict)
    ensures forall k :: k in sd <==> k in stateDict && !StartsWith(k, BackbonePrefix)
    ensures forall k :: k in sd ==> sd[k] == stateDict[k]
    ensures sd == WithoutBackbone(stateDict)
  {
    sd := map[];
    var pending := stateDict.Keys;
    while pending != {}
      invariant pending <= stateDict.Keys
      invariant forall k :: k in sd <==> k in stateDict && k !in pending && !StartsWith(k, BackbonePrefix)
      invariant forall k :: k in sd ==> sd[k] == stateDict[k]
      decreases pending
    {
      var k :| k in pending;
      pending := pending - {k};
      if StartsWith(k, BackbonePrefix) {
        continue;
      }
      sd := sd[k := stateDict[k]];
    }
  }

  /** A name in a namespace that differs from the backbone's in its first character is never a backbone name. */
  lemma NotBackboneName(key: string, namespace: string)
    requires StartsWith(key, namespace)
    requires |namespace| > 0 && namespace[0] != BackbonePrefix[0]
    ensures !StartsWith(key, BackbonePrefix)
  {
  }

  /** Every entry of the backbone's namespace carries the backbone prefix. */
  lemma BackboneNamesDropped(backbone: StateDict)
    ensures forall key :: key in Prefixed(ClipModelNamespace, backbone) ==> StartsWith(key, BackbonePrefix)
  {
  }

  /** Filtering a union whose left part is all backbone names and whose right part has none gives the right part. */
  lemma WithoutBackboneOfPartition(backbone: StateDict, rest: StateDict)
    requires forall key :: key in backbone ==> StartsWith(key, BackbonePrefix)
    requires forall key :: key in rest ==> !StartsWith(key, BackbonePrefix)
    ensures WithoutBackbone(backbone + rest) == rest
  {
  }

  /** The state dict of a model: the backbone's parameters under `clip_model.`, then each adapter's under its own name. */
  function ModelStateDict(backbone: StateDict, vision: StateDict, text: StateDict): StateDict
  {
    Prefixed(ClipModelNamespace, backbone) + AdapterStateDict(vision, text)
  }

  /** The adapters' part of a model's state dict. */
  function AdapterStateDict(vision: StateDict, text: StateDict): StateDict
  {
    Prefixed(VisionAdapterNamespace, vision) + Prefixed(TextAdapterNamespace, text)
  }

  /**
   * Filtering a model's state dict keeps exactly the adapter entries, whatever
   * the backbone's parameters are.
   */
  lemma {:induction false} WithoutBackboneKeepsAdapters(backbone: StateDict, vision: StateDict, text: StateDict)
    ensures WithoutBackbone(ModelStateDict(backbone, vision, text)) == AdapterStateDict(vision, text)
  {
    var rest := AdapterStateDict(vision, text);
    BackboneNamesDropped(backbone);
    forall key | key in rest
      ensures !StartsWith(key, BackbonePrefix)
    {
      if key in Prefixed(TextAdapterNamespace, text) {
        NotBackboneName(key, TextAdapterNamespace);
      } else {
        NotBackboneName(key, VisionAdapterNamespace);
      }
    }
    WithoutBackboneOfPartition(Prefixed(ClipModelNamespace, backbone), rest);
  }
}
