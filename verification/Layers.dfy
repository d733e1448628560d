/** Cost layers and the one mapping from an operation to a layer (LAYER_CASE and DIRECT_ONLY in
    web/lib/clickhouse.ts, LAYERS in web/lib/cost.ts, DIRECT_LAYERS in web/lib/accounts.ts). */
module Layers {
  datatype Layer = Llm | Vector | Tools | Compute | Embeddings | Egress

  const LAYERS: seq<Layer> := [Llm, Vector, Tools, Compute, Embeddings, Egress]

  const DIRECT_LAYERS: seq<Layer> := [Llm, Tools, Vector, Embeddings]

  function LayerOf(operation: string): Layer {
    if operation == "tool" then Tools
    else if operation == "embeddings" then Embeddings
    else if operation == "vector" then Vector
    else if operation == "compute" then Compute
    else if operation == "egress" then Egress
    else Llm
  }

  /** `GenAiOperation NOT IN ('compute', 'egress')` */
  predicate DirectOnly(operation: string) {
    operation != "compute" && operation != "egress"
  }

  function LayerName(layer: Layer): string {
    match layer
    case Llm => "llm"
    case Vector => "vector"
    case Tools => "tools"
    case Compute => "compute"
    case Embeddings => "embeddings"
    case Egress => "egress"
  }

  /** The filter and the mapping agree: the direct filter keeps exactly the operations that map to a
      direct layer, and its negation exactly the ones that map to compute or egress. */
  lemma {:induction false} DirectFilterMatchesMapping(operation: string)
    ensures DirectOnly(operation) <==> LayerOf(operation) in DIRECT_LAYERS
    ensures !DirectOnly(operation) <==> LayerOf(operation) == Compute || LayerOf(operation) == Egress
    ensures LayerOf(operation) in LAYERS
  {
    var layer := LayerOf(operation);
    assert DIRECT_LAYERS[0] == Llm && DIRECT_LAYERS[1] == Tools && DIRECT_LAYERS[2] == Vector
      && DIRECT_LAYERS[3] == Embeddings;
    assert LAYERS[0] == Llm && LAYERS[1] == Vector && LAYERS[2] == Tools && LAYERS[3] == Compute
        && LAYERS[4] == Embeddings && LAYERS[5] == Egress;
  }

  /** The layer an operation maps to carries the operation's own name, in the plural for tools; every other
      operation is model spend. */
  lemma {:induction false} LayersAreNamed(operation: string)
    ensures operation == "tool" ==> LayerName(LayerOf(operation)) == "tools"
    ensures operation in {"embeddings", "vector", "compute", "egress"} ==> LayerName(LayerOf(operation)) == operation
    ensures operation !in {"tool", "embeddings", "vector", "compute", "egress"} ==>
      LayerName(LayerOf(operation)) == "llm"
  {
  }
}
