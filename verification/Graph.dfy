/** The ordered node list that the NVIDIA plugin compiles: nodes, the tensors they produce and consume,
    and which output ports are mere aliases of an earlier tensor. */
module Graphs {
  import opened Options

  type Byte = bv8
  type BufferID = nat

  /** Why the extractor refuses a graph (the source throws). */
  datatype Error =
    | UnknownTensor         // an input names no known output
    | NotARootTensor        // a concat input already lives inside another tensor
    | EmptyConcat
    | NotAMutableBuffer     // a concat input is a constant
    | ConcatSizeMismatch
    | BadReshape
    | NoOutputs             // a parameter that is fed has nothing to rename
    | ResultBufferNotFound  // stable results only
    | BufferTooSmall

  datatype Result<+T> = Ok(value: T) | Err(error: Error)

  /** Element type and shape of an output; `elements` is None when the shape is dynamic. */
  datatype TensorType = TensorType(elementSize: nat, elements: Option<nat>)

  /** A node's position in the ordered list and an output port: the key "<node name>_<port>". */
  datatype TensorName = TensorName(node: nat, port: nat)

  datatype Kind =
    | ParameterNode
    | ResultNode
    | AssignNode
    | ConstantNode(data: seq<Byte>)
    | ConcatNode            // ConcatOptimized
    | ReshapeNode           // Reshape, Squeeze, Unsqueeze
    | ReadValueNode
    | ComputeNode

  /** `dynamic` is ov::Node::is_dynamic: some input or output shape is dynamic. */
  datatype Node = Node(kind: Kind, inputs: seq<TensorName>, outputs: seq<TensorType>, dynamic: bool)

  type Graph = seq<Node>

  /** Zero for a dynamic shape; a static tensor never takes fewer bytes than one element. */
  function ByteSize(t: TensorType): (bytes: nat) {
    match t.elements
    case None => 0
    case Some(n) => t.elementSize * (if n == 0 then 1 else n)
  }

  predicate Exists(g: Graph, t: TensorName) {
    t.node < |g| && t.port < |g[t.node].outputs|
  }

  function TensorBytes(g: Graph, t: TensorName): nat
    requires Exists(g, t)
  {
    ByteSize(g[t.node].outputs[t.port])
  }

  /** What OpenVINO guarantees of every node. */
  predicate WellFormedNode(node: Node) {
    && (node.dynamic || forall p :: 0 <= p < |node.outputs| ==> node.outputs[p].elements.Some?)
    && match node.kind
       case ConstantNode(_) => |node.outputs| == 1
       case ConcatNode => |node.outputs| == 1
       case ResultNode => |node.inputs| >= 1
       case AssignNode => |node.inputs| >= 1
       case _ => true
  }

  predicate WellFormed(g: Graph) {
    forall n :: 0 <= n < |g| ==> WellFormedNode(g[n])
  }

  /** Nodes are listed in execution order: every input is produced earlier. */
  predicate Topological(g: Graph) {
    forall n, k :: 0 <= n < |g| && 0 <= k < |g[n].inputs| ==> g[n].inputs[k].node < n
  }

  /** Nodes whose outputs share the TensorID of their first input. */
  predicate IsAlias(node: Node) {
    match node.kind
    case ParameterNode => |node.inputs| > 0
    case ResultNode => true
    case AssignNode => true
    case ReshapeNode => !node.dynamic
    case _ => false
  }

  /** `t` is not a mere alias: it has a TensorID of its own. */
  predicate Own(g: Graph, t: TensorName) {
    Exists(g, t) && !IsAlias(g[t.node])
  }

  /** The tensor whose storage `t` names: aliases are followed back to the tensor they rename. */
  function Source(g: Graph, t: TensorName): (s: TensorName)
    ensures s.node <= t.node
    decreases t.node
  {
    if t.node < |g| && IsAlias(g[t.node]) && |g[t.node].inputs| > 0 && g[t.node].inputs[0].node < t.node
    then Source(g, g[t.node].inputs[0])
    else t
  }
}
