/** What a graph computes when every node is evaluated on its own and every tensor has storage of its own. */
module TensorValues {
  import opened Options
  import opened Graphs

  type Shape = seq<nat>

  datatype TensorValue = TensorValue(shape: Shape, data: seq<Byte>)

  function Elements(shape: Shape): nat {
    if shape == [] then 1 else shape[0] * Elements(shape[1..])
  }

  /** What the device, the registry and the caller supply. */
  datatype Env = Env(
    op: (nat, seq<TensorValue>) -> seq<TensorValue>,         // a node evaluated on its own
    infer: (nat, seq<Shape>, seq<seq<int>>) -> seq<Shape>,   // shape inference on a clone, [] where no value is folded
    valueDependent: nat -> bool,                             // has_dynamic_output_
    integers: TensorName -> bool,                            // element type i32 or i64
    decode: (TensorName, seq<Byte>) -> seq<int>,
    staticShape: TensorName -> Shape,
    parameter: nat -> TensorValue,                           // the tensor the caller bound to a parameter
    state: nat -> Option<TensorValue>,                       // None: the variable has been reset
    initialShape: nat -> Shape,
    garbage: (nat, nat, nat) -> Byte,                        // fresh device memory: node, port, address
    noise: (nat, seq<Byte>, nat) -> Byte)                    // what a node leaves in its workbuffers: node, block, address

  function Type(g: Graph, t: TensorName): TensorType {
    if Exists(g, t) then g[t.node].outputs[t.port] else TensorType(1, None)
  }

  function DataBytes(g: Graph, t: TensorName, shape: Shape): nat {
    Type(g, t).elementSize * Elements(shape)
  }

  function Zeros(n: nat): seq<Byte> {
    seq(n, i => 0 as Byte)
  }

  function Front(data: seq<Byte>, count: nat): seq<Byte> {
    if count <= |data| then data[..count] else data
  }

  /** The bytes of the first `k` values, back to back. */
  function Flatten(parts: seq<TensorValue>, k: nat): seq<Byte>
    requires k <= |parts|
  {
    if k == 0 then [] else Flatten(parts, k - 1) + parts[k - 1].data
  }

  // ----- the reference

  function StateValue(g: Graph, env: Env, n: nat, inputs: seq<TensorValue>): TensorValue {
    match env.state(n)
    case Some(v) => v
    case None =>
      if |inputs| > 0 then inputs[0]
      else TensorValue(env.initialShape(n), Zeros(DataBytes(g, TensorName(n, 0), env.initialShape(n))))
  }

  function ConstantValue(g: Graph, env: Env, n: nat, data: seq<Byte>): TensorValue {
    var shape := env.staticShape(TensorName(n, 0));
    TensorValue(shape, Front(data, DataBytes(g, TensorName(n, 0), shape)))
  }

  function Evaluate(g: Graph, env: Env, n: nat, inputs: seq<TensorValue>): seq<TensorValue>
    requires n < |g|
  {
    match g[n].kind
    case ParameterNode => [env.parameter(n)]
    case ConstantNode(data) => [ConstantValue(g, env, n, data)]
    case ReadValueNode => [StateValue(g, env, n, inputs)]
    case ConcatNode => [TensorValue(env.staticShape(TensorName(n, 0)), Flatten(inputs, |inputs|))]
    case _ => env.op(n, inputs)
  }

  function OutputOf(values: seq<TensorValue>, p: nat): TensorValue {
    if p < |values| then values[p] else TensorValue([], [])
  }

  /** A reshape shows its input's bytes under its own shape, the other aliases show the tensor itself. */
  function Reference(g: Graph, env: Env, t: TensorName): TensorValue
    requires Topological(g)
    decreases t.node, 1
  {
    if !Exists(g, t) then TensorValue([], [])
    else if IsAlias(g[t.node]) then
      if |g[t.node].inputs| == 0 then TensorValue([], [])
      else if g[t.node].kind.ReshapeNode? then
        TensorValue(env.staticShape(t), Reference(g, env, g[t.node].inputs[0]).data)
      else Reference(g, env, g[t.node].inputs[0])
    else OutputOf(Evaluate(g, env, t.node, References(g, env, t.node)), t.port)
  }

  function References(g: Graph, env: Env, n: nat): (vs: seq<TensorValue>)
    requires Topological(g) && n < |g|
    ensures |vs| == |g[n].inputs|
    ensures forall k :: 0 <= k < |vs| ==> vs[k] == Reference(g, env, g[n].inputs[k])
    decreases n, 0
  {
    seq(|g[n].inputs|, k requires 0 <= k < |g[n].inputs| => Reference(g, env, g[n].inputs[k]))
  }

  function ReferenceOutputs(g: Graph, env: Env, n: nat): seq<TensorValue>
    requires Topological(g) && n < |g|
  {
    Evaluate(g, env, n, References(g, env, n))
  }

  // ----- what the graph and its operations provide

  predicate ProducedDynamically(g: Graph, t: TensorName) {
    t.node < |g| && g[t.node].dynamic
  }

  /** is_dynamic, inputs and outputs, and which nodes can be dynamic with how many ports.  A result or an assign has the
      type of what it reads. */
  predicate DynamicFlags(g: Graph) {
    forall n :: 0 <= n < |g| ==>
      && (forall k :: 0 <= k < |g[n].inputs| && !g[n].dynamic ==> Type(g, g[n].inputs[k]).elements.Some?)
      && (g[n].dynamic && g[n].kind.ParameterNode? ==> g[n].inputs == [])
      && (g[n].kind.ReshapeNode? ==> |g[n].outputs| == 1 && |g[n].inputs| > 0)
      && (g[n].kind.ConcatNode? || g[n].kind.ConstantNode? ==> !g[n].dynamic)
      && (IsAlias(g[n]) && !g[n].kind.ReshapeNode? && |g[n].inputs| > 0 ==>
            forall p :: 0 <= p < |g[n].outputs| ==> g[n].outputs[p] == Type(g, g[n].inputs[0]))
  }

  /** No element type is empty, and a static rename keeps the byte count. */
  ghost predicate BytesKept(g: Graph) {
    && (forall t :: Exists(g, t) ==> Type(g, t).elementSize > 0)
    && (forall t :: Exists(g, t) && IsAlias(g[t.node]) && |g[t.node].inputs| > 0 && Exists(g, g[t.node].inputs[0]) ==>
          TensorBytes(g, t) == TensorBytes(g, g[t.node].inputs[0]))
  }

  /** A value's bytes fit its shape, and a declared static shape is the actual one. */
  predicate Typed(g: Graph, env: Env, t: TensorName, v: TensorValue) {
    && |v.data| == DataBytes(g, t, v.shape)
    && (Type(g, t).elements.Some? ==> v.shape == env.staticShape(t) && Type(g, t).elements == Some(Elements(v.shape)))
  }

  /** The operations' own contracts: one well-typed value per output. */
  ghost predicate ValuesFit(g: Graph, env: Env)
    requires Topological(g)
  {
    && (forall n :: 0 <= n < |g| && !IsAlias(g[n]) ==> |ReferenceOutputs(g, env, n)| == |g[n].outputs|)
    && (forall t :: Exists(g, t) ==> Typed(g, env, t, Reference(g, env, t)))
  }

  // ----- renames: aliases, and concats of a single input

  predicate IsSingle(node: Node) {
    node.kind.ConcatNode? && |node.inputs| == 1
  }

  /** The tensor whose bytes `t` shows, through any chain of renames. */
  function Origin(g: Graph, t: TensorName): (o: TensorName)
    ensures o.node <= t.node
    decreases t.node
  {
    var s := Source(g, t);
    if s.node < |g| && IsSingle(g[s.node]) && g[s.node].inputs[0].node < s.node then Origin(g, g[s.node].inputs[0]) else s
  }

  /** The tensor that declares the shape `t` is shown with: the latest reshape or concat on the chain, else its origin. */
  function Label(g: Graph, t: TensorName): (l: TensorName)
    ensures l.node <= t.node
    decreases t.node
  {
    if t.node < |g| && IsAlias(g[t.node]) && !g[t.node].kind.ReshapeNode? && |g[t.node].inputs| > 0
       && g[t.node].inputs[0].node < t.node
    then Label(g, g[t.node].inputs[0])
    else t
  }

  lemma {:induction false} SourceTwice(g: Graph, t: TensorName)
    ensures Source(g, Source(g, t)) == Source(g, t)
    decreases t.node
  {
    if t.node < |g| && IsAlias(g[t.node]) && |g[t.node].inputs| > 0 && g[t.node].inputs[0].node < t.node {
      SourceTwice(g, g[t.node].inputs[0]);
    }
  }

  lemma {:induction false} OriginOfSource(g: Graph, t: TensorName)
    ensures Origin(g, Source(g, t)) == Origin(g, t)
  {
    SourceTwice(g, t);
  }

  lemma {:induction false} OriginTwice(g: Graph, t: TensorName)
    ensures Origin(g, Origin(g, t)) == Origin(g, t)
    decreases t.node
  {
    var s := Source(g, t);
    SourceTwice(g, t);
    if s.node < |g| && IsSingle(g[s.node]) && g[s.node].inputs[0].node < s.node { OriginTwice(g, g[s.node].inputs[0]); }
  }
}
