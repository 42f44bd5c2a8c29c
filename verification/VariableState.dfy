/** The GPU-resident variable state of a stateful model: a growing device buffer behind set, get, reset, assign and read. */
module VariableState {
  import opened Arithmetic
  import opened Options

  type Byte = nat
  type Shape = seq<nat>

  /** A declared shape; a dimension of None is dynamic. */
  datatype PartialShape = Unranked | Ranked(dims: seq<Option<nat>>)

  datatype Info = Info(declared: PartialShape, elementSize: nat)

  datatype Value = Value(shape: Shape, bytes: seq<Byte>)

  function ShapeSize(shape: Shape): nat {
    if shape == [] then 1 else ShapeSize(shape[..|shape| - 1]) * shape[|shape| - 1]
  }

  function ByteSize(info: Info, shape: Shape): nat {
    info.elementSize * ShapeSize(shape)
  }

  predicate Sized(info: Info, v: Value) {
    |v.bytes| == ByteSize(info, v.shape)
  }

  predicate Compatible(declared: PartialShape, shape: Shape) {
    match declared
    case Unranked => true
    case Ranked(dims) =>
      |dims| == |shape| && forall i :: 0 <= i < |dims| ==> dims[i].None? || dims[i].value == shape[i]
  }

  /** The shape before anything was stored: dynamic dimensions are empty. */
  function InitialShape(declared: PartialShape): Shape {
    match declared
    case Unranked => []
    case Ranked(dims) => seq(|dims|, i requires 0 <= i < |dims| => if dims[i].Some? then dims[i].value else 0)
  }

  /** Declared dimensions are kept, dynamic ones start at 0, and then nothing is stored; an undeclared rank starts as a
      scalar. */
  lemma {:induction false} InitialShapeIs(info: Info)
    ensures info.declared.Unranked? ==> InitialShape(info.declared) == []
    ensures info.declared.Ranked? ==>
      && |InitialShape(info.declared)| == |info.declared.dims|
      && (forall i :: 0 <= i < |info.declared.dims| ==>
            InitialShape(info.declared)[i] == info.declared.dims[i].GetOr(0))
      && (None in info.declared.dims ==> ByteSize(info, InitialShape(info.declared)) == 0)
  {
    if info.declared.Ranked? && None in info.declared.dims {
      var i :| 0 <= i < |info.declared.dims| && info.declared.dims[i] == None;
      EmptyShape(InitialShape(info.declared), i);
    }
  }

  /** A shape is compatible if it is the initial one wherever a dimension is declared; a static declaration admits that one
      shape only. */
  lemma {:induction false} CompatibleIff(declared: PartialShape, shape: Shape)
    ensures Compatible(declared, shape) <==>
      declared.Unranked? || (|shape| == |declared.dims|
        && forall i :: 0 <= i < |shape| && declared.dims[i] != None ==> shape[i] == InitialShape(declared)[i])
    ensures declared.Ranked? && None !in declared.dims ==>
      (Compatible(declared, shape) <==> shape == InitialShape(declared))
  {}

  /** The elements of a shape are the product of its dimensions. */
  lemma {:induction false} ShapeSizeProduct(a: Shape, b: Shape)
    ensures ShapeSize(a + b) == ShapeSize(a) * ShapeSize(b)
    ensures forall d: nat :: ShapeSize([d]) == d
  {
    forall d: nat ensures ShapeSize([d]) == d { assert [d][..0] == []; }
    if b == [] {
      assert a + b == a;
    } else {
      var n := |b| - 1;
      ShapeSizeProduct(a, b[..n]);
      assert (a + b)[..|a + b| - 1] == a + b[..n];
      Regroup(ShapeSize(a), ShapeSize(b[..n]), b[n]);
    }
  }

  lemma {:induction false} EmptyShape(shape: Shape, i: nat)
    requires i < |shape| && shape[i] == 0
    ensures ShapeSize(shape) == 0
  {
    if i < |shape| - 1 { EmptyShape(shape[..|shape| - 1], i); }
  }

  function Zeros(n: nat): (z: seq<Byte>)
    ensures |z| == n && forall i :: 0 <= i < n ==> z[i] == 0
  {
    seq(n, _ => 0)
  }

  // ----- specification

  /** What a caller can observe, and the allocation behind it. */
  datatype State = State(value: Value, isReset: bool, capacity: nat)

  datatype Call =
    | SetState(value: Value, sameType: bool)
    | Reset
    | Assign(value: Value)

  function Empty(info: Info): Value {
    var shape := InitialShape(info.declared);
    Value(shape, Zeros(ByteSize(info, shape)))
  }

  function Initial(info: Info): State {
    State(Empty(info), true, ByteSize(info, InitialShape(info.declared)))
  }

  predicate Accepted(info: Info, call: Call) {
    call.SetState? ==> Compatible(info.declared, call.value.shape) && call.sameType
  }

  function Grown(capacity: nat, needed: nat): nat {
    if needed > capacity then needed else capacity
  }

  function Step(info: Info, s: State, call: Call): State {
    match call
    case Reset => State(Empty(info), true, s.capacity)
    case SetState(v, _) => if Accepted(info, call) then State(v, false, Grown(s.capacity, |v.bytes|)) else s
    case Assign(v) => State(v, false, Grown(s.capacity, |v.bytes|))
  }

  function History(info: Info, calls: seq<Call>): State {
    if calls == [] then Initial(info) else Step(info, History(info, calls[..|calls| - 1]), calls[|calls| - 1])
  }

  predicate WellSized(info: Info, calls: seq<Call>) {
    forall i :: 0 <= i < |calls| ==> calls[i].Reset? || Sized(info, calls[i].value)
  }

  /** The value written last since the last reset, ignoring rejected calls. */
  function LastWrite(info: Info, calls: seq<Call>): Option<Value> {
    if calls == [] then None
    else
      var call := calls[|calls| - 1];
      if call.Reset? then None
      else if Accepted(info, call) then Some(call.value)
      else LastWrite(info, calls[..|calls| - 1])
  }

  /** The largest size ever stored. */
  function HighWater(info: Info, calls: seq<Call>): nat {
    if calls == [] then ByteSize(info, InitialShape(info.declared))
    else
      var call, before := calls[|calls| - 1], HighWater(info, calls[..|calls| - 1]);
      if call.Reset? || !Accepted(info, call) then before else Grown(before, |call.value.bytes|)
  }

  /** ReadValue: the stored value, or after a reset the init value, or zeros at the initial shape. */
  function ReadValue(s: State, info: Info, init: Option<Value>): Value {
    if !s.isReset then s.value else if init.Some? then init.value else Empty(info)
  }

  lemma {:induction false} HistoryIs(info: Info, calls: seq<Call>)
    requires WellSized(info, calls)
    ensures var s := History(info, calls);
      && s.isReset == LastWrite(info, calls).None?
      && s.value == (if LastWrite(info, calls).Some? then LastWrite(info, calls).value else Empty(info))
      && s.capacity == HighWater(info, calls) >= |s.value.bytes| == ByteSize(info, s.value.shape)
  {
    if calls != [] {
      hide Empty, InitialShape, ByteSize, Compatible;
      HistoryIs(info, calls[..|calls| - 1]);
      CapacityKept(info, calls[..|calls| - 1]);
      EmptySized(info);
    } else {
      EmptySized(info);
    }
  }

  lemma {:induction false} EmptySized(info: Info)
    ensures |Empty(info).bytes| == ByteSize(info, InitialShape(info.declared)) == ByteSize(info, Empty(info).shape)
  {}

  /** Capacity never falls below the initial allocation. */
  lemma {:induction false} CapacityKept(info: Info, calls: seq<Call>)
    ensures HighWater(info, calls) >= ByteSize(info, InitialShape(info.declared))
  {
    if calls != [] { CapacityKept(info, calls[..|calls| - 1]); }
  }

  /** Capacity is monotone along a history. */
  lemma {:induction false} CapacityGrows(info: Info, calls: seq<Call>, more: seq<Call>)
    ensures HighWater(info, calls) <= HighWater(info, calls + more)
  {
    if more == [] {
      assert calls + more == calls;
    } else {
      CapacityGrows(info, calls, more[..|more| - 1]);
      assert (calls + more)[..|calls + more| - 1] == calls + more[..|more| - 1];
    }
  }

  /** ReadValue yields the last value written since the last reset, else the init value, else zeros at the initial shape. */
  lemma {:induction false} ReadsLastWrite(info: Info, calls: seq<Call>, init: Option<Value>)
    requires WellSized(info, calls)
    ensures ReadValue(History(info, calls), info, init) ==
      match LastWrite(info, calls)
      case Some(v) => v
      case None => if init.Some? then init.value else Empty(info)
  {
    HistoryIs(info, calls);
  }

  // ----- a stateful model over many inferences

  /** An inference reads the variable and assigns what its body computes from it; between inferences the user may set or
      reset the state. */
  datatype Event =
    | Infer(body: Value -> Value, init: Option<Value>)
    | User(call: Call)

  datatype Trace = Trace(state: State, outputs: seq<Value>)

  function RunEvents(info: Info, events: seq<Event>): Trace {
    if events == [] then Trace(Initial(info), [])
    else
      var t := RunEvents(info, events[..|events| - 1]);
      match events[|events| - 1]
      case User(call) => Trace(Step(info, t.state, call), t.outputs)
      case Infer(body, init) =>
        var x := ReadValue(t.state, info, init);
        Trace(Step(info, t.state, Assign(body(x))), t.outputs + [x])
  }

  /** The reference: one optional cell. */
  function Cell(info: Info, events: seq<Event>): (Option<Value>, seq<Value>) {
    if events == [] then (None, [])
    else
      var (cell, values) := Cell(info, events[..|events| - 1]);
      match events[|events| - 1]
      case User(Reset) => (None, values)
      case User(SetState(v, t)) => (if Accepted(info, SetState(v, t)) then Some(v) else cell, values)
      case User(Assign(v)) => (Some(v), values)
      case Infer(body, init) =>
        var x := if cell.Some? then cell.value else if init.Some? then init.value else Empty(info);
        (Some(body(x)), values + [x])
  }

  /** A stateful run is a fold over one cell: every inference reads what the last one, or the user, left. */
  lemma {:induction false} StatefulRunIsFold(info: Info, events: seq<Event>)
    ensures RunEvents(info, events).outputs == Cell(info, events).1
    ensures RunEvents(info, events).state.isReset == Cell(info, events).0.None?
    ensures RunEvents(info, events).state.value ==
      if Cell(info, events).0.Some? then Cell(info, events).0.value else Empty(info)
  {
    if events != [] {
      hide Empty, Compatible, Grown;
      StatefulRunIsFold(info, events[..|events| - 1]);
    }
  }

  // ----- the object

  class CudaVariableState {
    const info: Info
    const initialShape: Shape
    var currentShape: Shape
    var deviceBuffer: array?<Byte>
    var capacityBytes: nat
    var isReset: bool

    ghost predicate Valid()
      reads this, deviceBuffer
    {
      && initialShape == InitialShape(info.declared)
      && (deviceBuffer == null ==> capacityBytes == 0)
      && (deviceBuffer != null ==> deviceBuffer.Length == capacityBytes)
      && ByteSize(info, currentShape) <= capacityBytes
      && ByteSize(info, initialShape) <= capacityBytes
    }

    ghost function Abs(): State
      requires Valid()
      reads this, deviceBuffer
    {
      State(Value(currentShape, if deviceBuffer == null then [] else deviceBuffer[..ByteSize(info, currentShape)]),
            isReset, capacityBytes)
    }

    constructor (variable: Info)
      ensures Valid() && info == variable && Abs() == Initial(variable)
      ensures deviceBuffer == null || fresh(deviceBuffer)
    {
      info := variable;
      initialShape := InitialShape(variable.declared);
      currentShape := InitialShape(variable.declared);
      isReset := true;
      var byteSize := ByteSize(variable, InitialShape(variable.declared));
      capacityBytes := byteSize;
      if byteSize > 0 {
        deviceBuffer := new Byte[byteSize](_ => 0);
      } else {
        deviceBuffer := null;
      }
    }

    /** Reallocates, forgetting the old contents, only when the buffer is too small or was never allocated. */
    method EnsureDeviceBuffer(required: nat)
      requires deviceBuffer == null ==> capacityBytes == 0
      requires deviceBuffer != null ==> deviceBuffer.Length == capacityBytes
      modifies this`deviceBuffer, this`capacityBytes
      ensures deviceBuffer != null && deviceBuffer.Length == capacityBytes == Grown(old(capacityBytes), required)
      ensures deviceBuffer == old(deviceBuffer) || fresh(deviceBuffer)
    {
      if required > capacityBytes || deviceBuffer == null {
        deviceBuffer := new Byte[required];
        capacityBytes := required;
      }
    }

    method Upload(bytes: seq<Byte>)
      requires deviceBuffer != null && |bytes| <= deviceBuffer.Length
      modifies deviceBuffer
      ensures deviceBuffer[..|bytes|] == bytes
    {
      for i := 0 to |bytes|
        invariant deviceBuffer[..i] == bytes[..i]
      {
        deviceBuffer[i] := bytes[i];
      }
    }

    method SetStateTensor(v: Value, sameType: bool) returns (ok: bool)
      requires Valid() && Sized(info, v)
      modifies this, deviceBuffer
      ensures Valid() && (deviceBuffer == old(deviceBuffer) || fresh(deviceBuffer))
      ensures ok <==> Accepted(info, SetState(v, sameType))
      ensures Abs() == Step(info, old(Abs()), SetState(v, sameType))
    {
      if !Compatible(info.declared, v.shape) || !sameType { return false; }
      currentShape := v.shape;
      EnsureDeviceBuffer(|v.bytes|);
      Upload(v.bytes);
      isReset := false;
      ok := true;
    }

    method GetState() returns (v: Value)
      requires Valid()
      ensures v == Abs().value
    {
      v := Value(currentShape, []);
      if deviceBuffer != null { v := Value(currentShape, deviceBuffer[..ByteSize(info, currentShape)]); }
    }

    method ResetState()
      requires Valid()
      modifies this, deviceBuffer
      ensures Valid() && deviceBuffer == old(deviceBuffer)
      ensures Abs() == Step(info, old(Abs()), Reset)
    {
      currentShape := initialShape;
      if capacityBytes > 0 && deviceBuffer != null {
        for i := 0 to capacityBytes
          invariant Valid() && deviceBuffer == old(deviceBuffer)
          invariant currentShape == initialShape && capacityBytes == old(capacityBytes)
          invariant forall j :: 0 <= j < i ==> deviceBuffer[j] == 0
        {
          deviceBuffer[i] := 0;
        }
      }
      isReset := true;
    }

    /** Called by Assign: reallocates if the new shape needs more memory. */
    method UpdateDeviceState(src: seq<Byte>, newShape: Shape)
      requires Valid() && |src| == ByteSize(info, newShape)
      modifies this, deviceBuffer
      ensures Valid() && (deviceBuffer == old(deviceBuffer) || fresh(deviceBuffer))
      ensures Abs() == Step(info, old(Abs()), Assign(Value(newShape, src)))
    {
      EnsureDeviceBuffer(|src|);
      currentShape := newShape;
      Upload(src);
      isReset := false;
    }

    /** Called by ReadValue: never more than the logical size, never past the destination. */
    method ReadDeviceState(dst: array<Byte>)
      requires Valid() && dst != deviceBuffer
      modifies dst
      ensures Valid() && Abs() == old(Abs())
      ensures var n := if dst.Length < |Abs().value.bytes| then dst.Length else |Abs().value.bytes|;
        dst[..n] == Abs().value.bytes[..n] && dst[n..] == old(dst[n..])
    {
      var byteSize := ByteSize(info, currentShape);
      if byteSize > 0 && deviceBuffer != null {
        var n := if dst.Length < byteSize then dst.Length else byteSize;
        for i := 0 to n
          invariant dst[..i] == deviceBuffer[..i] && dst[n..] == old(dst[n..])
          invariant deviceBuffer[..] == old(deviceBuffer[..])
        {
          dst[i] := deviceBuffer[i];
        }
      }
    }
  }
}
