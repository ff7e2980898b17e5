/**
 * The KPU processor's input side (KPU.Processor): typed input values, the
 * inputs a processor registers, the per-update snapshot of available inputs,
 * and the sensor lookups that decide availability and resolution.
 */
module KpuProcessor {
  import opened Common
  import opened Instructions

  // ---------------------------------------------------------------- input values

  datatype InputType = BOOLEAN | DOUBLE

  /** An `InputValue` object: its tag and both payload fields (the unused one keeps its default). */
  datatype InputValue = InputValue(typ: InputType, boolValue: bool, doubleValue: Float)

  /** `new InputValue(double)`. */
  function FromDouble(d: Float): (v: InputValue)
    ensures v.typ == DOUBLE && v.doubleValue == d
  {
    InputValue(DOUBLE, false, d)
  }

  /** `new InputValue(bool)`. */
  function FromBool(b: bool): (v: InputValue)
    ensures v.typ == BOOLEAN && v.boolValue == b
  {
    InputValue(BOOLEAN, b, Finite(0.0))
  }

  /** `InputValue.ToString()`; the "g4" formatting of doubles is supplied from outside. */
  function ToText(v: InputValue, formatG4: Float -> string): string
  {
    match v.typ
    case BOOLEAN => if v.boolValue then "1" else "0"
    case DOUBLE => formatG4(v.doubleValue)
  }

  /** A boolean prints as "1" exactly when it is true, and as "0" otherwise. */
  lemma BoolText(b: bool, formatG4: Float -> string)
    ensures ToText(FromBool(b), formatG4) == "1" <==> b
    ensures ToText(FromBool(b), formatG4) == "0" <==> !b
  {
  }

  // ---------------------------------------------------------------- the vessel as the inputs see it

  datatype Situation = LANDED | SPLASHED | PRELAUNCH | FLYING | SUB_ORBITAL | ORBITING | ESCAPING | DOCKED

  /** A `ModuleKpuSensor` on some part. */
  datatype Sensor = Sensor(sensorType: string, sensorRes: real)

  /** A part, reduced to the sensor modules it carries. */
  datatype Part = Part(sensors: seq<Sensor>)

  /**
   * What the inputs read from their vessel. The battery level and the rounded
   * surface height come from floating-point code and are given as they are.
   */
  datatype VesselView = VesselView(
    situation: Situation,
    parts: seq<Part>,
    chargeCapacity: real,
    batteryPercent: real,
    roundedSrfHeight: real)

  predicate IsSensorFor(parts: seq<Part>, name: string, i: int, j: int)
  {
    0 <= i < |parts| && 0 <= j < |parts[i].sensors| && parts[i].sensors[j].sensorType == name
  }

  function AnySensorOfType(sensors: seq<Sensor>, name: string): (b: bool)
    ensures b <==> exists j :: 0 <= j < |sensors| && sensors[j].sensorType == name
  {
    if sensors == [] then false
    else sensors[0].sensorType == name || AnySensorOfType(sensors[1..], name)
  }

  /** `SensorDriven.available`: some part carries a sensor of this type. */
  function SensorAvailable(parts: seq<Part>, name: string): (b: bool)
    ensures b <==> exists i, j :: IsSensorFor(parts, name, i, j)
  {
    if parts == [] then false
    else
      var here := AnySensorOfType(parts[0].sensors, name);
      var later := SensorAvailable(parts[1..], name);
      assert here ==> exists i, j :: IsSensorFor(parts, name, i, j) by {
        if here {
          var j :| 0 <= j < |parts[0].sensors| && parts[0].sensors[j].sensorType == name;
          assert IsSensorFor(parts, name, 0, j);
        }
      }
      assert later ==> exists i, j :: IsSensorFor(parts, name, i, j) by {
        if later {
          var i, j :| IsSensorFor(parts[1..], name, i, j);
          assert IsSensorFor(parts, name, i + 1, j);
        }
      }
      assert (exists i, j :: IsSensorFor(parts, name, i, j)) ==> here || later by {
        if exists i, j :: IsSensorFor(parts, name, i, j) {
          var i, j :| IsSensorFor(parts, name, i, j);
          if i > 0 {
            assert IsSensorFor(parts[1..], name, i - 1, j);
          }
        }
      }
      here || later
  }

  /** `SensorDriven.res`: the finest resolution among sensors of this type, +infinity without one. */
  method Resolution(parts: seq<Part>, name: string) returns (rv: Float)
    ensures rv == PositiveInfinity <==> !SensorAvailable(parts, name)
    ensures rv.Finite? ==> exists i, j :: IsSensorFor(parts, name, i, j) && parts[i].sensors[j].sensorRes == rv.value
    ensures rv.Finite? ==> forall i, j :: IsSensorFor(parts, name, i, j) ==> rv.value <= parts[i].sensors[j].sensorRes
  {
    rv := PositiveInfinity;
    for i := 0 to |parts|
      invariant rv == PositiveInfinity <==> forall i', j :: 0 <= i' < i ==> !IsSensorFor(parts, name, i', j)
      invariant rv.Finite? ==> exists i', j :: 0 <= i' < i && IsSensorFor(parts, name, i', j) && parts[i'].sensors[j].sensorRes == rv.value
      invariant rv.Finite? ==> forall i', j :: 0 <= i' < i && IsSensorFor(parts, name, i', j) ==> rv.value <= parts[i'].sensors[j].sensorRes
    {
      var sensors := parts[i].sensors;
      for j := 0 to |sensors|
        invariant rv == PositiveInfinity <==>
          (forall i', j' :: 0 <= i' < i ==> !IsSensorFor(parts, name, i', j')) &&
          (forall j' :: 0 <= j' < j ==> !IsSensorFor(parts, name, i, j'))
        invariant rv.Finite? ==>
          (exists i', j' :: 0 <= i' < i && IsSensorFor(parts, name, i', j') && parts[i'].sensors[j'].sensorRes == rv.value) ||
          (exists j' :: 0 <= j' < j && IsSensorFor(parts, name, i, j') && sensors[j'].sensorRes == rv.value)
        invariant rv.Finite? ==>
          (forall i', j' :: 0 <= i' < i && IsSensorFor(parts, name, i', j') ==> rv.value <= parts[i'].sensors[j'].sensorRes) &&
          (forall j' :: 0 <= j' < j && IsSensorFor(parts, name, i, j') ==> rv.value <= sensors[j'].sensorRes)
      {
        var m := sensors[j];
        if m.sensorType == name {
          assert IsSensorFor(parts, name, i, j);
          if FloatLess(Finite(m.sensorRes), rv) {
            rv := Finite(m.sensorRes);
          }
        }
      }
    }
  }

  // ---------------------------------------------------------------- the processor's inputs

  /** The inputs a processor registers. */
  datatype InputKind = Batteries | Gear | SrfHeight

  function InputName(k: InputKind): string
  {
    match k
    case Batteries => "batteries"
    case Gear => "gear"
    case SrfHeight => "srfHeight"
  }

  /** The float literal `0.1f` widened to double, exactly. */
  const PointOneF: real := 0.100000001490116119384765625

  function Available(k: InputKind, v: VesselView): bool
  {
    match k
    case Batteries => v.chargeCapacity > PointOneF
    case Gear => SensorAvailable(v.parts, "gear")
    case SrfHeight => SensorAvailable(v.parts, "srfHeight")
  }

  /** `Gear.value`: the gear reads as down when landed or on the launch pad. */
  function GearValue(s: Situation): (v: InputValue)
    ensures v.typ == BOOLEAN
    ensures v.boolValue <==> s == LANDED || s == PRELAUNCH
  {
    FromBool(s == LANDED || s == PRELAUNCH)
  }

  function Value(k: InputKind, v: VesselView): InputValue
  {
    match k
    case Batteries => FromDouble(Finite(v.batteryPercent))
    case Gear => GearValue(v.situation)
    case SrfHeight =>
      if !SensorAvailable(v.parts, "srfHeight") then FromDouble(PositiveInfinity)
      else FromDouble(Finite(v.roundedSrfHeight))
  }

  // ---------------------------------------------------------------- the snapshot OnUpdate builds

  /** The dictionary being filled, and the name whose `Add` threw, if one did. */
  datatype Snapshot = Snapshot(values: map<string, InputValue>, duplicate: Option<string>)

  /** The remaining loop iterations of `OnUpdate`, from dictionary state `s`. */
  function AddInputs(s: Snapshot, inputs: seq<InputKind>, v: VesselView): Snapshot
    decreases |inputs|
  {
    if inputs == [] || s.duplicate.Some? then s
    else
      var k := inputs[0];
      var next :=
        if !Available(k, v) then s
        else if InputName(k) in s.values then Snapshot(s.values, Some(InputName(k)))
        else Snapshot(s.values[InputName(k) := Value(k, v)], None);
      AddInputs(next, inputs[1..], v)
  }

  /** What `OnUpdate` leaves behind: the loop run from a new, empty dictionary. */
  function TakeSnapshot(inputs: seq<InputKind>, v: VesselView): Snapshot
  {
    AddInputs(Snapshot(map[], None), inputs, v)
  }

  predicate IsAvailableName(inputs: seq<InputKind>, v: VesselView, n: string)
  {
    exists a :: 0 <= a < |inputs| && Available(inputs[a], v) && InputName(inputs[a]) == n
  }

  /** No two available inputs share a name. */
  predicate DistinctAvailableNames(inputs: seq<InputKind>, v: VesselView)
  {
    forall a, b :: 0 <= a < b < |inputs| && Available(inputs[a], v) && Available(inputs[b], v) ==>
      InputName(inputs[a]) != InputName(inputs[b])
  }

  /** No `Add` will throw: available names are distinct and none is already a key of `m`. */
  predicate NoClash(m: map<string, InputValue>, inputs: seq<InputKind>, v: VesselView)
  {
    DistinctAvailableNames(inputs, v) &&
    forall a :: 0 <= a < |inputs| && Available(inputs[a], v) ==> InputName(inputs[a]) !in m
  }

  lemma NoClashSkip(m: map<string, InputValue>, inputs: seq<InputKind>, v: VesselView)
    requires inputs != [] && !Available(inputs[0], v)
    ensures NoClash(m, inputs, v) <==> NoClash(m, inputs[1..], v)
    ensures forall n :: IsAvailableName(inputs[1..], v, n) ==> IsAvailableName(inputs, v, n)
  {
  }

  lemma NoClashAdd(m: map<string, InputValue>, inputs: seq<InputKind>, v: VesselView)
    requires inputs != [] && Available(inputs[0], v) && InputName(inputs[0]) !in m
    ensures NoClash(m, inputs, v) <==>
      NoClash(m[InputName(inputs[0]) := Value(inputs[0], v)], inputs[1..], v)
    ensures forall n :: IsAvailableName(inputs[1..], v, n) ==> IsAvailableName(inputs, v, n)
  {
  }

  /** What the remaining iterations do, from a dictionary `m` in which no `Add` has thrown yet. */
  lemma {:induction false} AddInputsFacts(m: map<string, InputValue>, inputs: seq<InputKind>, v: VesselView)
    ensures var r := AddInputs(Snapshot(m, None), inputs, v);
      && (r.duplicate.None? <==> NoClash(m, inputs, v))
      && (forall n :: n in r.values ==> n in m || IsAvailableName(inputs, v, n))
      && (r.duplicate.None? ==> forall n :: n in m ==> n in r.values && r.values[n] == m[n])
      && (r.duplicate.None? ==> forall a :: 0 <= a < |inputs| && Available(inputs[a], v) ==>
            InputName(inputs[a]) in r.values && r.values[InputName(inputs[a])] == Value(inputs[a], v))
    decreases |inputs|
  {
    if inputs != [] {
      var k := inputs[0];
      var rest := inputs[1..];
      assert forall a :: 0 < a < |inputs| ==> inputs[a] == rest[a - 1];
      if !Available(k, v) {
        NoClashSkip(m, inputs, v);
        AddInputsFacts(m, rest, v);
      } else if InputName(k) in m {
        assert !NoClash(m, inputs, v);
      } else {
        var m' := m[InputName(k) := Value(k, v)];
        NoClashAdd(m, inputs, v);
        AddInputsFacts(m', rest, v);
      }
    }
  }

  /** The snapshot holds exactly the available inputs, each under its name with its value. */
  lemma SnapshotContents(inputs: seq<InputKind>, v: VesselView)
    ensures var r := TakeSnapshot(inputs, v);
      && (r.duplicate.None? <==> DistinctAvailableNames(inputs, v))
      && (forall n :: n in r.values ==> IsAvailableName(inputs, v, n))
      && (r.duplicate.None? ==> forall a :: 0 <= a < |inputs| && Available(inputs[a], v) ==>
            InputName(inputs[a]) in r.values && r.values[InputName(inputs[a])] == Value(inputs[a], v))
  {
    AddInputsFacts(map[], inputs, v);
  }

  /** The inputs every processor registers, in registration order. */
  const StandardInputs: seq<InputKind> := [Batteries, Gear, SrfHeight]

  lemma StandardInputsNeverCollide(v: VesselView)
    ensures TakeSnapshot(StandardInputs, v).duplicate.None?
    ensures TakeSnapshot(StandardInputs, v).values.Keys ==
      (if Available(Batteries, v) then {"batteries"} else {}) +
      (if Available(Gear, v) then {"gear"} else {}) +
      (if Available(SrfHeight, v) then {"srfHeight"} else {})
  {
  }

  // ---------------------------------------------------------------- Processor

  class Processor {
    var hasLevelTrigger: bool
    var hasLogicOps: bool
    var hasArithOps: bool
    var imemWords: int
    var instructions: seq<Instruction>
    var inputs: seq<InputKind>
    /** Null until the first update. */
    var inputValues: Option<map<string, InputValue>>

    /** `new Processor(part, module)`, given the module's capability fields. */
    constructor (hasLevelTrigger: bool, hasLogicOps: bool, hasArithOps: bool, imemWords: int)
      ensures this.hasLevelTrigger == hasLevelTrigger && this.hasLogicOps == hasLogicOps
      ensures this.hasArithOps == hasArithOps && this.imemWords == imemWords
      ensures instructions == [] && inputs == StandardInputs && inputValues == None
    {
      this.hasLevelTrigger := hasLevelTrigger;
      this.hasLogicOps := hasLogicOps;
      this.hasArithOps := hasArithOps;
      this.imemWords := imemWords;
      instructions := [];
      inputs := [Batteries, Gear, SrfHeight];
      inputValues := None;
    }

    /** Rebuilds `inputValues` from the available inputs; a repeated name makes `Add` throw mid-way. */
    method OnUpdate(v: VesselView) returns (r: Outcome<string>)
      modifies this`inputValues
      ensures inputValues == Some(TakeSnapshot(inputs, v).values)
      ensures r.Pass? <==> TakeSnapshot(inputs, v).duplicate.None?
      ensures r.Fail? ==> TakeSnapshot(inputs, v).duplicate == Some(r.error)
    {
      var values: map<string, InputValue> := map[];
      inputValues := Some(values);
      for n := 0 to |inputs|
        invariant TakeSnapshot(inputs, v) == AddInputs(Snapshot(values, None), inputs[n..], v)
        invariant inputValues == Some(values)
      {
        var k := inputs[n];
        assert inputs[n..][1..] == inputs[n + 1..];
        if Available(k, v) {
          if InputName(k) in values {
            return Fail(InputName(k));
          }
          values := values[InputName(k) := Value(k, v)];
          inputValues := Some(values);
        }
      }
      return Pass;
    }
  }
}
