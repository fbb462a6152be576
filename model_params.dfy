/** `ModelParams`: the object whose attributes become the placeholder values
    of the SDF template.  `__init__` copies its arguments into attributes,
    chooses the two control multipliers and adds four attributes per
    thruster. */
module ModelParameters {
  import opened Wrappers
  import opened Values
  import opened Decimal
  import opened Thrusters
  import opened Control

  /** The arguments of `ModelParams.__init__`, in signature order.  Tuples
      are sequences; the propeller diameter and the thrust coefficient are
      floats by annotation. */
  datatype Args = Args(
    modelName: string,
    mass: Value,
    collision: seq<Value>,
    centerOfMass: seq<Value>,
    centerOfVolume: seq<Value>,
    inertia: seq<Value>,
    linearDrag: seq<Value>,
    quadraticDrag: seq<Value>,
    addedMass: seq<Value>,
    defaultCurrent: seq<Value>,
    thrusters: seq<seq<Value>>,
    useAngvelCmd: int,
    propellerSize: string,
    propellerMass: Value,
    propellerInertia: seq<Value>,
    propellerDiameter: real,
    thrustCoefficient: real,
    maxThrust: Value,
    servoRange: seq<Value>,
    controlOffset: Value)
  {
    /** The tuple lengths the signature annotates, and a numeric full
        thrust (it is compared with 0 or doubled). */
    predicate WellShaped() {
      && |collision| >= 3 && |centerOfMass| >= 3 && |centerOfVolume| >= 3 && |inertia| >= 3
      && |linearDrag| >= 6 && |quadraticDrag| >= 6 && |addedMass| >= 6 && |defaultCurrent| >= 3
      && (forall i :: 0 <= i < |thrusters| ==> IsPosition(thrusters[i]))
      && |propellerInertia| >= 3 && IsNumber(maxThrust) && |servoRange| >= 2
    }
  }

  /** A call that passes the twelve leading arguments and leaves the
      remaining eight at their defaults, as the configuration loader does. */
  function DefaultedArgs(modelName: string, mass: Value, collision: seq<Value>, centerOfMass: seq<Value>,
                         centerOfVolume: seq<Value>, inertia: seq<Value>, linearDrag: seq<Value>,
                         quadraticDrag: seq<Value>, addedMass: seq<Value>, defaultCurrent: seq<Value>,
                         thrusters: seq<seq<Value>>, useAngvelCmd: int): (a: Args)
    ensures a.modelName == modelName && a.mass == mass && a.collision == collision
    ensures a.centerOfMass == centerOfMass && a.centerOfVolume == centerOfVolume && a.inertia == inertia
    ensures a.linearDrag == linearDrag && a.quadraticDrag == quadraticDrag && a.addedMass == addedMass
    ensures a.defaultCurrent == defaultCurrent && a.thrusters == thrusters && a.useAngvelCmd == useAngvelCmd
    ensures a.propellerSize == "0.1 0.02 0.01" && a.propellerMass == Float(0.002)
    ensures a.propellerInertia == [Float(0.001), Float(0.001), Float(0.001)]
    ensures a.propellerDiameter == 0.1 && a.thrustCoefficient == 0.02 && a.maxThrust == Int(50)
    ensures a.servoRange == [Int(1100), Int(1900)] && a.controlOffset == Float(-0.5)
  {
    Args(modelName, mass, collision, centerOfMass, centerOfVolume, inertia, linearDrag, quadraticDrag,
         addedMass, defaultCurrent, thrusters, useAngvelCmd,
         "0.1 0.02 0.01", Float(0.002), [Float(0.001), Float(0.001), Float(0.001)], 0.1, 0.02,
         Int(50), [Int(1100), Int(1900)], Float(-0.5))
  }

  /** The attribute `model_name` holds the name in double quotes, ready to
      stand as an XML attribute value. */
  function QuotedName(name: string): string {
    "\"" + name + "\""
  }

  /** The quoted name and the mass. */
  function IdentityAttrs(a: Args): map<string, Value> {
    map["model_name" := Str(QuotedName(a.modelName)), "mass" := a.mass]
  }

  /** The collision box, which the buoyancy plugin uses. */
  function CollisionAttrs(a: Args): map<string, Value>
    requires a.WellShaped()
  {
    map["collision_x" := a.collision[0], "collision_y" := a.collision[1], "collision_z" := a.collision[2]]
  }

  /** The centres of mass and of volume. */
  function CenterAttrs(a: Args): map<string, Value>
    requires a.WellShaped()
  {
    map[
      "center_of_mass_x" := a.centerOfMass[0],
      "center_of_mass_y" := a.centerOfMass[1],
      "center_of_mass_z" := a.centerOfMass[2],
      "center_of_volume_x" := a.centerOfVolume[0],
      "center_of_volume_y" := a.centerOfVolume[1],
      "center_of_volume_z" := a.centerOfVolume[2]
    ]
  }

  /** The diagonal of the inertia tensor. */
  function InertiaAttrs(a: Args): map<string, Value>
    requires a.WellShaped()
  {
    map["ixx" := a.inertia[0], "iyy" := a.inertia[1], "izz" := a.inertia[2]]
  }

  /** The six linear drag terms. */
  function LinearDragAttrs(a: Args): map<string, Value>
    requires a.WellShaped()
  {
    map[
      "xU" := a.linearDrag[0], "yV" := a.linearDrag[1], "zW" := a.linearDrag[2],
      "kP" := a.linearDrag[3], "mQ" := a.linearDrag[4], "nR" := a.linearDrag[5]
    ]
  }

  /** The six quadratic drag terms. */
  function QuadraticDragAttrs(a: Args): map<string, Value>
    requires a.WellShaped()
  {
    map[
      "xUabsU" := a.quadraticDrag[0], "yVabsV" := a.quadraticDrag[1], "zWabsW" := a.quadraticDrag[2],
      "kPabsP" := a.quadraticDrag[3], "mQabsQ" := a.quadraticDrag[4], "nRabsR" := a.quadraticDrag[5]
    ]
  }

  /** The six added-mass terms. */
  function AddedMassAttrs(a: Args): map<string, Value>
    requires a.WellShaped()
  {
    map[
      "xDotU" := a.addedMass[0], "yDotV" := a.addedMass[1], "zDotW" := a.addedMass[2],
      "kDotP" := a.addedMass[3], "mDotQ" := a.addedMass[4], "nDotR" := a.addedMass[5]
    ]
  }

  /** The ocean current. */
  function CurrentAttrs(a: Args): map<string, Value>
    requires a.WellShaped()
  {
    map[
      "default_current_x" := a.defaultCurrent[0],
      "default_current_y" := a.defaultCurrent[1],
      "default_current_z" := a.defaultCurrent[2]
    ]
  }

  /** The control method as a boolean: `bool(use_angvel_cmd)`. */
  function ControlAttrs(a: Args): map<string, Value> {
    map["use_angvel_cmd" := Bool(a.useAngvelCmd != 0)]
  }

  /** The propeller link and the thruster plugin's parameters. */
  function PropellerAttrs(a: Args): map<string, Value>
    requires a.WellShaped()
  {
    map[
      "propeller_size" := Str(a.propellerSize),
      "propeller_mass" := a.propellerMass,
      "propeller_ixx" := a.propellerInertia[0],
      "propeller_iyy" := a.propellerInertia[1],
      "propeller_izz" := a.propellerInertia[2],
      "propeller_diameter" := Float(a.propellerDiameter),
      "thrust_coefficient" := Float(a.thrustCoefficient)
    ]
  }

  /** The ArduPilot plugin's servo range and offset. */
  function ServoAttrs(a: Args): map<string, Value>
    requires a.WellShaped()
  {
    map["servo_min" := a.servoRange[0], "servo_max" := a.servoRange[1], "control_offset" := a.controlOffset]
  }

  /** The attributes `__init__` sets before it chooses the multipliers, in
      the order it sets them. */
  function BaseAttrs(a: Args): map<string, Value>
    requires a.WellShaped()
  {
    IdentityAttrs(a) + CollisionAttrs(a) + CenterAttrs(a) + InertiaAttrs(a) + LinearDragAttrs(a)
    + QuadraticDragAttrs(a) + AddedMassAttrs(a) + CurrentAttrs(a) + ControlAttrs(a) + PropellerAttrs(a)
    + ServoAttrs(a)
  }

  /** The two multiplier attributes, clockwise first. */
  function MultiplierAttrs(m: (Value, Value)): map<string, Value> {
    map["cw_control_multiplier" := m.0, "ccw_control_multiplier" := m.1]
  }

  /** The attributes of a fully initialised `ModelParams`, or the exception
      `__init__` raises (only the angular-velocity conversion can raise). */
  function InstanceAttrs(a: Args, sqrt: real -> real): Result<map<string, Value>, Error>
    requires a.WellShaped()
  {
    var m :- ControlMultipliers(a.useAngvelCmd, a.maxThrust, a.propellerDiameter, a.thrustCoefficient, sqrt);
    Success(BaseAttrs(a) + MultiplierAttrs(m) + ThrusterAttrs(a.modelName, a.thrusters, a.useAngvelCmd != 0))
  }

  lemma UnionAssociative<K, V>(x: map<K, V>, y: map<K, V>, z: map<K, V>)
    ensures x + y + z == x + (y + z)
  {
  }

  /** The thruster attributes grow by one entry per pass of the loop. */
  lemma ThrusterAttrsStep(modelName: string, ts: seq<seq<Value>>, i: nat, useAngvel: bool)
    requires forall j :: 0 <= j < |ts| ==> IsPosition(ts[j])
    requires i < |ts|
    ensures ThrusterAttrs(modelName, ts[..i + 1], useAngvel)
         == ThrusterAttrs(modelName, ts[..i], useAngvel) + ThrusterEntry(modelName, i + 1, ts[i], useAngvel)
  {
    assert ts[..i + 1][..i] == ts[..i];
  }

  /** Setting the four attributes of a thruster one by one is adding its entry. */
  lemma ThrusterEntryByUpdates(attrs: map<string, Value>, modelName: string, n: nat, t: seq<Value>,
                               useAngvel: bool)
    requires IsPosition(t)
    ensures attrs[ThrusterKey(n, "x") := t[0]][ThrusterKey(n, "y") := t[1]][ThrusterKey(n, "z") := t[2]]
                 [ThrusterKey(n, "topic") := Str(Topic(modelName, n, useAngvel))]
         == attrs + ThrusterEntry(modelName, n, t, useAngvel)
  {
  }

  /** Whether an attribute name is one the thruster loop can add. */
  predicate NamesThruster(k: string) {
    |k| > 8 && k[..8] == "thruster"
  }

  lemma ThrusterKeyNamesThruster(n: nat, f: string)
    ensures NamesThruster(ThrusterKey(n, f))
  {
    assert ThrusterKey(n, f)[..8] == "thruster";
  }

  /** The names of the two multiplier attributes. */
  predicate NamesMultiplier(k: string) {
    k == "cw_control_multiplier" || k == "ccw_control_multiplier"
  }

  /** No name in `attrs` is one that the multipliers or the thruster loop
      set later, so those later assignments leave `attrs` intact. */
  predicate PlainKeys(attrs: map<string, Value>) {
    forall k :: k in attrs ==> !NamesThruster(k) && !NamesMultiplier(k)
  }

  /** A name that differs from every thruster name at position 0 or 6 and
      from both multiplier names at position 0 or 1 is plain. */
  lemma PlainName(k: string)
    requires |k| <= 8 || k[0] != 't' || k[6] != 'e'
    requires |k| < 2 || k[0] != 'c' || (k[1] != 'w' && k[1] != 'c')
    ensures !NamesThruster(k) && !NamesMultiplier(k)
  {
    NotThruster(k);
  }

  lemma NotThruster(k: string)
    requires |k| <= 8 || k[0] != 't' || k[6] != 'e'
    ensures !NamesThruster(k)
  {
    if |k| > 8 {
      assert k[0] == k[..8][0] && k[6] == k[..8][6];
    }
  }

  lemma PlainUnion(x: map<string, Value>, y: map<string, Value>)
    requires PlainKeys(x) && PlainKeys(y)
    ensures PlainKeys(x + y)
  {
  }

  /* The eleven lemmas below, one per attribute group of `BaseAttrs`, state
     that the group's names are plain. Each checks only its own group's
     literal names, character by character through `PlainName`, so that no
     single proof has to tell all forty-odd literals apart at once;
     `BaseKeysPlain` joins them. */

  lemma IdentityPlain(a: Args)
    requires a.WellShaped()
    ensures PlainKeys(IdentityAttrs(a))
  {
    forall k | k in IdentityAttrs(a) ensures !NamesThruster(k) && !NamesMultiplier(k) { PlainName(k); }
  }

  lemma CollisionPlain(a: Args)
    requires a.WellShaped()
    ensures PlainKeys(CollisionAttrs(a))
  {
    forall k | k in CollisionAttrs(a) ensures !NamesThruster(k) && !NamesMultiplier(k) { PlainName(k); }
  }

  lemma CenterPlain(a: Args)
    requires a.WellShaped()
    ensures PlainKeys(CenterAttrs(a))
  {
    forall k | k in CenterAttrs(a) ensures !NamesThruster(k) && !NamesMultiplier(k) { PlainName(k); }
  }

  lemma InertiaPlain(a: Args)
    requires a.WellShaped()
    ensures PlainKeys(InertiaAttrs(a))
  {
    forall k | k in InertiaAttrs(a) ensures !NamesThruster(k) && !NamesMultiplier(k) { PlainName(k); }
  }

  lemma LinearDragPlain(a: Args)
    requires a.WellShaped()
    ensures PlainKeys(LinearDragAttrs(a))
  {
    forall k | k in LinearDragAttrs(a) ensures !NamesThruster(k) && !NamesMultiplier(k) { PlainName(k); }
  }

  lemma QuadraticDragPlain(a: Args)
    requires a.WellShaped()
    ensures PlainKeys(QuadraticDragAttrs(a))
  {
    forall k | k in QuadraticDragAttrs(a) ensures !NamesThruster(k) && !NamesMultiplier(k) { PlainName(k); }
  }

  lemma AddedMassPlain(a: Args)
    requires a.WellShaped()
    ensures PlainKeys(AddedMassAttrs(a))
  {
    forall k | k in AddedMassAttrs(a) ensures !NamesThruster(k) && !NamesMultiplier(k) { PlainName(k); }
  }

  lemma CurrentPlain(a: Args)
    requires a.WellShaped()
    ensures PlainKeys(CurrentAttrs(a))
  {
    forall k | k in CurrentAttrs(a) ensures !NamesThruster(k) && !NamesMultiplier(k) { PlainName(k); }
  }

  lemma ControlPlain(a: Args)
    requires a.WellShaped()
    ensures PlainKeys(ControlAttrs(a))
  {
    forall k | k in ControlAttrs(a) ensures !NamesThruster(k) && !NamesMultiplier(k) { PlainName(k); }
  }

  lemma PropellerPlain(a: Args)
    requires a.WellShaped()
    ensures PlainKeys(PropellerAttrs(a))
  {
    forall k | k in PropellerAttrs(a) ensures !NamesThruster(k) && !NamesMultiplier(k) { PlainName(k); }
  }

  lemma ServoPlain(a: Args)
    requires a.WellShaped()
    ensures PlainKeys(ServoAttrs(a))
  {
    forall k | k in ServoAttrs(a) ensures !NamesThruster(k) && !NamesMultiplier(k) { PlainName(k); }
  }

  /** None of the attributes set before the multipliers is overwritten
      later. */
  lemma BaseKeysPlain(a: Args)
    requires a.WellShaped()
    ensures PlainKeys(BaseAttrs(a))
  {
    IdentityPlain(a);
    CollisionPlain(a);
    CenterPlain(a);
    InertiaPlain(a);
    LinearDragPlain(a);
    QuadraticDragPlain(a);
    AddedMassPlain(a);
    CurrentPlain(a);
    ControlPlain(a);
    PropellerPlain(a);
    ServoPlain(a);
    var acc := IdentityAttrs(a);
    PlainUnion(acc, CollisionAttrs(a));
    acc := acc + CollisionAttrs(a);
    PlainUnion(acc, CenterAttrs(a));
    acc := acc + CenterAttrs(a);
    PlainUnion(acc, InertiaAttrs(a));
    acc := acc + InertiaAttrs(a);
    PlainUnion(acc, LinearDragAttrs(a));
    acc := acc + LinearDragAttrs(a);
    PlainUnion(acc, QuadraticDragAttrs(a));
    acc := acc + QuadraticDragAttrs(a);
    PlainUnion(acc, AddedMassAttrs(a));
    acc := acc + AddedMassAttrs(a);
    PlainUnion(acc, CurrentAttrs(a));
    acc := acc + CurrentAttrs(a);
    PlainUnion(acc, ControlAttrs(a));
    acc := acc + ControlAttrs(a);
    PlainUnion(acc, PropellerAttrs(a));
    acc := acc + PropellerAttrs(a);
    PlainUnion(acc, ServoAttrs(a));
    acc := acc + ServoAttrs(a);
  }

  /** Once the fixed attributes are plain, a fully initialised object keeps
      them, holds the two multipliers, and holds for each thruster n from 1
      to the number of thrusters its position and its topic; the topics are
      exactly those of thrusters 1 to N. */
  lemma LayersContents(base: map<string, Value>, m: (Value, Value), modelName: string, ts: seq<seq<Value>>,
                       useAngvel: bool)
    requires forall j :: 0 <= j < |ts| ==> IsPosition(ts[j])
    requires PlainKeys(base)
    ensures var r := base + MultiplierAttrs(m) + ThrusterAttrs(modelName, ts, useAngvel);
      && (forall k :: k in base ==> k in r && r[k] == base[k])
      && "cw_control_multiplier" in r && r["cw_control_multiplier"] == m.0
      && "ccw_control_multiplier" in r && r["ccw_control_multiplier"] == m.1
      && (forall n :: 1 <= n <= |ts| ==>
            && ThrusterKey(n, "x") in r && ThrusterKey(n, "y") in r && ThrusterKey(n, "z") in r
            && ThrusterKey(n, "topic") in r
            && r[ThrusterKey(n, "x")] == ts[n - 1][0]
            && r[ThrusterKey(n, "y")] == ts[n - 1][1]
            && r[ThrusterKey(n, "z")] == ts[n - 1][2]
            && r[ThrusterKey(n, "topic")] == Str(Topic(modelName, n, useAngvel)))
      && (forall n: nat :: ThrusterKey(n, "topic") in r <==> 1 <= n <= |ts|)
  {
    var t := ThrusterAttrs(modelName, ts, useAngvel);
    var fixed := base + MultiplierAttrs(m);
    var r := fixed + t;
    ThrusterAttrsContents(modelName, ts, useAngvel);
    NotThruster("cw_control_multiplier");
    NotThruster("ccw_control_multiplier");
    forall k | k in fixed ensures k in r && r[k] == fixed[k] {
      if k in t {
        ThrusterKeysShape(|ts|, k);
      }
    }
    forall n: nat ensures ThrusterKey(n, "topic") in r <==> 1 <= n <= |ts| {
      ThrusterKeyNamesThruster(n, "topic");
      ThrusterKeysMember(|ts|, n, "topic");
    }
  }

  /** `__init__` raises exactly when angular-velocity control is selected
      and the conversion of the full thrust fails: a negative full thrust or
      a negative coefficient trips an `assert`, a zero coefficient or a zero
      diameter divides by zero.  Thrust control never raises. */
  lemma InstanceAttrsFailure(a: Args, sqrt: real -> real)
    requires a.WellShaped()
    ensures var r := InstanceAttrs(a, sqrt);
      && (r.Failure? <==>
            a.useAngvelCmd != 0 &&
            !(AsReal(a.maxThrust) >= 0.0 && a.thrustCoefficient > 0.0 && a.propellerDiameter != 0.0))
      && (a.useAngvelCmd != 0 && AsReal(a.maxThrust) < 0.0 ==> r == Failure(AssertionError("thrust >= 0")))
      && (a.useAngvelCmd != 0 && AsReal(a.maxThrust) >= 0.0 && a.thrustCoefficient < 0.0 ==>
            r == Failure(AssertionError("thrust_coefficient >= 0")))
      && (a.useAngvelCmd != 0 && AsReal(a.maxThrust) >= 0.0 && a.thrustCoefficient >= 0.0
          && (a.thrustCoefficient == 0.0 || a.propellerDiameter == 0.0) ==>
            r == Failure(ZeroDivisionError))
  {
    ThrustToAngVelOutcome(AsReal(a.maxThrust), a.propellerDiameter, a.thrustCoefficient, DefaultFluidDensity, sqrt);
  }

  /** What a fully initialised `ModelParams` holds: every attribute set
      before the loop as set, the multipliers the control method selects,
      and for each thruster n from 1 to the number of thrusters its position
      and its topic; the topics are exactly those of thrusters 1 to N. */
  lemma InstanceAttrsContents(a: Args, sqrt: real -> real)
    requires a.WellShaped()
    requires InstanceAttrs(a, sqrt).Success?
    ensures var r := InstanceAttrs(a, sqrt).value;
      && (forall k :: k in BaseAttrs(a) ==> k in r && r[k] == BaseAttrs(a)[k])
      && "cw_control_multiplier" in r && "ccw_control_multiplier" in r
      && (a.useAngvelCmd == 0 ==>
            && r["cw_control_multiplier"] == r["ccw_control_multiplier"]
            && IsNumber(r["cw_control_multiplier"])
            && AsReal(r["cw_control_multiplier"]) == 2.0 * AsReal(a.maxThrust)
            && (r["cw_control_multiplier"].Int? <==> a.maxThrust.Int?))
      && (a.useAngvelCmd != 0 ==>
            var w := ThrustToAngVel(AsReal(a.maxThrust), a.propellerDiameter, a.thrustCoefficient,
                                    DefaultFluidDensity, sqrt);
            && w.Success?
            && r["ccw_control_multiplier"].Float? && r["ccw_control_multiplier"].x == 2.0 * w.value
            && r["cw_control_multiplier"].Float? && r["cw_control_multiplier"].x == - r["ccw_control_multiplier"].x)
      && (forall n :: 1 <= n <= |a.thrusters| ==>
            && ThrusterKey(n, "x") in r && ThrusterKey(n, "y") in r && ThrusterKey(n, "z") in r
            && ThrusterKey(n, "topic") in r
            && r[ThrusterKey(n, "x")] == a.thrusters[n - 1][0]
            && r[ThrusterKey(n, "y")] == a.thrusters[n - 1][1]
            && r[ThrusterKey(n, "z")] == a.thrusters[n - 1][2]
            && r[ThrusterKey(n, "topic")] == Str(Topic(a.modelName, n, a.useAngvelCmd != 0)))
      && (forall n: nat :: ThrusterKey(n, "topic") in r <==> 1 <= n <= |a.thrusters|)
  {
    var m := ControlMultipliers(a.useAngvelCmd, a.maxThrust, a.propellerDiameter, a.thrustCoefficient, sqrt).value;
    BaseKeysPlain(a);
    LayersContents(BaseAttrs(a), m, a.modelName, a.thrusters, a.useAngvelCmd != 0);
  }

  /** The attribute `model_name` holds the quoted name. */
  lemma BaseAttrsName(a: Args)
    requires a.WellShaped()
    ensures "model_name" in BaseAttrs(a) && BaseAttrs(a)["model_name"] == Str(QuotedName(a.modelName))
  {
    var name := Str(QuotedName(a.modelName));
    var acc := IdentityAttrs(a);
    assert "model_name" in acc && acc["model_name"] == name;
    assert "model_name" !in CollisionAttrs(a);
    acc := acc + CollisionAttrs(a);
    assert "model_name" !in CenterAttrs(a);
    acc := acc + CenterAttrs(a);
    assert "model_name" !in InertiaAttrs(a);
    acc := acc + InertiaAttrs(a);
    assert "model_name" !in LinearDragAttrs(a);
    acc := acc + LinearDragAttrs(a);
    assert "model_name" !in QuadraticDragAttrs(a);
    acc := acc + QuadraticDragAttrs(a);
    assert "model_name" !in AddedMassAttrs(a);
    acc := acc + AddedMassAttrs(a);
    assert "model_name" !in CurrentAttrs(a);
    acc := acc + CurrentAttrs(a);
    assert "model_name" !in ControlAttrs(a);
    acc := acc + ControlAttrs(a);
    assert "model_name" !in PropellerAttrs(a);
    acc := acc + PropellerAttrs(a);
    assert "model_name" !in ServoAttrs(a);
  }

  /** The attribute `use_angvel_cmd` holds the control method as a boolean. */
  lemma BaseAttrsFlag(a: Args)
    requires a.WellShaped()
    ensures "use_angvel_cmd" in BaseAttrs(a) && BaseAttrs(a)["use_angvel_cmd"] == Bool(a.useAngvelCmd != 0)
  {
    var front := IdentityAttrs(a) + CollisionAttrs(a) + CenterAttrs(a) + InertiaAttrs(a) + LinearDragAttrs(a)
                 + QuadraticDragAttrs(a) + AddedMassAttrs(a) + CurrentAttrs(a);
    var control := front + ControlAttrs(a);
    assert "use_angvel_cmd" in control && control["use_angvel_cmd"] == Bool(a.useAngvelCmd != 0);
    assert "use_angvel_cmd" !in PropellerAttrs(a);
    var propeller := control + PropellerAttrs(a);
    assert propeller["use_angvel_cmd"] == Bool(a.useAngvelCmd != 0);
    assert "use_angvel_cmd" !in ServoAttrs(a);
  }

  /** The instance: `attrs` is its `__dict__`, the map `vars` returns. */
  class ModelParams {
    var attrs: map<string, Value>

    /** The object before `__init__` runs. */
    constructor ()
      ensures attrs == map[]
    {
      attrs := map[];
    }

    /** `__init__`.  On an exception the attributes already set stay set,
        and `raised` carries the exception. */
    method Init(a: Args, sqrt: real -> real) returns (raised: Option<Error>)
      requires a.WellShaped()
      modifies this
      ensures raised.None? <==> InstanceAttrs(a, sqrt).Success?
      ensures raised.None? ==> attrs == old(attrs) + InstanceAttrs(a, sqrt).value
      ensures raised.Some? ==> raised.value == InstanceAttrs(a, sqrt).error
                               && attrs == old(attrs) + BaseAttrs(a)
    {
      ghost var initial := attrs;
      attrs := attrs + BaseAttrs(a);
      var multipliers := ControlMultipliers(a.useAngvelCmd, a.maxThrust, a.propellerDiameter,
                                            a.thrustCoefficient, sqrt);
      if multipliers.Failure? {
        return Some(multipliers.error);
      }
      attrs := attrs + MultiplierAttrs(multipliers.value);
      AddThrusters(a.modelName, a.thrusters, a.useAngvelCmd != 0);
      UnionAssociative(initial, BaseAttrs(a), MultiplierAttrs(multipliers.value));
      UnionAssociative(initial, BaseAttrs(a) + MultiplierAttrs(multipliers.value),
                       ThrusterAttrs(a.modelName, a.thrusters, a.useAngvelCmd != 0));
      return None;
    }

    /** The thruster loop: thrusters are numbered from 1 in declaration order. */
    method AddThrusters(modelName: string, thrusters: seq<seq<Value>>, useAngvel: bool)
      requires forall i :: 0 <= i < |thrusters| ==> IsPosition(thrusters[i])
      modifies this
      ensures attrs == old(attrs) + ThrusterAttrs(modelName, thrusters, useAngvel)
    {
      for i := 0 to |thrusters|
        invariant attrs == old(attrs) + ThrusterAttrs(modelName, thrusters[..i], useAngvel)
      {
        AddThruster(modelName, i + 1, thrusters[i], useAngvel);
        ThrusterAttrsStep(modelName, thrusters, i, useAngvel);
        UnionAssociative(old(attrs), ThrusterAttrs(modelName, thrusters[..i], useAngvel),
                         ThrusterEntry(modelName, i + 1, thrusters[i], useAngvel));
      }
      assert thrusters[..|thrusters|] == thrusters;
    }

    /** One pass of the thruster loop: the position of thruster `n` and its
        command topic, built by appending the control method's suffix. */
    method AddThruster(modelName: string, n: nat, thruster: seq<Value>, useAngvel: bool)
      requires IsPosition(thruster)
      modifies this
      ensures attrs == old(attrs) + ThrusterEntry(modelName, n, thruster, useAngvel)
    {
      ghost var initial := attrs;
      attrs := attrs[ThrusterKey(n, "x") := thruster[0]];
      attrs := attrs[ThrusterKey(n, "y") := thruster[1]];
      attrs := attrs[ThrusterKey(n, "z") := thruster[2]];
      var topic := "/model/" + modelName + "/joint/thruster" + NatToString(n) + "_joint/cmd_";
      if useAngvel {
        topic := topic + "vel";
      } else {
        topic := topic + "thrust";
      }
      assert topic == Topic(modelName, n, useAngvel);
      attrs := attrs[ThrusterKey(n, "topic") := Str(topic)];
      ThrusterEntryByUpdates(initial, modelName, n, thruster, useAngvel);
    }
  }
}
