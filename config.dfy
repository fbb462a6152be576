/** `get_model_params_from_config` after the YAML file is parsed: the
    required keys, the collision box, the five optional blocks with their
    defaults, and the call of `ModelParams`. */
module Configuration {
  import opened Wrappers
  import opened Values
  import opened Decimal
  import opened Control
  import opened ModelParameters

  /** A parsed YAML document: a scalar, a mapping or a sequence. */
  datatype Node =
    | Scalar(value: Value)
    | Mapping(entries: map<string, Node>)
    | Sequence(items: seq<Node>)

  /** The density of water the script's globals define, used for the
      collision box and the drag estimate. */
  const FluidDensity: real := 1000.0

  /** `node[key]`: a missing key is a `KeyError`, a node that is not a
      mapping a `TypeError`. */
  function Get(node: Node, key: string): (r: Result<Node, Error>)
    ensures r.Success? <==> node.Mapping? && key in node.entries
    ensures r.Success? ==> r.value == node.entries[key]
    ensures node.Mapping? && key !in node.entries ==> r == Failure(KeyError(key))
    ensures !node.Mapping? ==> r == Failure(TypeError)
  {
    match node
    case Mapping(entries) => if key in entries then Success(entries[key]) else Failure(KeyError(key))
    case _ => Failure(TypeError)
  }

  /** A value that becomes an attribute: only scalars are modelled. */
  function Leaf(node: Node): Result<Value, Error> {
    if node.Scalar? then Success(node.value) else Failure(TypeError)
  }

  /** `node[key]` taken as an attribute value. */
  function Entry(node: Node, key: string): Result<Value, Error> {
    var n :- Get(node, key);
    Leaf(n)
  }

  /** The tuple `(node[keys[0]], node[keys[1]], ...)`, evaluated left to
      right, so the first failing lookup decides the exception. */
  function Entries(node: Node, keys: seq<string>): (r: Result<seq<Value>, Error>)
    ensures r.Success? ==> |r.value| == |keys|
    ensures r.Failure? ==> r.error.KeyError? || r.error == TypeError
    ensures r.Success? ==> forall i :: 0 <= i < |keys| ==> Entry(node, keys[i]) == Success(r.value[i])
    ensures r.Failure? && r.error.KeyError? ==>
              node.Mapping? && r.error.key in keys && r.error.key !in node.entries
  {
    if keys == [] then Success([])
    else
      var v :- Entry(node, keys[0]);
      var rest :- Entries(node, keys[1..]);
      Success([v] + rest)
  }

  /** The body of a `try` block that reads `config[block][key]` for each key. */
  function Block(config: Node, block: string, keys: seq<string>): (r: Result<seq<Value>, Error>)
    ensures r.Success? ==> config.Mapping? && block in config.entries && |r.value| == |keys|
    ensures r.Success? ==> forall i :: 0 <= i < |keys| ==> Entry(config.entries[block], keys[i]) == Success(r.value[i])
    ensures r.Failure? ==> r.error.KeyError? || r.error == TypeError
    ensures r.Failure? && r.error.KeyError? ==>
              && config.Mapping?
              && (block !in config.entries
                  || (config.entries[block].Mapping? && r.error.key in keys
                      && r.error.key !in config.entries[block].entries))
  {
    var b :- Get(config, block);
    Entries(b, keys)
  }

  /** `except KeyError:` runs `fallback` for a `KeyError` only; every other
      outcome of the block stands. */
  function ExceptKeyError(tried: Result<seq<Value>, Error>, fallback: Result<seq<Value>, Error>)
    : (r: Result<seq<Value>, Error>)
    ensures tried.Failure? && tried.error.KeyError? ==> r == fallback
    ensures !(tried.Failure? && tried.error.KeyError?) ==> r == tried
  {
    if tried.Failure? && tried.error.KeyError? then fallback else tried
  }

  /** A tuple of `n` integer zeros, the default of three optional blocks. */
  function Zeros(n: nat): (r: seq<Value>)
    ensures |r| == n && forall i :: 0 <= i < n ==> r[i] == Int(0)
  {
    seq(n, i => Int(0))
  }

  const InertiaKeys: seq<string> := ["ixx", "iyy", "izz"]
  const LinearDragKeys: seq<string> := ["xU", "yV", "zW", "kP", "mQ", "nR"]
  const QuadraticDragKeys: seq<string> := ["xUabsU", "yVabsV", "zWabsW", "kPabsP", "mQabsQ", "nRabsR"]
  const AddedMassKeys: seq<string> := ["xDotU", "yDotV", "zDotW", "kDotP", "mDotQ", "nDotR"]
  const AxisKeys: seq<string> := ["x", "y", "z"]

  /** What the script has computed before the optional blocks: the mass and
      the collision box, whose first two sides are the bounding box's. */
  datatype Body = Body(mass: Value, boundingZ: Node, collision: seq<Value>)

  /** The collision box: a box with the bounding box's base whose height
      makes it displace the mass plus the buoyancy adjustment. */
  function CollisionBox(config: Node): (r: Result<Body, Error>)
    ensures r.Success? ==> IsNumber(r.value.mass) && |r.value.collision| == 3
                           && (forall i :: 0 <= i < 3 ==> IsNumber(r.value.collision[i]))
                           && r.value.collision[2].Float?
  {
    var massNode :- Get(config, "mass");
    var box :- Get(config, "bounding_box");
    var xNode :- Get(box, "x");
    var yNode :- Get(box, "y");
    var zNode :- Get(box, "z");
    var adjustment :- Get(config, "buoyancy_adjustment");
    var mass :- Leaf(massNode);
    var adjust :- Leaf(adjustment);
    var displaced :- Add(mass, adjust);
    var x :- Leaf(xNode);
    var y :- Leaf(yNode);
    var base :- Mul(x, y);
    var volume :- Mul(base, Float(FluidDensity));
    var height :- Div(displaced, volume);
    Success(Body(mass, zNode, [x, y, height]))
  }

  /** The cuboid inertia the `except` branch computes. */
  function DefaultInertia(body: Body): (r: seq<Value>)
    requires IsNumber(body.mass) && |body.collision| == 3
    requires forall i :: 0 <= i < 3 ==> IsNumber(body.collision[i])
    ensures |r| == 3 && forall i :: 0 <= i < 3 ==> r[i].Float?
  {
    var m := AsReal(body.mass);
    var c0 := AsReal(body.collision[0]);
    var c1 := AsReal(body.collision[1]);
    var c2 := AsReal(body.collision[2]);
    [Float(m / 12.0 * (Pow(c1, 2) + Pow(c2, 2))),
     Float(m / 12.0 * (Pow(c0, 2) + Pow(c2, 2))),
     Float(m / 12.0 * (Pow(c0, 2) + Pow(c1, 2)))]
  }

  /** The drag estimate the `except` branch computes from the bounding box;
      a bounding box height that is not a number is a `TypeError` here. */
  function DefaultQuadraticDrag(body: Body): (r: Result<seq<Value>, Error>)
    requires IsNumber(body.mass) && |body.collision| == 3
    requires forall i :: 0 <= i < 3 ==> IsNumber(body.collision[i])
    ensures r.Success? <==> body.boundingZ.Scalar? && IsNumber(body.boundingZ.value)
    ensures r.Success? ==> |r.value| == 6 && forall i :: 0 <= i < 6 ==> r.value[i].Float?
  {
    if !(body.boundingZ.Scalar? && IsNumber(body.boundingZ.value)) then Failure(TypeError)
    else
      var x := AsReal(body.collision[0]);
      var y := AsReal(body.collision[1]);
      var z := AsReal(body.boundingZ.value);
      var angular := -0.5 * 0.008 * FluidDensity;
      Success([Float(-0.5 * y * z * 0.8 * FluidDensity),
               Float(-0.5 * x * z * 0.95 * FluidDensity),
               Float(-0.5 * x * y * 0.95 * FluidDensity),
               Float(angular), Float(angular), Float(angular)])
  }

  /** The five optional blocks, each read in full or replaced in full by
      its default. */
  datatype Optional = Optional(inertia: seq<Value>, linearDrag: seq<Value>, quadraticDrag: seq<Value>,
                               addedMass: seq<Value>, current: seq<Value>)

  function OptionalBlocks(config: Node, body: Body): (r: Result<Optional, Error>)
    requires IsNumber(body.mass) && |body.collision| == 3
    requires forall i :: 0 <= i < 3 ==> IsNumber(body.collision[i])
    ensures r.Success? ==> |r.value.inertia| == 3 && |r.value.linearDrag| == 6 && |r.value.quadraticDrag| == 6
                           && |r.value.addedMass| == 6 && |r.value.current| == 3
  {
    var inertia :- ExceptKeyError(Block(config, "inertia", InertiaKeys), Success(DefaultInertia(body)));
    var linear :- ExceptKeyError(Block(config, "linear_drag", LinearDragKeys), Success(Zeros(6)));
    var quadratic :- ExceptKeyError(Block(config, "quadratic_drag", QuadraticDragKeys), DefaultQuadraticDrag(body));
    var added :- ExceptKeyError(Block(config, "added_mass", AddedMassKeys), Success(Zeros(6)));
    var current :- ExceptKeyError(Block(config, "default_current", AxisKeys), Success(Zeros(3)));
    Success(Optional(inertia, linear, quadratic, added, current))
  }

  /** `model_name` as the f-strings print it; a float name is not modelled. */
  function NameText(node: Node): Result<string, Error> {
    match node
    case Scalar(Str(s)) => Success(s)
    case Scalar(Int(i)) => Success(IntToString(i))
    case Scalar(Bool(b)) => Success(if b then "True" else "False")
    case _ => Failure(TypeError)
  }

  /** Iterating over `config["thrusters"]` and reading each thruster's
      `x`, `y` and `z`.  An empty mapping or an empty string iterates over
      nothing; any other non-sequence is a `TypeError`, because iterating
      it fails or yields keys or characters that cannot be indexed by a
      string. */
  function ThrusterPositions(node: Node): (r: Result<seq<seq<Value>>, Error>)
    ensures r.Success? ==> forall i :: 0 <= i < |r.value| ==> |r.value[i]| == 3
    ensures node.Sequence? && r.Success? ==> |r.value| == |node.items|
  {
    match node
    case Sequence(items) => Positions(items)
    case Mapping(entries) => if entries == map[] then Success([]) else Failure(TypeError)
    case Scalar(v) => if v == Str("") then Success([]) else Failure(TypeError)
  }

  function Positions(items: seq<Node>): (r: Result<seq<seq<Value>>, Error>)
    ensures r.Success? ==> |r.value| == |items| && forall i :: 0 <= i < |r.value| ==> |r.value[i]| == 3
  {
    if items == [] then Success([])
    else
      var p :- Entries(items[0], AxisKeys);
      var rest :- Positions(items[1..]);
      Success([p] + rest)
  }

  /** Python's truth value of `config["control_method"]`, which is all
      `ModelParams` uses it for. */
  function Truthy(node: Node): bool {
    match node
    case Scalar(Float(x)) => x != 0.0
    case Scalar(Int(i)) => i != 0
    case Scalar(Bool(b)) => b
    case Scalar(Str(s)) => s != ""
    case Scalar(Object(_)) => true
    case Mapping(entries) => entries != map[]
    case Sequence(items) => items != []
  }

  /** The arguments `get_model_params_from_config` passes to `ModelParams`,
      in the order Python computes them, or the exception it raises first. */
  function LoadArgs(config: Node): (r: Result<Args, Error>)
    ensures r.Success? ==> r.value.WellShaped()
    ensures r.Success? ==> var a := r.value;
      && |a.collision| == 3 && |a.centerOfMass| == 3 && |a.centerOfVolume| == 3 && |a.inertia| == 3
      && |a.linearDrag| == 6 && |a.quadraticDrag| == 6 && |a.addedMass| == 6 && |a.defaultCurrent| == 3
      && (forall i :: 0 <= i < |a.thrusters| ==> |a.thrusters[i]| == 3)
  {
    var body :- CollisionBox(config);
    var optional :- OptionalBlocks(config, body);
    var nameNode :- Get(config, "model_name");
    var name :- NameText(nameNode);
    var centerOfMass :- Block(config, "center_of_mass", AxisKeys);
    var centerOfVolume :- Block(config, "center_of_volume", AxisKeys);
    var thrustersNode :- Get(config, "thrusters");
    var thrusters :- ThrusterPositions(thrustersNode);
    var control :- Get(config, "control_method");
    Success(DefaultedArgs(name, body.mass, body.collision, centerOfMass, centerOfVolume, optional.inertia,
                          optional.linearDrag, optional.quadraticDrag, optional.addedMass, optional.current,
                          thrusters, if Truthy(control) then 1 else 0))
  }

  /** `get_model_params_from_config`: the attributes of the `ModelParams`
      object it returns, or the exception it raises. */
  function ModelParamsFromConfig(config: Node, sqrt: real -> real): Result<map<string, Value>, Error> {
    var a :- LoadArgs(config);
    InstanceAttrs(a, sqrt)
  }

  /** The keys a block reads are all there, in a block that is a mapping. */
  predicate Present(config: Node, block: string, keys: seq<string>) {
    && config.Mapping? && block in config.entries && config.entries[block].Mapping?
    && forall i :: 0 <= i < |keys| ==> keys[i] in config.entries[block].entries
  }

  /** The keys a block reads that are there hold scalars. */
  predicate ScalarLeaves(entries: map<string, Node>, keys: seq<string>) {
    forall i :: 0 <= i < |keys| && keys[i] in entries ==> entries[keys[i]].Scalar?
  }

  /** Reading keys from a mapping whose leaves are scalars gives their
      values in order when all are there, and a `KeyError` otherwise. */
  lemma {:induction false} EntriesOutcome(entries: map<string, Node>, keys: seq<string>)
    requires ScalarLeaves(entries, keys)
    ensures var r := Entries(Mapping(entries), keys);
      && ((forall i :: 0 <= i < |keys| ==> keys[i] in entries) ==>
            r.Success? && forall i :: 0 <= i < |keys| ==> r.value[i] == entries[keys[i]].value)
      && ((exists i :: 0 <= i < |keys| && keys[i] !in entries) ==> r.Failure? && r.error.KeyError?)
  {
    if keys != [] {
      assert ScalarLeaves(entries, keys[1..]) by {
        forall i | 0 <= i < |keys[1..]| && keys[1..][i] in entries ensures entries[keys[1..][i]].Scalar? {
          assert keys[1..][i] == keys[i + 1];
        }
      }
      EntriesOutcome(entries, keys[1..]);
      if exists i :: 0 <= i < |keys| && keys[i] !in entries {
        var i :| 0 <= i < |keys| && keys[i] !in entries;
        if i > 0 {
          assert keys[1..][i - 1] !in entries;
        }
      } else {
        forall i | 0 <= i < |keys| - 1 ensures keys[1..][i] in entries {
          assert keys[1..][i] == keys[i + 1];
        }
      }
    }
  }

  /** An optional block is all or nothing: if its mapping is missing or
      lacks any of its keys the whole default is taken; otherwise every
      value is read, in order.  Nothing else is ever substituted. */
  lemma OptionalBlockAllOrNothing(config: Node, block: string, keys: seq<string>,
                                  fallback: Result<seq<Value>, Error>)
    requires config.Mapping?
    requires block in config.entries ==>
               config.entries[block].Mapping? && ScalarLeaves(config.entries[block].entries, keys)
    requires keys != []
    ensures var r := ExceptKeyError(Block(config, block, keys), fallback);
      && (!Present(config, block, keys) ==> r == fallback)
      && (Present(config, block, keys) ==>
            r.Success? && |r.value| == |keys|
            && forall i :: 0 <= i < |keys| ==> config.entries[block].entries[keys[i]] == Scalar(r.value[i]))
  {
    if block in config.entries {
      EntriesOutcome(config.entries[block].entries, keys);
    }
  }

  /** The optional blocks never raise a `KeyError`: whatever they lack is
      defaulted. */
  lemma OptionalBlocksNeverKeyError(config: Node, body: Body)
    requires IsNumber(body.mass) && |body.collision| == 3
    requires forall i :: 0 <= i < 3 ==> IsNumber(body.collision[i])
    ensures OptionalBlocks(config, body).Failure? ==> OptionalBlocks(config, body).error == TypeError
  {
  }

  /** What a successful optional block yields: the values of its keys, in
      order, when all are there, and its default otherwise. */
  predicate ReadsBlock(config: Node, block: string, keys: seq<string>, got: seq<Value>,
                       fallback: Result<seq<Value>, Error>)
  {
    && (Present(config, block, keys) ==>
          |got| == |keys| && forall i :: 0 <= i < |keys| ==> config.entries[block].entries[keys[i]] == Scalar(got[i]))
    && (!Present(config, block, keys) ==> fallback == Success(got))
  }

  lemma BlockDefaulted(config: Node, block: string, keys: seq<string>, fallback: Result<seq<Value>, Error>)
    requires keys != []
    requires ExceptKeyError(Block(config, block, keys), fallback).Success?
    ensures ReadsBlock(config, block, keys, ExceptKeyError(Block(config, block, keys), fallback).value, fallback)
  {
    var tried := Block(config, block, keys);
    if tried.Success? {
      assert Entry(config.entries[block], keys[0]).Success?;
      forall i | 0 <= i < |keys| ensures keys[i] in config.entries[block].entries {
        assert Entry(config.entries[block], keys[i]).Success?;
      }
    }
  }

  /** Each of the five optional blocks is read in full or defaulted in
      full: the inertia to the cuboid's, the linear drag, the added mass and
      the current to zeros, the quadratic drag to the bounding-box estimate. */
  lemma OptionalBlocksContents(config: Node, body: Body)
    requires IsNumber(body.mass) && |body.collision| == 3
    requires forall i :: 0 <= i < 3 ==> IsNumber(body.collision[i])
    requires OptionalBlocks(config, body).Success?
    ensures var o := OptionalBlocks(config, body).value;
      && ReadsBlock(config, "inertia", InertiaKeys, o.inertia, Success(DefaultInertia(body)))
      && ReadsBlock(config, "linear_drag", LinearDragKeys, o.linearDrag, Success(Zeros(6)))
      && ReadsBlock(config, "quadratic_drag", QuadraticDragKeys, o.quadraticDrag, DefaultQuadraticDrag(body))
      && ReadsBlock(config, "added_mass", AddedMassKeys, o.addedMass, Success(Zeros(6)))
      && ReadsBlock(config, "default_current", AxisKeys, o.current, Success(Zeros(3)))
  {
    BlockDefaulted(config, "inertia", InertiaKeys, Success(DefaultInertia(body)));
    BlockDefaulted(config, "linear_drag", LinearDragKeys, Success(Zeros(6)));
    BlockDefaulted(config, "quadratic_drag", QuadraticDragKeys, DefaultQuadraticDrag(body));
    BlockDefaulted(config, "added_mass", AddedMassKeys, Success(Zeros(6)));
    BlockDefaulted(config, "default_current", AxisKeys, Success(Zeros(3)));
  }

  /** The collision box has the bounding box's base and the height at which
      it displaces, at the fluid density, the mass plus the buoyancy
      adjustment; a base of zero area is a division by zero. */
  lemma CollisionBoxOutcome(config: Node)
    ensures var r := CollisionBox(config);
      r.Success? ==>
        && CollisionBoxReads(config, r.value)
        && AsReal(r.value.collision[0]) * AsReal(r.value.collision[1]) * FluidDensity * AsReal(r.value.collision[2])
           == AsReal(r.value.mass) + AsReal(config.entries["buoyancy_adjustment"].value)
  {
    CollisionBoxKeys(config);
  }

  /** The entries a successful `CollisionBox` has read: the mass, the
      buoyancy adjustment and the three sides of the bounding box. */
  predicate CollisionBoxReads(config: Node, body: Body) {
    && config.Mapping? && "bounding_box" in config.entries && "buoyancy_adjustment" in config.entries
    && "mass" in config.entries
    && var box := config.entries["bounding_box"];
    && box.Mapping? && "x" in box.entries && "y" in box.entries && "z" in box.entries
    && |body.collision| == 3
    && box.entries["x"] == Scalar(body.collision[0]) && box.entries["y"] == Scalar(body.collision[1])
    && box.entries["z"] == body.boundingZ
    && config.entries["mass"] == Scalar(body.mass)
    && config.entries["buoyancy_adjustment"].Scalar?
    && IsNumber(config.entries["buoyancy_adjustment"].value)
  }

  lemma CollisionBoxKeys(config: Node)
    ensures CollisionBox(config).Success? ==> CollisionBoxReads(config, CollisionBox(config).value)
  {
  }

  /** A base of zero area cannot hold the displaced water. */
  lemma CollisionBoxFlat(config: Node)
    requires config.Mapping? && "mass" in config.entries && "buoyancy_adjustment" in config.entries
    requires "bounding_box" in config.entries && config.entries["bounding_box"].Mapping?
    requires var box := config.entries["bounding_box"].entries;
      "x" in box && "y" in box && "z" in box && box["x"] == Scalar(Int(0)) && box["y"].Scalar?
      && IsNumber(box["y"].value)
    requires config.entries["mass"].Scalar? && IsNumber(config.entries["mass"].value)
    requires config.entries["buoyancy_adjustment"].Scalar? && IsNumber(config.entries["buoyancy_adjustment"].value)
    ensures CollisionBox(config) == Failure(ZeroDivisionError)
  {
  }

  lemma SquareNonNegative(x: real)
    ensures Pow(x, 2) >= 0.0
  {
    if x != 0.0 {
      PowSign(x, 2);
    }
  }

  lemma ProductNonNegative(a: real, b: real)
    requires a >= 0.0 && b >= 0.0
    ensures a * b >= 0.0
  {
  }

  /** The cuboid inertia of a non-negative mass is non-negative about
      every axis. */
  lemma DefaultInertiaNonNegative(body: Body)
    requires IsNumber(body.mass) && |body.collision| == 3
    requires forall i :: 0 <= i < 3 ==> IsNumber(body.collision[i])
    requires AsReal(body.mass) >= 0.0
    ensures forall i :: 0 <= i < 3 ==> DefaultInertia(body)[i].x >= 0.0
  {
    var m := AsReal(body.mass) / 12.0;
    var c0 := AsReal(body.collision[0]);
    var c1 := AsReal(body.collision[1]);
    var c2 := AsReal(body.collision[2]);
    SquareNonNegative(c0);
    SquareNonNegative(c1);
    SquareNonNegative(c2);
    ProductNonNegative(m, Pow(c1, 2) + Pow(c2, 2));
    ProductNonNegative(m, Pow(c0, 2) + Pow(c2, 2));
    ProductNonNegative(m, Pow(c0, 2) + Pow(c1, 2));
  }

  /** For a bounding box with positive sides the estimated quadratic drag
      opposes motion: every term is negative. */
  lemma DefaultQuadraticDragDamps(body: Body)
    requires IsNumber(body.mass) && |body.collision| == 3
    requires forall i :: 0 <= i < 3 ==> IsNumber(body.collision[i])
    requires body.boundingZ.Scalar? && IsNumber(body.boundingZ.value)
    requires AsReal(body.collision[0]) > 0.0 && AsReal(body.collision[1]) > 0.0
    requires AsReal(body.boundingZ.value) > 0.0
    ensures var r := DefaultQuadraticDrag(body);
      r.Success? && forall i :: 0 <= i < 6 ==> r.value[i].x < 0.0
  {
    var x := AsReal(body.collision[0]);
    var y := AsReal(body.collision[1]);
    var z := AsReal(body.boundingZ.value);
    PositiveProduct(y, z);
    PositiveProduct(x, z);
    PositiveProduct(x, y);
    assert -0.5 * y * z * 0.8 * FluidDensity == -400.0 * (y * z);
    assert -0.5 * x * z * 0.95 * FluidDensity == -475.0 * (x * z);
    assert -0.5 * x * y * 0.95 * FluidDensity == -475.0 * (x * y);
  }

  const RequiredKeys: seq<string> := ["mass", "bounding_box", "buoyancy_adjustment", "model_name",
                                      "center_of_mass", "center_of_volume", "thrusters", "control_method"]

  /** The keys outside the optional blocks are required: a configuration
      that loads has every one of them. */
  lemma LoadArgsNeedsRequiredKeys(config: Node)
    requires LoadArgs(config).Success?
    ensures config.Mapping?
    ensures forall k :: k in RequiredKeys ==> k in config.entries
  {
    LoadArgsSteps(config);
    CollisionBoxKeys(config);
  }

  /** Every step of a configuration that loads succeeds. */
  lemma LoadArgsSteps(config: Node)
    requires LoadArgs(config).Success?
    ensures CollisionBox(config).Success? && OptionalBlocks(config, CollisionBox(config).value).Success?
    ensures Get(config, "model_name").Success? && NameText(Get(config, "model_name").value).Success?
    ensures Block(config, "center_of_mass", AxisKeys).Success?
    ensures Block(config, "center_of_volume", AxisKeys).Success?
    ensures Get(config, "thrusters").Success? && ThrusterPositions(Get(config, "thrusters").value).Success?
    ensures Get(config, "control_method").Success?
  {
  }

  /** The first lookup is the mass: a mapping without it raises
      `KeyError('mass')` whatever else it lacks. */
  lemma MissingMass(config: Node)
    requires config.Mapping? && "mass" !in config.entries
    ensures LoadArgs(config) == Failure(KeyError("mass"))
  {
  }

  /** What a loaded configuration passes to `ModelParams`: its mass and
      collision box, its name, the two centres, one position per listed
      thruster in order, and the control method's truth value. */
  lemma LoadArgsContents(config: Node)
    requires LoadArgs(config).Success?
    ensures var a := LoadArgs(config).value;
      && config.Mapping?
      && Scalar(a.mass) == config.entries["mass"]
      && a.collision == CollisionBox(config).value.collision
      && NameText(config.entries["model_name"]) == Success(a.modelName)
      && (forall i :: 0 <= i < 3 ==>
            && Entry(config.entries["center_of_mass"], AxisKeys[i]) == Success(a.centerOfMass[i])
            && Entry(config.entries["center_of_volume"], AxisKeys[i]) == Success(a.centerOfVolume[i]))
      && (config.entries["thrusters"].Sequence? ==>
            var items := config.entries["thrusters"].items;
            && |a.thrusters| == |items|
            && forall n, i :: 0 <= n < |items| && 0 <= i < 3 ==>
                 Entry(items[n], AxisKeys[i]) == Success(a.thrusters[n][i]))
      && (a.useAngvelCmd != 0 <==> Truthy(config.entries["control_method"]))
      && var o := OptionalBlocks(config, CollisionBox(config).value);
      && o.Success?
      && a.inertia == o.value.inertia && a.linearDrag == o.value.linearDrag
      && a.quadraticDrag == o.value.quadraticDrag && a.addedMass == o.value.addedMass
      && a.defaultCurrent == o.value.current
  {
    LoadArgsSteps(config);
    CollisionBoxKeys(config);
    var items := config.entries["thrusters"];
    if items.Sequence? {
      PositionsContents(items.items);
    }
  }

  lemma {:induction false} PositionsContents(items: seq<Node>)
    requires Positions(items).Success?
    ensures var ps := Positions(items).value;
      forall n, i :: 0 <= n < |items| && 0 <= i < 3 ==> Entry(items[n], AxisKeys[i]) == Success(ps[n][i])
  {
    if items != [] {
      PositionsContents(items[1..]);
      var ps := Positions(items).value;
      forall n, i | 0 <= n < |items| && 0 <= i < 3 ensures Entry(items[n], AxisKeys[i]) == Success(ps[n][i]) {
        if n > 0 {
          assert items[1..][n - 1] == items[n];
        }
      }
    }
  }
}
