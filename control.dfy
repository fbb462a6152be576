/** How `ModelParams` turns the control method into the two control
    multipliers the ArduPilot plugin scales its commands by. */
module Control {
  import opened Wrappers
  import opened Values

  /** The fluid density `thrust_to_ang_vel` uses when its caller passes
      none, which is how `ModelParams` calls it. */
  const DefaultFluidDensity: real := 998.0

  /** `pow(x, n)` for a natural exponent. */
  function Pow(x: real, n: nat): real
  {
    if n == 0 then 1.0 else x * Pow(x, n - 1)
  }

  /** `sqrt` behaves as the square root on non-negative numbers. */
  ghost predicate IsSquareRoot(sqrt: real -> real) {
    forall x :: 0.0 <= x ==> 0.0 <= sqrt(x) && sqrt(x) * sqrt(x) == x
  }

  /** `thrust_to_ang_vel`: the propeller speed that Fossen's relation
      thrust = density * coefficient * diameter^4 * speed^2 assigns to a
      thrust, with `sqrt` standing for `math.sqrt`.  The two `assert`s come
      first; a zero denominator is a float division by zero and a negative
      quotient a math domain error. */
  function ThrustToAngVel(thrust: real, diameter: real, coefficient: real, density: real,
                          sqrt: real -> real): Result<real, Error>
  {
    if thrust < 0.0 then Failure(AssertionError("thrust >= 0"))
    else if coefficient < 0.0 then Failure(AssertionError("thrust_coefficient >= 0"))
    else
      var denominator := density * coefficient * Pow(diameter, 4);
      if denominator == 0.0 then Failure(ZeroDivisionError)
      else
        var q := thrust / denominator;
        if q < 0.0 then Failure(ValueError) else Success(sqrt(q))
  }

  lemma PositiveProduct(a: real, b: real)
    requires a > 0.0 && b > 0.0
    ensures a * b > 0.0
  {
  }

  /** The sign of a power with a non-zero base: even powers are positive,
      odd powers keep the sign of the base. */
  lemma {:induction false} PowSign(x: real, n: nat)
    requires x != 0.0
    ensures n % 2 == 0 ==> Pow(x, n) > 0.0
    ensures n % 2 == 1 ==> (Pow(x, n) > 0.0 <==> x > 0.0)
    ensures Pow(x, n) != 0.0
  {
    if n > 0 {
      PowSign(x, n - 1);
    }
  }

  lemma QuotientNonNegative(a: real, b: real)
    requires a >= 0.0 && b > 0.0
    ensures a / b >= 0.0
  {
  }

  /** With a positive density the conversion fails exactly when one of its
      two assertions fails or the coefficient or the diameter is zero, and
      it never reaches the math domain error. */
  lemma ThrustToAngVelOutcome(thrust: real, diameter: real, coefficient: real, density: real,
                              sqrt: real -> real)
    requires density > 0.0
    ensures var r := ThrustToAngVel(thrust, diameter, coefficient, density, sqrt);
      && (r.Success? <==> thrust >= 0.0 && coefficient > 0.0 && diameter != 0.0)
      && (thrust < 0.0 ==> r == Failure(AssertionError("thrust >= 0")))
      && (thrust >= 0.0 && coefficient < 0.0 ==> r == Failure(AssertionError("thrust_coefficient >= 0")))
      && (thrust >= 0.0 && coefficient >= 0.0 && (coefficient == 0.0 || diameter == 0.0) ==>
            r == Failure(ZeroDivisionError))
  {
    if thrust >= 0.0 && coefficient > 0.0 && diameter != 0.0 {
      PowSign(diameter, 4);
      QuotientNonNegative(thrust, density * coefficient * Pow(diameter, 4));
    }
  }

  /** A successful conversion solves Fossen's relation for a non-negative speed. */
  lemma ThrustToAngVelSolvesFossen(thrust: real, diameter: real, coefficient: real, density: real,
                                   sqrt: real -> real)
    requires IsSquareRoot(sqrt)
    requires ThrustToAngVel(thrust, diameter, coefficient, density, sqrt).Success?
    ensures var w := ThrustToAngVel(thrust, diameter, coefficient, density, sqrt).value;
      w >= 0.0 && density * coefficient * Pow(diameter, 4) * (w * w) == thrust
  {
    var denominator := density * coefficient * Pow(diameter, 4);
    var q := thrust / denominator;
    assert denominator * q == thrust;
  }

  /** Non-negative numbers compare as their squares do. */
  lemma SquareMonotone(a: real, b: real)
    requires a >= 0.0 && b >= 0.0
    ensures a > b ==> a * a > b * b
  {
    if a > b {
      PositiveProduct(a - b, a + b);
      assert (a - b) * (a + b) == a * a - b * b;
    }
  }

  /** More thrust needs at least as much rotation. */
  lemma ThrustToAngVelMonotone(t1: real, t2: real, diameter: real, coefficient: real, density: real,
                               sqrt: real -> real)
    requires IsSquareRoot(sqrt)
    requires density > 0.0 && coefficient > 0.0 && diameter != 0.0
    requires 0.0 <= t1 <= t2
    ensures ThrustToAngVel(t1, diameter, coefficient, density, sqrt).Success?
    ensures ThrustToAngVel(t2, diameter, coefficient, density, sqrt).Success?
    ensures ThrustToAngVel(t1, diameter, coefficient, density, sqrt).value
         <= ThrustToAngVel(t2, diameter, coefficient, density, sqrt).value
  {
    ThrustToAngVelOutcome(t1, diameter, coefficient, density, sqrt);
    ThrustToAngVelOutcome(t2, diameter, coefficient, density, sqrt);
    var d := density * coefficient * Pow(diameter, 4);
    PowSign(diameter, 4);
    QuotientMonotone(t1, t2, d);
    SquareMonotone(sqrt(t1 / d), sqrt(t2 / d));
  }

  lemma QuotientMonotone(a: real, b: real, d: real)
    requires a <= b && d > 0.0
    ensures a / d <= b / d
  {
  }

  /** The two control multipliers, clockwise first.  With angular-velocity
      control (any non-zero `useAngvelCmd`) they are minus and plus twice the
      propeller speed at full thrust; with thrust control both are twice the
      full thrust, keeping its int or float type. */
  function ControlMultipliers(useAngvelCmd: int, maxThrust: Value, diameter: real, coefficient: real,
                              sqrt: real -> real): (r: Result<(Value, Value), Error>)
    requires IsNumber(maxThrust)
    ensures useAngvelCmd == 0 ==> r.Success? && r.value.0 == r.value.1
    ensures useAngvelCmd == 0 ==> IsNumber(r.value.0) && AsReal(r.value.0) == 2.0 * AsReal(maxThrust)
    ensures useAngvelCmd == 0 ==> (r.value.0.Int? <==> maxThrust.Int?)
    ensures useAngvelCmd != 0 ==>
      var w := ThrustToAngVel(AsReal(maxThrust), diameter, coefficient, DefaultFluidDensity, sqrt);
      && (r.Success? <==> w.Success?)
      && (r.Failure? ==> r.error == w.error)
      && (r.Success? ==> r.value.0.Float? && r.value.1.Float?
                         && r.value.1.x == 2.0 * w.value && r.value.0.x == - r.value.1.x)
  {
    if useAngvelCmd != 0 then
      var w :- ThrustToAngVel(AsReal(maxThrust), diameter, coefficient, DefaultFluidDensity, sqrt);
      Success((Float(-w * 2.0), Float(w * 2.0)))
    else
      Success((Double(maxThrust), Double(maxThrust)))
  }

  /** With the signature's own values (full thrust 50, diameter 0.1,
      coefficient 0.02) angular-velocity control always succeeds and the
      multipliers are opposite and non-zero. */
  lemma DefaultAngVelMultipliers(sqrt: real -> real)
    requires IsSquareRoot(sqrt)
    ensures var r := ControlMultipliers(1, Int(50), 0.1, 0.02, sqrt);
      r.Success? && r.value.0.Float? && r.value.1.Float? && r.value.0.x == - r.value.1.x && r.value.1.x > 0.0
  {
    ThrustToAngVelOutcome(50.0, 0.1, 0.02, DefaultFluidDensity, sqrt);
    ThrustToAngVelSolvesFossen(50.0, 0.1, 0.02, DefaultFluidDensity, sqrt);
  }
}
