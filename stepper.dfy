/** Adaptive choice of the next thermodynamic state: the cooling step in
    temperature and the docking step in the progress variable, each sized
    by the thermodynamic-length metric at the current state. */
module Stepper {
  import opened Wrappers
  import opened Terms
  import opened Lambdas

  /** `b ** n` for an integer exponent, which may be negative. */
  function Pow(b: real, n: int): (r: real)
    requires b > 0.0
    ensures r > 0.0
    decreases if n >= 0 then n else -n
  {
    if n == 0 then 1.0
    else if n > 0 then b * Pow(b, n - 1)
    else Pow(b, n + 1) / b
  }

  /** Powers of a base above one grow with the exponent; powers of a base
      below one with a positive exponent stay below one. */
  lemma {:induction false} PowBounds(b: real, n: nat)
    requires b > 0.0
    ensures b >= 1.0 ==> Pow(b, n) >= 1.0
    ensures b < 1.0 && n > 0 ==> Pow(b, n) < 1.0
  {
    if n > 0 {
      PowBounds(b, n - 1);
      if b < 1.0 && n > 1 {
        assert b * Pow(b, n - 1) < 1.0 * 1.0;
      }
      if b >= 1.0 {
        assert b * Pow(b, n - 1) >= 1.0 * 1.0;
      }
    }
  }

  datatype StepError = MissingCrossed | MissingTemperature | MissingProgress | NoVariance | DegenerateRange

  /** Below this the scaled metric counts as no variance. */
  const VarianceFloor: real := 1.0 / 10000000.0

  /** Largest step in the docking progress variable. */
  const MaxDockStep: real := 0.05

  /** The metric scaled by 1.25^pow after rejected stages. */
  function ScaledMetric(tL: real, pow: Option<int>): real {
    if pow.Some? then tL * Pow(1.25, pow.value) else tL
  }

  /** The next cooling temperature and crossing flag: a step of
      `speed / metric` towards T_HIGH (warming) or T_SIMMIN (cooling),
      clamped to the end of the range, which marks the crossing. */
  function CoolStep(p: Params, t: real, dL: real, warm: bool, crossed: bool): (real, bool) {
    if warm then
      (if t + dL > p.tHigh then (p.tHigh, true) else (t + dL, crossed))
    else
      (if t - dL < p.tSimMin then (p.tSimMin, true) else (t - dL, crossed))
  }

  /** `_next_cool_state` with adaptive protocol: `tL` is the
      thermodynamic-length metric at `lambdaO`. */
  function NextCoolState(p: Params, cv: Curves, lambdaO: State, tL: real, pow: Option<int>, warm: bool)
    : (r: Result<State, StepError>)
    ensures r.Ok? <==> lambdaO.crossed.Some? && ScaledMetric(tL, pow) > VarianceFloor &&
                       lambdaO.t.Some? && p.tHigh != p.tSimMin
    ensures r.Err? && lambdaO.crossed.Some? && ScaledMetric(tL, pow) <= VarianceFloor ==> r.error == NoVariance
  {
    if lambdaO.crossed.None? then Err(MissingCrossed)
    else
      var tl := ScaledMetric(tL, pow);
      if tl <= VarianceFloor then Err(NoVariance)
      else if lambdaO.t.None? then Err(MissingTemperature)
      else
        var (t, crossed) := CoolStep(p, lambdaO.t.value, p.coolThermSpeed / tl, warm, lambdaO.crossed.value);
        if p.tHigh == p.tSimMin then Err(DegenerateRange)
        else
          var a := (p.tHigh - t) / (p.tHigh - p.tSimMin);
          Ok(Parameterize(p, cv, a, Cool, Some(lambdaO), [], Some(true), Some(crossed)))
  }

  /** The progress value the next cooling state is built from is mapped
      back by `_lambda` to exactly the temperature the step chose. */
  lemma CoolProgressRoundTrip(p: Params, t: real)
    requires p.tHigh != p.tSimMin
    ensures Ramp(p, (p.tHigh - t) / (p.tHigh - p.tSimMin)) == t
  {
    var d := p.tHigh - p.tSimMin;
    var a := (p.tHigh - t) / d;
    assert a * d == p.tHigh - t;
    assert Ramp(p, a) == p.tHigh - a * d;
  }

  /** A warming step never lowers the temperature and stays at or below
      T_HIGH; a cooling step never raises it and stays at or above
      T_SIMMIN. The crossing flag is set exactly when the step is clamped,
      and otherwise inherited. */
  lemma CoolStepShape(p: Params, t: real, dL: real, warm: bool, crossed: bool)
    requires dL > 0.0
    ensures var (t', c') := CoolStep(p, t, dL, warm, crossed);
            && (warm && t <= p.tHigh ==> t <= t' <= p.tHigh)
            && (!warm && p.tSimMin <= t ==> p.tSimMin <= t' <= t)
            && (warm ==> (c' == (crossed || t + dL > p.tHigh)) && (t' == p.tHigh || t' == t + dL))
            && (!warm ==> (c' == (crossed || t - dL < p.tSimMin)) && (t' == p.tSimMin || t' == t - dL))
  {
  }

  /** The next cooling state has the stepped temperature, the stepped
      crossing flag, and `_lambda`'s progress for that temperature. */
  lemma NextCoolStateTemperature(p: Params, cv: Curves, lambdaO: State, tL: real, pow: Option<int>, warm: bool)
    requires NextCoolState(p, cv, lambdaO, tL, pow, warm).Ok?
    ensures var tl := ScaledMetric(tL, pow);
            var (t, c) := CoolStep(p, lambdaO.t.value, p.coolThermSpeed / tl, warm, lambdaO.crossed.value);
            var r := NextCoolState(p, cv, lambdaO, tL, pow, warm).value;
            && r.t == Some(t)
            && r.crossed == Some(c)
            && r.a == Some((p.tHigh - t) / (p.tHigh - p.tSimMin))
  {
    var tl := ScaledMetric(tL, pow);
    var (t, c) := CoolStep(p, lambdaO.t.value, p.coolThermSpeed / tl, warm, lambdaO.crossed.value);
    var a := (p.tHigh - t) / (p.tHigh - p.tSimMin);
    CoolProgressRoundTrip(p, t);
    CoolCouplings(p, cv, a, Some(lambdaO), [], Some(true), Some(c));
  }

  /** The docking step `min(speed / metric / 1.25^pow, 0.05)`. A zero
      metric divides to infinity in floating point, so the cap applies. */
  function DockStepSize(speed: real, tL: real, pow: Option<int>): (d: real)
    requires speed > 0.0 && tL >= 0.0
    ensures 0.0 < d <= MaxDockStep
    ensures tL > 0.0 && pow.None? ==> d == MinReal(speed / tL, MaxDockStep)
  {
    if tL == 0.0 then MaxDockStep
    else if pow.None? then MinReal(speed / tL, MaxDockStep)
    else MinReal(speed / tL / Pow(1.25, pow.value), MaxDockStep)
  }

  /** Python 2 compares `None > 0` as false. */
  predicate PowPositive(pow: Option<int>) {
    pow.Some? && pow.value > 0
  }

  /** The docking progress step and the new crossing flag. A pose run stops
      at a = 1/2; an overshoot past the end is pulled back inside when
      stages were rejected, and otherwise clamps to the end and crosses. */
  function DockStep(p: Params, ao: real, dL: real, pow: Option<int>, undock: bool, crossed: bool): (real, bool) {
    DockStepBy(p, ao, dL, if PowPositive(pow) then Pow(0.8, pow.value) else 1.0, PowPositive(pow), undock, crossed)
  }

  /** The docking step with the pull-back factor `q` (that is, `0.8^pow`)
      and whether stages were rejected (`shrink`) given directly. */
  function DockStepBy(p: Params, ao: real, dL: real, q: real, shrink: bool, undock: bool, crossed: bool): (real, bool) {
    if undock then
      var a := ao - dL;
      if p.pose > -1 && ao > 0.5 && a < 0.5 then (0.5, crossed)
      else if a < 0.0 then
        (if shrink then (ao * (1.0 - q), crossed) else (0.0, true))
      else (a, crossed)
    else
      var a := ao + dL;
      if p.pose > -1 && ao < 0.5 && a > 0.5 then (0.5, crossed)
      else if a > 1.0 then
        (if shrink then (ao + (1.0 - ao) * q, crossed) else (1.0, true))
      else (a, crossed)
  }

  lemma NonnegProduct(x: real, y: real)
    requires x >= 0.0 && y >= 0.0
    ensures x * y >= 0.0
  {
  }

  /** Bounds on the product of a fraction `a` in [0, 1] and a factor `b`
      in (0, 1), stated on the product itself. */
  lemma MulBounds(a: real, b: real)
    requires 0.0 <= a <= 1.0 && 0.0 < b < 1.0
    ensures 0.0 <= a * b <= b && a * b <= a && a * b >= a + b - 1.0
    ensures a < 1.0 ==> a * b < b
    ensures a > 0.0 ==> 0.0 < a * b
  {
    assert a * b <= 1.0 * b;
    assert a * b <= a * 1.0;
    NonnegProduct(1.0 - a, 1.0 - b);
  }

  /** From a progress value in [0, 1], the step stays in [0, 1] and moves
      in its direction: up when docking, down when undocking, strictly
      unless it is already at the end. */
  lemma DockStepBounds(p: Params, ao: real, dL: real, pow: Option<int>, undock: bool, crossed: bool)
    requires 0.0 <= ao <= 1.0 && dL > 0.0
    ensures var a := DockStep(p, ao, dL, pow, undock, crossed).0;
            && 0.0 <= a <= 1.0
            && (!undock ==> ao <= a && (ao < 1.0 ==> ao < a))
            && (undock ==> a <= ao && (ao > 0.0 ==> a < ao))
  {
    var q := if PowPositive(pow) then Pow(0.8, pow.value) else 1.0;
    if PowPositive(pow) {
      PowBounds(0.8, pow.value);
    }
    DockStepByBounds(p, ao, dL, q, PowPositive(pow), undock, crossed);
  }

  lemma DockStepByBounds(p: Params, ao: real, dL: real, q: real, shrink: bool, undock: bool, crossed: bool)
    requires 0.0 <= ao <= 1.0 && dL > 0.0 && (shrink ==> 0.0 < q < 1.0)
    ensures var a := DockStepBy(p, ao, dL, q, shrink, undock, crossed).0;
            && 0.0 <= a <= 1.0
            && (!undock ==> ao <= a && (ao < 1.0 ==> ao < a))
            && (undock ==> a <= ao && (ao > 0.0 ==> a < ao))
  {
    if undock {
      UndockStepBounds(p, ao, dL, q, shrink, crossed);
    } else {
      DockUpStepBounds(p, ao, dL, q, shrink, crossed);
    }
  }

  lemma DockUpStepBounds(p: Params, ao: real, dL: real, q: real, shrink: bool, crossed: bool)
    requires 0.0 <= ao <= 1.0 && dL > 0.0 && (shrink ==> 0.0 < q < 1.0)
    ensures 0.0 <= DockStepBy(p, ao, dL, q, shrink, false, crossed).0 <= 1.0
    ensures ao <= DockStepBy(p, ao, dL, q, shrink, false, crossed).0
    ensures ao < 1.0 ==> ao < DockStepBy(p, ao, dL, q, shrink, false, crossed).0
  {
    if shrink {
      TowardOne(ao, q);
    }
  }

  lemma UndockStepBounds(p: Params, ao: real, dL: real, q: real, shrink: bool, crossed: bool)
    requires 0.0 <= ao <= 1.0 && dL > 0.0 && (shrink ==> 0.0 < q < 1.0)
    ensures 0.0 <= DockStepBy(p, ao, dL, q, shrink, true, crossed).0 <= 1.0
    ensures DockStepBy(p, ao, dL, q, shrink, true, crossed).0 <= ao
    ensures ao > 0.0 ==> DockStepBy(p, ao, dL, q, shrink, true, crossed).0 < ao
  {
    if shrink {
      TowardZero(ao, q);
    }
  }

  /** Moving a fraction `q` of the way from `ao` to 1 stays in [ao, 1]. */
  lemma TowardOne(ao: real, q: real)
    requires 0.0 <= ao <= 1.0 && 0.0 < q < 1.0
    ensures ao <= ao + (1.0 - ao) * q <= 1.0
    ensures ao < 1.0 ==> ao < ao + (1.0 - ao) * q
  {
    MulBounds(ao, q);
  }

  /** Scaling `ao` by `1 - q` stays in [0, ao]. */
  lemma TowardZero(ao: real, q: real)
    requires 0.0 <= ao <= 1.0 && 0.0 < q < 1.0
    ensures 0.0 <= ao * (1.0 - q) <= ao
    ensures ao > 0.0 ==> ao * (1.0 - q) < ao
  {
    MulBounds(ao, q);
  }

  /** The crossing flag changes only by clamping to exactly the end of the
      range, and only when no rejected stages push the exponent above zero;
      it is set whenever such an overshoot happens outside a pose stop. */
  lemma DockStepCrossing(p: Params, ao: real, dL: real, pow: Option<int>, undock: bool, crossed: bool)
    ensures var (a, c) := DockStep(p, ao, dL, pow, undock, crossed);
            && (c != crossed ==> c && !PowPositive(pow) && a == (if undock then 0.0 else 1.0))
            && (!PowPositive(pow) && !undock && ao + dL > 1.0 && !(p.pose > -1 && ao < 0.5) ==> c && a == 1.0)
            && (!PowPositive(pow) && undock && ao - dL < 0.0 && !(p.pose > -1 && ao > 0.5) ==> c && a == 0.0)
  {
  }

  /** Pose runs stop at a = 1/2 on their way across it. */
  lemma DockStepPoseStop(p: Params, ao: real, dL: real, pow: Option<int>, undock: bool, crossed: bool)
    requires p.pose > -1
    ensures !undock && ao < 0.5 < ao + dL ==> DockStep(p, ao, dL, pow, undock, crossed) == (0.5, crossed)
    ensures undock && ao - dL < 0.5 < ao ==> DockStep(p, ao, dL, pow, undock, crossed) == (0.5, crossed)
  {
  }

  /** `_next_dock_state` with adaptive protocol: `tL` is the
      thermodynamic-length metric at `lambdaO`. */
  function NextDockState(p: Params, cv: Curves, lambdaO: State, tL: real, pow: Option<int>, undock: bool)
    : (r: Result<State, StepError>)
    requires p.dockThermSpeed > 0.0 && tL >= 0.0
    ensures r.Ok? <==> lambdaO.crossed.Some? && lambdaO.a.Some?
    ensures r.Ok? ==>
      var (a, c) := DockStep(p, lambdaO.a.value, DockStepSize(p.dockThermSpeed, tL, pow), pow, undock, lambdaO.crossed.value);
      r.value.a == Some(a) && r.value.crossed == Some(c)
  {
    if lambdaO.crossed.None? then Err(MissingCrossed)
    else if lambdaO.a.None? then Err(MissingProgress)
    else
      var dL := DockStepSize(p.dockThermSpeed, tL, pow);
      var (a, crossed) := DockStep(p, lambdaO.a.value, dL, pow, undock, lambdaO.crossed.value);
      Ok(Parameterize(p, cv, a, Dock, Some(lambdaO), [], Some(true), Some(crossed)))
  }
}
