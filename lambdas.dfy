/** Thermodynamic states and the map from a progress variable `a` to a
    state of the cooling or the docking process. */
module Lambdas {
  import opened Wrappers
  import opened Terms

  /** A thermodynamic state: a record of optional keys. `coupling` holds the
      strengths of the scaled and restraint terms that are set. */
  datatype State = State(
    mm: Option<bool>,
    site: Option<bool>,
    crossed: Option<bool>,
    a: Option<real>,
    t: Option<real>,
    deltaT: Option<real>,
    stepsPerTrial: Option<int>,
    coupling: map<Term, real>)

  /** The state with only one key set. */
  function EmptyState(stepsPerTrial: int): State {
    State(None, None, None, None, None, None, Some(stepsPerTrial), map[])
  }

  predicate IsCrossed(s: State) {
    s.crossed == Some(true)
  }

  datatype Process = Cool | Dock
  datatype Solvation = Desolvated | Fractional | Full
  datatype TemperatureScaling = Linear | Quadratic

  /** The run parameters `_lambda` and the stepping rules consult. */
  datatype Params = Params(
    tHigh: real,
    tSimMin: real,
    coolSolvation: Solvation,
    dockSolvation: Solvation,
    pose: int,
    kPose: real,
    temperatureScaling: TemperatureScaling,
    coolStepsPerSweep: int,
    dockStepsPerSweep: int,
    coolThermSpeed: real,
    dockThermSpeed: real)

  function StepsPerSweep(p: Params, process: Process): int {
    match process
    case Cool => p.coolStepsPerSweep
    case Dock => p.dockStepsPerSweep
  }

  /** The two transcendental curves of the docking schedule, as given
      functions: `gridRaw(a)` is 4(a - 1/2)^2 / (1 + exp(-100(a - 1/2)))
      and `tanh` the hyperbolic tangent. */
  datatype Curves = Curves(gridRaw: real -> real, tanh: real -> real)

  /** Grid scaling, with values below 1e-10 flushed to zero. */
  function GridScale(cv: Curves, a: real): (r: real)
    ensures r == 0.0 || r >= 1.0 / 10000000000.0
    ensures r != 0.0 ==> r == cv.gridRaw(a)
  {
    var g := cv.gridRaw(a);
    if g < 1.0 / 10000000000.0 then 0.0 else g
  }

  /** The soft-core scaling 1 - 4(a - 1/2)^2. */
  function SoftScale(a: real): real {
    1.0 - 4.0 * (a - 0.5) * (a - 0.5)
  }

  /** The temperature schedule: T_HIGH at f = 0, T_SIMMIN at f = 1. */
  function Ramp(p: Params, f: real): real {
    f * (p.tSimMin - p.tHigh) + p.tHigh
  }

  /** The state `_lambda` starts from: `lambdaO`, or else the last state of
      the protocol, with `steps_per_trial` defaulted to the sweep length. */
  function BaseState(p: Params, process: Process, lambdaO: Option<State>, protocol: seq<State>): State {
    var o := if lambdaO.None? && |protocol| > 0 then Some(protocol[|protocol| - 1]) else lambdaO;
    if o.Some? then
      (if o.value.stepsPerTrial.None? then o.value.(stepsPerTrial := Some(StepsPerSweep(p, process)))
       else o.value)
    else EmptyState(StepsPerSweep(p, process))
  }

  function SolventCoupling(s: Solvation, scaled: real): real {
    match s
    case Desolvated => 0.0
    case Fractional => scaled
    case Full => 1.0
  }

  /** Docking couplings for a pose run (`pose > -1`). */
  function PoseDock(p: Params, cv: Curves, a: real, s: State): State {
    var ag := GridScale(cv, a);
    var ar := cv.tanh(16.0 * a * a);
    s.(a := Some(a),
       t := Some(Ramp(p, ar)),
       coupling := s.coupling[OBC := SolventCoupling(p.dockSolvation, ag)]
                             [KAngularInt := p.kPose * ar]
                             [KAngularExt := p.kPose]
                             [KSpatialExt := p.kPose]
                             [LJr := ag][LJa := ag][ELE := ag])
  }

  /** Docking couplings for an ordinary binding run. */
  function BpmfDock(p: Params, cv: Curves, a: real, s: State, site: Option<bool>): State {
    var ag := GridScale(cv, a);
    var asg := SoftScale(a);
    var temp := match p.temperatureScaling
      case Linear => Ramp(p, a)
      case Quadratic => Ramp(p, ag);
    s.(a := Some(a),
       t := Some(temp),
       site := if site.Some? then site else s.site,
       coupling := s.coupling[OBC := SolventCoupling(p.dockSolvation, ag)]
                             [SLJr := asg][SELE := asg]
                             [LJr := ag][LJa := ag][ELE := ag])
  }

  /** Cooling couplings: the temperature falls linearly from T_HIGH as
      T_HIGH - a(T_HIGH - T_SIMMIN), and the solvent follows `a` unless it
      is fully on. */
  function CoolState(p: Params, a: real, s: State): State {
    s.(a := Some(a),
       t := Some(Ramp(p, a)),
       coupling := s.coupling[OBC := if p.coolSolvation == Full then 1.0 else a])
  }

  /** `_lambda`: the state of `process` at progress `a`. `crossed` and
      `site` of None leave the inherited values alone. */
  function Parameterize(p: Params, cv: Curves, a: real, process: Process,
                        lambdaO: Option<State>, protocol: seq<State>,
                        site: Option<bool>, crossed: Option<bool>): (r: State)
    ensures r.mm == Some(true)
    ensures r.a == Some(a) && r.t.Some?
    ensures r.crossed == if crossed.Some? then crossed else BaseState(p, process, lambdaO, protocol).crossed
  {
    var b := BaseState(p, process, lambdaO, protocol);
    var s := b.(mm := Some(true), crossed := if crossed.Some? then crossed else b.crossed);
    match process
    case Dock => if p.pose > -1 then PoseDock(p, cv, a, s) else BpmfDock(p, cv, a, s, site)
    case Cool => CoolState(p, a, s)
  }

  /** The coupling keys `_lambda` writes in each branch. */
  function WrittenTerms(p: Params, process: Process): set<Term> {
    match process
    case Cool => {OBC}
    case Dock =>
      if p.pose > -1 then {OBC, KAngularInt, KAngularExt, KSpatialExt, LJr, LJa, ELE}
      else {OBC, SLJr, SELE, LJr, LJa, ELE}
  }

  /** Keys `_lambda` does not write keep their values from the state it
      starts from: the time step, the steps per trial, every unwritten
      coupling, and `site` for cooling, pose runs and a `site` of None. */
  lemma UnsetKeysInherited(p: Params, cv: Curves, a: real, process: Process,
                           lambdaO: Option<State>, protocol: seq<State>,
                           site: Option<bool>, crossed: Option<bool>)
    ensures var b := BaseState(p, process, lambdaO, protocol);
            var r := Parameterize(p, cv, a, process, lambdaO, protocol, site, crossed);
            && r.deltaT == b.deltaT
            && r.stepsPerTrial == b.stepsPerTrial
            && r.coupling.Keys == b.coupling.Keys + WrittenTerms(p, process)
            && (forall t :: t in b.coupling && t !in WrittenTerms(p, process) ==> r.coupling[t] == b.coupling[t])
            && (process == Cool || p.pose > -1 || site.None? ==> r.site == b.site)
  {
  }

  /** The starting state always has `steps_per_trial`, taken from
      `lambdaO` or the protocol's last state when they have one. */
  lemma StepsPerTrialDefault(p: Params, process: Process, lambdaO: Option<State>, protocol: seq<State>)
    ensures var b := BaseState(p, process, lambdaO, protocol);
            && b.stepsPerTrial.Some?
            && (lambdaO.Some? && lambdaO.value.stepsPerTrial.Some? ==> b.stepsPerTrial == lambdaO.value.stepsPerTrial)
            && (lambdaO.None? && protocol == [] ==> b == EmptyState(StepsPerSweep(p, process)))
            && (lambdaO.None? && protocol != [] ==>
                  b == protocol[|protocol| - 1].(stepsPerTrial := b.stepsPerTrial))
  {
  }

  /** The schedule runs from T_HIGH to T_SIMMIN, stays between them for f
      in [0, 1] and is non-increasing in f when T_SIMMIN <= T_HIGH. */
  lemma RampShape(p: Params, f: real, f': real)
    ensures Ramp(p, 0.0) == p.tHigh && Ramp(p, 1.0) == p.tSimMin
    ensures Ramp(p, f) == p.tHigh - f * (p.tHigh - p.tSimMin)
    ensures p.tSimMin <= p.tHigh && 0.0 <= f <= 1.0 ==> p.tSimMin <= Ramp(p, f) <= p.tHigh
    ensures p.tSimMin <= p.tHigh && f <= f' ==> Ramp(p, f') <= Ramp(p, f)
  {
    var d := p.tHigh - p.tSimMin;
    assert Ramp(p, f) == p.tHigh - f * d;
    if p.tSimMin <= p.tHigh && 0.0 <= f <= 1.0 {
      assert 0.0 <= f * d <= 1.0 * d;
    }
    if p.tSimMin <= p.tHigh && f <= f' {
      assert (f' - f) * d >= 0.0;
    }
  }

  /** Cooling: T = T_HIGH - a(T_HIGH - T_SIMMIN) and the solvent coupling
      follows `a` except in full solvation. */
  lemma CoolCouplings(p: Params, cv: Curves, a: real,
                      lambdaO: Option<State>, protocol: seq<State>,
                      site: Option<bool>, crossed: Option<bool>)
    ensures var r := Parameterize(p, cv, a, Cool, lambdaO, protocol, site, crossed);
            && r.t == Some(Ramp(p, a))
            && r.coupling[OBC] == (if p.coolSolvation == Full then 1.0 else a)
  {
  }

  /** Ordinary docking: sLJr = sELE = 1 - 4(a - 1/2)^2, the three grid
      couplings are equal and either 0 or at least 1e-10, and the
      temperature follows `a` (linear) or the grid coupling (quadratic). */
  lemma BpmfDockCouplings(p: Params, cv: Curves, a: real,
                          lambdaO: Option<State>, protocol: seq<State>,
                          site: Option<bool>, crossed: Option<bool>)
    requires p.pose <= -1
    ensures var r := Parameterize(p, cv, a, Dock, lambdaO, protocol, site, crossed);
            && r.coupling[SLJr] == r.coupling[SELE] == SoftScale(a)
            && r.coupling[LJr] == r.coupling[LJa] == r.coupling[ELE] == GridScale(cv, a)
            && (r.coupling[LJr] == 0.0 || r.coupling[LJr] >= 1.0 / 10000000000.0)
            && (site.Some? ==> r.site == site)
            && r.t == Some(if p.temperatureScaling == Linear then Ramp(p, a) else Ramp(p, GridScale(cv, a)))
  {
  }

  /** Pose runs: the external restraints are at full strength, and the
      internal one and the temperature follow tanh(16a^2). */
  lemma PoseDockCouplings(p: Params, cv: Curves, a: real,
                          lambdaO: Option<State>, protocol: seq<State>,
                          site: Option<bool>, crossed: Option<bool>)
    requires p.pose > -1
    ensures var r := Parameterize(p, cv, a, Dock, lambdaO, protocol, site, crossed);
            var ar := cv.tanh(16.0 * a * a);
            && r.coupling[KAngularExt] == r.coupling[KSpatialExt] == p.kPose
            && r.coupling[KAngularInt] == p.kPose * ar
            && r.coupling[LJr] == r.coupling[LJa] == r.coupling[ELE] == GridScale(cv, a)
            && r.t == Some(Ramp(p, ar))
  {
  }

  /** The soft-core scaling lies in [0, 1] on [0, 1], is 0 at both ends and
      1 halfway, and is symmetric about a = 1/2. */
  lemma SoftScaleShape(a: real)
    ensures 0.0 <= a <= 1.0 ==> 0.0 <= SoftScale(a) <= 1.0
    ensures SoftScale(0.0) == 0.0 && SoftScale(1.0) == 0.0 && SoftScale(0.5) == 1.0
    ensures SoftScale(1.0 - a) == SoftScale(a)
  {
    if 0.0 <= a <= 1.0 {
      var d := if a >= 0.5 then a - 0.5 else 0.5 - a;
      assert (a - 0.5) * (a - 0.5) == d * d;
      assert 0.0 <= d <= 0.5;
      assert d * d <= 0.5 * d;
    }
  }
}
