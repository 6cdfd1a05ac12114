/** Adaptation of the sampler's time step and trajectory length: the
    per-state rule applied after each replica-exchange cycle, and the
    attempt loop that initialises a new state. */
module Adapt {
  import opened Wrappers
  import opened Terms
  import opened Lambdas
  import opened Staging

  /** Python's `int(n / 2.)`: half of `n`, truncated toward zero. */
  function HalfTrunc(n: int): (r: int)
    ensures n >= 0 ==> 0 <= r && 2 * r <= n < 2 * r + 2
    ensures n < 0 ==> r <= 0 && 2 * r >= n > 2 * r - 2
  {
    if n >= 0 then n / 2 else -((-n) / 2)
  }

  /** `max(int(n / 2.), 1)`: the shortened trajectory length. */
  function Halved(n: int): (r: int)
    ensures r >= 1
    ensures n >= 2 ==> r <= n / 2 + 1 && r < n
    ensures n <= 1 ==> r == 1
  {
    MaxInt(HalfTrunc(n), 1)
  }

  /** The two sampler settings a state carries. */
  datatype Tuning = Tuning(deltaT: real, stepsPerTrial: int)

  /** The per-state rule applied after a cycle of Hamiltonian Monte Carlo
      (`fs` is one femtosecond in the engine's units): a high acceptance
      lengthens the step and doubles the trajectory up to the sweep length;
      a low one shortens the step, and halves the trajectory when the step
      is already short; the step never falls below a tenth of a
      femtosecond. */
  function HmcRule(t: Tuning, acc: real, stepsPerSweep: int, fs: real): (r: Tuning)
    requires fs > 0.0
    ensures r.deltaT >= fs / 10.0
    ensures 0.4 <= acc <= 0.8 ==>
      r.stepsPerTrial == t.stepsPerTrial && r.deltaT == MaxReal(t.deltaT, fs / 10.0)
    ensures acc > 0.8 ==> r.deltaT > t.deltaT && r.stepsPerTrial <= stepsPerSweep
    ensures acc > 0.8 && 2 * t.stepsPerTrial <= stepsPerSweep ==>
      r.stepsPerTrial == 2 * t.stepsPerTrial
    ensures acc < 0.4 ==> r.deltaT < t.deltaT || r.deltaT == fs / 10.0
    ensures acc < 0.4 && t.deltaT >= 2.0 * fs ==> r.stepsPerTrial == t.stepsPerTrial
    ensures acc < 0.4 && t.deltaT < 2.0 * fs ==> 1 <= r.stepsPerTrial <= MaxInt(t.stepsPerTrial, 1)
    ensures t.stepsPerTrial >= 1 && stepsPerSweep >= 1 ==> r.stepsPerTrial >= 1
  {
    var t' :=
      if acc > 0.8 then
        Tuning(t.deltaT + 0.125 * fs, MinInt(t.stepsPerTrial * 2, stepsPerSweep))
      else if acc < 0.4 then
        var steps := if t.deltaT < 2.0 * fs then Halved(t.stepsPerTrial) else t.stepsPerTrial;
        var dt := t.deltaT - 0.25 * fs;
        Tuning(if acc < 0.1 then dt - 0.25 * fs else dt, steps)
      else t;
    t'.(deltaT := MaxReal(t'.deltaT, fs / 10.0))
  }

  /** A state with both sampler settings present. */
  predicate Tuned(s: State) {
    s.deltaT.Some? && s.stepsPerTrial.Some?
  }

  /** The state after the per-state rule; every other key is kept. */
  function Retuned(s: State, acc: real, stepsPerSweep: int, fs: real): (r: State)
    requires Tuned(s) && fs > 0.0
    ensures Tuned(r) && r.deltaT.value >= fs / 10.0
    ensures r.(deltaT := s.deltaT, stepsPerTrial := s.stepsPerTrial) == s
  {
    var n := HmcRule(Tuning(s.deltaT.value, s.stepsPerTrial.value), acc, stepsPerSweep, fs);
    s.(deltaT := Some(n.deltaT), stepsPerTrial := Some(n.stepsPerTrial))
  }

  /** The acceptance rate the rule sees for `accepted` of `attempted`
      moves. numpy's 0/0 is NaN, which fails every comparison, exactly as
      a rate inside [0.4, 0.8] does; a positive count over zero moves is
      +inf, above every bound, and a negative one -inf, below every bound. */
  function RuleRate(accepted: int, attempted: int): (r: real)
    ensures attempted != 0 ==> r == accepted as real / attempted as real
    ensures attempted == 0 && accepted == 0 ==> 0.4 <= r <= 0.8
    ensures attempted == 0 && accepted > 0 ==> r > 0.8
    ensures attempted == 0 && accepted < 0 ==> r < 0.1
  {
    if attempted != 0 then accepted as real / attempted as real
    else if accepted == 0 then 0.5
    else if accepted > 0 then 1.0
    else 0.0
  }

  /** Applies the per-state rule in place to every state of the process's
      protocol, with `acc[k]` the acceptance rate observed in state `k`. */
  method AdaptHmc(ps: ProcessState, acc: seq<real>, stepsPerSweep: int, fs: real)
    requires |ps.protocol| == |acc| && fs > 0.0
    requires forall k :: 0 <= k < |ps.protocol| ==> Tuned(ps.protocol[k])
    modifies ps
    ensures ps.Snapshot() == old(ps.Snapshot()).(protocol := ps.protocol)
    ensures |ps.protocol| == |acc|
    ensures forall k :: 0 <= k < |acc| ==>
      ps.protocol[k] == Retuned(old(ps.protocol[k]), acc[k], stepsPerSweep, fs)
  {
    for k := 0 to |acc|
      invariant ps.Snapshot() == old(ps.Snapshot()).(protocol := ps.protocol)
      invariant |ps.protocol| == |acc|
      invariant forall j :: 0 <= j < k ==> ps.protocol[j] == Retuned(old(ps.protocol[j]), acc[j], stepsPerSweep, fs)
      invariant forall j :: k <= j < |acc| ==> ps.protocol[j] == old(ps.protocol[j])
    {
      ps.protocol := ps.protocol[k := Retuned(ps.protocol[k], acc[k], stepsPerSweep, fs)];
    }
  }

  function Sum(xs: seq<real>): real
    decreases |xs|
  {
    if xs == [] then 0.0 else Sum(xs[..|xs| - 1]) + xs[|xs| - 1]
  }

  function Mean(xs: seq<real>): real
    requires |xs| > 0
  {
    Sum(xs) / |xs| as real
  }

  /** Sum of squared deviations from `m`. */
  function SquaredDeviation(xs: seq<real>, m: real): real
    decreases |xs|
  {
    if xs == [] then 0.0
    else SquaredDeviation(xs[..|xs| - 1], m) + (xs[|xs| - 1] - m) * (xs[|xs| - 1] - m)
  }

  /** The population variance, numpy's default. A standard deviation is
      compared with a tolerance by comparing the variance with its square. */
  function Variance(xs: seq<real>): real
    requires |xs| > 0
  {
    SquaredDeviation(xs, Mean(xs)) / |xs| as real
  }

  /** A standard deviation of 1e-3, squared. */
  const SpreadTolerance: real := 1.0 / 1000000.0

  /** Identical values have no spread. */
  lemma {:induction false} ConstantSum(xs: seq<real>, c: real)
    requires forall i :: 0 <= i < |xs| ==> xs[i] == c
    ensures Sum(xs) == |xs| as real * c && SquaredDeviation(xs, c) == 0.0
    decreases |xs|
  {
    if xs != [] {
      ConstantSum(xs[..|xs| - 1], c);
    }
  }

  lemma ConstantVariance(xs: seq<real>)
    requires |xs| > 0 && forall i :: 0 <= i < |xs| ==> xs[i] == xs[0]
    ensures Mean(xs) == xs[0] && Variance(xs) == 0.0
  {
    ConstantSum(xs, xs[0]);
  }

  /** The time step taken from one attempt's results: the first reported
      step, or, when the reported steps spread, the mean clamped with the
      base step `d` (in femtoseconds). */
  function AveragedStep(dts: seq<real>, d: real, fs: real): real
    requires |dts| > 0
  {
    if Variance(dts) > SpreadTolerance then
      MinReal(MaxReal(Mean(dts), d / 5.0 * fs), d * 0.1 * fs)
    else dts[0]
  }

  /** The clamp's lower bound exceeds its upper bound, so for a positive
      base step the mean never matters: the result is a tenth of it. */
  lemma AveragingIgnoresMean(dts: seq<real>, d: real, fs: real)
    requires |dts| > 0 && d > 0.0 && fs > 0.0 && Variance(dts) > SpreadTolerance
    ensures AveragedStep(dts, d, fs) == d * fs / 10.0
  {
    var lo := d / 5.0 * fs;
    var hi := d * 0.1 * fs;
    assert lo == 2.0 * hi;
    assert MaxReal(Mean(dts), lo) >= lo > hi;
  }

  /** Results that all report the same step keep that step. */
  lemma UniformStepKept(dts: seq<real>, d: real, fs: real)
    requires |dts| > 0 && forall i :: 0 <= i < |dts| ==> dts[i] == dts[0]
    ensures AveragedStep(dts, d, fs) == dts[0]
  {
    ConstantVariance(dts);
  }

  /** One attempt's outcome from the sampler: the final configurations, the
      energy changes, the time steps it reports and its acceptance rate. */
  datatype Attempt = Attempt(confs: seq<Conf>, deltaEs: seq<real>, deltaTs: seq<real>, accRate: real)

  predicate WellFormed(at: Attempt) {
    |at.deltaTs| > 0 && |at.deltaEs| == |at.deltaTs|
  }

  /** Whether an attempt ends the loop: with Hamiltonian Monte Carlo, an
      acceptance rate inside [0.4, 0.8]; with other integrators, energy
      changes that spread by at least 1e-3. */
  predicate Stops(at: Attempt, hmc: bool)
    requires WellFormed(at)
  {
    if hmc then 0.4 <= at.accRate <= 0.8 else !(Variance(at.deltaEs) < SpreadTolerance)
  }

  /** Whether an attempt halves the trajectory length. */
  predicate Halves(at: Attempt, hmc: bool, d: real, fs: real)
    requires WellFormed(at)
  {
    hmc && !(at.accRate > 0.8) && at.accRate < 0.4 && AveragedStep(at.deltaTs, d, fs) < 2.0 * fs
  }

  /** The time step an attempt leaves behind. */
  function AttemptStep(at: Attempt, hmc: bool, d: real, fs: real): (r: real)
    requires WellFormed(at) && fs > 0.0
    ensures r >= fs / 10.0
    ensures Stops(at, hmc) ==> r == MaxReal(AveragedStep(at.deltaTs, d, fs), fs / 10.0)
    ensures hmc && at.accRate > 0.8 ==> r > AveragedStep(at.deltaTs, d, fs)
    ensures !Stops(at, hmc) && !(hmc && at.accRate > 0.8) ==>
      r < AveragedStep(at.deltaTs, d, fs) || r == fs / 10.0
  {
    var dt := AveragedStep(at.deltaTs, d, fs);
    var dt' :=
      if hmc then
        if at.accRate > 0.8 then dt + 0.125 * fs
        else if at.accRate < 0.4 then
          (if at.accRate < 0.1 then dt - 0.5 * fs else dt - 0.25 * fs)
        else dt
      else if Variance(at.deltaEs) < SpreadTolerance then dt - 0.25 * fs
      else dt;
    MaxReal(dt', fs / 10.0)
  }

  /** The trajectory length after a run of attempts, starting from the
      sweep length. */
  function StepsAfter(stepsPerSweep: int, ats: seq<Attempt>, hmc: bool, d: real, fs: real): int
    requires forall i :: 0 <= i < |ats| ==> WellFormed(ats[i])
    decreases |ats|
  {
    if ats == [] then stepsPerSweep
    else
      var n := StepsAfter(stepsPerSweep, ats[..|ats| - 1], hmc, d, fs);
      if Halves(ats[|ats| - 1], hmc, d, fs) then Halved(n) else n
  }

  /** The trajectory length only ever shrinks, never below one step, and
      only Hamiltonian Monte Carlo changes it. */
  lemma {:induction false} StepsAfterBounds(stepsPerSweep: int, ats: seq<Attempt>, hmc: bool, d: real, fs: real)
    requires forall i :: 0 <= i < |ats| ==> WellFormed(ats[i])
    requires stepsPerSweep >= 1
    ensures 1 <= StepsAfter(stepsPerSweep, ats, hmc, d, fs) <= stepsPerSweep
    ensures !hmc ==> StepsAfter(stepsPerSweep, ats, hmc, d, fs) == stepsPerSweep
    decreases |ats|
  {
    if ats != [] {
      StepsAfterBounds(stepsPerSweep, ats[..|ats| - 1], hmc, d, fs);
    }
  }

  /** The attempt budget of a state's initialisation. */
  const MaxAttempts: nat := 12

  /** One attempt's adjustment of the time step and trajectory length, and
      whether the attempt ends the search. */
  method AdjustStep(at: Attempt, steps0: int, d: real, fs: real, hmc: bool)
    returns (dt: real, steps: int, stop: bool)
    requires WellFormed(at) && fs > 0.0
    ensures dt == AttemptStep(at, hmc, d, fs)
    ensures steps == if Halves(at, hmc, d, fs) then Halved(steps0) else steps0
    ensures stop == Stops(at, hmc)
  {
    dt := AveragedStep(at.deltaTs, d, fs);
    steps := steps0;
    stop := false;
    if hmc {
      if at.accRate > 0.8 {
        dt := dt + 0.125 * fs;
      } else if at.accRate < 0.4 {
        if dt < 2.0 * fs {
          steps := Halved(steps);
        }
        dt := dt - 0.25 * fs;
        if at.accRate < 0.1 {
          dt := dt - 0.25 * fs;
        }
      } else {
        stop := true;
      }
    } else {
      if Variance(at.deltaEs) < SpreadTolerance {
        dt := dt - 0.25 * fs;
      } else {
        stop := true;
      }
    }
    if dt < fs / 10.0 {
      dt := fs / 10.0;
    }
  }

  /** Initialises a state: simulate, adjust the step, repeat until an
      attempt stops the loop or the budget is spent. `attempts[i]` is the
      sampler's outcome on the i-th try. Returns the last attempt's
      configurations and energy changes, its step, and the state with the
      step and trajectory length it leaves. */
  method InitialSimState(s: State, d: real, stepsPerSweep: int, fs: real, hmc: bool, attempts: seq<Attempt>)
    returns (confs: seq<Conf>, deltaEs: seq<real>, deltaT: real, s': State, used: nat)
    requires fs > 0.0 && |attempts| >= MaxAttempts
    requires forall i :: 0 <= i < |attempts| ==> WellFormed(attempts[i])
    ensures 1 <= used <= MaxAttempts
    ensures forall i :: 0 <= i < used - 1 ==> !Stops(attempts[i], hmc)
    ensures used < MaxAttempts ==> Stops(attempts[used - 1], hmc)
    ensures confs == attempts[used - 1].confs && deltaEs == attempts[used - 1].deltaEs
    ensures deltaT == AttemptStep(attempts[used - 1], hmc, d, fs) && deltaT >= fs / 10.0
    ensures s' == s.(deltaT := Some(deltaT),
                     stepsPerTrial := Some(StepsAfter(stepsPerSweep, attempts[..used], hmc, d, fs)))
  {
    s' := s;
    if s'.deltaT.None? {
      s' := s'.(deltaT := Some(d * fs));
    }
    s' := s'.(stepsPerTrial := Some(stepsPerSweep));
    var attemptsLeft := MaxAttempts;
    used := 0;
    confs, deltaEs, deltaT := [], [], 0.0;
    assert attempts[..0] == [];
    while attemptsLeft > 0
      invariant used + attemptsLeft == MaxAttempts || (attemptsLeft == 0 && 1 <= used <= MaxAttempts)
      invariant used <= MaxAttempts
      invariant forall i :: 0 <= i < used - 1 ==> !Stops(attempts[i], hmc)
      invariant used > 0 && attemptsLeft > 0 ==> !Stops(attempts[used - 1], hmc)
      invariant attemptsLeft == 0 && used < MaxAttempts ==> Stops(attempts[used - 1], hmc)
      invariant used > 0 ==> confs == attempts[used - 1].confs && deltaEs == attempts[used - 1].deltaEs
      invariant used > 0 ==> deltaT == AttemptStep(attempts[used - 1], hmc, d, fs)
      invariant used > 0 ==> s' == s.(deltaT := Some(deltaT),
        stepsPerTrial := Some(StepsAfter(stepsPerSweep, attempts[..used], hmc, d, fs)))
      invariant used == 0 ==> s'.stepsPerTrial == Some(stepsPerSweep)
      decreases attemptsLeft
    {
      var at := attempts[used];
      assert attempts[..used + 1][..used] == attempts[..used];
      confs, deltaEs := at.confs, at.deltaEs;
      attemptsLeft := attemptsLeft - 1;
      var dt, steps, stop := AdjustStep(at, s'.stepsPerTrial.value, d, fs, hmc);
      if stop {
        attemptsLeft := 0;
      }
      deltaT := dt;
      used := used + 1;
      s' := s.(deltaT := Some(dt), stepsPerTrial := Some(steps));
    }
  }
}
