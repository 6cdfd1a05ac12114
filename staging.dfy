/** Initial staging of the cooling and docking processes: thermodynamic
    states are added one at a time, each kept or rejected by the estimated
    replica-exchange acceptance with its neighbour, until a state crosses
    to the end of the process. */
module Staging {
  import opened Wrappers
  import opened Terms
  import opened Lambdas
  import opened Stepper

  /** The parallel lists a process keeps: its states, one replica
      configuration per state, the samples and energies of every state over
      cycles, and the cycle counter. */
  datatype Stage = Stage(
    protocol: seq<State>,
    replicas: seq<Conf>,
    samples: seq<seq<seq<Conf>>>,
    es: seq<seq<Energies>>,
    cycle: nat)

  predicate Parallel(s: Stage) {
    |s.protocol| == |s.replicas| == |s.samples| == |s.es|
  }

  /** No state but the last one has crossed. */
  predicate OnlyLastCrossed(ps: seq<State>) {
    forall i :: 0 <= i < |ps| - 1 ==> !IsCrossed(ps[i])
  }

  predicate Valid(s: Stage) {
    |s.protocol| > 0 && Parallel(s) && OnlyLastCrossed(s.protocol)
  }

  function Last<T>(s: seq<T>): T
    requires |s| > 0
  {
    s[|s| - 1]
  }

  /** What one simulation of a new state yields: its configurations and
      their energies, the time step and trajectory length the sampler
      settled on (the `delta_t` and `steps_per_trial` that
      `Adapt.InitialSimState` leaves in the state), the spread of its
      energy changes, and the index of the configuration drawn at random
      as the state's replica. */
  datatype Sim = Sim(confs: seq<Conf>, energies: Energies, deltaT: real, stepsPerTrial: int,
                     spread: real, pick: nat)

  /** The new state as the initialisation leaves it: the stepped state
      with the sampler's time step and trajectory length written in. */
  function Initialised(n: State, sim: Sim): State {
    n.(deltaT := Some(sim.deltaT), stepsPerTrial := Some(sim.stepsPerTrial))
  }

  /** The loop's own variables: the last kept state, its samples and
      energies, and the count of consecutive rejections (negative after
      rejections of the previous state). */
  datatype Cursor = Cursor(lambdaO: State, confs: seq<Conf>, e: Energies, rejectStage: int)

  datatype Outcome = RejectNew | RejectPrevious | Accept

  /** Highest estimated acceptance at which the previous state is kept. */
  const HighAcceptance: real := 0.99

  /** The three-way rule. `len` counts the states with the new one; `u` is
      one when the first new state is always kept (random docking). */
  function Decide(meanAcc: real, minAcc: real, len: nat, crossedN: bool, u: nat): (o: Outcome)
    ensures o == RejectNew <==> len > 1 + u && meanAcc < minAcc
    ensures o == RejectPrevious <==> len > 2 + u && minAcc <= meanAcc && meanAcc > HighAcceptance && !crossedN
  {
    if len > 1 + u then
      if meanAcc < minAcc then RejectNew
      else if len > 2 + u && meanAcc > HighAcceptance && !crossedN then RejectPrevious
      else Accept
    else Accept
  }

  /** The lists after the rule, given the new state `lambdaN`. */
  function Record(s: Stage, o: Outcome, lambdaN: State, sim: Sim): Stage
    requires Parallel(s) && |s.protocol| > 0 && sim.pick < |sim.confs|
  {
    match o
    case RejectNew => s
    case RejectPrevious =>
      s.(protocol := s.protocol[|s.protocol| - 1 := lambdaN],
         replicas := s.replicas[|s.replicas| - 1 := sim.confs[sim.pick]])
    case Accept =>
      s.(protocol := s.protocol + [lambdaN],
         replicas := s.replicas + [sim.confs[sim.pick]],
         samples := s.samples + [[sim.confs]],
         es := s.es + [[sim.energies]])
  }

  function NextCursor(cur: Cursor, o: Outcome, lambdaN: State, sim: Sim): Cursor {
    match o
    case RejectNew => cur.(rejectStage := cur.rejectStage + 1)
    case RejectPrevious => Cursor(lambdaN, sim.confs, sim.energies, cur.rejectStage - 1)
    case Accept => Cursor(lambdaN, sim.confs, sim.energies, 0)
  }

  function Reverse<T>(s: seq<T>): (r: seq<T>)
    ensures |r| == |s| && forall i :: 0 <= i < |s| ==> r[i] == s[|s| - 1 - i]
  {
    seq(|s|, i requires 0 <= i < |s| => s[|s| - 1 - i])
  }

  /** The protocol reversed, with the crossing flag moved to its new end. */
  function Flip(ps: seq<State>): seq<State>
    requires |ps| > 0
  {
    var r := Reverse(ps);
    var r1 := r[0 := r[0].(crossed := Some(false))];
    r1[|r1| - 1 := r1[|r1| - 1].(crossed := Some(true))]
  }

  /** Samples of the intermediate states dropped. */
  function ClearIntermediate(samples: seq<seq<seq<Conf>>>): seq<seq<seq<Conf>>> {
    seq(|samples|, k requires 0 <= k < |samples| => if 0 < k < |samples| - 1 then [] else samples[k])
  }

  /** The closing steps after the last stage: a warming or undocking run is
      reversed so that the lists run from the end states, the intermediate
      samples are dropped unless kept, and the cycle counter advances. */
  function Finish(s: Stage, reverse: bool, keep: bool): Stage {
    if |s.protocol| > 0 && IsCrossed(Last(s.protocol)) then
      var s1 := if reverse then
        s.(protocol := Flip(s.protocol), replicas := Reverse(s.replicas),
           samples := Reverse(s.samples), es := Reverse(s.es))
      else s;
      var s2 := if keep then s1 else s1.(samples := ClearIntermediate(s1.samples));
      s2.(cycle := s2.cycle + 1)
    else s
  }

  datatype StageError = Step(error: StepError) | TooManyStates | TooManyRejections | UnableToInitialize

  /** The cleared lists of a process. */
  function Cleared(): Stage {
    Stage([], [], [], [], 0)
  }

  /** The most states the docking protocol may hold. */
  const MaxStates: nat := 1000

  /** The most consecutive rejections docking tolerates. */
  const MaxRejections: nat := 20

  /** Below this spread the new docking state's sampler did not move. */
  const SpreadFloor: real := 1.0 / 10000000.0

  /** One iteration of the cooling loop: the next state from the
      adaptive step, the rule, and the closing steps when it crossed. */
  function CoolStage(p: Params, cv: Curves, s: Stage, cur: Cursor, tL: real, sim: Sim,
                     meanAcc: real, minAcc: real, warm: bool, keep: bool): (Stage, Result<Cursor, StageError>)
    requires Parallel(s) && |s.protocol| > 0 && sim.pick < |sim.confs|
  {
    var n := NextCoolState(p, cv, cur.lambdaO, tL, Some(cur.rejectStage), warm);
    if n.Err? then (s, Err(Step(n.error)))
    else
      var lambdaN := Initialised(n.value, sim);
      var o := Decide(meanAcc, minAcc, |s.protocol| + 1, IsCrossed(lambdaN), 0);
      (Finish(Record(s, o, lambdaN, sim), warm, keep), Ok(NextCursor(cur, o, lambdaN, sim)))
  }

  /** The first docking state after random docking: the lists restart from
      the best randomly docked configuration and its energies. */
  predicate RandomStart(p: Params, s: Stage, undock: bool) {
    !undock && p.pose == -1 && |s.protocol| == 1
  }

  /** One iteration of the docking loop, with its abort guards (which clear
      the lists), the restart after random docking, and the check that the
      sampler moved. `reset` is the best randomly docked configuration with
      its energies. */
  function DockStage(p: Params, cv: Curves, s: Stage, cur: Cursor, tL: real, sim: Sim,
                     meanAcc: real, minAcc: real, undock: bool, keep: bool,
                     reset: (Conf, Energies)): (Stage, Result<Cursor, StageError>)
    requires |s.protocol| > 0 && (Parallel(s) || RandomStart(p, s, undock))
    requires p.dockThermSpeed > 0.0 && tL >= 0.0 && sim.pick < |sim.confs|
  {
    var n := NextDockState(p, cv, cur.lambdaO, tL, Some(cur.rejectStage), undock);
    if n.Err? then (s, Err(Step(n.error)))
    else if |s.protocol| + 1 > MaxStates then (Cleared(), Err(TooManyStates))
    else if cur.rejectStage > MaxRejections || cur.rejectStage < -(MaxRejections as int) then
      (Cleared(), Err(TooManyRejections))
    else
      var s0 := if RandomStart(p, s, undock) then
        s.(replicas := [reset.0], samples := [[[reset.0]]], es := [[reset.1]])
      else s;
      var cur0 := if RandomStart(p, s, undock) then cur.(confs := [], e := map[]) else cur;
      var lambdaN := Initialised(n.value, sim);
      if sim.spread < SpreadFloor then (s0.(protocol := s0.protocol + [lambdaN]), Err(UnableToInitialize))
      else
        var o := Decide(meanAcc, minAcc, |s0.protocol| + 1, IsCrossed(lambdaN), if undock then 0 else 1);
        (Finish(Record(s0, o, lambdaN, sim), undock, keep), Ok(NextCursor(cur0, o, lambdaN, sim)))
  }

  /** The rule keeps the lists parallel and leaves only the last state
      crossed, and the kept last state is the one the loop steps from. */
  lemma RecordValid(s: Stage, o: Outcome, lambdaN: State, sim: Sim, cur: Cursor)
    requires Valid(s) && !IsCrossed(Last(s.protocol)) && sim.pick < |sim.confs|
    requires o == RejectPrevious ==> !IsCrossed(lambdaN)
    requires cur.lambdaO == Last(s.protocol)
    ensures var s' := Record(s, o, lambdaN, sim);
            && Valid(s')
            && NextCursor(cur, o, lambdaN, sim).lambdaO == Last(s'.protocol)
            && |s'.protocol| == |s.protocol| + (if o == Accept then 1 else 0)
  {
  }

  /** Finishing keeps the lists parallel. A crossed run ends with the last
      state crossed and the first not; when reversed, the lists run
      backwards, and unless kept, only the end states keep their samples. */
  lemma FinishShape(s: Stage, reverse: bool, keep: bool)
    requires Valid(s)
    ensures var s' := Finish(s, reverse, keep);
            var n := |s.protocol|;
            && Valid(s')
            && (!IsCrossed(Last(s.protocol)) ==> s' == s)
            && (IsCrossed(Last(s.protocol)) ==>
                  && s'.cycle == s.cycle + 1
                  && IsCrossed(Last(s'.protocol))
                  && (n > 1 ==> !IsCrossed(s'.protocol[0]))
                  && (reverse ==> forall i :: 0 < i < n - 1 ==> s'.protocol[i] == s.protocol[n - 1 - i])
                  && (reverse ==> forall i :: 0 <= i < n ==> s'.replicas[i] == s.replicas[n - 1 - i] && s'.es[i] == s.es[n - 1 - i])
                  && (!reverse ==> s'.protocol == s.protocol && s'.replicas == s.replicas && s'.es == s.es)
                  && (!keep ==> forall k :: 0 < k < n - 1 ==> s'.samples[k] == []))
  {
    if IsCrossed(Last(s.protocol)) && reverse {
      var f := Flip(s.protocol);
      var n := |s.protocol|;
      assert forall i :: 0 < i < n - 1 ==> f[i] == s.protocol[n - 1 - i];
      assert OnlyLastCrossed(f);
    }
  }

  /** The rule followed by the closing steps keeps the lists valid; the
      next cursor steps from the last state while it has not crossed, and
      unless the lists were turned around, the protocol is the old one,
      extended by the new state or with its last state replaced. */
  lemma StepValid(s: Stage, o: Outcome, lambdaN: State, sim: Sim, cur: Cursor, reverse: bool, keep: bool)
    requires Valid(s) && !IsCrossed(Last(s.protocol)) && sim.pick < |sim.confs|
    requires o == RejectPrevious ==> !IsCrossed(lambdaN)
    requires cur.lambdaO == Last(s.protocol)
    ensures var s' := Finish(Record(s, o, lambdaN, sim), reverse, keep);
            var c := NextCursor(cur, o, lambdaN, sim);
            && Valid(s')
            && (!IsCrossed(Last(s'.protocol)) ==> c.lambdaO == Last(s'.protocol))
            && (c.lambdaO == cur.lambdaO || c.lambdaO == lambdaN)
            && (!(reverse && IsCrossed(Last(s'.protocol))) ==>
                  s'.protocol == s.protocol || s'.protocol == s.protocol + [lambdaN] ||
                  s'.protocol == s.protocol[|s.protocol| - 1 := lambdaN])
  {
    RecordValid(s, o, lambdaN, sim, cur);
    FinishShape(Record(s, o, lambdaN, sim), reverse, keep);
  }

  /** After every cooling iteration the lists are parallel and only the
      last state can be crossed; while it has not crossed, the loop steps
      from the last kept state. */
  lemma CoolStageValid(p: Params, cv: Curves, s: Stage, cur: Cursor, tL: real, sim: Sim,
                       meanAcc: real, minAcc: real, warm: bool, keep: bool)
    requires Valid(s) && !IsCrossed(Last(s.protocol)) && cur.lambdaO == Last(s.protocol) && sim.pick < |sim.confs|
    ensures var (s', r) := CoolStage(p, cv, s, cur, tL, sim, meanAcc, minAcc, warm, keep);
            && Valid(s')
            && (r.Ok? && !IsCrossed(Last(s'.protocol)) ==> r.value.lambdaO == Last(s'.protocol))
            && (r.Err? ==> s' == s)
            && (r.Ok? ==>
                  var lambdaN := Initialised(NextCoolState(p, cv, cur.lambdaO, tL, Some(cur.rejectStage), warm).value, sim);
                  && (r.value.lambdaO == cur.lambdaO || r.value.lambdaO == lambdaN)
                  && (!(warm && IsCrossed(Last(s'.protocol))) ==>
                        s'.protocol == s.protocol || s'.protocol == s.protocol + [lambdaN] ||
                        s'.protocol == s.protocol[|s.protocol| - 1 := lambdaN]))
  {
    var n := NextCoolState(p, cv, cur.lambdaO, tL, Some(cur.rejectStage), warm);
    if n.Ok? {
      var lambdaN := Initialised(n.value, sim);
      var o := Decide(meanAcc, minAcc, |s.protocol| + 1, IsCrossed(lambdaN), 0);
      StepValid(s, o, lambdaN, sim, cur, warm, keep);
    }
  }

  /** After every successful docking iteration the lists are parallel and
      only the last state can be crossed; while it has not crossed, the loop
      steps from the last kept state. The guards leave the lists cleared. */
  lemma DockStageValid(p: Params, cv: Curves, s: Stage, cur: Cursor, tL: real, sim: Sim,
                       meanAcc: real, minAcc: real, undock: bool, keep: bool, reset: (Conf, Energies))
    requires |s.protocol| > 0 && OnlyLastCrossed(s.protocol) && !IsCrossed(Last(s.protocol))
    requires Parallel(s) || RandomStart(p, s, undock)
    requires cur.lambdaO == Last(s.protocol)
    requires p.dockThermSpeed > 0.0 && tL >= 0.0 && sim.pick < |sim.confs|
    ensures var (s', r) := DockStage(p, cv, s, cur, tL, sim, meanAcc, minAcc, undock, keep, reset);
            && (r.Ok? ==> Valid(s'))
            && (r.Ok? && !IsCrossed(Last(s'.protocol)) ==> r.value.lambdaO == Last(s'.protocol))
            && (r.Err? && (r.error == TooManyStates || r.error == TooManyRejections) ==> s' == Cleared())
            && (r.Ok? ==>
                  var lambdaN := Initialised(NextDockState(p, cv, cur.lambdaO, tL, Some(cur.rejectStage), undock).value, sim);
                  && (r.value.lambdaO == cur.lambdaO || r.value.lambdaO == lambdaN)
                  && (!(undock && IsCrossed(Last(s'.protocol))) ==>
                        s'.protocol == s.protocol || s'.protocol == s.protocol + [lambdaN] ||
                        s'.protocol == s.protocol[|s.protocol| - 1 := lambdaN]))
  {
    var n := NextDockState(p, cv, cur.lambdaO, tL, Some(cur.rejectStage), undock);
    var st := DockStage(p, cv, s, cur, tL, sim, meanAcc, minAcc, undock, keep, reset);
    if n.Err? {
      assert st == (s, Err(Step(n.error)));
    } else if |s.protocol| + 1 > MaxStates {
      assert st == (Cleared(), Err(TooManyStates));
    } else if cur.rejectStage > MaxRejections || cur.rejectStage < -(MaxRejections as int) {
      assert st == (Cleared(), Err(TooManyRejections));
    } else if sim.spread < SpreadFloor {
      assert st.1 == Err(UnableToInitialize);
    } else {
      var s0 := if RandomStart(p, s, undock) then
        s.(replicas := [reset.0], samples := [[[reset.0]]], es := [[reset.1]])
      else s;
      var cur0 := if RandomStart(p, s, undock) then cur.(confs := [], e := map[]) else cur;
      var lambdaN := Initialised(n.value, sim);
      var o := Decide(meanAcc, minAcc, |s0.protocol| + 1, IsCrossed(lambdaN), if undock then 0 else 1);
      assert Valid(s0) && s0.protocol == s.protocol && cur0.lambdaO == cur.lambdaO;
      StepValid(s0, o, lambdaN, sim, cur0, undock, keep);
      assert st == (Finish(Record(s0, o, lambdaN, sim), undock, keep), Ok(NextCursor(cur0, o, lambdaN, sim)));
    }
  }

  /** The progress values of the protocol never decrease. */
  predicate Ascending(ps: seq<State>) {
    (forall i :: 0 <= i < |ps| ==> ps[i].a.Some? && 0.0 <= ps[i].a.value <= 1.0) &&
    (forall i, j :: 0 <= i < j < |ps| ==> ps[i].a.value <= ps[j].a.value)
  }

  /** The rule keeps the protocol ordered when the new state's progress
      value lies in [0, 1] and is a step the protocol's way from the last
      state's. */
  lemma RecordOrder(s: Stage, o: Outcome, lambdaN: State, sim: Sim, down: bool)
    requires Parallel(s) && |s.protocol| > 0 && sim.pick < |sim.confs|
    requires lambdaN.a.Some? && 0.0 <= lambdaN.a.value <= 1.0
    requires !down ==> Ascending(s.protocol) && Last(s.protocol).a.value <= lambdaN.a.value
    requires down ==> Descending(s.protocol) && Last(s.protocol).a.value >= lambdaN.a.value
    ensures !down ==> Ascending(Record(s, o, lambdaN, sim).protocol)
    ensures down ==> Descending(Record(s, o, lambdaN, sim).protocol)
  {
    var ps := Record(s, o, lambdaN, sim).protocol;
    var n := |s.protocol|;
    assert forall i :: 0 <= i < n - 1 ==> ps[i] == s.protocol[i];
  }

  /** Docking (not undocking) keeps the protocol's progress values in
      [0, 1] and non-decreasing: every kept state is a step up from the
      last kept one. */
  lemma DockStageAscending(p: Params, cv: Curves, s: Stage, cur: Cursor, tL: real, sim: Sim,
                           meanAcc: real, minAcc: real, keep: bool, reset: (Conf, Energies))
    requires |s.protocol| > 0 && OnlyLastCrossed(s.protocol) && !IsCrossed(Last(s.protocol))
    requires Parallel(s) || RandomStart(p, s, false)
    requires cur.lambdaO == Last(s.protocol) && Ascending(s.protocol)
    requires p.dockThermSpeed > 0.0 && tL >= 0.0 && sim.pick < |sim.confs|
    ensures var (s', r) := DockStage(p, cv, s, cur, tL, sim, meanAcc, minAcc, false, keep, reset);
            r.Ok? ==> Ascending(s'.protocol)
  {
    var n := NextDockState(p, cv, cur.lambdaO, tL, Some(cur.rejectStage), false);
    if n.Ok? && |s.protocol| + 1 <= MaxStates && -(MaxRejections as int) <= cur.rejectStage <= MaxRejections && sim.spread >= SpreadFloor {
      var dL := DockStepSize(p.dockThermSpeed, tL, Some(cur.rejectStage));
      DockStepBounds(p, cur.lambdaO.a.value, dL, Some(cur.rejectStage), false, cur.lambdaO.crossed.value);
      var s0 := if RandomStart(p, s, false) then
        s.(replicas := [reset.0], samples := [[[reset.0]]], es := [[reset.1]])
      else s;
      var lambdaN := Initialised(n.value, sim);
      var o := Decide(meanAcc, minAcc, |s0.protocol| + 1, IsCrossed(lambdaN), 1);
      var s1 := Record(s0, o, lambdaN, sim);
      RecordOrder(s0, o, lambdaN, sim, false);
      assert Finish(s1, false, keep).protocol == s1.protocol;
    }
  }

  /** The progress values lie in [0, 1] and never increase. */
  predicate Descending(ps: seq<State>) {
    (forall i :: 0 <= i < |ps| ==> ps[i].a.Some? && 0.0 <= ps[i].a.value <= 1.0) &&
    (forall i, j :: 0 <= i < j < |ps| ==> ps[i].a.value >= ps[j].a.value)
  }

  /** Turning a descending protocol around makes it ascending. */
  lemma FlipAscending(ps: seq<State>)
    requires |ps| > 0 && Descending(ps)
    ensures Ascending(Flip(ps))
  {
    var f := Flip(ps);
    assert forall i :: 0 <= i < |ps| ==> f[i].a == ps[|ps| - 1 - i].a;
  }

  /** Finishing a descending undocking protocol leaves it ascending once
      its last state has crossed, and descending before. */
  lemma FinishUndockOrder(s: Stage, keep: bool)
    requires |s.protocol| > 0 && Descending(s.protocol)
    ensures var f := Finish(s, true, keep);
            |f.protocol| > 0 && if IsCrossed(Last(f.protocol)) then Ascending(f.protocol) else Descending(f.protocol)
  {
    if IsCrossed(Last(s.protocol)) {
      FlipAscending(s.protocol);
    }
  }

  /** Undocking steps the progress value down while no state has crossed,
      and once the last state crosses the protocol is turned around, so it
      ends up ascending like a docking protocol. */
  lemma UndockStageOrder(p: Params, cv: Curves, s: Stage, cur: Cursor, tL: real, sim: Sim,
                         meanAcc: real, minAcc: real, keep: bool, reset: (Conf, Energies))
    requires Valid(s) && !IsCrossed(Last(s.protocol))
    requires cur.lambdaO == Last(s.protocol) && Descending(s.protocol)
    requires p.dockThermSpeed > 0.0 && tL >= 0.0 && sim.pick < |sim.confs|
    ensures var (s', r) := DockStage(p, cv, s, cur, tL, sim, meanAcc, minAcc, true, keep, reset);
            r.Ok? ==> if IsCrossed(Last(s'.protocol)) then Ascending(s'.protocol) else Descending(s'.protocol)
  {
    var n := NextDockState(p, cv, cur.lambdaO, tL, Some(cur.rejectStage), true);
    if n.Ok? && |s.protocol| + 1 <= MaxStates && -(MaxRejections as int) <= cur.rejectStage <= MaxRejections && sim.spread >= SpreadFloor {
      var dL := DockStepSize(p.dockThermSpeed, tL, Some(cur.rejectStage));
      DockStepBounds(p, cur.lambdaO.a.value, dL, Some(cur.rejectStage), true, cur.lambdaO.crossed.value);
      var lambdaN := Initialised(n.value, sim);
      var o := Decide(meanAcc, minAcc, |s.protocol| + 1, IsCrossed(lambdaN), 0);
      RecordOrder(s, o, lambdaN, sim, true);
      FinishUndockOrder(Record(s, o, lambdaN, sim), keep);
    }
  }

  /** A trial of the loop: the thermodynamic-length metric, the
      simulation of the new state and the estimated mean acceptance. */
  type Trial = (real, Sim, real)

  /** The cooling loop over the supplied trials from trial `k` on: one
      `CoolStage` per trial until the last state has crossed, a stage
      fails or the trials run out. The result holds the lists, the loop's
      outcome and the number of trials used by then. */
  function CoolRun(p: Params, cv: Curves, s: Stage, cur: Cursor, trials: seq<Trial>, k: nat,
                   minAcc: real, warm: bool, keep: bool): (Stage, Result<Cursor, StageError>, nat)
    requires Valid(s) && (!IsCrossed(Last(s.protocol)) ==> cur.lambdaO == Last(s.protocol)) && k <= |trials|
    requires forall i :: 0 <= i < |trials| ==> trials[i].1.pick < |trials[i].1.confs|
    decreases |trials| - k, 1
  {
    if k == |trials| || IsCrossed(Last(s.protocol)) then (s, Ok(cur), k)
    else CoolContinue(p, cv, s, cur, trials, k, minAcc, warm, keep)
  }

  /** The cooling run from a state that has not crossed, with trial `k`
      left: that trial's stage, then the stage's failure or the run on the
      following trials from the lists the stage left. */
  function CoolContinue(p: Params, cv: Curves, s: Stage, cur: Cursor, trials: seq<Trial>, k: nat,
                        minAcc: real, warm: bool, keep: bool): (Stage, Result<Cursor, StageError>, nat)
    requires Valid(s) && !IsCrossed(Last(s.protocol)) && cur.lambdaO == Last(s.protocol) && k < |trials|
    requires forall i :: 0 <= i < |trials| ==> trials[i].1.pick < |trials[i].1.confs|
    decreases |trials| - k, 0
  {
    CoolStageValid(p, cv, s, cur, trials[k].0, trials[k].1, trials[k].2, minAcc, warm, keep);
    var st := CoolStage(p, cv, s, cur, trials[k].0, trials[k].1, trials[k].2, minAcc, warm, keep);
    if st.1.Err? then (st.0, st.1, k + 1)
    else CoolRun(p, cv, st.0, st.1.value, trials, k + 1, minAcc, warm, keep)
  }

  /** One trial of the cooling run: the stage keeps the lists valid, and
      the run from before the stage ends where the stage failed or goes on
      from what the stage left. */
  lemma CoolRunStep(p: Params, cv: Curves, s: Stage, cur: Cursor, trials: seq<Trial>, k: nat,
                    minAcc: real, warm: bool, keep: bool, s': Stage, r: Result<Cursor, StageError>)
    requires Valid(s) && !IsCrossed(Last(s.protocol)) && cur.lambdaO == Last(s.protocol) && k < |trials|
    requires forall i :: 0 <= i < |trials| ==> trials[i].1.pick < |trials[i].1.confs|
    requires (s', r) == CoolStage(p, cv, s, cur, trials[k].0, trials[k].1, trials[k].2, minAcc, warm, keep)
    ensures Valid(s') && (r.Ok? && !IsCrossed(Last(s'.protocol)) ==> r.value.lambdaO == Last(s'.protocol))
    ensures r.Err? ==> CoolRun(p, cv, s, cur, trials, k, minAcc, warm, keep) == (s', r, k + 1)
    ensures r.Ok? ==> CoolRun(p, cv, s, cur, trials, k, minAcc, warm, keep) ==
                      CoolRun(p, cv, s', r.value, trials, k + 1, minAcc, warm, keep)
  {
    CoolStageValid(p, cv, s, cur, trials[k].0, trials[k].1, trials[k].2, minAcc, warm, keep);
    assert CoolRun(p, cv, s, cur, trials, k, minAcc, warm, keep) == CoolContinue(p, cv, s, cur, trials, k, minAcc, warm, keep);
  }

  /** With no trial left, or once the last state has crossed, the cooling
      run stops where it is. */
  lemma CoolRunEnd(p: Params, cv: Curves, s: Stage, cur: Cursor, trials: seq<Trial>, k: nat,
                   minAcc: real, warm: bool, keep: bool)
    requires Valid(s) && (!IsCrossed(Last(s.protocol)) ==> cur.lambdaO == Last(s.protocol)) && k <= |trials|
    requires forall i :: 0 <= i < |trials| ==> trials[i].1.pick < |trials[i].1.confs|
    requires k == |trials| || IsCrossed(Last(s.protocol))
    ensures CoolRun(p, cv, s, cur, trials, k, minAcc, warm, keep) == (s, Ok(cur), k)
  {
  }

  /** The docking loop over the supplied trials from trial `k` on: one
      `DockStage` per trial until the last state has crossed, a stage fails
      or the trials run out. Running out before the first stage of a
      random start (whose lists are not yet parallel) is reported as
      `UnableToInitialize`. */
  function DockRun(p: Params, cv: Curves, s: Stage, cur: Cursor, trials: seq<Trial>, k: nat,
                   minAcc: real, undock: bool, keep: bool, reset: (Conf, Energies)): (Stage, Result<Cursor, StageError>, nat)
    requires |s.protocol| > 0 && OnlyLastCrossed(s.protocol) && (Parallel(s) || RandomStart(p, s, undock))
    requires !IsCrossed(Last(s.protocol)) ==> cur.lambdaO == Last(s.protocol)
    requires p.dockThermSpeed > 0.0 && k <= |trials|
    requires forall i :: 0 <= i < |trials| ==> trials[i].0 >= 0.0 && trials[i].1.pick < |trials[i].1.confs|
    decreases |trials| - k, 1
  {
    if k == |trials| || IsCrossed(Last(s.protocol)) then
      (s, if Parallel(s) then Ok(cur) else Err(UnableToInitialize), k)
    else DockContinue(p, cv, s, cur, trials, k, minAcc, undock, keep, reset)
  }

  /** The docking run from a state that has not crossed, with trial `k`
      left, as `CoolContinue`. */
  function DockContinue(p: Params, cv: Curves, s: Stage, cur: Cursor, trials: seq<Trial>, k: nat,
                        minAcc: real, undock: bool, keep: bool, reset: (Conf, Energies)): (Stage, Result<Cursor, StageError>, nat)
    requires |s.protocol| > 0 && OnlyLastCrossed(s.protocol) && !IsCrossed(Last(s.protocol))
    requires Parallel(s) || RandomStart(p, s, undock)
    requires cur.lambdaO == Last(s.protocol) && p.dockThermSpeed > 0.0 && k < |trials|
    requires forall i :: 0 <= i < |trials| ==> trials[i].0 >= 0.0 && trials[i].1.pick < |trials[i].1.confs|
    decreases |trials| - k, 0
  {
    DockStageValid(p, cv, s, cur, trials[k].0, trials[k].1, trials[k].2, minAcc, undock, keep, reset);
    var st := DockStage(p, cv, s, cur, trials[k].0, trials[k].1, trials[k].2, minAcc, undock, keep, reset);
    if st.1.Err? then (st.0, st.1, k + 1)
    else DockRun(p, cv, st.0, st.1.value, trials, k + 1, minAcc, undock, keep, reset)
  }

  /** One trial of the docking run, as `CoolRunStep`. */
  lemma DockRunStep(p: Params, cv: Curves, s: Stage, cur: Cursor, trials: seq<Trial>, k: nat,
                    minAcc: real, undock: bool, keep: bool, reset: (Conf, Energies), s': Stage, r: Result<Cursor, StageError>)
    requires |s.protocol| > 0 && OnlyLastCrossed(s.protocol) && !IsCrossed(Last(s.protocol))
    requires Parallel(s) || RandomStart(p, s, undock)
    requires cur.lambdaO == Last(s.protocol) && p.dockThermSpeed > 0.0 && k < |trials|
    requires forall i :: 0 <= i < |trials| ==> trials[i].0 >= 0.0 && trials[i].1.pick < |trials[i].1.confs|
    requires (s', r) == DockStage(p, cv, s, cur, trials[k].0, trials[k].1, trials[k].2, minAcc, undock, keep, reset)
    ensures r.Ok? ==> Valid(s') && (!IsCrossed(Last(s'.protocol)) ==> r.value.lambdaO == Last(s'.protocol))
    ensures r.Err? ==> DockRun(p, cv, s, cur, trials, k, minAcc, undock, keep, reset) == (s', r, k + 1)
    ensures r.Ok? ==> DockRun(p, cv, s, cur, trials, k, minAcc, undock, keep, reset) ==
                      DockRun(p, cv, s', r.value, trials, k + 1, minAcc, undock, keep, reset)
  {
    DockStageValid(p, cv, s, cur, trials[k].0, trials[k].1, trials[k].2, minAcc, undock, keep, reset);
    assert DockRun(p, cv, s, cur, trials, k, minAcc, undock, keep, reset) ==
           DockContinue(p, cv, s, cur, trials, k, minAcc, undock, keep, reset);
  }

  /** A docking run that succeeds keeps the protocol's progress values
      ascending. */
  lemma {:induction false} DockRunAscending(p: Params, cv: Curves, s: Stage, cur: Cursor, trials: seq<Trial>, k: nat,
                                            minAcc: real, keep: bool, reset: (Conf, Energies))
    requires |s.protocol| > 0 && OnlyLastCrossed(s.protocol) && (Parallel(s) || RandomStart(p, s, false))
    requires !IsCrossed(Last(s.protocol)) ==> cur.lambdaO == Last(s.protocol)
    requires p.dockThermSpeed > 0.0 && Ascending(s.protocol) && k <= |trials|
    requires forall i :: 0 <= i < |trials| ==> trials[i].0 >= 0.0 && trials[i].1.pick < |trials[i].1.confs|
    ensures var run := DockRun(p, cv, s, cur, trials, k, minAcc, false, keep, reset);
            run.1.Ok? ==> Ascending(run.0.protocol)
    decreases |trials| - k
  {
    if k < |trials| && !IsCrossed(Last(s.protocol)) {
      var st := DockStage(p, cv, s, cur, trials[k].0, trials[k].1, trials[k].2, minAcc, false, keep, reset);
      DockRunStep(p, cv, s, cur, trials, k, minAcc, false, keep, reset, st.0, st.1);
      DockStageAscending(p, cv, s, cur, trials[k].0, trials[k].1, trials[k].2, minAcc, keep, reset);
      if st.1.Ok? {
        DockRunAscending(p, cv, st.0, st.1.value, trials, k + 1, minAcc, keep, reset);
      }
    }
  }

  /** A process's lists, updated in place as the staging loop runs. */
  class ProcessState {
    var protocol: seq<State>
    var replicas: seq<Conf>
    var samples: seq<seq<seq<Conf>>>
    var es: seq<seq<Energies>>
    var cycle: nat

    function Snapshot(): Stage
      reads this
    {
      Stage(protocol, replicas, samples, es, cycle)
    }

    /** A process starting from one state and its first simulation. */
    constructor (lambdaO: State, confs: seq<Conf>, e: Energies, pick: nat)
      requires pick < |confs|
      ensures Snapshot() == Stage([lambdaO], [confs[pick]], [[confs]], [[e]], 0)
    {
      protocol := [lambdaO];
      replicas := [confs[pick]];
      samples := [[confs]];
      es := [[e]];
      cycle := 0;
    }

    /** The lists reversed in place, and the crossing flag moved. */
    method ReverseLists()
      requires |protocol| > 0
      modifies this
      ensures Snapshot() == old(Snapshot()).(protocol := Flip(old(protocol)), replicas := Reverse(old(replicas)),
                                             samples := Reverse(old(samples)), es := Reverse(old(es)))
    {
      replicas := Reverse(replicas);
      samples := Reverse(samples);
      es := Reverse(es);
      protocol := Reverse(protocol);
      protocol := protocol[0 := protocol[0].(crossed := Some(false))];
      protocol := protocol[|protocol| - 1 := protocol[|protocol| - 1].(crossed := Some(true))];
    }

    /** The samples of every state but the two ends emptied in place. */
    method ClearSamples()
      requires |protocol| == |samples|
      modifies this
      ensures Snapshot() == old(Snapshot()).(samples := ClearIntermediate(old(samples)))
    {
      if |protocol| > 1 {
        for k := 1 to |protocol| - 1
          invariant protocol == old(protocol) && replicas == old(replicas) && es == old(es) && cycle == old(cycle)
          invariant |samples| == |old(samples)|
          invariant forall i :: 0 <= i < |samples| ==> samples[i] == if 0 < i < k then [] else old(samples)[i]
        {
          samples := samples[k := []];
        }
      }
      assert samples == ClearIntermediate(old(samples));
    }

    /** The closing steps after the last stage, in place. */
    method FinishCrossing(reverse: bool, keep: bool)
      requires Parallel(Snapshot())
      modifies this
      ensures Snapshot() == Finish(old(Snapshot()), reverse, keep)
    {
      if |protocol| > 0 && IsCrossed(protocol[|protocol| - 1]) {
        if reverse {
          ReverseLists();
        }
        if !keep {
          ClearSamples();
        }
        cycle := cycle + 1;
      }
    }

    /** One iteration of the cooling loop, in place. */
    method CoolIteration(p: Params, cv: Curves, cur: Cursor, tL: real, sim: Sim,
                         meanAcc: real, minAcc: real, warm: bool, keep: bool)
      returns (r: Result<Cursor, StageError>)
      requires Parallel(Snapshot()) && |protocol| > 0 && sim.pick < |sim.confs|
      modifies this
      ensures (Snapshot(), r) == CoolStage(p, cv, old(Snapshot()), cur, tL, sim, meanAcc, minAcc, warm, keep)
    {
      var next := NextCoolState(p, cv, cur.lambdaO, tL, Some(cur.rejectStage), warm);
      if next.Err? {
        return Err(Step(next.error));
      }
      var lambdaN := Initialised(next.value, sim);
      protocol := protocol + [lambdaN];
      var o := Decide(meanAcc, minAcc, |protocol|, IsCrossed(lambdaN), 0);
      r := Update(o, cur, lambdaN, sim);
      FinishCrossing(warm, keep);
    }

    /** The rule applied in place once the new state has been appended. */
    method Update(o: Outcome, cur: Cursor, lambdaN: State, sim: Sim) returns (r: Result<Cursor, StageError>)
      requires |protocol| > 1 && |protocol| == |replicas| + 1 == |samples| + 1 == |es| + 1
      requires Last(protocol) == lambdaN && sim.pick < |sim.confs|
      modifies this
      ensures Snapshot() == Record(old(Snapshot()).(protocol := old(protocol)[..|old(protocol)| - 1]), o, lambdaN, sim)
      ensures r == Ok(NextCursor(cur, o, lambdaN, sim))
    {
      match o
      case RejectNew =>
        protocol := protocol[..|protocol| - 1];
        r := Ok(cur.(rejectStage := cur.rejectStage + 1));
      case RejectPrevious =>
        replicas := replicas[|replicas| - 1 := sim.confs[sim.pick]];
        protocol := protocol[..|protocol| - 1];
        protocol := protocol[|protocol| - 1 := lambdaN];
        r := Ok(Cursor(lambdaN, sim.confs, sim.energies, cur.rejectStage - 1));
      case Accept =>
        replicas := replicas + [sim.confs[sim.pick]];
        samples := samples + [[sim.confs]];
        es := es + [[sim.energies]];
        protocol := protocol[|protocol| - 1 := lambdaN];
        r := Ok(Cursor(lambdaN, sim.confs, sim.energies, 0));
    }

    /** One iteration of the docking loop, in place. */
    method DockIteration(p: Params, cv: Curves, cur: Cursor, tL: real, sim: Sim,
                         meanAcc: real, minAcc: real, undock: bool, keep: bool, reset: (Conf, Energies))
      returns (r: Result<Cursor, StageError>)
      requires |protocol| > 0 && (Parallel(Snapshot()) || RandomStart(p, Snapshot(), undock))
      requires p.dockThermSpeed > 0.0 && tL >= 0.0 && sim.pick < |sim.confs|
      modifies this
      ensures (Snapshot(), r) == DockStage(p, cv, old(Snapshot()), cur, tL, sim, meanAcc, minAcc, undock, keep, reset)
    {
      var next := NextDockState(p, cv, cur.lambdaO, tL, Some(cur.rejectStage), undock);
      if next.Err? {
        return Err(Step(next.error));
      }
      var lambdaN := next.value;
      var start := RandomStart(p, Snapshot(), undock);
      protocol := protocol + [lambdaN];
      if |protocol| > MaxStates {
        Clear();
        return Err(TooManyStates);
      }
      if cur.rejectStage > MaxRejections || cur.rejectStage < -(MaxRejections as int) {
        Clear();
        return Err(TooManyRejections);
      }
      var cur0 := cur;
      if start {
        replicas := [reset.0];
        samples := [[[reset.0]]];
        es := [[reset.1]];
        cur0 := cur.(confs := [], e := map[]);
      }
      ghost var ps := protocol[..|protocol| - 1];
      lambdaN := Initialised(lambdaN, sim);
      protocol := protocol[|protocol| - 1 := lambdaN];
      assert protocol == ps + [lambdaN];
      if sim.spread < SpreadFloor {
        return Err(UnableToInitialize);
      }
      var o := Decide(meanAcc, minAcc, |protocol|, IsCrossed(lambdaN), if undock then 0 else 1);
      r := Update(o, cur0, lambdaN, sim);
      FinishCrossing(undock, keep);
    }

    /** `_clear`: the process's lists emptied and its cycle count reset. */
    method Clear()
      modifies this
      ensures Snapshot() == Cleared()
    {
      protocol := [];
      replicas := [];
      samples := [];
      es := [];
      cycle := 0;
    }

    /** Trial `k` of the cooling loop, in place: the run from before it
        ends where it failed or goes on from what it leaves. */
    method CoolTrial(p: Params, cv: Curves, cur: Cursor, trials: seq<Trial>, k: nat,
                     minAcc: real, warm: bool, keep: bool)
      returns (r: Result<Cursor, StageError>)
      requires Valid(Snapshot()) && !IsCrossed(Last(protocol)) && cur.lambdaO == Last(protocol) && k < |trials|
      requires forall i :: 0 <= i < |trials| ==> trials[i].1.pick < |trials[i].1.confs|
      modifies this
      ensures Valid(Snapshot())
      ensures r.Ok? && !IsCrossed(Last(protocol)) ==> r.value.lambdaO == Last(protocol)
      ensures r.Err? ==> CoolRun(p, cv, old(Snapshot()), cur, trials, k, minAcc, warm, keep) == (Snapshot(), r, k + 1)
      ensures r.Ok? ==> CoolRun(p, cv, old(Snapshot()), cur, trials, k, minAcc, warm, keep) ==
                        CoolRun(p, cv, Snapshot(), r.value, trials, k + 1, minAcc, warm, keep)
    {
      ghost var before := Snapshot();
      r := CoolIteration(p, cv, cur, trials[k].0, trials[k].1, trials[k].2, minAcc, warm, keep);
      CoolRunStep(p, cv, before, cur, trials, k, minAcc, warm, keep, Snapshot(), r);
    }

    /** The cooling loop, run until the last state has crossed or the
        supplied simulation outcomes run out. `trials[i]` is the metric,
        the simulation and the estimated acceptance of iteration i. */
    method RunCool(p: Params, cv: Curves, cur: Cursor, trials: seq<Trial>,
                   minAcc: real, warm: bool, keep: bool)
      returns (r: Result<Cursor, StageError>, used: nat)
      requires Valid(Snapshot()) && cur.lambdaO == Last(protocol)
      requires forall i :: 0 <= i < |trials| ==> trials[i].1.pick < |trials[i].1.confs|
      modifies this
      ensures (Snapshot(), r, used) == CoolRun(p, cv, old(Snapshot()), cur, trials, 0, minAcc, warm, keep)
      ensures Valid(Snapshot()) && used <= |trials|
      ensures r.Ok? && used < |trials| ==> IsCrossed(Last(protocol))
      ensures r.Ok? && !IsCrossed(Last(protocol)) ==> r.value.lambdaO == Last(protocol)
    {
      ghost var run := CoolRun(p, cv, Snapshot(), cur, trials, 0, minAcc, warm, keep);
      r := Ok(cur);
      used := 0;
      while used < |trials| && !IsCrossed(protocol[|protocol| - 1])
        invariant Valid(Snapshot()) && used <= |trials| && r.Ok?
        invariant !IsCrossed(Last(protocol)) ==> r.value.lambdaO == Last(protocol)
        invariant CoolRun(p, cv, Snapshot(), r.value, trials, used, minAcc, warm, keep) == run
        decreases |trials| - used
      {
        var step := CoolTrial(p, cv, r.value, trials, used, minAcc, warm, keep);
        used := used + 1;
        if step.Err? {
          return step, used;
        }
        r := step;
      }
      CoolRunEnd(p, cv, Snapshot(), r.value, trials, used, minAcc, warm, keep);
    }

    /** Trial `k` of the docking loop, in place, as `CoolTrial`. */
    method DockTrial(p: Params, cv: Curves, cur: Cursor, trials: seq<Trial>, k: nat,
                     minAcc: real, undock: bool, keep: bool, reset: (Conf, Energies))
      returns (r: Result<Cursor, StageError>)
      requires |protocol| > 0 && OnlyLastCrossed(protocol) && !IsCrossed(Last(protocol))
      requires Parallel(Snapshot()) || RandomStart(p, Snapshot(), undock)
      requires cur.lambdaO == Last(protocol) && p.dockThermSpeed > 0.0 && k < |trials|
      requires forall i :: 0 <= i < |trials| ==> trials[i].0 >= 0.0 && trials[i].1.pick < |trials[i].1.confs|
      modifies this
      ensures r.Ok? ==> Valid(Snapshot()) && (!IsCrossed(Last(protocol)) ==> r.value.lambdaO == Last(protocol))
      ensures r.Err? ==> DockRun(p, cv, old(Snapshot()), cur, trials, k, minAcc, undock, keep, reset) == (Snapshot(), r, k + 1)
      ensures r.Ok? ==> DockRun(p, cv, old(Snapshot()), cur, trials, k, minAcc, undock, keep, reset) ==
                        DockRun(p, cv, Snapshot(), r.value, trials, k + 1, minAcc, undock, keep, reset)
    {
      ghost var before := Snapshot();
      r := DockIteration(p, cv, cur, trials[k].0, trials[k].1, trials[k].2, minAcc, undock, keep, reset);
      DockRunStep(p, cv, before, cur, trials, k, minAcc, undock, keep, reset, Snapshot(), r);
    }

    /** The docking loop, run until the last state has crossed, a guard
        aborts, or the supplied simulation outcomes run out. */
    method RunDock(p: Params, cv: Curves, cur: Cursor, trials: seq<Trial>,
                   minAcc: real, undock: bool, keep: bool, reset: (Conf, Energies))
      returns (r: Result<Cursor, StageError>, used: nat)
      requires |protocol| > 0 && OnlyLastCrossed(protocol) && !IsCrossed(Last(protocol))
      requires Parallel(Snapshot()) || RandomStart(p, Snapshot(), undock)
      requires cur.lambdaO == Last(protocol) && p.dockThermSpeed > 0.0
      requires forall i :: 0 <= i < |trials| ==> trials[i].0 >= 0.0 && trials[i].1.pick < |trials[i].1.confs|
      modifies this
      ensures (Snapshot(), r, used) == DockRun(p, cv, old(Snapshot()), cur, trials, 0, minAcc, undock, keep, reset)
      ensures used <= |trials|
      ensures r.Ok? ==> Valid(Snapshot())
      ensures r.Ok? && used < |trials| ==> IsCrossed(Last(protocol))
    {
      ghost var run := DockRun(p, cv, Snapshot(), cur, trials, 0, minAcc, undock, keep, reset);
      r := Ok(cur);
      used := 0;
      while used < |trials| && !IsCrossed(protocol[|protocol| - 1])
        invariant used <= |trials| && r.Ok?
        invariant |protocol| > 0 && OnlyLastCrossed(protocol)
        invariant used == 0 ==> Parallel(Snapshot()) || RandomStart(p, Snapshot(), undock)
        invariant used > 0 ==> Valid(Snapshot())
        invariant !IsCrossed(Last(protocol)) ==> r.value.lambdaO == Last(protocol)
        invariant DockRun(p, cv, Snapshot(), r.value, trials, used, minAcc, undock, keep, reset) == run
        decreases |trials| - used
      {
        var step := DockTrial(p, cv, r.value, trials, used, minAcc, undock, keep, reset);
        used := used + 1;
        if step.Err? {
          return step, used;
        }
        r := step;
      }
      if !Parallel(Snapshot()) {
        r := Err(UnableToInitialize);
      }
    }
  }
}
