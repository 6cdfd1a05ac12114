# AlGDock binding-PMF bookkeeping, modelled in Dafny

AlGDock estimates the binding potential of mean force of a ligand in a
receptor. The `BPMF` class in `AlGDock/BindingPMF.py` builds two
thermodynamic protocols. In *cooling* it anneals the ligand from a high
temperature down to the simulation temperature. In *docking* it moves along
a progress variable `a` from 0 to 1. Along the way a grid-based
interaction with the receptor is switched on and the temperature is lowered.
The class then refines both protocols by replica exchange, and it keeps
checkpoints on disk.

This project models the deterministic bookkeeping around those
simulations:

- **Lambda states.** A state is a dictionary of couplings, temperature,
  progress and flags. For a progress value, `_lambda` builds the state and
  `term_map` names the energy terms.
- **Adaptive steps.** `_next_cool_state` and `_next_dock_state` pick the
  next temperature or next progress value.
- **Reduced potentials.** `_u_kln` computes the reduced-potential tensor
  over the three shapes of its input.
- **Staging loops.** `initial_cool` and `initial_dock` add states, reject
  them or replace the previous one. They finish by reversing and trimming
  the lists.
- **Replica exchange.** The model covers the pair schedule, the inversion of
  state indices, the regrouping of snapshots by state, the move tallies and
  the HMC step retuning.
- **State insertion.** `_insert_dock_state` inserts a state, and
  `_insert_dock_state_between_low_acc` drives it.
- **Small helpers.** These are the cluster relabelling, the `nconfs`
  shrink/extend, the phase list completion and the program list. They also
  cover the core count, the number of random translations, the
  `unravel_index` decoding and the expansion of the conditions list.
- **Checkpoints.** `_set_lock`, `_clear_lock`, `_save`, `_load`,
  `_load_pkl_gz` and `_clear` work on an abstract file map. A save keeps a
  `.bak` copy of each file it overwrites.

Each source module is one Dafny module:

| module | what it models |
|---|---|
| `Wrappers` | `Option`, `Result`, min and max |
| `Terms` | energy terms, `term_map`, `_energyTerms` accumulation |
| `Lambdas` | the state record and `_lambda` |
| `Stepper` | the adaptive protocol step |
| `Reduced` | `_u_kln` |
| `Staging` | the staging loops, as functions and as the `ProcessState` class |
| `Adapt` | time-step and steps-per-trial adaptation |
| `Exchange` | one replica-exchange cycle |
| `Insertion` | state insertion and resampling |
| `Helpers` | small list helpers |
| `Checkpoint` | locks, save and load |

`ProcessState` is a class whose fields the methods update in place. These
fields are the protocol, replicas, samples, energies and cycle count of one
process (`cool` or `dock`). The rest is datatypes and functions.

Simulation, energy evaluation, random draws and the estimators the source
calls are passed in as parameters ("oracles"):

- the result of each `_initial_sim_state` trial;
- the dock and cool `_tL_tensor` metric;
- the replica-exchange sweep outcomes;
- acceptance estimates;
- uniform draws.

The model proves what the bookkeeping does with whatever those oracles
return.

One quirk in the time-step averaging is captured as a lemma, not as a
finding. At `AlGDock/BindingPMF.py:2457-2459` the lower clamp bound is
`delta_t/5` and the upper bound is `delta_t*0.1`. The lower bound exceeds
the upper one, so the average always collapses to `delta_t*0.1 fs`
(`Adapt.AveragingIgnoresMean`).

## Model

| member | source | states |
|---|---|---|
| `Terms.TermMap` | AlGDock/BindingPMF.py:52-71 | maps MMTK term names onto the model's energy terms; a mapped name starts with `pose` exactly when its term is a pose restraint, which is what the per-spring-constant division at line 4051 relies on |
| `Terms.AccumulateConfiguration` | AlGDock/BindingPMF.py:4044-4060 | one configuration's readings: succeeds iff every reading is known, changes only entry `c` of every term, and adds the contribution (electrostatic skipped, pose terms divided by the full spring constant) |
| `Terms.AddReading` | AlGDock/BindingPMF.py:4046-4060 | one reading succeeds iff it is the skipped total or a known term the record has (with a nonzero spring constant for a restraint); it changes only entry `c` and adds exactly that reading's contribution there, and a failure names the reading's key |
| `Terms.EnergyKeys` | AlGDock/BindingPMF.py:4033-4042 | the record has `MM`; cooling adds `OBC` iff the fully coupled state has it; docking adds every scalable term, `site` iff the site field is loaded, `k_angular_int` iff the internal restraint is, and both external restraint terms iff the external restraint is |
| `Terms.ZeroRecord` | AlGDock/BindingPMF.py:4033-4042 | one array of zeros per term, one entry per configuration |
| `Terms.EnergyTerms` | AlGDock/BindingPMF.py:4029-4061 | builds the zeroed record for exactly the terms `EnergyKeys` gives, succeeds iff every reading of every configuration is accepted, and entry `c` of each term is that configuration's contribution |
| `Terms.PoseReadingNeedsRestraint` | AlGDock/BindingPMF.py:4038-4051 | an accepted pose reading implies docking, its restraint field loaded and a nonzero spring constant in the fully coupled state |
| `Terms.RestraintKey` | AlGDock/BindingPMF.py:4038-4042 | a restraint term is among the record's keys only when docking with the matching (internal or external) restraint field loaded |
| `Terms.SkippedContributesNothing` | AlGDock/BindingPMF.py:4047-4048 | the double-counted `electrostatic` readings never change any term |
| `Terms.ContributionAppend` | AlGDock/BindingPMF.py:4046-4060 | the contribution of a reading list is additive over concatenation, so the order of accumulation does not matter |
| `Lambdas.GridScale` | AlGDock/BindingPMF.py:3688-3690 | the grid scaling is either exactly 0 or at least 1e-10, and when nonzero it is the raw curve value |
| `Lambdas.Parameterize` | AlGDock/BindingPMF.py:3672-3735 | every new state has `MM` on, a progress value equal to `a`, a temperature, and `crossed` taken from the argument or inherited |
| `Lambdas.UnsetKeysInherited` | AlGDock/BindingPMF.py:3673-3681 | keys `_lambda` does not write (time step, steps per trial, untouched couplings, site) are copied from the previous state; the written keys are exactly the process's own |
| `Lambdas.StepsPerTrialDefault` | AlGDock/BindingPMF.py:3673-3681 | `steps_per_trial` is always present: kept from the given state, else the last protocol state, else set to `steps_per_sweep` on an empty state |
| `Lambdas.RampShape` | AlGDock/BindingPMF.py:3720 | the linear temperature ramp runs from `T_HIGH` at 0 to `T_SIMMIN` at 1, stays between them and is non-increasing |
| `Lambdas.CoolCouplings` | AlGDock/BindingPMF.py:3723-3731 | a cooling state's temperature is the ramp at `a`; OBC is 1 under full solvation and `a` otherwise |
| `Lambdas.BpmfDockCouplings` | AlGDock/BindingPMF.py:3709-3722 | without a pose, soft-core terms follow `1-4(a-1/2)^2`, grid terms follow the grid scaling, `site` is written when given, and the temperature follows the chosen (linear or quadratic) scaling |
| `Lambdas.PoseDockCouplings` | AlGDock/BindingPMF.py:3697-3707 | with a pose, external restraints sit at `k_pose`, the internal one at `k_pose*tanh(16a^2)`, grid terms follow the grid scaling and the temperature follows the tanh ramp |
| `Lambdas.SoftScaleShape` | AlGDock/BindingPMF.py:3710 | the soft-core scaling lies in [0, 1] on [0, 1], vanishes at both ends, peaks at 1/2 and is symmetric about 1/2 |
| `Stepper.Pow` | AlGDock/BindingPMF.py:3526 | `1.25**pow` (and `0.8**pow`) for any integer exponent is positive |
| `Stepper.PowBounds` | AlGDock/BindingPMF.py:3583-3595 | `0.8**pow` is below 1 for a positive exponent, so a rejected stage shortens the remaining step |
| `Stepper.NextCoolState` | AlGDock/BindingPMF.py:3522-3552 | the adaptive cool step succeeds iff `crossed` and `T` are present, the scaled metric exceeds 1e-7 and the temperature range is nondegenerate; otherwise it reports the missing key or "no variance" |
| `Stepper.CoolProgressRoundTrip` | AlGDock/BindingPMF.py:3551-3552 | converting the new temperature to progress and back through `_lambda` gives the same temperature |
| `Stepper.CoolStepShape` | AlGDock/BindingPMF.py:3528-3538 | warming moves up by `dL` capped at `T_HIGH`, cooling moves down capped at `T_SIMMIN`; `crossed` is set exactly when the cap applies |
| `Stepper.NextCoolStateTemperature` | AlGDock/BindingPMF.py:3525-3552 | the successful new state carries the capped temperature, the updated `crossed` flag and the matching progress value |
| `Stepper.DockStepSize` | AlGDock/BindingPMF.py:3570-3574 | the progress increment is positive and at most 0.05, and equals `min(speed/tL, 0.05)` with no rejections |
| `Stepper.DockStepBounds` | AlGDock/BindingPMF.py:3575-3598 | the new progress stays in [0, 1] and moves strictly in the chosen direction unless already at the end |
| `Stepper.DockStepCrossing` | AlGDock/BindingPMF.py:3581-3598 | `crossed` becomes true only at the end point and only with no pending rejection; overshooting the end with no rejection always crosses |
| `Stepper.DockStepPoseStop` | AlGDock/BindingPMF.py:3577-3580 | with a pose, a step that would jump over 1/2 stops exactly at 1/2 without crossing |
| `Stepper.NextDockState` | AlGDock/BindingPMF.py:3565-3599 | the adaptive dock step succeeds iff `crossed` and `a` are present, and its state carries the stepped progress and flag |
| `Reduced.FirstKey` | AlGDock/BindingPMF.py:3430-3432 | the probe key is the first key, in the first state's own key order, that is a probe key the state has; there is none exactly when no listed key is one (where the source raises `IndexError`) |
| `Reduced.FirstKeyNone` | AlGDock/BindingPMF.py:3430-3432 | over a listing of all the state's keys, no probe key is found exactly when the state has none of the probe keys |
| `Reduced.MaxCount` | AlGDock/BindingPMF.py:3459 | `N_k.max()` bounds every sample count and is attained |
| `Reduced.StoreRow` | AlGDock/BindingPMF.py:3476-3478 | writes one row of the reduced-potential tensor and leaves every other entry and the padding unchanged |
| `Reduced.FillTensor` | AlGDock/BindingPMF.py:3459-3478 | builds a K x L x max(N_k) tensor whose entries are the reduced energies within each row's count and zero beyond it |
| `Reduced.SampledPotentials` | AlGDock/BindingPMF.py:3456-3513 | list and list-of-cycles input gives the K x L x max(N_k) tensor of expected entries with `N_k` counted on the probe key, or the raveled single row when K = L = 1 |
| `Reduced.StateRows` | AlGDock/BindingPMF.py:3434-3455 | per-state input gives one row per evaluated state, each holding every sample's reduced energy in that state |
| `Reduced.ReducedPotentials` | AlGDock/BindingPMF.py:3410-3513 | `_u_kln` succeeds iff the inputs are well formed; per-state dictionaries yield one sample per state; lists and lists of cycles yield the padded tensor with `N_k`, or the raveled row when K = L = 1 |
| `Reduced.ConcatLength` | AlGDock/BindingPMF.py:3483-3485 | concatenating a term over cycles gives as many values as the probe key counts |
| `Reduced.MergedLengths` | AlGDock/BindingPMF.py:3490-3504 | every merged term has the cycle-concatenated sample count |
| `Reduced.EntryBeta` | AlGDock/BindingPMF.py:3452-3455 | with `noBeta` the entry is the raw energy; otherwise it is the energy divided by `R*T` of the evaluated state |
| `Reduced.CoupledSumLinear` | AlGDock/BindingPMF.py:3446-3451 | the coupled energy is linear in the state's couplings |
| `Reduced.CoupledSumSingle` | AlGDock/BindingPMF.py:3446-3451 | a state with a single coupling contributes that coupling times its term, and nothing if the term is not scanned |
| `Reduced.EnergySingleCoupling` | AlGDock/BindingPMF.py:3428-3451 | the energy of a single-coupling state is the `MM` and `site` base (decided by the first state) plus the coupled term |
| `Staging.Decide` | AlGDock/BindingPMF.py:886-905 | reject the new state iff the protocol is long enough and acceptance is below the minimum; reject the previous one iff it is longer still, acceptance exceeds 0.99 and the state has not crossed (the docking loop at lines 1446-1467 raises both length bounds by one when docking, not undocking) |
| `Staging.Reverse` | AlGDock/BindingPMF.py:920-923 | list reversal maps position `i` to `n-1-i` |
| `Staging.RecordValid` | AlGDock/BindingPMF.py:886-913 | recording an outcome keeps the parallel lists aligned and only the last state crossed; the protocol grows by one exactly on acceptance |
| `Staging.StepValid` | AlGDock/BindingPMF.py:886-931 | recording an outcome and finishing keeps the lists aligned, the next current state is the old one or the new one and is the last state while not crossed, and unless the lists were turned around the protocol is kept, extended by the new state or has its last state replaced |
| `Staging.FinishShape` | AlGDock/BindingPMF.py:915-931 | when the last state has crossed: the cycle count increases, warming reverses protocol, replicas, samples and energies with the crossed flag moved to the end, and intermediate samples are dropped unless kept; otherwise nothing changes |
| `Staging.CoolStageValid` | AlGDock/BindingPMF.py:836-931 | one cooling stage keeps the lists aligned with only the last state crossed, returns the new current state, and changes nothing on error; the new state carries the `delta_t` and `steps_per_trial` its `_initial_sim_state` settled on (lines 864-865), and the protocol is kept, extended by it, or has its last state replaced by it |
| `Staging.DockStageValid` | AlGDock/BindingPMF.py:1353-1502 | one docking stage keeps the lists aligned; more than 1000 states or more than 20 consecutive rejections clear the process; the new state carries the `delta_t` and `steps_per_trial` its `_initial_sim_state` settled on (lines 1416-1417), and the protocol is kept, extended by it, or has its last state replaced by it |
| `Staging.DockStageAscending` | AlGDock/BindingPMF.py:1354-1483 | docking (not undocking) keeps the protocol's progress values non-decreasing |
| `Staging.RecordOrder` | AlGDock/BindingPMF.py:886-913 | recording a state that steps the protocol's way keeps it non-decreasing when docking and non-increasing when undocking |
| `Staging.FlipAscending` | AlGDock/BindingPMF.py:920-925 | turning a descending protocol around makes it ascending |
| `Staging.FinishUndockOrder` | AlGDock/BindingPMF.py:915-925 | finishing an undocking protocol leaves it non-increasing, or ascending once the last state has crossed and the lists are turned around |
| `Staging.UndockStageOrder` | AlGDock/BindingPMF.py:1354-1483 | undocking keeps progress non-increasing until the last state crosses, and the turn-around at the crossing leaves it ascending |
| `Staging.CoolRunStep` | AlGDock/BindingPMF.py:836-931 | the cooling loop over the trials is one `CoolStage` followed by the loop over the remaining trials |
| `Staging.CoolRunEnd` | AlGDock/BindingPMF.py:836-931 | with no trial left or once the last state has crossed, the cooling loop stops with the lists and current state as they are |
| `Staging.DockRunStep` | AlGDock/BindingPMF.py:1353-1502 | the docking loop over the trials is one `DockStage` followed by the loop over the remaining trials |
| `Staging.DockRunAscending` | AlGDock/BindingPMF.py:1353-1502 | a docking loop that succeeds leaves the progress values ascending |
| `Staging.ProcessState.constructor` | AlGDock/BindingPMF.py:813-818 | the first state starts with one replica, one cycle of samples and one cycle of energies |
| `Staging.ProcessState.ReverseLists` | AlGDock/BindingPMF.py:920-925 | reverses every list in place and moves the crossed flag to the new last state |
| `Staging.ProcessState.ClearSamples` | AlGDock/BindingPMF.py:927-929 | empties the samples of every state except the first and the last |
| `Staging.ProcessState.FinishCrossing` | AlGDock/BindingPMF.py:915-931 | the in-place finish equals `Finish` of the old state |
| `Staging.ProcessState.CoolIteration` | AlGDock/BindingPMF.py:837-931 | one in-place cooling iteration equals `CoolStage` on the old state, including the new state's `delta_t` and `steps_per_trial` from `_initial_sim_state` |
| `Staging.ProcessState.Update` | AlGDock/BindingPMF.py:886-913 | pops or replaces or appends as the outcome says, and returns the next current state |
| `Staging.ProcessState.DockIteration` | AlGDock/BindingPMF.py:1354-1502 | one in-place docking iteration equals `DockStage` on the old state, including the new state's `delta_t` and `steps_per_trial` from `_initial_sim_state` |
| `Staging.ProcessState.Clear` | AlGDock/BindingPMF.py:4812-4820 | `_clear` empties protocol and lists and resets the cycle |
| `Staging.ProcessState.CoolTrial` | AlGDock/BindingPMF.py:837-931 | one in-place cooling iteration leaves the lists from which the loop over the remaining trials gives the same result as the loop from before it, and keeps them aligned |
| `Staging.ProcessState.RunCool` | AlGDock/BindingPMF.py:836-931 | the in-place cooling loop ends with the lists, outcome and trial count of `CoolRun`, the fold of `CoolStage` over the trials; the lists stay aligned and it stops early only once the last state has crossed |
| `Staging.ProcessState.DockTrial` | AlGDock/BindingPMF.py:1354-1502 | one in-place docking iteration leaves the lists from which the loop over the remaining trials gives the same result as the loop from before it |
| `Staging.ProcessState.RunDock` | AlGDock/BindingPMF.py:1353-1502 | the in-place docking loop ends with the lists, outcome and trial count of `DockRun`, the fold of `DockStage` over the trials; it stops early only once crossed |
| `Adapt.HalfTrunc` | AlGDock/BindingPMF.py:2808 | `int(n/2.)` truncates toward zero for both signs |
| `Adapt.Halved` | AlGDock/BindingPMF.py:2808 | `max(int(n/2.), 1)` is at least 1, strictly shrinks any count from 2 up, and is 1 below that |
| `Adapt.HmcRule` | AlGDock/BindingPMF.py:2802-2813 | high acceptance lengthens the step and doubles steps per trial up to `steps_per_sweep`; low acceptance shortens it (halving steps below 2 fs); the step never goes below 0.1 fs |
| `Adapt.Retuned` | AlGDock/BindingPMF.py:2800-2813 | retuning changes only the time step and steps per trial of a state |
| `Adapt.RuleRate` | AlGDock/BindingPMF.py:2799 | the acceptance ratio, with numpy's `x/0` (NaN or +-inf) sent to the branch numpy's comparisons select |
| `Adapt.AdaptHmc` | AlGDock/BindingPMF.py:2797-2813 | the in-place loop retunes state `k` by its own acceptance rate and changes nothing else |
| `Adapt.ConstantSum` | AlGDock/BindingPMF.py:2455 | a constant sequence sums to `n*c` and has no squared deviation |
| `Adapt.ConstantVariance` | AlGDock/BindingPMF.py:2455 | a constant list of time steps has zero spread, so the first one is taken |
| `Adapt.AveragingIgnoresMean` | AlGDock/BindingPMF.py:2455-2459 | when the steps spread, the clamp always yields `delta_t*0.1 fs`, whatever their mean |
| `Adapt.UniformStepKept` | AlGDock/BindingPMF.py:2460-2461 | identical time steps are kept as they are |
| `Adapt.AttemptStep` | AlGDock/BindingPMF.py:2463-2489 | the adjusted step is at least 0.1 fs, unchanged when the attempt stops, larger after high HMC acceptance, and smaller (or at the floor) otherwise |
| `Adapt.StepsAfterBounds` | AlGDock/BindingPMF.py:2470-2472 | steps per trial stay between 1 and `steps_per_sweep`, and are untouched for non-HMC samplers |
| `Adapt.AdjustStep` | AlGDock/BindingPMF.py:2453-2489 | one attempt's time step is the adjusted `AttemptStep`, its steps per trial are halved exactly when HMC acceptance is low below 2 fs, and the search stops exactly when the rule accepts the attempt |
| `Adapt.InitialSimState` | AlGDock/BindingPMF.py:2410-2489 | at most 12 attempts; it stops at the first attempt the rule accepts, returns that attempt's configurations, energy changes and time step, and updates only the state's time step and steps per trial |
| `Exchange.AppendResidue` | AlGDock/BindingPMF.py:2645-2649 | adds the pairs of one residue class of one stride, all distinct and in range |
| `Exchange.AppendStride` | AlGDock/BindingPMF.py:2643-2649 | adds every pair `(i, i+d)` of one stride exactly once |
| `Exchange.SwapPairs` | AlGDock/BindingPMF.py:2641-2649 | the swap list holds every in-range pair at strides 1 to 4, each once, and nothing else |
| `Exchange.CrossoverPairs` | AlGDock/BindingPMF.py:2532-2534 | the crossover pairs are `K-1` neighbouring pairs |
| `Exchange.CrossoverPairsCover` | AlGDock/BindingPMF.py:2532-2534 | the even and odd neighbour pairs together cover every neighbouring pair once |
| `Exchange.InvertStateInds` | AlGDock/BindingPMF.py:2815-2820 | every snapshot's inverted index list is a permutation inverse to the state indices on both sides |
| `Exchange.InverseIsPermutation` | AlGDock/BindingPMF.py:2818-2820 | a one-sided inverse of a permutation is a permutation and a two-sided inverse |
| `Exchange.RegroupExactlyOnce` | AlGDock/BindingPMF.py:2837-2848 | regrouping by state puts replica `i`'s snapshot under its state, and no two states read the same replica |
| `Exchange.CreditDistinct` | AlGDock/BindingPMF.py:2747-2752 | crediting through distinct state indices adds each replica's gain to its state and leaves the other states alone |
| `Exchange.CreditReplica` | AlGDock/BindingPMF.py:2747-2752 | one replica's accepted and attempted moves are added to its state's tallies |
| `Exchange.CreditSweep` | AlGDock/BindingPMF.py:2746-2753 | a sweep's move statistics are credited to the states the replicas occupy |
| `Exchange.KeptSnaps` | AlGDock/BindingPMF.py:2766-2773 | the sweeps keep `sweeps / snaps_per_cycle` snapshots (integer division, as `nsnaps` at line 2706) |
| `Exchange.KeptSnapsStep` | AlGDock/BindingPMF.py:2766 | a sweep adds a snapshot exactly when its one-based number is a multiple of `snaps_per_cycle` |
| `Exchange.Sweep` | AlGDock/BindingPMF.py:2703-2773 | one sweep advances configurations, state map, tallies and storage to their values after that sweep |
| `Exchange.SweepsStart` | AlGDock/BindingPMF.py:2703-2704 | before any sweep the state map is the identity and every tally is zero |
| `Exchange.Sweeps` | AlGDock/BindingPMF.py:2703-2773 | the sweep loop ends with the progress expected after every sweep |
| `Exchange.ExpectedAtEnd` | AlGDock/BindingPMF.py:2703-2773 | after all sweeps the storage holds the kept snapshots, the state map is the composition of the swaps, and the tallies sum every sweep's moves |
| `Exchange.EsAfter` | AlGDock/BindingPMF.py:2829-2843 | every state gains one energy cycle read from the replicas that occupied it, for every term the cycle records |
| `Exchange.StoredFits` | AlGDock/BindingPMF.py:2829-2848 | well formed storage and inverses make every regrouping read in range |
| `Exchange.SamplesAfter` | AlGDock/BindingPMF.py:2845-2852 | every retained state (all with `keep_intermediate`, else the ends and cooling's first) gains its regrouped configurations; others keep theirs |
| `Exchange.FinalReplicasByState` | AlGDock/BindingPMF.py:2854-2857 | the final replicas are the last snapshot's configurations, ordered by state: a permutation of them |
| `Exchange.PermutedMultiset` | AlGDock/BindingPMF.py:2854-2857 | reading a list through a permutation keeps its multiset |
| `Exchange.StoreCycle` | AlGDock/BindingPMF.py:2815-2868 | storing a cycle appends energies and samples per state, succeeds iff any snapshot was kept, then sets the state-ordered replicas and increments the cycle |
| `Exchange.CycleTerms` | AlGDock/BindingPMF.py:2630-2639 | cooling stores `MM` and `OBC`; docking adds every scalable term, `site` without a pose and the pose restraints with one |
| `Exchange.KeptStoreOk` | AlGDock/BindingPMF.py:2766-2773 | snapshots kept from well formed sweeps are well formed storage |
| `Exchange.SomeSnapshot` | AlGDock/BindingPMF.py:2766 | some snapshot is kept iff there are at least `snaps_per_cycle` sweeps |
| `Exchange.ReplicaExchangeCycle` | AlGDock/BindingPMF.py:2624-2869 | a full cycle runs the sweeps, retunes HMC states by their sampler acceptance, stores energies and samples by state, returns the accepted and attempted move tallies summed over every sweep (`acc`, `att`), and on success replaces the replicas by state and increments the cycle |
| `Insertion.CumSum` | AlGDock/BindingPMF.py:3118-3120 | `cumsum([0]+N)` starts at 0 and adds one count per step |
| `Insertion.CumSumMonotone` | AlGDock/BindingPMF.py:3118-3120 | cumulative counts never decrease |
| `Insertion.FirstAbove` | AlGDock/BindingPMF.py:3123 | `list(ind<cum).index(True)` finds the first bound above `ind`, or none (where Python raises) |
| `Insertion.DecodeSpec` | AlGDock/BindingPMF.py:3122-3127 | decoding a linear index succeeds iff it is below the total; the result is a valid block and offset that encode back to it |
| `Insertion.DecodeEncode` | AlGDock/BindingPMF.py:3122-3130 | encoding a valid block and offset and decoding them gives them back |
| `Insertion.StateCounts` | AlGDock/BindingPMF.py:3105 | states' sample counts with the appended zero for the new state |
| `Insertion.LinearRoundTrip` | AlGDock/BindingPMF.py:3122-3130 | a linear index maps to a real snapshot `(state, cycle, n)` iff it is below the total, and that snapshot maps back to it |
| `Insertion.SnapshotRoundTrip` | AlGDock/BindingPMF.py:3122-3130 | every real snapshot survives encode then decode |
| `Insertion.CycleCounts` | AlGDock/BindingPMF.py:3119-3120 | one count per cycle per state |
| `Insertion.CycleEnergies` | AlGDock/BindingPMF.py:3155-3157 | every term of the new cycle has one value per draw |
| `Insertion.CycleConfs` | AlGDock/BindingPMF.py:3158-3161 | the corrected configuration list holds the drawn snapshot for each draw |
| `Insertion.CycleConfsAsWritten` | AlGDock/BindingPMF.py:3158-3161 | the configuration list as written holds the drawn snapshot's whole cycle for each draw |
| `Insertion.AsWrittenKeepsWholeCycle` | AlGDock/BindingPMF.py:3158-3161 | shows an input where the list as written differs from the drawn configurations |
| `Insertion.CycleEnergiesAppend` | AlGDock/BindingPMF.py:3155-3157 | one more draw appends its values to each term |
| `Insertion.Picked` | AlGDock/BindingPMF.py:3148-3154 | a draw decodes to a real snapshot |
| `Insertion.Draw` | AlGDock/BindingPMF.py:3146-3154 | the redraw loop returns the first drawn snapshot that is real and, when the last state has samples before cycle `c`, comes from a cycle no later than `c`; or it runs out of draws |
| `Insertion.SomeSample` | AlGDock/BindingPMF.py:3146-3154 | a real snapshot means there is something to draw |
| `Insertion.AppendDraw` | AlGDock/BindingPMF.py:3155-3161 | appending a draw extends the cycle's energies and, when kept, its configurations |
| `Insertion.ResampleCycle` | AlGDock/BindingPMF.py:3143-3165 | one cycle is resampled with one admissible draw per configuration of the last state's cycle |
| `Insertion.ResampledPairsMatch` | AlGDock/BindingPMF.py:3141-3165 | each resampled configuration and each resampled energy come from the same drawn snapshot |
| `Insertion.Resample` | AlGDock/BindingPMF.py:3141-3165 | all cycles are resampled consistently, or the draws ran out |
| `Insertion.Insert` | AlGDock/BindingPMF.py:3168-3172 | `list.insert` puts the value at the index and shifts the rest by one |
| `Insertion.FirstLarger` | AlGDock/BindingPMF.py:3094 | finds the first state whose progress exceeds `a`, or none (where Python raises) |
| `Insertion.FirstLargerIs` | AlGDock/BindingPMF.py:3094 | the first larger state is unique |
| `Insertion.Neighbor` | AlGDock/BindingPMF.py:3094 | the neighbour is the previous state, or the last one when the index is 0 (Python's `-1`) |
| `Insertion.NewState` | AlGDock/BindingPMF.py:3095 | the inserted state has progress `a` and is not crossed |
| `Insertion.CopiedTerms` | AlGDock/BindingPMF.py:3133-3139 | the copied terms are `MM`, the scalable terms, and the pose restraints with a pose or `site` without one |
| `Insertion.InsertDockState` | AlGDock/BindingPMF.py:3087-3172 | fails with no larger state or a missing cycle and changes nothing; on success inserts the new state, energies resampled over the terms `CopiedTerms` picks by pose, samples, and the neighbour's replica, all at the same index; with `keep_intermediate` the samples are the drawn configurations of the corrected `CycleConfs`, not the whole cycles the code as written appends (see "## Findings") |
| `Insertion.Place` | AlGDock/BindingPMF.py:3168-3172 | the four lists receive the new state, its energies, its configurations and a copy of the neighbour's replica at the same index; nothing else changes |
| `Insertion.InsertAscending` | AlGDock/BindingPMF.py:3094-3172 | inserting before the first larger state keeps ascending progress |
| `Insertion.InsertStrictlyAscending` | AlGDock/BindingPMF.py:3094-3172 | and keeps strictly ascending progress when the previous state is below `a` |
| `Insertion.InsertedPair` | AlGDock/BindingPMF.py:3094-3172 | any two positions of the widened protocol are in increasing order |
| `Insertion.MidpointPlacement` | AlGDock/BindingPMF.py:3198-3204 | the midpoint of two neighbouring states lies strictly between them, and is inserted right after the first |
| `Insertion.InsertRecordsOk` | AlGDock/BindingPMF.py:3169 | the inserted energies keep every per-state record well formed |
| `Insertion.InsertWidens` | AlGDock/BindingPMF.py:3198-3205 | an insertion strictly inside the protocol keeps its end states |
| `Insertion.InsertMidpoint` | AlGDock/BindingPMF.py:3198-3205 | inserting at a midpoint keeps the lists aligned and the progress strictly ascending. Each list gains one entry at index `k+1`: the new state, the replica of state `k`, and the returned energies and samples. Those are resampled from the stored cycles as `ResampledOk` describes. A failure changes nothing |
| `Insertion.Walk` | AlGDock/BindingPMF.py:3190-3209 | the scan from a pair inserts a midpoint whenever the estimate is below 0.4 and asks again for the same pair, and otherwise moves on; its result is strictly ascending and no shorter |
| `Insertion.WalkLow` | AlGDock/BindingPMF.py:3194-3205 | a low estimate continues the scan from the protocol with the midpoint inserted after state `k`, at the same pair |
| `Insertion.WalkHigh` | AlGDock/BindingPMF.py:3194-3209 | an estimate of 0.4 or more moves the scan to the next pair |
| `Insertion.WalkKeepsWhenHigh` | AlGDock/BindingPMF.py:3190-3209 | with every estimate at least 0.4 the scan inserts nothing |
| `Insertion.WalkWidens` | AlGDock/BindingPMF.py:3190-3209 | the scan keeps both end states and every old state |
| `Insertion.WalkWidensLow` | AlGDock/BindingPMF.py:3198-3205 | after a low estimate, the inserted midpoint and the rest of the scan keep both end states and every old state |
| `Insertion.RefinePair` | AlGDock/BindingPMF.py:3192-3209 | the inner loop for pair `k` consumes estimates until one is at least 0.4 and leaves the scan to go on at pair `k+1`, as `Walk` says; the states that survived so far still do (`Survives`) |
| `Insertion.SurvivesInsert` | AlGDock/BindingPMF.py:3168-3172 | inserting a state at `m` with a copy of the replica before it moves every surviving state one place on from `m` and keeps its lists |
| `Insertion.InsertKeeps` | AlGDock/BindingPMF.py:3168-3171 | across one insertion, each surviving state's progress, replica, samples and energies are found at its shifted position |
| `Insertion.InsertCopies` | AlGDock/BindingPMF.py:3171-3172 | after one insertion, every state outside the survivors (the new one included) holds the replica of the state before it |
| `Insertion.SurvivesRefl` | AlGDock/BindingPMF.py:3177-3191 | before any insertion every state survives in place |
| `Insertion.RefineStep` | AlGDock/BindingPMF.py:3194-3205 | one low estimate inserts a midpoint after state `k` and the scan goes on from the widened protocol with the next estimate, as `Walk` says; the new lists are the old ones with that state, the copied replica and the resampled records inserted at `k+1`; a failure (missing cycle or no draws left) leaves every list unchanged |
| `Insertion.InsertBetweenLowAcceptance` | AlGDock/BindingPMF.py:3177-3214 | on success the protocol is exactly the one `Walk` gives for the estimates (a midpoint inserted just where the estimate is below 0.4); running out of estimates is when `Walk` has none; the lists stay aligned, the records well formed, and the result says whether anything was inserted. Every state present before keeps its progress, replica, samples and energies, in the same order (`Survives`); every state inserted carries a copy of the replica just before it |
| `Helpers.RelabelClusters` | AlGDock/BindingPMF.py:1856-1863 | cluster labels are renumbered by first appearance: equal iff equal before, new labels increase, and they have no gaps |
| `Helpers.RankedLabels` | AlGDock/BindingPMF.py:1856-1863 | the first-appearance mapping has those three properties |
| `Helpers.FittedShape` | AlGDock/BindingPMF.py:3350-3356 | `confs[-n:]` padded with the last element has length `n`, and `n = 0` keeps everything |
| `Helpers.FittedKeepsLowest` | AlGDock/BindingPMF.py:3344-3356 | after sorting by decreasing energy, the fitted list stays sorted and keeps the lowest energies |
| `Helpers.ShrinkOrExtend` | AlGDock/BindingPMF.py:3350-3359 | `nconfs` trims or pads configurations and energies alike and counts the duplicates; an empty list cannot be padded |
| `Helpers.CompletePhases` | AlGDock/BindingPMF.py:460-467 | adds `sander_Gas` when a sander or gbnsr6 phase is used and `NAMD_Gas` for `APBS_PBSA`, keeping the listed phases first |
| `Helpers.CompletePhasesIdempotent` | AlGDock/BindingPMF.py:460-467 | completing a completed phase list changes nothing |
| `Helpers.AddPhasePrograms` | AlGDock/BindingPMF.py:3740-3749 | one phase adds the programs it needs without duplicates |
| `Helpers.LoadPrograms` | AlGDock/BindingPMF.py:3739-3753 | the program list holds exactly the programs the phases need, each once |
| `Helpers.Cores` | AlGDock/BindingPMF.py:132-138 | no request gives 1, `-1` gives all cores, and otherwise the smaller of request and cores |
| `Helpers.InitialTranslations` | AlGDock/BindingPMF.py:1150-1152 | the translation count is the ceiling of the volume density clamped to [5, 10000] |
| `Helpers.GrownClosedForm` | AlGDock/BindingPMF.py:1215 | growing by 25 per round is `min(n + 25k, max)` |
| `Helpers.GrowTranslations` | AlGDock/BindingPMF.py:1175-1223 | the loop stops at the first converged round or at the maximum |
| `Helpers.UnravelRavel` | AlGDock/BindingPMF.py:1385-1386 | `unravel_index` inverts the raveled `(seed, rotation, translation)` index |
| `Helpers.RavelUnravel` | AlGDock/BindingPMF.py:1385-1386 | every index in range is the raveling of its unraveled triple |
| `Helpers.ExpandCondition` | AlGDock/BindingPMF.py:3782-3795 | rejects unknown processes and moieties, skips empty protocols, and expands `-1` to the last state and to all cycles |
| `Checkpoint.PoseTag` | AlGDock/BindingPMF.py:4754 | only docking with a pose tags file names with the pose |
| `Checkpoint.LoadPklGz` | AlGDock/BindingPMF.py:4732-4744 | a file loads iff it exists and unpickles, giving its record |
| `Checkpoint.Writes` | AlGDock/BindingPMF.py:4887-4904 | one write per key to that key's file |
| `Checkpoint.SavedEffect` | AlGDock/BindingPMF.py:4899-4909 | saving writes each file, moves any old copy to `.BAK`, and leaves other files alone |
| `Checkpoint.SaveOneEffect` | AlGDock/BindingPMF.py:4905-4909 | writing one file stores the new record, moves an existing copy to `.BAK`, and leaves every other file as it was |
| `Checkpoint.Choose` | AlGDock/BindingPMF.py:4761-4783 | stored progress and data are used when both load; else the backups, with progress only alongside data |
| `Checkpoint.Restore` | AlGDock/BindingPMF.py:4784-4809 | restores the protocol from the progress file, and the samples, energies, replicas, starting poses, seeds and Smart Darting configurations from the data file, with the random orientation only when docking (all empty without data); the cycle is 0 unless the protocol ends in a crossed state, and then it is the progress file's cycle without data, 0 with data but no samples, and the last state's number of sample cycles otherwise; fails on empty samples and on a last state without a `crossed` key |
| `Checkpoint.SaveThenLoad` | AlGDock/BindingPMF.py:4753-4910 | loading right after a save gives back what was saved |
| `Checkpoint.SaveWellTyped` | AlGDock/BindingPMF.py:4887-4909 | saving keeps every file in its expected shape |
| `Checkpoint.BackupFallback` | AlGDock/BindingPMF.py:4763-4776 | if a primary file is unreadable and both backups load, the backups are used |
| `Checkpoint.SecondSaveBacksUpFirst` | AlGDock/BindingPMF.py:4907-4908 | after two saves the backups hold the first save |
| `Checkpoint.Directory.constructor` | AlGDock/BindingPMF.py:4753 | a directory starts with the given files and no locks |
| `Checkpoint.Directory.SetLock` | AlGDock/BindingPMF.py:4912-4930 | fails iff the lock file already exists, and the lock exists afterwards |
| `Checkpoint.Directory.ClearLock` | AlGDock/BindingPMF.py:4932-4942 | removes the lock file and nothing else |
| `Checkpoint.Directory.Save` | AlGDock/BindingPMF.py:4857-4910 | the files become the saved map and the locks are unchanged |
| `Checkpoint.Directory.Load` | AlGDock/BindingPMF.py:4753-4810 | returns the restored state from the chosen files, and removes both primary files whenever it falls back to the backups |

## Left out

- MMTK itself is out of scope: the universe, force fields, samplers, the integrators and Smart Darting. Their results are oracle inputs.
- The energy evaluation inside `_energyTerms` is out of scope. The readings per configuration are inputs.
- Random numbers are out of scope. `np.random.choice` with MBAR or SIR weights, and `np.random.randint`, become supplied draws. The draw for a snapshot is `u % total`.
- `Insertion.Draw`: the `OutOfDraws` and `OutOfEstimates` errors only arise because the supplies of draws and estimates are finite. The source has no such errors.
- The weights, acceptance estimates and the bootstrap convergence criterion are not computed. `calc_mean_acc`, the `_tL_tensor` metric and the MBAR free energies are all oracle values.
- The GMC crossover moves, `attempt_swaps` and the sampler calls inside a sweep are opaque. Each sweep's outcome is an input. `Exchange.SweepOk` requires its state map to be a permutation.
- Exchange.EsAfter: the record the source stores for state 0 also holds the cycle's `acc`, `att` and `mean_energies` (`AlGDock/BindingPMF.py:2833-2836`). The model's records hold energy terms only. `Exchange.ReplicaExchangeCycle` returns `acc` and `att` beside them instead. `mean_energies` is the mean of the sampler's total energies, which the sampler oracle does not report, so it is not modelled.
- Exchange.EsAfter: the docking `rmsd` term (`AlGDock/BindingPMF.py:2767-2770`, `2827-2828`) is not stored. The RMSDs come from external code that is not part of this model.
- Insertion.InsertDockState: with `keep_intermediate`, it stores the drawn configurations (the corrected `Insertion.CycleConfs`), not the whole cycles that the code as written appends. So the insertion loop runs the corrected behaviour too. The discrepancy is recorded under "## Findings".
- Insertion.InsertBetweenLowAcceptance: after a failed insertion (`MissingCycle` or `OutOfDraws`), the contract says only that the lists stay aligned and widened and that the earlier states survive. It does not say how far along `Walk` the scan got.
- Insertion.InsertBetweenLowAcceptance: the energies and samples of each inserted state are stated only as well formed. Their resampling is stated one insertion at a time, by `Insertion.InsertMidpoint` and `Insertion.RefineStep`.
- `Exchange.ReplicaExchangeCycle` leaves out the Smart Darting refresh at the end of the cycle (`AlGDock/BindingPMF.py:2859-2866`), the lock and save calls, and the timings.
- Geometric (non-adaptive) protocols are not modelled: `Stepper`, `Staging.Decide` and `Adapt.HmcRule` follow the adaptive branches.
- `Helpers.FittedKeepsLowest` assumes the energies are already sorted. The sort itself is not modelled.
- `Helpers.ShrinkOrExtend` takes `nconfs` as a natural number. A negative `nconfs` is not modelled.
- Some things happen only as side effects:
  - printing, `tee`, log files, timings;
  - the elapsed-time save trigger;
  - `_clear_f_RL` and `_store_infinite_f_RL`;
  - directory creation;
  - the contents of the saved parameters dictionary, which `Checkpoint.Settings` leaves opaque.
- File I/O is abstract:
  - pickling and gzip are not modelled;
  - `Checkpoint.WellTyped` rules out files whose unpickled shape is wrong;
  - `Checkpoint.Directory.SetLock` and `ClearLock` model the lock file but not the log file they open and close.
- The random rotations and translations are parameters. This covers the random start of docking and the conformation arithmetic (`np.dot`, `np.add`).
- `Staging.DockStage`: the random start stores the one chosen configuration as a one-configuration cycle, where the source stores `[[repX_conf]]`.
- `Reduced.ReducedPotentials`: a zero temperature is reported as the `NoTemperature` error, where numpy gives `inf`.
- `Stepper.DockStepSize`: a zero metric gives the 0.05 cap, as numpy's `inf` does.
- RMSD and clustering are out of scope. That is `scipy.cluster.hierarchy` and the medoid computation. Only the relabelling of the assignments is modelled.
- Program discovery and module loading are outside the model (`findPaths`, `loadModules`, downloads). So are `multiprocessing` and the core count `cpu_count()`, which is a parameter.
- Physical constants are parameters: the gas constant `R` and MMTK's `fs` unit. So are the transcendental curves `exp` and `tanh`, as `Lambdas.Curves`.
- The temperature-scaling and solvation options are closed enumerations. Option strings other than those named in the source are not modelled.
- `Adapt.RuleRate` models only the three cases of numpy division by zero that the rule can distinguish. It does not model NaN propagation.

## Findings

| source | as written | input that shows it | evidently intended | confidence | as-written member | corrected member |
|---|---|---|---|---|---|---|
| AlGDock/BindingPMF.py:3158-3161 | with `keep_intermediate`, each draw appends `samples[s][c]`, the whole cycle's configuration list | one state with one cycle of two configurations, and a draw of state 0, cycle 0, configuration 1 | append the drawn configuration `samples[s][c][n]`, matching the energies appended at lines 3155-3157 | not executed | `Insertion.CycleConfsAsWritten` (with `Insertion.AsWrittenKeepsWholeCycle`) | `Insertion.CycleConfs` (with `Insertion.ResampledPairsMatch`) |
