/** The reduced-potential tensor: the energy of every sample of every
    sampled state k, re-evaluated in every thermodynamic state l and divided
    by RT_l, zero-padded to the largest sample count. */
module Reduced {
  import opened Wrappers
  import opened Terms
  import opened Lambdas

  /** The keys whose array may give the sample count. */
  const ProbeTerms: seq<Term> := [MM, KAngularExt, KSpatialExt, KAngularInt] + Scalables

  /** The state has `t` among its keys. */
  predicate HasKey(s: State, t: Term) {
    if t == MM then s.mm.Some? else if t == Site then s.site.Some? else t in s.coupling
  }

  /** The state's keys all appear in `order`, the order in which the
      state's dictionary lists them. */
  predicate KeysListed(order: seq<Term>, s: State) {
    forall t :: HasKey(s, t) ==> t in order
  }

  /** A probe key the state has. */
  predicate IsProbe(s: State, t: Term) {
    t in ProbeTerms && HasKey(s, t)
  }

  /** `[key for key in lambdas[0].keys() if key in probe_keys][0]`: the
      first key, in the state's own key order, that is one of the probe
      keys; None where Python raises. */
  function FirstKey(order: seq<Term>, s: State): (r: Option<Term>)
    ensures r.Some? ==>
              IsProbe(s, r.value) &&
              exists i :: 0 <= i < |order| && order[i] == r.value && forall j :: 0 <= j < i ==> !IsProbe(s, order[j])
    ensures r.None? <==> forall i :: 0 <= i < |order| ==> !IsProbe(s, order[i])
    decreases |order|
  {
    if order == [] then None
    else if IsProbe(s, order[0]) then Some(order[0])
    else match FirstKey(order[1..], s)
      case None => None
      case Some(t) =>
        ghost var i :| 0 <= i < |order[1..]| && order[1..][i] == t && forall j :: 0 <= j < i ==> !IsProbe(s, order[1..][j]);
        assert order[i + 1] == t;
        Some(t)
  }

  /** Over a list of the state's keys, a probe key is missing exactly when
      the state has none of the probe keys. */
  lemma FirstKeyNone(order: seq<Term>, s: State)
    requires KeysListed(order, s)
    ensures FirstKey(order, s).None? <==> forall t :: t in ProbeTerms ==> !HasKey(s, t)
  {
    forall t | IsProbe(s, t)
      ensures FirstKey(order, s).Some?
    {
      var i :| 0 <= i < |order| && order[i] == t;
      assert IsProbe(s, order[i]);
    }
  }

  /** The first state switches the unscaled terms on for every state. */
  predicate AddMM(lam0: State) { lam0.mm == Some(true) }
  predicate AddSite(lam0: State) { lam0.site == Some(true) }

  /** Value of term `t` at sample `n`, zero when absent. */
  function At(rec: Energies, t: Term, n: nat): real {
    if t in rec && n < |rec[t]| then rec[t][n] else 0.0
  }

  /** Sum over `ts` of the state's coupling times the term's value. */
  function CoupledSum(rec: Energies, lam: State, n: nat, ts: seq<Term>): real
    decreases |ts|
  {
    if ts == [] then 0.0
    else
      var t := ts[|ts| - 1];
      CoupledSum(rec, lam, n, ts[..|ts| - 1]) +
        (if t in lam.coupling then lam.coupling[t] * At(rec, t, n) else 0.0)
  }

  /** Energy of sample `n` of `rec` in state `lam`, with the unscaled
      terms switched by the first state `lam0`. */
  function Energy(rec: Energies, lam0: State, lam: State, n: nat): real {
    (if AddMM(lam0) then At(rec, MM, n) else 0.0) +
    (if AddSite(lam0) then At(rec, Site, n) else 0.0) +
    CoupledSum(rec, lam, n, Coupled)
  }

  /** Each state with a usable temperature, unless no division is asked for. */
  predicate TemperaturesOk(lambdas: seq<State>, noBeta: bool) {
    noBeta || forall l :: 0 <= l < |lambdas| ==> lambdas[l].t.Some? && lambdas[l].t.value != 0.0
  }

  /** Entry for sample `n` of `rec` evaluated in state `l`. */
  function Entry(rec: Energies, lambdas: seq<State>, l: nat, n: nat, gasR: real, noBeta: bool): real
    requires l < |lambdas| && gasR > 0.0 && TemperaturesOk(lambdas, noBeta)
  {
    var e := Energy(rec, lambdas[0], lambdas[l], n);
    if noBeta then e else e / (gasR * lambdas[l].t.value)
  }

  /** The terms that will be read from every record. */
  function Needed(lambdas: seq<State>): set<Term>
    requires |lambdas| > 0
  {
    (if AddMM(lambdas[0]) then {MM} else {}) +
    (if AddSite(lambdas[0]) then {Site} else {}) +
    (set l, t | 0 <= l < |lambdas| && t in lambdas[l].coupling && t in Coupled :: t)
  }

  predicate RecordOk(rec: Energies, need: set<Term>, probe: Term) {
    probe in rec && need <= rec.Keys
  }

  /** All arrays of a record have the same length. */
  predicate Rectangular(rec: Energies) {
    forall t, t' :: t in rec && t' in rec ==> |rec[t]| == |rec[t']|
  }

  /** The three shapes energies come in: one configuration per state; a
      record per state; a list of records over the cycles of each state. */
  datatype Samples =
    | PerState(e: Energies)
    | PerSample(recs: seq<Energies>)
    | PerCycle(cycles: seq<seq<Energies>>)

  predicate SamplesRectangular(s: Samples) {
    match s
    case PerState(e) => Rectangular(e)
    case PerSample(recs) => forall k :: 0 <= k < |recs| ==> Rectangular(recs[k])
    case PerCycle(cycles) => forall k, c :: 0 <= k < |cycles| && 0 <= c < |cycles[k]| ==> Rectangular(cycles[k][c])
  }

  datatype UklnError =
    | NoStates          // the state list is empty
    | NoProbeKey        // the first state has none of the probe keys
    | NoTemperature     // a state lacks T, or has T = 0, and division is asked for
    | NoSamples         // a list shape with no sampled state
    | MissingTerm       // a record lacks a term that is read
    | EmptyCycles       // a state with no cycles where terms must be concatenated
    | RavelOfList       // one state, one configuration: the result list cannot be flattened

  /** Why the computation fails, if it does. */
  function InputError(input: Samples, lambdas: seq<State>, order: seq<Term>, noBeta: bool): Option<UklnError> {
    if lambdas == [] then Some(NoStates)
    else if FirstKey(order, lambdas[0]).None? then Some(NoProbeKey)
    else
      var probe := FirstKey(order, lambdas[0]).value;
      var need := Needed(lambdas);
      match input
      case PerState(e) =>
        if !RecordOk(e, need, probe) then Some(MissingTerm)
        else if !TemperaturesOk(lambdas, noBeta) then Some(NoTemperature)
        else if |e[probe]| == 1 && |lambdas| == 1 then Some(RavelOfList)
        else None
      case PerSample(recs) =>
        if recs == [] then Some(NoSamples)
        else if exists k :: 0 <= k < |recs| && !RecordOk(recs[k], need, probe) then Some(MissingTerm)
        else if !TemperaturesOk(lambdas, noBeta) then Some(NoTemperature)
        else None
      case PerCycle(cycles) =>
        if cycles == [] then Some(NoSamples)
        else if exists k, c :: 0 <= k < |cycles| && 0 <= c < |cycles[k]| && !RecordOk(cycles[k][c], need, probe) then Some(MissingTerm)
        else if need != {} && exists k :: 0 <= k < |cycles| && cycles[k] == [] then Some(EmptyCycles)
        else if !TemperaturesOk(lambdas, noBeta) then Some(NoTemperature)
        else None
  }

  /** A term's arrays over the cycles of one state, concatenated. */
  function Concat(cycles: seq<Energies>, t: Term): seq<real>
    decreases |cycles|
  {
    if cycles == [] then []
    else Concat(cycles[..|cycles| - 1], t) + (if t in cycles[|cycles| - 1] then cycles[|cycles| - 1][t] else [])
  }

  /** Number of samples over the cycles of one state. */
  function CycleCount(cycles: seq<Energies>, probe: Term): nat
    decreases |cycles|
  {
    if cycles == [] then 0
    else
      var last := cycles[|cycles| - 1];
      CycleCount(cycles[..|cycles| - 1], probe) + (if probe in last then |last[probe]| else 0)
  }

  /** The record of one state with its cycles merged on `keys`. */
  function Merge(cycles: seq<Energies>, keys: set<Term>): Energies {
    map t | t in keys :: Concat(cycles, t)
  }

  /** Concatenating rectangular cycles that all hold `t` and `probe` gives
      exactly the state's total sample count. */
  lemma {:induction false} ConcatLength(cycles: seq<Energies>, t: Term, probe: Term)
    requires forall c :: 0 <= c < |cycles| ==> Rectangular(cycles[c]) && t in cycles[c] && probe in cycles[c]
    ensures |Concat(cycles, t)| == CycleCount(cycles, probe)
    decreases |cycles|
  {
    if cycles != [] {
      ConcatLength(cycles[..|cycles| - 1], t, probe);
    }
  }

  /** The records the tensor is built from, one per sampled state. */
  function Records(input: Samples, keys: set<Term>): seq<Energies>
    requires !input.PerState?
  {
    match input
    case PerSample(recs) => recs
    case PerCycle(cycles) => seq(|cycles|, k requires 0 <= k < |cycles| => Merge(cycles[k], keys))
  }

  /** Sample count N_k of every sampled state. */
  function SampleCounts(input: Samples, probe: Term): seq<nat>
    requires !input.PerState?
  {
    match input
    case PerSample(recs) => seq(|recs|, k requires 0 <= k < |recs| => if probe in recs[k] then |recs[k][probe]| else 0)
    case PerCycle(cycles) => seq(|cycles|, k requires 0 <= k < |cycles| => CycleCount(cycles[k], probe))
  }

  function MaxCount(nk: seq<nat>): (m: nat)
    ensures forall k :: 0 <= k < |nk| ==> nk[k] <= m
    ensures |nk| > 0 ==> exists k :: 0 <= k < |nk| && nk[k] == m
    decreases |nk|
  {
    if nk == [] then 0
    else
      var m := MaxCount(nk[..|nk| - 1]);
      if nk[|nk| - 1] > m then nk[|nk| - 1] else m
  }

  /** The result: a flat row when there is one state and one sampled
      state, the K x L x max(N_k) tensor with the sample counts otherwise,
      and a list over l of arrays over k for the one-configuration shape. */
  datatype Reduced =
    | Raveled(row: seq<real>)
    | Matrix(u: array3<real>, nk: seq<nat>)
    | ByState(rows: seq<seq<real>>, counts: seq<nat>)

  /** The entries of state `l` for the `count` samples of `rec`. */
  function Row(rec: Energies, lambdas: seq<State>, l: nat, count: nat, gasR: real, noBeta: bool): (row: seq<real>)
    requires l < |lambdas| && gasR > 0.0 && TemperaturesOk(lambdas, noBeta)
  {
    seq(count, n requires 0 <= n < count => Entry(rec, lambdas, l, n, gasR, noBeta))
  }

  /** Writes `row` into the first entries of `u[k, l, ..]`. */
  method StoreRow(u: array3<real>, k: nat, l: nat, row: seq<real>)
    requires k < u.Length0 && l < u.Length1 && |row| <= u.Length2
    modifies u
    ensures forall i, j, m :: 0 <= i < u.Length0 && 0 <= j < u.Length1 && 0 <= m < u.Length2 ==>
      u[i, j, m] == if i == k && j == l && m < |row| then row[m] else old(u[i, j, m])
  {
    for m := 0 to |row|
      invariant forall i, j, m' :: 0 <= i < u.Length0 && 0 <= j < u.Length1 && 0 <= m' < u.Length2 ==>
        u[i, j, m'] == if i == k && j == l && m' < m then row[m'] else old(u[i, j, m'])
    {
      u[k, l, m] := row[m];
    }
  }

  /** The tensor entry: the state's entry for a real sample, zero past N_k. */
  function Expected(recs: seq<Energies>, nk: seq<nat>, lambdas: seq<State>, gasR: real, noBeta: bool,
                    k: nat, l: nat, n: nat): real
    requires k < |recs| && k < |nk| && l < |lambdas| && gasR > 0.0 && TemperaturesOk(lambdas, noBeta)
  {
    if n < nk[k] then Entry(recs[k], lambdas, l, n, gasR, noBeta) else 0.0
  }

  /** Fills the zero-initialised K x L x max(N_k) tensor state by state. */
  method FillTensor(recs: seq<Energies>, nk: seq<nat>, lambdas: seq<State>, gasR: real, noBeta: bool)
    returns (u: array3<real>)
    requires |recs| == |nk| && |lambdas| > 0 && gasR > 0.0 && TemperaturesOk(lambdas, noBeta)
    ensures u.Length0 == |recs| && u.Length1 == |lambdas| && u.Length2 == MaxCount(nk)
    ensures forall k, l, n :: 0 <= k < u.Length0 && 0 <= l < u.Length1 && 0 <= n < u.Length2 ==>
      u[k, l, n] == Expected(recs, nk, lambdas, gasR, noBeta, k, l, n)
  {
    var K, L, M := |recs|, |lambdas|, MaxCount(nk);
    u := new real[K, L, M]((_, _, _) => 0.0);
    for k := 0 to K
      invariant forall i, j, m :: 0 <= i < K && 0 <= j < L && 0 <= m < M ==>
        u[i, j, m] == if i < k then Expected(recs, nk, lambdas, gasR, noBeta, i, j, m) else 0.0
    {
      for l := 0 to L
        invariant forall i, j, m :: 0 <= i < K && 0 <= j < L && 0 <= m < M ==>
          u[i, j, m] == if i < k || (i == k && j < l) then Expected(recs, nk, lambdas, gasR, noBeta, i, j, m) else 0.0
      {
        StoreRow(u, k, l, Row(recs[k], lambdas, l, nk[k], gasR, noBeta));
      }
    }
  }

  /** `_u_kln`. On success: per-state input gives, for every state l, the
      entries of all K states; the list shapes give the tensor with N_k the
      sample count of state k (over all its cycles), or its one row when
      there is only one state and one sampled state. */
  method ReducedPotentials(input: Samples, lambdas: seq<State>, order: seq<Term>, gasR: real, noBeta: bool)
    returns (r: Result<Reduced, UklnError>)
    requires gasR > 0.0 && SamplesRectangular(input)
    requires |lambdas| > 0 ==> KeysListed(order, lambdas[0])
    ensures r.Ok? <==> InputError(input, lambdas, order, noBeta).None?
    ensures r.Err? ==> Some(r.error) == InputError(input, lambdas, order, noBeta)
    ensures r.Ok? && input.PerState? ==>
      var probe := FirstKey(order, lambdas[0]).value;
      var K := |input.e[probe]|;
      && r.value.ByState?
      && r.value.counts == seq(K, _ => 1)
      && |r.value.rows| == |lambdas|
      && forall l :: 0 <= l < |lambdas| ==>
           |r.value.rows[l]| == K &&
           forall k :: 0 <= k < K ==> r.value.rows[l][k] == Entry(input.e, lambdas, l, k, gasR, noBeta)
    ensures r.Ok? && !input.PerState? ==>
      var probe := FirstKey(order, lambdas[0]).value;
      var recs := Records(input, Needed(lambdas) + {probe});
      var nk := SampleCounts(input, probe);
      if |recs| == 1 && |lambdas| == 1 then
        r.value == Raveled(Row(recs[0], lambdas, 0, nk[0], gasR, noBeta))
      else
        && r.value.Matrix?
        && r.value.nk == nk
        && r.value.u.Length0 == |recs| && r.value.u.Length1 == |lambdas| && r.value.u.Length2 == MaxCount(nk)
        && forall k, l, n :: 0 <= k < |recs| && 0 <= l < |lambdas| && 0 <= n < MaxCount(nk) ==>
             r.value.u[k, l, n] == Expected(recs, nk, lambdas, gasR, noBeta, k, l, n)
  {
    var err := InputError(input, lambdas, order, noBeta);
    if err.Some? {
      return Err(err.value);
    }
    var probe := FirstKey(order, lambdas[0]).value;
    if input.PerState? {
      var K := |input.e[probe]|;
      var rows := StateRows(input.e, lambdas, K, gasR, noBeta);
      return Ok(ByState(rows, seq(K, _ => 1)));
    }
    var v := SampledPotentials(input, lambdas, probe, gasR, noBeta);
    r := Ok(v);
  }

  /** The tensor of per-sample or per-cycle input, raveled when there is
      only one state and one sampled state. */
  method SampledPotentials(input: Samples, lambdas: seq<State>, probe: Term, gasR: real, noBeta: bool)
    returns (r: Reduced)
    requires !input.PerState? && |lambdas| > 0 && gasR > 0.0 && TemperaturesOk(lambdas, noBeta)
    ensures var recs := Records(input, Needed(lambdas) + {probe});
            var nk := SampleCounts(input, probe);
            if |recs| == 1 && |lambdas| == 1 then
              r == Raveled(Row(recs[0], lambdas, 0, nk[0], gasR, noBeta))
            else
              && r.Matrix?
              && r.nk == nk
              && r.u.Length0 == |recs| && r.u.Length1 == |lambdas| && r.u.Length2 == MaxCount(nk)
              && forall k, l, n :: 0 <= k < |recs| && 0 <= l < |lambdas| && 0 <= n < MaxCount(nk) ==>
                   r.u[k, l, n] == Expected(recs, nk, lambdas, gasR, noBeta, k, l, n)
  {
    var recs := Records(input, Needed(lambdas) + {probe});
    var nk := SampleCounts(input, probe);
    var u := FillTensor(recs, nk, lambdas, gasR, noBeta);
    if |recs| == 1 && |lambdas| == 1 {
      var row := seq(u.Length2, m requires 0 <= m < u.Length2 reads u => u[0, 0, m]);
      assert row == Row(recs[0], lambdas, 0, nk[0], gasR, noBeta);
      return Raveled(row);
    }
    r := Matrix(u, nk);
  }

  /** The rows of per-state input, one per state, built in turn: row `l`
      holds the reduced potential of every sample in state `l`. */
  method StateRows(e: Energies, lambdas: seq<State>, K: nat, gasR: real, noBeta: bool)
    returns (rows: seq<seq<real>>)
    requires gasR > 0.0 && TemperaturesOk(lambdas, noBeta)
    ensures |rows| == |lambdas|
    ensures forall l :: 0 <= l < |lambdas| ==>
      |rows[l]| == K && forall k :: 0 <= k < K ==> rows[l][k] == Entry(e, lambdas, l, k, gasR, noBeta)
  {
    rows := [];
    for l := 0 to |lambdas|
      invariant |rows| == l
      invariant forall j :: 0 <= j < l ==> rows[j] == Row(e, lambdas, j, K, gasR, noBeta)
    {
      rows := rows + [Row(e, lambdas, l, K, gasR, noBeta)];
    }
  }

  /** Every array of a merged record is as long as the state's total sample
      count, so the zero padding starts exactly where its samples end. */
  lemma MergedLengths(cycles: seq<Energies>, keys: set<Term>, probe: Term)
    requires forall c :: 0 <= c < |cycles| ==> Rectangular(cycles[c]) && RecordOk(cycles[c], keys, probe)
    ensures forall t :: t in Merge(cycles, keys) ==> |Merge(cycles, keys)[t]| == CycleCount(cycles, probe)
  {
    forall t | t in Merge(cycles, keys)
      ensures |Merge(cycles, keys)[t]| == CycleCount(cycles, probe)
    {
      ConcatLength(cycles, t, probe);
    }
  }

  /** Without the division the entry is the energy itself; with it, the
      entry times R T_l gives back the energy. */
  lemma EntryBeta(rec: Energies, lambdas: seq<State>, l: nat, n: nat, gasR: real)
    requires l < |lambdas| && gasR > 0.0 && TemperaturesOk(lambdas, false)
    ensures Entry(rec, lambdas, l, n, gasR, true) == Energy(rec, lambdas[0], lambdas[l], n)
    ensures Entry(rec, lambdas, l, n, gasR, false) * (gasR * lambdas[l].t.value) == Energy(rec, lambdas[0], lambdas[l], n)
  {
    assert TemperaturesOk(lambdas, true);
  }

  /** The coupled energy is linear in the couplings: a state whose
      couplings are the sums of two others' has the sum of their energies. */
  lemma {:induction false} CoupledSumLinear(rec: Energies, lam1: State, lam2: State, lam: State, n: nat, ts: seq<Term>)
    requires lam.coupling.Keys == lam1.coupling.Keys == lam2.coupling.Keys
    requires forall t :: t in lam.coupling ==> lam.coupling[t] == lam1.coupling[t] + lam2.coupling[t]
    ensures CoupledSum(rec, lam, n, ts) == CoupledSum(rec, lam1, n, ts) + CoupledSum(rec, lam2, n, ts)
    decreases |ts|
  {
    if ts != [] {
      CoupledSumLinear(rec, lam1, lam2, lam, n, ts[..|ts| - 1]);
      var t := ts[|ts| - 1];
      if t in lam.coupling {
        assert lam.coupling[t] * At(rec, t, n) ==
          lam1.coupling[t] * At(rec, t, n) + lam2.coupling[t] * At(rec, t, n);
      }
    }
  }

  /** A state with the single coupling `t := v` sees v times the term, and
      a state with no couplings sees none of the coupled terms. */
  lemma {:induction false} CoupledSumSingle(rec: Energies, lam: State, n: nat, ts: seq<Term>, t: Term)
    requires lam.coupling.Keys <= {t}
    requires forall i, j :: 0 <= i < j < |ts| ==> ts[i] != ts[j]
    ensures CoupledSum(rec, lam, n, ts) ==
      if t in ts && t in lam.coupling then lam.coupling[t] * At(rec, t, n) else 0.0
    decreases |ts|
  {
    if ts != [] {
      var ts' := ts[..|ts| - 1];
      CoupledSumSingle(rec, lam, n, ts', t);
      if ts[|ts| - 1] == t {
        assert t !in ts';
      } else {
        assert t in ts <==> t in ts';
      }
    }
  }

  /** In a state coupled to a single term, the energy is the first
      state's unscaled terms plus that coupling times the term. */
  lemma EnergySingleCoupling(rec: Energies, lam0: State, lam: State, n: nat, t: Term)
    requires lam.coupling.Keys == {t} && t in Coupled
    ensures Energy(rec, lam0, lam, n) ==
      (if AddMM(lam0) then At(rec, MM, n) else 0.0) +
      (if AddSite(lam0) then At(rec, Site, n) else 0.0) +
      lam.coupling[t] * At(rec, t, n)
  {
    assert forall i, j :: 0 <= i < j < |Coupled| ==> Coupled[i] != Coupled[j];
    CoupledSumSingle(rec, lam, n, Coupled, t);
  }
}
