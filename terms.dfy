/** The closed vocabulary of energy terms, the table that maps the raw
    force-field term names onto it, and the per-configuration accumulation
    of raw energy readings into categorised energy arrays. */
module Terms {
  import opened Wrappers

  /** The energy categories the engine sums raw force-field output into. */
  datatype Term =
    | MM | OBC | Site
    | SLJr | SELE | SLJa | LJr | LJa | ELE
    | KAngularInt | KAngularExt | KSpatialExt

  /** Energy record: one array of values (one per configuration) per term. */
  type Energies = map<Term, seq<real>>

  /** A configuration: the flattened atom coordinates. */
  type Conf = seq<real>

  /** The terms that a thermodynamic state scales by a coupling strength. */
  const Scalables: seq<Term> := [OBC, SLJr, SELE, LJr, LJa, ELE]

  /** The pose-restraint terms, scaled by a spring constant. */
  const Restraints: seq<Term> := [KAngularExt, KSpatialExt, KAngularInt]

  /** Every term whose value a state multiplies by its coupling. */
  const Coupled: seq<Term> := Scalables + Restraints

  /** Python's `str.startswith`. */
  predicate StartsWith(s: string, prefix: string) {
    |prefix| <= |s| && forall i :: 0 <= i < |prefix| ==> s[i] == prefix[i]
  }

  /** The raw term names the force field reports, and their category.
      Exactly the restraint readings have names beginning with "pose",
      which is what lets the accumulation tell them apart by name. */
  function TermMap(key: string): (r: Option<Term>)
    ensures r.Some? ==> (StartsWith(key, "pose") <==> r.value in Restraints)
  {
    var r := match key
    case "cosine dihedral angle" => Some(MM)
    case "electrostatic/pair sum" => Some(MM)
    case "harmonic bond" => Some(MM)
    case "harmonic bond angle" => Some(MM)
    case "Lennard-Jones" => Some(MM)
    case "OpenMM" => Some(MM)
    case "OBC" => Some(OBC)
    case "OBC_desolv" => Some(OBC)
    case "site" => Some(Site)
    case "sLJr" => Some(SLJr)
    case "sELE" => Some(SELE)
    case "sLJa" => Some(SLJa)
    case "LJr" => Some(LJr)
    case "LJa" => Some(LJa)
    case "ELE" => Some(ELE)
    case "pose dihedral angle" => Some(KAngularInt)
    case "pose external dihedral" => Some(KAngularExt)
    case "pose external distance" => Some(KSpatialExt)
    case "pose external angle" => Some(KAngularExt)
    case _ => None;
    assert r.Some? && r.value !in Restraints ==> key[0] != 'p';
    r
  }

  /** One raw reading: the term name and its value for one configuration. */
  type Reading = (string, real)

  /** The force field double-counts this total, so it is skipped. */
  const Skipped: string := "electrostatic"

  /** A reading can be accumulated into an energy record with terms
      `keys`, given the full-coupling state's restraint constants `full`. */
  predicate ReadingOk(rd: Reading, keys: set<Term>, full: map<Term, real>) {
    rd.0 == Skipped ||
    (TermMap(rd.0).Some? && TermMap(rd.0).value in keys &&
     (StartsWith(rd.0, "pose") ==>
        TermMap(rd.0).value in full && full[TermMap(rd.0).value] != 0.0))
  }

  /** What one reading adds to term `t`: pose readings are stored per unit
      of spring constant, everything else as read. */
  function Contribution1(rd: Reading, t: Term, full: map<Term, real>): real {
    if rd.0 == Skipped || TermMap(rd.0) != Some(t) then 0.0
    else if StartsWith(rd.0, "pose") then
      (if t in full && full[t] != 0.0 then rd.1 / full[t] else 0.0)
    else rd.1
  }

  /** Total that a configuration's readings add to term `t`. */
  function Contribution(rds: seq<Reading>, t: Term, full: map<Term, real>): real
    decreases |rds|
  {
    if rds == [] then 0.0
    else Contribution(rds[..|rds| - 1], t, full) + Contribution1(rds[|rds| - 1], t, full)
  }

  predicate AllReadingsOk(readings: seq<seq<Reading>>, keys: set<Term>, full: map<Term, real>) {
    forall c, i :: 0 <= c < |readings| && 0 <= i < |readings[c]| ==>
      ReadingOk(readings[c][i], keys, full)
  }

  datatype TermError = UnknownOrMissingTerm(key: string) | MissingCoupling(key: string)

  /** Adds one reading into entry `c` of its term's array, scaled by the
      restraint constant for a restraint term; the skipped total adds
      nothing. */
  method AddReading(e: Energies, c: nat, rd: Reading, full: map<Term, real>)
    returns (r: Result<Energies, TermError>)
    requires forall t :: t in e ==> c < |e[t]|
    ensures r.Ok? <==> ReadingOk(rd, e.Keys, full)
    ensures r.Err? ==> r.error.key == rd.0
    ensures r.Ok? ==> r.value.Keys == e.Keys
    ensures r.Ok? ==> forall t :: t in e ==> |r.value[t]| == |e[t]|
    ensures r.Ok? ==> forall t, j :: t in e && 0 <= j < |e[t]| && j != c ==> r.value[t][j] == e[t][j]
    ensures r.Ok? ==> forall t :: t in e ==> r.value[t][c] == e[t][c] + Contribution1(rd, t, full)
  {
    var (key, value) := rd;
    if key == Skipped {
      return Ok(e);
    }
    var cat := TermMap(key);
    if cat.None? || cat.value !in e {
      return Err(UnknownOrMissingTerm(key));
    }
    var t := cat.value;
    if StartsWith(key, "pose") {
      if t !in full || full[t] == 0.0 {
        return Err(MissingCoupling(key));
      }
      r := Ok(e[t := e[t][c := e[t][c] + value / full[t]]]);
    } else {
      r := Ok(e[t := e[t][c := e[t][c] + value]]);
    }
  }

  /** Accumulates one configuration's readings into entry `c` of every
      array of `e`, stopping at the first reading it cannot place. */
  method AccumulateConfiguration(e: Energies, c: nat, rds: seq<Reading>, full: map<Term, real>)
    returns (r: Result<Energies, TermError>)
    requires forall t :: t in e ==> c < |e[t]|
    ensures r.Ok? <==> forall i :: 0 <= i < |rds| ==> ReadingOk(rds[i], e.Keys, full)
    ensures r.Ok? ==> r.value.Keys == e.Keys
    ensures r.Ok? ==> forall t :: t in e ==> |r.value[t]| == |e[t]|
    ensures r.Ok? ==> forall t, j :: t in e && 0 <= j < |e[t]| && j != c ==>
      r.value[t][j] == e[t][j]
    ensures r.Ok? ==> forall t :: t in e ==>
      r.value[t][c] == e[t][c] + Contribution(rds, t, full)
  {
    var acc := e;
    assert rds[..0] == [];
    for i := 0 to |rds|
      invariant acc.Keys == e.Keys
      invariant forall i' :: 0 <= i' < i ==> ReadingOk(rds[i'], e.Keys, full)
      invariant forall t :: t in acc ==> |acc[t]| == |e[t]|
      invariant forall t, j :: t in acc && 0 <= j < |e[t]| && j != c ==> acc[t][j] == e[t][j]
      invariant forall t :: t in acc ==> acc[t][c] == e[t][c] + Contribution(rds[..i], t, full)
    {
      assert rds[..i + 1][..i] == rds[..i];
      assert forall u :: (Contribution(rds[..i + 1], u, full) ==
        Contribution(rds[..i], u, full) + Contribution1(rds[i], u, full));
      var next := AddReading(acc, c, rds[i], full);
      if next.Err? {
        return next;
      }
      acc := next.value;
    }
    assert rds[..|rds|] == rds;
    r := Ok(acc);
  }

  /** The force fields loaded besides the molecular-mechanics one: the
      binding-site field and the internal and external pose restraints. */
  datatype ForceFields = ForceFields(site: bool, internalRestraint: bool, externalRestraint: bool)

  /** The terms an energy record gets: the molecular-mechanics term, and
      when cooling the implicit solvent term if the fully coupled state has
      one; when docking the scalable terms and the term of each loaded
      site or restraint field. */
  function EnergyKeys(dock: bool, full: map<Term, real>, ff: ForceFields): (r: set<Term>)
    ensures MM in r
    ensures !dock ==> forall t :: t in r <==> t == MM || (t == OBC && OBC in full)
    ensures dock ==> forall t :: t in r <==>
      t == MM || t in Scalables || (t == Site && ff.site) || (t == KAngularInt && ff.internalRestraint) ||
      ((t == KAngularExt || t == KSpatialExt) && ff.externalRestraint)
  {
    if !dock then {MM} + (if OBC in full then {OBC} else {})
    else
      {MM} + {OBC, SLJr, SELE, LJr, LJa, ELE} + (if ff.site then {Site} else {}) +
      (if ff.internalRestraint then {KAngularInt} else {}) +
      (if ff.externalRestraint then {KAngularExt, KSpatialExt} else {})
  }

  /** An array of zeros, one per configuration, for every term. */
  function ZeroRecord(keys: set<Term>, n: nat): (r: Energies)
    ensures r.Keys == keys && forall t :: t in r ==> |r[t]| == n && forall c :: 0 <= c < n ==> r[t][c] == 0.0
  {
    map t | t in keys :: seq(n, _ => 0.0)
  }

  /** `_energyTerms`: sets up a zeroed array per term of the record (see
      `EnergyKeys`) and accumulates the raw readings of every configuration
      into it. Fails on a reading whose name is not in the table or whose
      category has no array, and on a restraint reading whose spring
      constant is absent or zero. */
  method EnergyTerms(readings: seq<seq<Reading>>, dock: bool, ff: ForceFields, full: map<Term, real>)
    returns (r: Result<Energies, TermError>)
    ensures r.Ok? <==> AllReadingsOk(readings, EnergyKeys(dock, full, ff), full)
    ensures r.Ok? ==> r.value.Keys == EnergyKeys(dock, full, ff)
    ensures r.Ok? ==> forall t :: t in r.value ==> |r.value[t]| == |readings|
    ensures r.Ok? ==> forall t, c :: t in r.value && 0 <= c < |readings| ==>
      r.value[t][c] == Contribution(readings[c], t, full)
  {
    var e0 := ZeroRecord(EnergyKeys(dock, full, ff), |readings|);
    var e := e0;
    for c := 0 to |readings|
      invariant e.Keys == e0.Keys
      invariant forall t :: t in e ==> |e[t]| == |readings|
      invariant forall c', i :: 0 <= c' < c && 0 <= i < |readings[c']| ==>
        ReadingOk(readings[c'][i], e0.Keys, full)
      invariant forall t, c' :: t in e && 0 <= c' < c ==>
        e[t][c'] == e0[t][c'] + Contribution(readings[c'], t, full)
      invariant forall t, c' :: t in e && c <= c' < |readings| ==> e[t][c'] == e0[t][c']
    {
      var step := AccumulateConfiguration(e, c, readings[c], full);
      if step.Err? {
        r := Err(step.error);
        return;
      }
      e := step.value;
    }
    r := Ok(e);
  }

  /** A restraint reading is accepted only when its restraint field is
      loaded and the fully coupled state has its spring constant. */
  lemma PoseReadingNeedsRestraint(rd: Reading, dock: bool, ff: ForceFields, full: map<Term, real>)
    requires ReadingOk(rd, EnergyKeys(dock, full, ff), full) && StartsWith(rd.0, "pose")
    ensures TermMap(rd.0).Some? && dock && TermMap(rd.0).value in full && full[TermMap(rd.0).value] != 0.0
    ensures TermMap(rd.0) == Some(KAngularInt) ==> ff.internalRestraint
    ensures TermMap(rd.0) != Some(KAngularInt) ==> ff.externalRestraint
  {
    assert rd.0 != Skipped by { assert rd.0[0] != Skipped[0]; }
    RestraintKey(TermMap(rd.0).value, dock, ff, full);
  }

  /** A restraint term is among the energy keys only for docking with the
      matching restraint field loaded. */
  lemma RestraintKey(t: Term, dock: bool, ff: ForceFields, full: map<Term, real>)
    requires t in Restraints && t in EnergyKeys(dock, full, ff)
    ensures dock && (t == KAngularInt ==> ff.internalRestraint) && (t != KAngularInt ==> ff.externalRestraint)
  {
    assert t != MM && t != OBC && t !in Scalables && t != Site;
  }

  /** The skipped total never reaches any category. */
  lemma {:induction false} SkippedContributesNothing(rds: seq<Reading>, t: Term, full: map<Term, real>)
    requires forall i :: 0 <= i < |rds| ==> rds[i].0 == Skipped
    ensures Contribution(rds, t, full) == 0.0
  {
    if rds != [] {
      SkippedContributesNothing(rds[..|rds| - 1], t, full);
    }
  }

  /** Readings concatenate: the total over two batches is the sum of totals. */
  lemma {:induction false} ContributionAppend(xs: seq<Reading>, ys: seq<Reading>, t: Term, full: map<Term, real>)
    ensures Contribution(xs + ys, t, full) == Contribution(xs, t, full) + Contribution(ys, t, full)
    decreases |ys|
  {
    if ys == [] {
      assert xs + ys == xs;
    } else {
      var ys' := ys[..|ys| - 1];
      assert (xs + ys)[..|xs + ys| - 1] == xs + ys';
      ContributionAppend(xs, ys', t, full);
    }
  }
}
