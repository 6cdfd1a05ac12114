/** Small list and index helpers of the engine: cluster relabelling, the
    trimming and padding of rescoring candidates, phase prerequisites, the
    external programs a list of phases needs, the core count, the number of
    random-docking translations and its growth, the C-order index maps of
    the random-docking energy grid, and the expansion of postprocessing
    conditions. */
module Helpers {
  import opened Wrappers
  import opened Terms

  // ----- Cluster relabelling -----

  /** The mapping of the relabelling after `i` assignments: `order` lists
      the clusters seen, in order of first appearance, `first` the index of
      each one's first appearance, and the mapping sends each cluster to its
      place in `order`. */
  ghost predicate Ranked(a: seq<int>, i: nat, mapping: map<int, nat>, order: seq<int>, first: seq<nat>) {
    i <= |a| && |order| == |first| &&
    (forall k :: 0 <= k < |order| ==> order[k] in mapping && mapping[order[k]] == k) &&
    (forall x :: x in mapping ==> mapping[x] < |order| && order[mapping[x]] == x) &&
    (forall k :: 0 <= k < |first| ==> first[k] < i && a[first[k]] == order[k]) &&
    (forall k, j :: 0 <= k < |first| && 0 <= j < first[k] ==> a[j] != order[k]) &&
    (forall k, k' :: 0 <= k < k' < |first| ==> first[k] < first[k']) &&
    (forall j :: 0 <= j < i ==> a[j] in mapping)
  }

  /** Reindexes cluster assignments in order of first appearance: the first
      cluster seen becomes 0, the next new one 1, and so on. The mapping is
      built in a loop; the new labels are then read off it. */
  method RelabelClusters(assignments: seq<int>) returns (r: seq<nat>)
    ensures |r| == |assignments|
    ensures forall i, j :: 0 <= i < |r| && 0 <= j < |r| ==> (r[i] == r[j] <==> assignments[i] == assignments[j])
    ensures forall i :: 0 <= i < |r| && (forall j :: 0 <= j < i ==> assignments[j] != assignments[i]) ==>
      forall j :: 0 <= j < i ==> r[j] < r[i]
    ensures forall i :: 0 <= i < |r| && r[i] > 0 ==> exists j :: 0 <= j < i && r[j] == r[i] - 1
  {
    var mapping: map<int, nat> := map[];
    var next: nat := 0;
    ghost var order: seq<int> := [];
    ghost var first: seq<nat> := [];
    for i := 0 to |assignments|
      invariant Ranked(assignments, i, mapping, order, first) && next == |order|
    {
      var x := assignments[i];
      if x !in mapping {
        mapping := mapping[x := next];
        next := next + 1;
        order := order + [x];
        first := first + [i];
      }
    }
    r := seq(|assignments|, k requires 0 <= k < |assignments| => mapping[assignments[k]]);
    RankedLabels(assignments, mapping, order, first, r);
  }

  lemma RankedLabels(a: seq<int>, mapping: map<int, nat>, order: seq<int>, first: seq<nat>, r: seq<nat>)
    requires Ranked(a, |a|, mapping, order, first)
    requires |r| == |a| && forall k :: 0 <= k < |a| ==> r[k] == mapping[a[k]]
    ensures forall i, j :: 0 <= i < |r| && 0 <= j < |r| ==> (r[i] == r[j] <==> a[i] == a[j])
    ensures forall i :: 0 <= i < |r| && (forall j :: 0 <= j < i ==> a[j] != a[i]) ==>
      forall j :: 0 <= j < i ==> r[j] < r[i]
    ensures forall i :: 0 <= i < |r| && r[i] > 0 ==> exists j :: 0 <= j < i && r[j] == r[i] - 1
  {
    forall i | 0 <= i < |r|
      ensures r[i] < |first| && first[r[i]] <= i
    {
      var x := a[i];
      assert x in mapping && r[i] == mapping[x];
      assert mapping[x] < |order| && order[mapping[x]] == x;
    }
    forall i | 0 <= i < |r| && (forall j :: 0 <= j < i ==> a[j] != a[i])
      ensures forall j :: 0 <= j < i ==> r[j] < r[i]
    {
      assert a[first[r[i]]] == a[i];
      assert first[r[i]] == i;
    }
    forall i | 0 <= i < |r| && r[i] > 0
      ensures exists j :: 0 <= j < i && r[j] == r[i] - 1
    {
      var j := first[r[i] - 1];
      assert r[j] == r[i] - 1;
    }
  }

  // ----- Trimming and padding of rescoring candidates -----

  /** Python's `s[-n:]` for n >= 0: the last n elements, all of them when
      there are fewer, and also all of them when n is 0, since -0 is 0. */
  function PySuffix<T>(s: seq<T>, n: nat): seq<T> {
    if n == 0 || n >= |s| then s else s[|s| - n..]
  }

  /** The candidates cut to their last n, then padded to n by repeating the
      last one. */
  function Fitted<T>(s: seq<T>, n: nat): seq<T>
    requires n == 0 || |s| > 0
  {
    var kept := PySuffix(s, n);
    if |kept| >= n then kept else kept + Repeat(s[|s| - 1], n - |kept|)
  }

  /** `k` copies of `x`. */
  function Repeat<T>(x: T, k: nat): (r: seq<T>)
    ensures |r| == k && forall i :: 0 <= i < k ==> r[i] == x
  {
    if k == 0 then [] else Repeat(x, k - 1) + [x]
  }

  /** For n > 0 the fitted list has exactly n entries: the last
      min(n, |s|) of `s`, then copies of its last entry. For n == 0 it is
      `s` itself. */
  lemma FittedShape<T>(s: seq<T>, n: nat)
    requires n == 0 || |s| > 0
    ensures n == 0 ==> Fitted(s, n) == s
    ensures n > 0 ==> |Fitted(s, n)| == n
    ensures n > 0 ==> forall i :: 0 <= i < n ==>
      Fitted(s, n)[i] == if i < |s| then s[|s| - MinInt(n, |s|) + i] else s[|s| - 1]
  {
  }

  predicate NonIncreasing(e: seq<real>) {
    forall i, j :: 0 <= i < j < |e| ==> e[i] >= e[j]
  }

  /** Candidates sorted by decreasing energy stay sorted, and the kept ones
      are the lowest: nothing dropped is below anything kept. */
  lemma FittedKeepsLowest(e: seq<real>, n: nat)
    requires |e| > 0 && NonIncreasing(e)
    ensures NonIncreasing(Fitted(e, n))
    ensures forall i, j :: 0 <= i < |e| - |PySuffix(e, n)| && 0 <= j < |Fitted(e, n)| ==> e[i] >= Fitted(e, n)[j]
  {
    var f := Fitted(e, n);
    FittedShape(e, n);
    var off := |e| - |PySuffix(e, n)|;
    assert forall j :: 0 <= j < |f| ==> exists m :: off <= m < |e| && f[j] == e[m] by {
      forall j | 0 <= j < |f|
        ensures exists m :: off <= m < |e| && f[j] == e[m]
      {
        if n == 0 {
          assert f[j] == e[j];
        } else if j < |e| {
          assert f[j] == e[|e| - MinInt(n, |e|) + j];
        } else {
          assert f[j] == e[|e| - 1];
        }
      }
    }
    forall i, j | 0 <= i < j < |f|
      ensures f[i] >= f[j]
    {
      if n > 0 {
        var mi := if i < |e| then |e| - MinInt(n, |e|) + i else |e| - 1;
        var mj := if j < |e| then |e| - MinInt(n, |e|) + j else |e| - 1;
        assert f[i] == e[mi] && f[j] == e[mj] && mi <= mj;
      }
    }
  }

  datatype Trim<C> = Trim(confs: seq<C>, energies: seq<real>, duplicated: nat, count: nat)

  datatype TrimError = NothingToRepeat

  /** Shrinks or extends the candidates and their energies to `nconfs`
      (when given): keeps the last ones, then repeats the last one until
      there are enough, counting the copies. Fails, as indexing an empty
      list would, when padding is needed and there is nothing to repeat. */
  method ShrinkOrExtend<C>(confs: seq<C>, energies: seq<real>, nconfs: Option<nat>)
    returns (r: Result<Trim<C>, TrimError>)
    requires |energies| == |confs|
    ensures r.Err? <==> (nconfs.Some? && nconfs.value > 0 && |confs| == 0)
    ensures nconfs.None? ==> r == Ok(Trim(confs, energies, 0, |confs|))
    ensures r.Ok? && nconfs.Some? ==>
      var n := nconfs.value;
      r == Ok(Trim(Fitted(confs, n), Fitted(energies, n), if n > |confs| then n - |confs| else 0, n))
  {
    if nconfs.None? {
      return Ok(Trim(confs, energies, 0, |confs|));
    }
    var n := nconfs.value;
    var cs := PySuffix(confs, n);
    var es := PySuffix(energies, n);
    var duplicated: nat := 0;
    while |cs| < n
      invariant |cs| == |es| == |PySuffix(confs, n)| + duplicated
      invariant |cs| <= n || duplicated == 0
      invariant duplicated > 0 ==> |confs| > 0
      invariant |confs| > 0 ==> cs == PySuffix(confs, n) + Repeat(confs[|confs| - 1], duplicated)
      invariant |confs| > 0 ==> es == PySuffix(energies, n) + Repeat(energies[|energies| - 1], duplicated)
      decreases n - |cs|
    {
      if |cs| == 0 {
        return Err(NothingToRepeat);
      }
      assert cs[|cs| - 1] == confs[|confs| - 1] && es[|es| - 1] == energies[|energies| - 1];
      cs := cs + [cs[|cs| - 1]];
      es := es + [es[|es| - 1]];
      duplicated := duplicated + 1;
    }
    r := Ok(Trim(cs, es, duplicated, n));
  }

  // ----- Phase prerequisites -----

  /** Some phase runs sander or gbnsr6. */
  predicate UsesSander(phases: seq<string>) {
    exists i :: 0 <= i < |phases| && (StartsWith(phases[i], "sander") || StartsWith(phases[i], "gbnsr6"))
  }

  /** Adds the gas-phase prerequisites to a process's phase list, in place
      in the source: `sander_Gas` for any sander or gbnsr6 phase, then
      `NAMD_Gas` for APBS_PBSA. */
  function CompletePhases(phases: seq<string>): (r: seq<string>)
    ensures |phases| <= |r| && r[..|phases|] == phases
    ensures UsesSander(phases) ==> "sander_Gas" in r
    ensures "APBS_PBSA" in phases ==> "NAMD_Gas" in r
    ensures forall x :: x in r ==> x in phases || x == "sander_Gas" || x == "NAMD_Gas"
  {
    var withSander := if "sander_Gas" !in phases && UsesSander(phases) then phases + ["sander_Gas"] else phases;
    if "NAMD_Gas" !in withSander && "APBS_PBSA" in withSander then withSander + ["NAMD_Gas"] else withSander
  }

  /** Completing a complete list changes nothing. */
  lemma CompletePhasesIdempotent(phases: seq<string>)
    ensures CompletePhases(CompletePhases(phases)) == CompletePhases(phases)
  {
    var r := CompletePhases(phases);
    if UsesSander(r) {
      assert "sander_Gas" in r by {
        var i :| 0 <= i < |r| && (StartsWith(r[i], "sander") || StartsWith(r[i], "gbnsr6"));
        if r[i] in phases {
          var k :| 0 <= k < |phases| && phases[k] == r[i];
          assert UsesSander(phases);
        }
      }
    }
    if "APBS_PBSA" in r {
      assert "APBS_PBSA" in phases;
    }
  }

  // ----- External programs -----

  /** Python's `s.find(sub) > -1`. */
  predicate Contains(s: string, sub: string)
    decreases |s|
  {
    StartsWith(s, sub) || (|s| > 0 && Contains(s[1..], sub))
  }

  /** The phase-name prefixes that call for each program. */
  const PrefixPrograms: seq<(string, string)> :=
    [("NAMD", "namd"), ("sander", "sander"), ("gbnsr6", "gbnsr6"), ("APBS", "apbs")]

  /** Program `q` is needed by phase `ph` on its own. */
  predicate PhaseNeeds(ph: string, q: string) {
    (exists m :: 0 <= m < |PrefixPrograms| && PrefixPrograms[m].1 == q && StartsWith(ph, PrefixPrograms[m].0)) ||
    ((q == "elsize" || q == "ambpdb") && Contains(ph, "ALPB"))
  }

  /** Program `q` is needed by the list of phases: by one of them, or as a
      helper of APBS. */
  predicate Needs(phases: seq<string>, q: string) {
    (exists j :: 0 <= j < |phases| && PhaseNeeds(phases[j], q)) ||
    ((q == "ambpdb" || q == "molsurf") && exists j :: 0 <= j < |phases| && PhaseNeeds(phases[j], "apbs"))
  }

  predicate Distinct(s: seq<string>) {
    forall a, b :: 0 <= a < b < |s| ==> s[a] != s[b]
  }

  /** Exactly the programs some phase needs so far. */
  ghost predicate ProgramsSoFar(phases: seq<string>, i: nat, programs: seq<string>)
    requires i <= |phases|
  {
    Distinct(programs) && forall q :: q in programs <==> exists j :: 0 <= j < i && PhaseNeeds(phases[j], q)
  }

  /** What phase `ph` adds to the list, in the source's order. */
  method AddPhasePrograms(ph: string, programs: seq<string>) returns (programs': seq<string>)
    requires Distinct(programs)
    ensures Distinct(programs')
    ensures forall q :: q in programs' <==> q in programs || PhaseNeeds(ph, q)
  {
    programs' := programs;
    for m := 0 to |PrefixPrograms|
      invariant Distinct(programs')
      invariant forall q :: q in programs' <==> (q in programs ||
        exists m' :: 0 <= m' < m && PrefixPrograms[m'].1 == q && StartsWith(ph, PrefixPrograms[m'].0))
    {
      var (prefix, program) := PrefixPrograms[m];
      if StartsWith(ph, prefix) && program !in programs' {
        programs' := programs' + [program];
      }
    }
    if Contains(ph, "ALPB") {
      if "elsize" !in programs' {
        programs' := programs' + ["elsize"];
      }
      if "ambpdb" !in programs' {
        programs' := programs' + ["ambpdb"];
      }
    }
  }

  /** `_load_programs`: the programs the phases need, each once, in order of
      first need; when APBS is among them, ambpdb and molsurf as well. */
  method LoadPrograms(phases: seq<string>) returns (programs: seq<string>)
    ensures Distinct(programs)
    ensures forall q :: q in programs <==> Needs(phases, q)
  {
    programs := [];
    for i := 0 to |phases|
      invariant ProgramsSoFar(phases, i, programs)
    {
      var before := programs;
      programs := AddPhasePrograms(phases[i], programs);
      forall q
        ensures q in programs <==> exists j :: 0 <= j < i + 1 && PhaseNeeds(phases[j], q)
      {
        if q in programs && q !in before {
          assert PhaseNeeds(phases[i], q);
        }
      }
    }
    assert forall q :: q in programs <==> exists j :: 0 <= j < |phases| && PhaseNeeds(phases[j], q);
    if "apbs" in programs {
      if "ambpdb" !in programs {
        programs := programs + ["ambpdb"];
      }
      if "molsurf" !in programs {
        programs := programs + ["molsurf"];
      }
    }
  }

  // ----- Core count -----

  /** The cores to use: one by default, all available for -1, otherwise the
      request capped by what is available. */
  function Cores(requested: Option<int>, available: nat): (r: int)
    ensures requested.None? ==> r == 1
    ensures requested == Some(-1) ==> r == available
    ensures requested.Some? && requested.value != -1 ==>
      r <= available && r <= requested.value && (r == available || r == requested.value)
    ensures requested.Some? && requested.value > 0 && available > 0 ==> 0 < r <= available
  {
    match requested
    case None => 1
    case Some(n) => if n == -1 then available else MinInt(n, available)
  }

  // ----- Random-docking translations -----

  /** numpy's `ceil` on a real. */
  function Ceil(x: real): (r: int)
    ensures x <= r as real < x + 1.0
  {
    -((-x).Floor)
  }

  /** The most translations generated for random docking. */
  const MaxTranslations: nat := 10000

  /** The fewest translations random docking starts with. */
  const MinTranslations: nat := 5

  /** The starting number of translations: the site volume times the point
      density, rounded up, capped above at the maximum and below at 5. */
  function InitialTranslations(volumeDensity: real): (r: nat)
    ensures MinTranslations <= r <= MaxTranslations
    ensures MinTranslations <= Ceil(volumeDensity) <= MaxTranslations ==> r == Ceil(volumeDensity)
    ensures Ceil(volumeDensity) > MaxTranslations ==> r == MaxTranslations
    ensures Ceil(volumeDensity) < MinTranslations ==> r == MinTranslations
  {
    var c := Ceil(volumeDensity);
    var capped := if c <= MaxTranslations then c else MaxTranslations;
    if capped >= MinTranslations then capped else MinTranslations
  }

  /** The translations after `k` unconverged rounds: 25 more each round,
      capped at the maximum. */
  function Grown(n: nat, maxTrans: nat, k: nat): nat
    decreases k
  {
    if k == 0 then n else Grown(MinInt(n + 25, maxTrans), maxTrans, k - 1)
  }

  lemma {:induction false} GrownClosedForm(n: nat, maxTrans: nat, k: nat)
    requires n <= maxTrans
    ensures Grown(n, maxTrans, k) == MinInt(n + 25 * k, maxTrans)
    decreases k
  {
    if k > 0 {
      GrownClosedForm(MinInt(n + 25, maxTrans), maxTrans, k - 1);
    }
  }

  /** The translation-growth loop of random docking: each round is judged
      converged or not (by a bootstrap estimate, given here as `converged`
      of the round's index); an unconverged round adds 25 translations, up
      to the maximum, where the loop gives up. Returns the final count and
      the number of rounds. */
  method GrowTranslations(n0: nat, maxTrans: nat, converged: nat -> bool) returns (n: nat, rounds: nat)
    requires n0 <= maxTrans
    ensures rounds > 0 && n == Grown(n0, maxTrans, rounds - 1) == MinInt(n0 + 25 * (rounds - 1), maxTrans)
    ensures n0 <= n <= maxTrans
    ensures forall j :: 0 <= j < rounds - 1 ==> !converged(j)
    ensures converged(rounds - 1) || n == maxTrans
    ensures n0 + 25 * (rounds - 2) < maxTrans || rounds == 1
  {
    n, rounds := n0, 0;
    while true
      invariant n == MinInt(n0 + 25 * rounds, maxTrans)
      invariant forall j :: 0 <= j < rounds ==> !converged(j)
      invariant rounds == 0 || n0 + 25 * (rounds - 1) < maxTrans
      decreases maxTrans - n
    {
      var c := converged(rounds);
      rounds := rounds + 1;
      if c || n == maxTrans {
        GrownClosedForm(n0, maxTrans, rounds - 1);
        return;
      }
      n := MinInt(n + 25, maxTrans);
    }
  }

  // ----- C-order index maps of the random-docking grid -----

  /** `np.ravel` position of entry (c, r, t) of a grid of shape (_, R, T). */
  function Ravel(c: nat, r: nat, t: nat, rots: nat, trans: nat): nat {
    (c * rots + r) * trans + t
  }

  /** `np.unravel_index(ind, (S, R, T))`; None where numpy raises. */
  function Unravel(ind: nat, seeds: nat, rots: nat, trans: nat): Option<(nat, nat, nat)> {
    // A grid with an empty dimension has no positions at all.
    if rots == 0 || trans == 0 || ind >= seeds * rots * trans then None
    else
      var q: nat := ind / trans;
      var c: nat := q / rots;
      var r: nat := q % rots;
      var t: nat := ind % trans;
      Some((c, r, t))
  }

  lemma FactorsPositive(a: nat, b: nat, c: nat)
    requires a * b * c > 0
    ensures b > 0 && c > 0
  {
  }

  lemma DivMod(x: nat, d: nat, q: nat, m: nat)
    requires d > 0 && m < d && x == q * d + m
    ensures x / d == q && x % d == m
  {
    var q', m' := x / d, x % d;
    assert x == q' * d + m';
    if q' < q {
      MulMono(q' + 1, q, d);
      assert false;
    }
    if q' > q {
      MulMono(q + 1, q', d);
      assert false;
    }
  }

  /** Raveling an entry inside the grid and unraveling gives it back. */
  lemma UnravelRavel(c: nat, r: nat, t: nat, seeds: nat, rots: nat, trans: nat)
    requires c < seeds && r < rots && t < trans
    ensures Unravel(Ravel(c, r, t, rots, trans), seeds, rots, trans) == Some((c, r, t))
  {
    var ind := Ravel(c, r, t, rots, trans);
    DivMod(ind, trans, c * rots + r, t);
    DivMod(c * rots + r, rots, c, r);
    assert c * rots + r < seeds * rots by {
      assert (c + 1) * rots <= seeds * rots by {
        MulMono(c + 1, seeds, rots);
      }
    }
    assert ind < seeds * rots * trans by {
      assert (c * rots + r + 1) * trans <= (seeds * rots) * trans by {
        MulMono(c * rots + r + 1, seeds * rots, trans);
      }
    }
  }

  lemma MulMono(a: nat, b: nat, k: nat)
    requires a <= b
    ensures a * k <= b * k
  {
  }

  /** Every position of the grid unravels to an entry that ravels back to it. */
  lemma RavelUnravel(ind: nat, seeds: nat, rots: nat, trans: nat)
    requires ind < seeds * rots * trans
    ensures Unravel(ind, seeds, rots, trans).Some?
    ensures var (c, r, t) := Unravel(ind, seeds, rots, trans).value;
      c < seeds && r < rots && t < trans && Ravel(c, r, t, rots, trans) == ind
  {
    FactorsPositive(seeds, rots, trans);
    var q := ind / trans;
    var c, r, t := q / rots, q % rots, ind % trans;
    assert ind == q * trans + t;
    assert q == c * rots + r;
    assert c < seeds by {
      if c >= seeds {
        MulMono(seeds, c, rots);
        MulMono(seeds * rots, q, trans);
        assert false;
      }
    }
  }

  // ----- Postprocessing conditions -----

  /** How many states and cycles each process has. */
  datatype Counts = Counts(coolStates: nat, dockStates: nat, coolCycles: nat, dockCycles: nat)

  datatype ConditionError = BadProcess | BadMoiety | NoSuchAttribute

  /** A condition with its state and cycles expanded. */
  datatype Condition = Condition(process: string, state: int, cycles: seq<int>, moiety: string)

  function States(p: string, n: Counts): nat {
    if p == "cool" then n.coolStates else n.dockStates
  }

  function Cycles(p: string, n: Counts): nat {
    if p == "cool" then n.coolCycles else n.dockCycles
  }

  /** Checks a postprocessing condition and expands its -1 entries: state
      -1 is the last state, cycle -1 every cycle. A process with an empty
      protocol is skipped (None). The unsimulated `original` process has no
      protocol or cycle count to expand -1 against, so asking for one fails
      as the attribute lookup does. */
  function ExpandCondition(p: string, state: int, cycle: int, moiety: string, n: Counts)
    : (r: Result<Option<Condition>, ConditionError>)
    ensures r == Err(BadProcess) <==> p !in ["cool", "dock", "original"]
    ensures r == Err(BadMoiety) <==> p in ["cool", "dock", "original"] && moiety !in ["R", "L", "RL"]
    ensures r == Ok(None) <==> (p in ["cool", "dock"] && moiety in ["R", "L", "RL"] && States(p, n) == 0)
    ensures r == Err(NoSuchAttribute) <==> (p == "original" && moiety in ["R", "L", "RL"] && (state == -1 || cycle == -1))
    ensures r.Ok? && r.value.Some? ==>
      var e := r.value.value;
      && e.process == p && e.moiety == moiety
      && (state != -1 ==> e.state == state)
      && (state == -1 ==> 0 <= e.state == States(p, n) - 1)
      && (cycle != -1 ==> e.cycles == [cycle])
      && (cycle == -1 ==> |e.cycles| == Cycles(p, n) && forall i :: 0 <= i < |e.cycles| ==> e.cycles[i] == i)
  {
    if p !in ["cool", "dock", "original"] then Err(BadProcess)
    else if moiety !in ["R", "L", "RL"] then Err(BadMoiety)
    else if p != "original" && States(p, n) == 0 then Ok(None)
    else if p == "original" && (state == -1 || cycle == -1) then Err(NoSuchAttribute)
    else
      var s := if state == -1 then States(p, n) - 1 else state;
      var cs := if cycle == -1 then seq(Cycles(p, n), i => i) else [cycle];
      Ok(Some(Condition(p, s, cs, moiety)))
  }
}
