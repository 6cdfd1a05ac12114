/** Insertion of a docking state: the index maps between a linear sample
    index and (state, cycle, snapshot), the resampling of the new state's
    energies from the existing samples, the insertion into the process's
    four parallel lists, and the insertion of midpoints between states of
    low exchange acceptance. */
module Insertion {
  import opened Wrappers
  import opened Terms
  import opened Lambdas
  import opened Staging
  import Exchange

  /** The sum of the first `i` counts. */
  function PrefixSum(counts: seq<nat>, i: nat): nat
    requires i <= |counts|
  {
    if i == 0 then 0 else PrefixSum(counts, i - 1) + counts[i - 1]
  }

  /** numpy's `cumsum([0] + counts)`: the offset of each block, then the
      total; offset `i` is the sum of the counts before block `i`. */
  function CumSum(counts: seq<nat>): (r: seq<nat>)
    ensures |r| == |counts| + 1 && r[0] == 0
    ensures forall i :: 0 <= i <= |counts| ==> r[i] == PrefixSum(counts, i)
  {
    seq(|counts| + 1, i requires 0 <= i <= |counts| => PrefixSum(counts, i))
  }

  function Total(counts: seq<nat>): nat {
    CumSum(counts)[|counts|]
  }

  /** Offsets never decrease. */
  lemma {:induction false} CumSumMonotone(counts: seq<nat>, i: nat, j: nat)
    requires i <= j <= |counts|
    ensures CumSum(counts)[i] <= CumSum(counts)[j]
    decreases j - i
  {
    if i < j {
      CumSumMonotone(counts, i, j - 1);
    }
  }

  /** Python's `[x < c for c in cum].index(True)`: the first position whose
      value exceeds `x`, or None where Python raises. */
  function FirstAbove(cum: seq<int>, x: int): (r: Option<nat>)
    ensures r.Some? ==> r.value < |cum| && x < cum[r.value] && forall j :: 0 <= j < r.value ==> cum[j] <= x
    ensures r.None? ==> forall j :: 0 <= j < |cum| ==> cum[j] <= x
  {
    FirstAboveFrom(cum, x, 0)
  }

  /** The search from position `i` on. */
  function FirstAboveFrom(cum: seq<int>, x: int, i: nat): (r: Option<nat>)
    requires i <= |cum|
    ensures r.Some? ==> i <= r.value < |cum| && x < cum[r.value] && forall j :: i <= j < r.value ==> cum[j] <= x
    ensures r.None? ==> forall j :: i <= j < |cum| ==> cum[j] <= x
    decreases |cum| - i
  {
    if i == |cum| then None
    else if x < cum[i] then Some(i)
    else FirstAboveFrom(cum, x, i + 1)
  }

  /** The closure that splits a linear index into a block and the offset
      inside it, over the blocks' sizes `counts`. */
  function Decode(counts: seq<nat>, ind: nat): Option<(nat, nat)> {
    var cum := CumSum(counts);
    match FirstAbove(cum, ind)
    case None => None
    case Some(j) =>
      assert j > 0;
      Some((j - 1, ind - cum[j - 1]))
  }

  /** Decoding is defined exactly on the indices below the total, and it
      yields the block holding the index and its offset in that block. */
  lemma DecodeSpec(counts: seq<nat>, ind: nat)
    ensures Decode(counts, ind).Some? <==> ind < Total(counts)
    ensures Decode(counts, ind).Some? ==>
      var (b, n) := Decode(counts, ind).value;
      b < |counts| && n < counts[b] && CumSum(counts)[b] + n == ind
  {
    var cum := CumSum(counts);
    if ind < Total(counts) {
      assert FirstAbove(cum, ind).Some?;
    } else {
      forall j | 0 <= j < |cum|
        ensures cum[j] <= ind
      {
        CumSumMonotone(counts, j, |counts|);
      }
    }
  }

  /** Every position of every block decodes back to itself. */
  lemma DecodeEncode(counts: seq<nat>, b: nat, n: nat)
    requires b < |counts| && n < counts[b]
    ensures Decode(counts, CumSum(counts)[b] + n) == Some((b, n))
  {
    var cum := CumSum(counts);
    var x := cum[b] + n;
    assert x < cum[b + 1];
    forall j | 0 <= j <= b
      ensures cum[j] <= x
    {
      CumSumMonotone(counts, j, b);
    }
    FirstAboveIs(cum, x, b + 1);
  }

  lemma FirstAboveIs(cum: seq<int>, x: int, j: nat)
    requires j < |cum| && x < cum[j] && forall i :: 0 <= i < j ==> cum[i] <= x
    ensures FirstAbove(cum, x) == Some(j)
  {
    assert FirstAbove(cum, x).Some?;
  }

  /** Samples per state, then one empty block for the state being added. */
  function StateCounts(cycleCounts: seq<seq<nat>>): (r: seq<nat>)
    ensures |r| == |cycleCounts| + 1 && r[|cycleCounts|] == 0
    ensures forall k :: 0 <= k < |cycleCounts| ==> r[k] == Total(cycleCounts[k])
  {
    seq(|cycleCounts|, k requires 0 <= k < |cycleCounts| => Total(cycleCounts[k])) + [0]
  }

  /** `linear_index_to_snapshot_index`: state, cycle and position in the
      cycle of a linear index over all states' samples. */
  function SnapshotIndex(cycleCounts: seq<seq<nat>>, ind: nat): Option<(nat, nat, nat)> {
    match Decode(StateCounts(cycleCounts), ind)
    case None => None
    case Some((s, nis)) =>
      if s >= |cycleCounts| then None
      else match Decode(cycleCounts[s], nis)
        case None => None
        case Some((c, n)) => Some((s, c, n))
  }

  /** `snapshot_index_to_linear_index`. */
  function LinearIndex(cycleCounts: seq<seq<nat>>, s: nat, c: nat, n: nat): nat
    requires s < |cycleCounts| && c < |cycleCounts[s]|
  {
    CumSum(StateCounts(cycleCounts))[s] + CumSum(cycleCounts[s])[c] + n
  }

  /** A snapshot exists in cycle `c` of state `s` at position `n`. */
  predicate IsSnapshot(cycleCounts: seq<seq<nat>>, s: nat, c: nat, n: nat) {
    s < |cycleCounts| && c < |cycleCounts[s]| && n < cycleCounts[s][c]
  }

  /** Decoding a linear index below the total gives a snapshot that
      encodes back to it; above it, decoding fails. */
  lemma LinearRoundTrip(cycleCounts: seq<seq<nat>>, ind: nat)
    ensures SnapshotIndex(cycleCounts, ind).Some? <==> ind < Total(StateCounts(cycleCounts))
    ensures SnapshotIndex(cycleCounts, ind).Some? ==>
      var (s, c, n) := SnapshotIndex(cycleCounts, ind).value;
      IsSnapshot(cycleCounts, s, c, n) && LinearIndex(cycleCounts, s, c, n) == ind
  {
    var sc := StateCounts(cycleCounts);
    DecodeSpec(sc, ind);
    if ind < Total(sc) {
      var (s, nis) := Decode(sc, ind).value;
      assert s < |cycleCounts|;
      DecodeSpec(cycleCounts[s], nis);
    }
  }

  /** Encoding a snapshot and decoding the result gives the snapshot back. */
  lemma SnapshotRoundTrip(cycleCounts: seq<seq<nat>>, s: nat, c: nat, n: nat)
    requires IsSnapshot(cycleCounts, s, c, n)
    ensures SnapshotIndex(cycleCounts, LinearIndex(cycleCounts, s, c, n)) == Some((s, c, n))
  {
    var sc := StateCounts(cycleCounts);
    var cc := cycleCounts[s];
    var m := CumSum(cc)[c] + n;
    DecodeEncode(cc, c, n);
    OffsetInBlock(cc, c, n);
    assert sc[s] == Total(cc);
    DecodeEncode(sc, s, m);
    SnapshotIndexOf(cycleCounts, CumSum(sc)[s] + m, s, m, c, n);
  }

  lemma OffsetInBlock(counts: seq<nat>, b: nat, n: nat)
    requires b < |counts| && n < counts[b]
    ensures CumSum(counts)[b] + n < Total(counts)
  {
    CumSumMonotone(counts, b + 1, |counts|);
  }

  lemma SnapshotIndexOf(cycleCounts: seq<seq<nat>>, ind: nat, s: nat, nis: nat, c: nat, n: nat)
    requires Decode(StateCounts(cycleCounts), ind) == Some((s, nis)) && s < |cycleCounts|
    requires Decode(cycleCounts[s], nis) == Some((c, n))
    ensures SnapshotIndex(cycleCounts, ind) == Some((s, c, n))
  {
  }

  /** Every energy record has the molecular-mechanics term, and every
      term `terms` with one value per snapshot as it. */
  predicate RecordsOk(es: seq<seq<Energies>>, terms: set<Term>) {
    forall k, c :: 0 <= k < |es| && 0 <= c < |es[k]| ==> RecordOk(es[k][c], terms)
  }

  /** One cycle's record is well formed. */
  predicate RecordOk(e: Energies, terms: set<Term>) {
    MM in e && forall t :: t in terms ==> t in e && |e[t]| == |e[MM]|
  }

  /** The snapshots per cycle of every state, counted on the
      molecular-mechanics term. */
  function CycleCounts(es: seq<seq<Energies>>): (r: seq<seq<nat>>)
    ensures |r| == |es| && forall k :: 0 <= k < |es| ==> |r[k]| == |es[k]|
  {
    seq(|es|, k requires 0 <= k < |es| =>
      seq(|es[k]|, c requires 0 <= c < |es[k]| => if MM in es[k][c] then |es[k][c][MM]| else 0))
  }

  /** A snapshot's value of term `t`. */
  function ValueAt(es: seq<seq<Energies>>, p: (nat, nat, nat), t: Term): real {
    if p.0 < |es| && p.1 < |es[p.0]| && t in es[p.0][p.1] && p.2 < |es[p.0][p.1][t]|
    then es[p.0][p.1][t][p.2] else 0.0
  }

  /** A snapshot's configuration. */
  function ConfAt(samples: seq<seq<seq<Conf>>>, p: (nat, nat, nat)): Conf {
    if p.0 < |samples| && p.1 < |samples[p.0]| && p.2 < |samples[p.0][p.1]|
    then samples[p.0][p.1][p.2] else []
  }

  /** A resampled cycle's energy record: each term's values at the drawn
      snapshots, in order. */
  function CycleEnergies(es: seq<seq<Energies>>, terms: set<Term>, picks: seq<(nat, nat, nat)>): (r: Energies)
    ensures r.Keys == terms && forall t :: t in terms ==> |r[t]| == |picks|
  {
    map t | t in terms :: seq(|picks|, n requires 0 <= n < |picks| => ValueAt(es, picks[n], t))
  }

  /** A resampled cycle's configurations: the drawn snapshots'. */
  function CycleConfs(samples: seq<seq<seq<Conf>>>, picks: seq<(nat, nat, nat)>): (r: seq<Conf>)
    ensures |r| == |picks| && forall n :: 0 <= n < |picks| ==> r[n] == ConfAt(samples, picks[n])
  {
    seq(|picks|, n requires 0 <= n < |picks| => ConfAt(samples, picks[n]))
  }

  /** The kept configurations as the resampling loop writes them: for each
      draw, the whole list of configurations of the drawn snapshot's cycle
      rather than the drawn configuration. */
  function CycleConfsAsWritten(samples: seq<seq<seq<Conf>>>, picks: seq<(nat, nat, nat)>): (r: seq<seq<Conf>>)
    ensures |r| == |picks|
    ensures forall n :: 0 <= n < |picks| && picks[n].0 < |samples| && picks[n].1 < |samples[picks[n].0]| ==>
      r[n] == samples[picks[n].0][picks[n].1]
  {
    seq(|picks|, n requires 0 <= n < |picks| =>
      if picks[n].0 < |samples| && picks[n].1 < |samples[picks[n].0]| then samples[picks[n].0][picks[n].1] else [])
  }

  /** One state with one cycle of two configurations, and a draw of the
      second: the as-written entry holds both, where the drawn one alone
      belongs. */
  lemma AsWrittenKeepsWholeCycle()
    ensures var samples: seq<seq<seq<Conf>>> := [[[[1.0], [2.0]]]];
      var picks: seq<(nat, nat, nat)> := [(0, 0, 1)];
      CycleConfsAsWritten(samples, picks)[0] == [[1.0], [2.0]] && CycleConfs(samples, picks)[0] == [2.0] &&
      CycleConfsAsWritten(samples, picks)[0] != [CycleConfs(samples, picks)[0]]
  {
    var samples: seq<seq<seq<Conf>>> := [[[[1.0], [2.0]]]];
    var picks: seq<(nat, nat, nat)> := [(0, 0, 1)];
    assert ConfAt(samples, picks[0]) == [2.0];
    assert CycleConfsAsWritten(samples, picks)[0] == [[1.0], [2.0]];
  }

  lemma CycleEnergiesAppend(es: seq<seq<Energies>>, terms: set<Term>, picks: seq<(nat, nat, nat)>, p: (nat, nat, nat))
    ensures CycleEnergies(es, terms, picks + [p]) ==
      map t | t in terms :: CycleEnergies(es, terms, picks)[t] + [ValueAt(es, p, t)]
  {
    var a, b := CycleEnergies(es, terms, picks + [p]), map t | t in terms :: CycleEnergies(es, terms, picks)[t] + [ValueAt(es, p, t)];
    forall t | t in terms
      ensures a[t] == b[t]
    {
      assert a[t] == seq(|picks| + 1, n requires 0 <= n < |picks| + 1 => ValueAt(es, (picks + [p])[n], t));
    }
  }

  /** A draw the resampler may keep for cycle `c`: a snapshot from a cycle
      no later than `c`, unless the last state had no sample before `c`. */
  predicate Admissible(cc: seq<seq<nat>>, c: nat, p: (nat, nat, nat)) {
    IsSnapshot(cc, p.0, p.1, p.2) &&
    (|cc| > 0 && c <= |cc[|cc| - 1]| && CumSum(cc[|cc| - 1])[c] != 0 ==> p.1 <= c)
  }

  /** The snapshot a draw `u` picks: `np.random.choice` over all linear
      indices, modelled as the oracle value reduced to that range. */
  function Picked(cc: seq<seq<nat>>, u: nat): (r: (nat, nat, nat))
    requires Total(StateCounts(cc)) > 0
    ensures IsSnapshot(cc, r.0, r.1, r.2)
    ensures SnapshotIndex(cc, u % Total(StateCounts(cc))) == Some(r)
  {
    var ind := u % Total(StateCounts(cc));
    LinearRoundTrip(cc, ind);
    SnapshotIndex(cc, ind).value
  }

  /** One resampling draw for cycle `c`, repeated while the snapshot is
      from a later cycle when the last state had samples before cycle `c`.
      The draws are a finite supply; None when it runs out. */
  method Draw(cc: seq<seq<nat>>, c: nat, draws: seq<nat>, pos0: nat) returns (r: Option<(nat, nat, nat)>, pos: nat)
    requires |cc| > 0 && c <= |cc[|cc| - 1]| && Total(StateCounts(cc)) > 0
    ensures pos0 <= pos
    ensures r.Some? ==> (pos0 < pos <= |draws| && Admissible(cc, c, r.value) && r.value == Picked(cc, draws[pos - 1]))
    ensures r.None? ==> pos >= |draws|
  {
    var later := CumSum(cc[|cc| - 1])[c] != 0;
    pos := pos0;
    r := None;
    var found := false;
    ghost var last := pos0;
    while !found
      invariant pos0 <= pos
      invariant found ==> (r.Some? && pos0 <= last && pos == last + 1 && pos <= |draws| &&
        Admissible(cc, c, r.value) && r.value == Picked(cc, draws[last]))
      decreases if found then 0 else |draws| + 1 - pos
    {
      if pos >= |draws| {
        return None, pos;
      }
      last := pos;
      var p := Picked(cc, draws[pos]);
      pos := pos + 1;
      r := Some(p);
      found := !later || p.1 <= c;
    }
  }

  /** A sampled snapshot's state has samples, so some index can be drawn. */
  lemma SomeSample(cc: seq<seq<nat>>, s: nat, c: nat, n: nat)
    requires IsSnapshot(cc, s, c, n)
    ensures Total(StateCounts(cc)) > 0
  {
    SnapshotRoundTrip(cc, s, c, n);
    LinearRoundTrip(cc, LinearIndex(cc, s, c, n));
  }

  /** Cycle `c` of the new state resampled: for every snapshot the last
      state has in that cycle, a draw, and the drawn snapshot's energies
      and (when samples are kept) configuration. */
  predicate CycleOk(es: seq<seq<Energies>>, samples: seq<seq<seq<Conf>>>, terms: set<Term>, keep: bool,
                    cc: seq<seq<nat>>, c: nat, row: seq<(nat, nat, nat)>, e: Energies, confs: seq<Conf>)
  {
    |cc| > 0 && c < |cc[|cc| - 1]| && |row| == cc[|cc| - 1][c] &&
    (forall n :: 0 <= n < |row| ==> Admissible(cc, c, row[n])) &&
    e == CycleEnergies(es, terms, row) &&
    confs == if keep then CycleConfs(samples, row) else []
  }

  /** Appends one drawn snapshot's energies and configuration. */
  method AppendDraw(es: seq<seq<Energies>>, samples: seq<seq<seq<Conf>>>, terms: set<Term>, keep: bool,
                    ghost row: seq<(nat, nat, nat)>, e: Energies, confs: seq<Conf>, p: (nat, nat, nat))
    returns (e': Energies, confs': seq<Conf>)
    requires e == CycleEnergies(es, terms, row)
    requires confs == if keep then CycleConfs(samples, row) else []
    ensures e' == CycleEnergies(es, terms, row + [p])
    ensures confs' == if keep then CycleConfs(samples, row + [p]) else []
  {
    CycleEnergiesAppend(es, terms, row, p);
    e' := map t | t in terms :: e[t] + [ValueAt(es, p, t)];
    confs' := confs;
    if keep {
      assert CycleConfs(samples, row + [p]) == CycleConfs(samples, row) + [ConfAt(samples, p)];
      confs' := confs + [ConfAt(samples, p)];
    }
  }

  method ResampleCycle(es: seq<seq<Energies>>, samples: seq<seq<seq<Conf>>>, terms: set<Term>, keep: bool,
                       cc: seq<seq<nat>>, c: nat, draws: seq<nat>, pos0: nat)
    returns (r: Option<(Energies, seq<Conf>)>, ghost row: seq<(nat, nat, nat)>, pos: nat)
    requires |es| > 0 && c < |es[|es| - 1]| && RecordsOk(es, terms) && cc == CycleCounts(es)
    ensures pos0 <= pos
    ensures r.None? ==> pos >= |draws|
    ensures r.Some? ==> CycleOk(es, samples, terms, keep, cc, c, row, r.value.0, r.value.1)
  {
    var count := |es[|es| - 1][c][MM]|;
    assert count == cc[|cc| - 1][c];
    var e := CycleEnergies(es, terms, []);
    var confs: seq<Conf> := [];
    row := [];
    pos := pos0;
    for n := 0 to count
      invariant pos0 <= pos && |row| == n
      invariant forall i :: 0 <= i < n ==> Admissible(cc, c, row[i])
      invariant e == CycleEnergies(es, terms, row)
      invariant confs == if keep then CycleConfs(samples, row) else []
    {
      SomeSample(cc, |cc| - 1, c, n);
      var d;
      d, pos := Draw(cc, c, draws, pos);
      if d.None? {
        return None, row, pos;
      }
      var p := d.value;
      e, confs := AppendDraw(es, samples, terms, keep, row, e, confs, p);
      row := row + [p];
    }
    r := Some((e, confs));
  }

  /** The new state's records: one resampled cycle per cycle of the first
      state, each as long as the last state's cycle. */
  predicate ResampledOk(es: seq<seq<Energies>>, samples: seq<seq<seq<Conf>>>, terms: set<Term>, keep: bool,
                        picks: seq<seq<(nat, nat, nat)>>, esNew: seq<Energies>, confsNew: seq<seq<Conf>>)
    requires |es| > 0
  {
    |esNew| == |confsNew| == |picks| == |es[0]| &&
    forall c :: 0 <= c < |picks| ==>
      CycleOk(es, samples, terms, keep, CycleCounts(es), c, picks[c], esNew[c], confsNew[c])
  }

  /** When samples are kept, each resampled configuration is the one whose
      energies were resampled alongside it: the same drawn snapshot. */
  lemma ResampledPairsMatch(es: seq<seq<Energies>>, samples: seq<seq<seq<Conf>>>, terms: set<Term>,
                            picks: seq<seq<(nat, nat, nat)>>, esNew: seq<Energies>, confsNew: seq<seq<Conf>>,
                            c: nat, n: nat)
    requires |es| > 0 && ResampledOk(es, samples, terms, true, picks, esNew, confsNew)
    requires c < |picks| && n < |picks[c]|
    ensures n < |confsNew[c]| && confsNew[c][n] == ConfAt(samples, picks[c][n])
    ensures forall t :: t in terms ==> t in esNew[c] && n < |esNew[c][t]| && esNew[c][t][n] == ValueAt(es, picks[c][n], t)
  {
    assert CycleOk(es, samples, terms, true, CycleCounts(es), c, picks[c], esNew[c], confsNew[c]);
  }

  /** The resampling of every cycle of the new state. */
  method Resample(es: seq<seq<Energies>>, samples: seq<seq<seq<Conf>>>, terms: set<Term>, keep: bool,
                  draws: seq<nat>, pos0: nat)
    returns (r: Option<(seq<Energies>, seq<seq<Conf>>)>, ghost picks: seq<seq<(nat, nat, nat)>>, pos: nat)
    requires |es| > 0 && |es[0]| <= |es[|es| - 1]| && RecordsOk(es, terms)
    ensures pos0 <= pos
    ensures r.None? ==> pos >= |draws|
    ensures r.Some? ==> ResampledOk(es, samples, terms, keep, picks, r.value.0, r.value.1)
  {
    var cc := CycleCounts(es);
    var esNew: seq<Energies> := [];
    var confsNew: seq<seq<Conf>> := [];
    picks := [];
    pos := pos0;
    for c := 0 to |es[0]|
      invariant pos0 <= pos && |esNew| == |confsNew| == |picks| == c
      invariant forall c' :: 0 <= c' < c ==>
        CycleOk(es, samples, terms, keep, cc, c', picks[c'], esNew[c'], confsNew[c'])
    {
      var cyc;
      ghost var row;
      cyc, row, pos := ResampleCycle(es, samples, terms, keep, cc, c, draws, pos);
      if cyc.None? {
        return None, picks, pos;
      }
      esNew := esNew + [cyc.value.0];
      confsNew := confsNew + [cyc.value.1];
      picks := picks + [row];
    }
    r := Some((esNew, confsNew));
  }

  /** Python's `list.insert(i, x)` for 0 <= i <= len. */
  function Insert<T>(s: seq<T>, i: nat, x: T): (r: seq<T>)
    requires i <= |s|
    ensures |r| == |s| + 1 && r[i] == x
    ensures forall j :: 0 <= j < i ==> r[j] == s[j]
    ensures forall j :: i <= j < |s| ==> r[j + 1] == s[j]
  {
    s[..i] + [x] + s[i..]
  }

  /** Every state of the protocol has a progress value. */
  predicate HasProgress(ps: seq<State>) {
    forall i :: 0 <= i < |ps| ==> ps[i].a.Some?
  }

  /** `[a < p['a'] for p in protocol].index(True)`: the first state with
      a larger progress value, or None where Python raises. */
  function FirstLarger(ps: seq<State>, a: real): (r: Option<nat>)
    requires HasProgress(ps)
    ensures r.Some? ==> (r.value < |ps| && a < ps[r.value].a.value &&
      forall j :: 0 <= j < r.value ==> ps[j].a.value <= a)
    ensures r.None? ==> forall j :: 0 <= j < |ps| ==> ps[j].a.value <= a
    decreases |ps|
  {
    if ps == [] then None
    else if a < ps[0].a.value then Some(0)
    else match FirstLarger(ps[1..], a)
      case None => None
      case Some(j) => Some(j + 1)
  }

  lemma FirstLargerIs(ps: seq<State>, a: real, j: nat)
    requires HasProgress(ps) && j < |ps| && a < ps[j].a.value
    requires forall i :: 0 <= i < j ==> ps[i].a.value <= a
    ensures FirstLarger(ps, a) == Some(j)
  {
    assert FirstLarger(ps, a).Some?;
  }

  /** The neighbour `index - 1`, which Python reads as the last state when
      the index is 0. */
  function Neighbor(at: nat, k: nat): (r: nat)
    requires at < k
    ensures r < k && (at > 0 ==> r == at - 1) && (at == 0 ==> r == k - 1)
  {
    if at == 0 then k - 1 else at - 1
  }

  /** The new state: `_lambda(a, lambda_o=neighbour)` with the defaults
      site=True and crossed=False. */
  function NewState(p: Params, cv: Curves, a: real, protocol: seq<State>, nb: nat): (r: State)
    requires nb < |protocol|
    ensures r.a == Some(a) && r.crossed == Some(false)
  {
    Parameterize(p, cv, a, Dock, Some(protocol[nb]), protocol, Some(true), Some(false))
  }

  /** The terms the inserted state's records copy: those a docking cycle
      records, with the pose restraints for a pose and the site term
      otherwise. */
  function CopiedTerms(p: Params): (r: set<Term>)
    ensures MM in r && forall t :: t in Scalables ==> t in r
    ensures (Site in r <==> p.pose <= -1) && (KSpatialExt in r <==> p.pose > -1)
  {
    Exchange.CycleTerms(Dock, p)
  }

  datatype InsertError = NoLargerState | MissingCycle | OutOfDraws | OutOfEstimates

  /** `_insert_dock_state`: a state at progress `a` goes in before the
      first state with a larger value, built from and carrying a copy of
      the replica of the state before that one; its samples are resampled
      from the existing ones. Nothing changes on an error. */
  method InsertDockState(ps: ProcessState, p: Params, cv: Curves, a: real, keep: bool,
                         draws: seq<nat>, pos0: nat)
    returns (r: Result<nat, InsertError>, esNew: seq<Energies>, confsNew: seq<seq<Conf>>,
             ghost picks: seq<seq<(nat, nat, nat)>>, pos: nat)
    requires Parallel(ps.Snapshot()) && HasProgress(ps.protocol) && RecordsOk(ps.es, CopiedTerms(p))
    modifies ps
    ensures pos0 <= pos
    ensures r.Err? ==> ps.Snapshot() == old(ps.Snapshot()) && r.error != OutOfEstimates
    ensures r == Err(NoLargerState) <==> FirstLarger(old(ps.protocol), a).None?
    ensures r == Err(MissingCycle) <==> (FirstLarger(old(ps.protocol), a).Some? &&
      |old(ps.es)[0]| > |old(ps.es)[|old(ps.es)| - 1]|)
    ensures r == Err(OutOfDraws) ==> pos >= |draws|
    ensures r.Ok? ==> (FirstLarger(old(ps.protocol), a) == Some(r.value) &&
      ResampledOk(old(ps.es), old(ps.samples), CopiedTerms(p), keep, picks, esNew, confsNew))
    ensures r.Ok? ==>
      var at, nb := r.value, Neighbor(r.value, |old(ps.protocol)|);
      && ps.protocol == Insert(old(ps.protocol), at, NewState(p, cv, a, old(ps.protocol), nb))
      && ps.es == Insert(old(ps.es), at, esNew)
      && ps.samples == Insert(old(ps.samples), at, confsNew)
      && ps.replicas == Insert(old(ps.replicas), at, old(ps.replicas)[nb])
      && ps.cycle == old(ps.cycle)
  {
    esNew, confsNew, picks, pos := [], [], [], pos0;
    var found := FirstLarger(ps.protocol, a);
    if found.None? {
      return Err(NoLargerState), esNew, confsNew, picks, pos;
    }
    var at := found.value;
    var k := |ps.protocol|;
    var nb := Neighbor(at, k);
    var lambdaN := NewState(p, cv, a, ps.protocol, nb);
    if |ps.es[0]| > |ps.es[k - 1]| {
      return Err(MissingCycle), esNew, confsNew, picks, pos;
    }
    var res;
    res, picks, pos := Resample(ps.es, ps.samples, CopiedTerms(p), keep, draws, pos0);
    if res.None? {
      return Err(OutOfDraws), esNew, confsNew, picks, pos;
    }
    esNew, confsNew := res.value.0, res.value.1;
    Place(ps, at, lambdaN, esNew, confsNew, nb);
    r := Ok(at);
  }

  /** The four `insert` calls: the new state, its cycles' energies and
      configurations, and a copy of the neighbour's replica, all at `at`. */
  method Place(ps: ProcessState, at: nat, st: State, esNew: seq<Energies>, confsNew: seq<seq<Conf>>, nb: nat)
    requires Parallel(ps.Snapshot()) && at <= |ps.protocol| && nb < |ps.protocol|
    modifies ps
    ensures ps.protocol == Insert(old(ps.protocol), at, st)
    ensures ps.es == Insert(old(ps.es), at, esNew)
    ensures ps.samples == Insert(old(ps.samples), at, confsNew)
    ensures ps.replicas == Insert(old(ps.replicas), at, old(ps.replicas)[nb])
    ensures ps.cycle == old(ps.cycle)
  {
    ps.protocol := Insert(ps.protocol, at, st);
    ps.es := Insert(ps.es, at, esNew);
    ps.samples := Insert(ps.samples, at, confsNew);
    ps.replicas := Insert(ps.replicas, at, ps.replicas[nb]);
  }

  /** The progress values strictly increase along the protocol. */
  predicate StrictlyAscending(ps: seq<State>) {
    HasProgress(ps) && forall i, j :: 0 <= i < j < |ps| ==> ps[i].a.value < ps[j].a.value
  }

  /** Inserting a state before the first larger progress value keeps the
      protocol ascending. */
  lemma InsertAscending(ps: seq<State>, a: real, at: nat, st: State)
    requires Ascending(ps) && 0.0 <= a <= 1.0 && st.a == Some(a)
    requires HasProgress(ps) && FirstLarger(ps, a) == Some(at)
    ensures Ascending(Insert(ps, at, st))
  {
    var r := Insert(ps, at, st);
    forall i | 0 <= i < |r|
      ensures r[i].a.Some? && 0.0 <= r[i].a.value <= 1.0
    {
      InsertAt(ps, at, st, i);
    }
    forall i, j | 0 <= i < j < |r|
      ensures r[i].a.value <= r[j].a.value
    {
      InsertAt(ps, at, st, i);
      InsertAt(ps, at, st, j);
      OrderedPairLe(ps, a, at, i, j, r[i], r[j]);
    }
  }

  lemma OrderedPairLe(ps: seq<State>, a: real, at: nat, i: nat, j: nat, x: State, y: State)
    requires Ascending(ps) && at < |ps| && a < ps[at].a.value
    requires forall k :: 0 <= k < at ==> ps[k].a.value <= a
    requires i < j < |ps| + 1
    requires x.a.Some? && y.a.Some?
    requires x.a.value == if i < at then ps[i].a.value else if i == at then a else ps[i - 1].a.value
    requires y.a.value == if j < at then ps[j].a.value else if j == at then a else ps[j - 1].a.value
    ensures x.a.value <= y.a.value
  {
    if i < at && at < j {
      assert ps[at].a.value <= ps[j - 1].a.value;
    } else if i == at && at < j - 1 {
      assert ps[at].a.value <= ps[j - 1].a.value;
    }
  }

  /** It keeps the protocol strictly ascending when the state before the
      insertion point has a smaller value. */
  lemma InsertStrictlyAscending(ps: seq<State>, a: real, at: nat, st: State)
    requires StrictlyAscending(ps) && st.a == Some(a) && FirstLarger(ps, a) == Some(at)
    requires at > 0 ==> ps[at - 1].a.value < a
    ensures StrictlyAscending(Insert(ps, at, st))
  {
    var r := Insert(ps, at, st);
    forall i, j | 0 <= i < j < |r|
      ensures r[i].a.value < r[j].a.value
    {
      InsertedPair(ps, a, at, st, i, j);
    }
  }

  lemma InsertedPair(ps: seq<State>, a: real, at: nat, st: State, i: nat, j: nat)
    requires StrictlyAscending(ps) && st.a == Some(a) && at < |ps| && a < ps[at].a.value
    requires at > 0 ==> ps[at - 1].a.value < a
    requires i < j < |ps| + 1
    ensures Insert(ps, at, st)[i].a.value < Insert(ps, at, st)[j].a.value
  {
    var x := if i < at then ps[i] else if i == at then st else ps[i - 1];
    var y := if j < at then ps[j] else if j == at then st else ps[j - 1];
    InsertAt(ps, at, st, i);
    InsertAt(ps, at, st, j);
    OrderedPair(ps, a, at, i, j, x, y);
  }

  lemma InsertAt<T>(s: seq<T>, i: nat, x: T, k: nat)
    requires i <= |s| && k <= |s|
    ensures Insert(s, i, x)[k] == if k < i then s[k] else if k == i then x else s[k - 1]
  {
  }

  lemma OrderedPair(ps: seq<State>, a: real, at: nat, i: nat, j: nat, x: State, y: State)
    requires StrictlyAscending(ps) && at < |ps| && a < ps[at].a.value
    requires at > 0 ==> ps[at - 1].a.value < a
    requires i < j < |ps| + 1
    requires x.a.Some? && y.a.Some?
    requires x.a.value == if i < at then ps[i].a.value else if i == at then a else ps[i - 1].a.value
    requires y.a.value == if j < at then ps[j].a.value else if j == at then a else ps[j - 1].a.value
    ensures x.a.value < y.a.value
  {
    if i < at - 1 {
      assert ps[i].a.value < ps[at - 1].a.value;
    }
    if at < j - 1 {
      assert ps[at].a.value < ps[j - 1].a.value;
    }
  }

  /** The progress value halfway between states `k` and `k + 1`. */
  function Midpoint(ps: seq<State>, k: nat): real
    requires HasProgress(ps) && k + 1 < |ps|
  {
    (ps[k].a.value + ps[k + 1].a.value) / 2.0
  }

  /** The midpoint of two neighbouring states of a strictly ascending
      protocol lies strictly between them and goes in just after the first. */
  lemma MidpointPlacement(ps: seq<State>, k: nat)
    requires StrictlyAscending(ps) && k + 1 < |ps|
    ensures ps[k].a.value < Midpoint(ps, k) < ps[k + 1].a.value
    ensures FirstLarger(ps, Midpoint(ps, k)) == Some(k + 1)
  {
    var m := Midpoint(ps, k);
    forall i | 0 <= i < k + 1
      ensures ps[i].a.value <= m
    {
      if i < k {
        assert ps[i].a.value < ps[k].a.value;
      }
    }
    FirstLargerIs(ps, m, k + 1);
  }

  /** The resampled records have every term `terms` (the
      molecular-mechanics one among them) with one value per draw, so the
      inserted state's records are as well formed as the others. */
  lemma InsertRecordsOk(es: seq<seq<Energies>>, samples: seq<seq<seq<Conf>>>, terms: set<Term>, keep: bool,
                        picks: seq<seq<(nat, nat, nat)>>, esNew: seq<Energies>, confsNew: seq<seq<Conf>>, at: nat)
    requires |es| > 0 && at <= |es| && MM in terms && RecordsOk(es, terms)
    requires ResampledOk(es, samples, terms, keep, picks, esNew, confsNew)
    ensures RecordsOk(Insert(es, at, esNew), terms)
  {
    var r := Insert(es, at, esNew);
    forall k, c | 0 <= k < |r| && 0 <= c < |r[k]|
      ensures RecordOk(r[k][c], terms)
    {
      InsertAt(es, at, esNew, k);
      if k == at {
        ResampledRecordOk(es, samples, terms, keep, picks, esNew, confsNew, c);
      }
    }
  }

  lemma ResampledRecordOk(es: seq<seq<Energies>>, samples: seq<seq<seq<Conf>>>, terms: set<Term>, keep: bool,
                          picks: seq<seq<(nat, nat, nat)>>, esNew: seq<Energies>, confsNew: seq<seq<Conf>>, c: nat)
    requires |es| > 0 && MM in terms && ResampledOk(es, samples, terms, keep, picks, esNew, confsNew)
    requires c < |esNew|
    ensures RecordOk(esNew[c], terms)
  {
    assert CycleOk(es, samples, terms, keep, CycleCounts(es), c, picks[c], esNew[c], confsNew[c]);
  }

  /** The old protocol survives in the new one: its end states stay in
      place and every one of its states is still present. */
  predicate Widened(p0: seq<State>, p: seq<State>) {
    |p0| <= |p| && (|p0| > 0 ==> p[0] == p0[0] && Last(p) == Last(p0)) &&
    forall i :: 0 <= i < |p0| ==> p0[i] in p
  }

  /** Every protocol widens itself. */
  lemma WidenedRefl(p: seq<State>)
    ensures Widened(p, p)
  {
    assert forall i :: 0 <= i < |p| ==> p[i] in p;
  }

  /** An insertion strictly inside the protocol widens it. */
  lemma InsertWidens(p: seq<State>, at: nat, st: State)
    requires 0 < at < |p|
    ensures Widened(p, Insert(p, at, st))
  {
    var r := Insert(p, at, st);
    forall i | 0 <= i < |p|
      ensures p[i] in r
    {
      var j := if i < at then i else i + 1;
      InsertAt(p, at, st, j);
      assert r[j] == p[i];
    }
  }

  /** Widening twice widens. */
  lemma WidenedTrans(p0: seq<State>, p1: seq<State>, p2: seq<State>)
    requires Widened(p0, p1) && Widened(p1, p2)
    ensures Widened(p0, p2)
  {
    forall i | 0 <= i < |p0|
      ensures p0[i] in p2
    {
      var j :| 0 <= j < |p1| && p1[j] == p0[i];
      assert p1[j] in p2;
    }
  }

  /** The states of `s0` sit in `s` in their order, at the positions
      `idx`, with their replicas, samples and energies; every other state
      of `s` was inserted after another and carries a copy of the replica
      of the state before it. */
  predicate Survives(s0: Stage, s: Stage, idx: seq<nat>)
    requires Parallel(s0) && Parallel(s)
  {
    && |idx| == |s0.protocol|
    && (forall i :: 0 <= i < |idx| ==> idx[i] < |s.protocol|)
    && (forall i, j :: 0 <= i < j < |idx| ==> idx[i] < idx[j])
    && (forall i :: 0 <= i < |idx| ==>
          s.protocol[idx[i]] == s0.protocol[i] && s.replicas[idx[i]] == s0.replicas[i] &&
          s.samples[idx[i]] == s0.samples[i] && s.es[idx[i]] == s0.es[i])
    && (forall j :: 0 <= j < |s.protocol| && j !in idx ==> 0 < j && s.replicas[j] == s.replicas[j - 1])
  }

  /** The positions of surviving states after an insertion at `m`. */
  function Shifted(idx: seq<nat>, m: nat): (r: seq<nat>)
    ensures |r| == |idx|
    ensures forall i :: 0 <= i < |idx| ==> r[i] == if idx[i] < m then idx[i] else idx[i] + 1
  {
    seq(|idx|, i requires 0 <= i < |idx| => if idx[i] < m then idx[i] else idx[i] + 1)
  }

  /** Before any insertion every state survives where it is. */
  lemma SurvivesRefl(s: Stage)
    requires Parallel(s)
    ensures Survives(s, s, seq(|s.protocol|, i => i))
  {
    var idx: seq<nat> := seq(|s.protocol|, i => i);
    forall j | 0 <= j < |s.protocol|
      ensures j in idx
    {
      assert idx[j] == j;
    }
  }

  /** Shifting increasing positions below `n` past an insertion at `m`
      keeps them increasing and below `n + 1`; a position they miss is `m`
      itself or, moved back past `m`, one they missed before. */
  lemma ShiftedIndices(idx: seq<nat>, m: nat, n: nat)
    requires forall i :: 0 <= i < |idx| ==> idx[i] < n
    requires forall i, j :: 0 <= i < j < |idx| ==> idx[i] < idx[j]
    ensures forall i :: 0 <= i < |idx| ==> Shifted(idx, m)[i] < n + 1
    ensures forall i, j :: 0 <= i < j < |idx| ==> Shifted(idx, m)[i] < Shifted(idx, m)[j]
    ensures forall j :: 0 <= j < m && j !in Shifted(idx, m) ==> j !in idx
    ensures forall j :: m < j && j !in Shifted(idx, m) ==> j - 1 !in idx
  {
    var idx' := Shifted(idx, m);
    forall j | 0 <= j < m && j !in idx'
      ensures j !in idx
    {
      forall i | 0 <= i < |idx|
        ensures idx[i] != j
      {
        assert idx'[i] in idx';
      }
    }
    forall j | m < j && j !in idx'
      ensures j - 1 !in idx
    {
      forall i | 0 <= i < |idx|
        ensures idx[i] != j - 1
      {
        assert idx'[i] in idx';
      }
    }
  }

  /** The lists after inserting state `st`, its energies `e` and its
      configurations `c` at `m`, with a copy of the replica before it. */
  function Inserted(s: Stage, m: nat, st: State, e: seq<Energies>, c: seq<seq<Conf>>): (r: Stage)
    requires Parallel(s) && 0 < m <= |s.protocol|
    ensures Parallel(r) && r.cycle == s.cycle
  {
    s.(protocol := Insert(s.protocol, m, st), replicas := Insert(s.replicas, m, s.replicas[m - 1]),
       samples := Insert(s.samples, m, c), es := Insert(s.es, m, e))
  }

  /** Inserting a state at `m` with a copy of the replica before it keeps
      every surviving state, one place further on from `m`. */
  lemma SurvivesInsert(s0: Stage, s: Stage, idx: seq<nat>, m: nat, st: State, e: seq<Energies>, c: seq<seq<Conf>>)
    requires Parallel(s0) && Parallel(s) && Survives(s0, s, idx) && 0 < m <= |s.protocol|
    ensures Survives(s0, Inserted(s, m, st, e, c), Shifted(idx, m))
  {
    var s' := Inserted(s, m, st, e, c);
    var idx' := Shifted(idx, m);
    ShiftedIndices(idx, m, |s.protocol|);
    InsertKeeps(s0, s, idx, m, st, e, c);
    InsertCopies(s0, s, idx, m, st, e, c);
    assert Survives(s0, s', idx');
  }

  /** The surviving states keep their lists across an insertion. */
  lemma InsertKeeps(s0: Stage, s: Stage, idx: seq<nat>, m: nat, st: State, e: seq<Energies>, c: seq<seq<Conf>>)
    requires Parallel(s0) && Parallel(s) && Survives(s0, s, idx) && 0 < m <= |s.protocol|
    ensures var s', idx' := Inserted(s, m, st, e, c), Shifted(idx, m);
            forall i :: 0 <= i < |idx| ==>
              s'.protocol[idx'[i]] == s0.protocol[i] && s'.replicas[idx'[i]] == s0.replicas[i] &&
              s'.samples[idx'[i]] == s0.samples[i] && s'.es[idx'[i]] == s0.es[i]
  {
    var s', idx' := Inserted(s, m, st, e, c), Shifted(idx, m);
    forall i | 0 <= i < |idx|
      ensures s'.protocol[idx'[i]] == s0.protocol[i] && s'.replicas[idx'[i]] == s0.replicas[i] &&
              s'.samples[idx'[i]] == s0.samples[i] && s'.es[idx'[i]] == s0.es[i]
    {
      assert s'.protocol[idx'[i]] == s.protocol[idx[i]];
      assert s'.replicas[idx'[i]] == s.replicas[idx[i]];
      assert s'.samples[idx'[i]] == s.samples[idx[i]];
      assert s'.es[idx'[i]] == s.es[idx[i]];
    }
  }

  /** Every state an insertion leaves out of the survivors, the inserted
      one included, carries the replica before it. */
  lemma InsertCopies(s0: Stage, s: Stage, idx: seq<nat>, m: nat, st: State, e: seq<Energies>, c: seq<seq<Conf>>)
    requires Parallel(s0) && Parallel(s) && Survives(s0, s, idx) && 0 < m <= |s.protocol|
    ensures var s', idx' := Inserted(s, m, st, e, c), Shifted(idx, m);
            forall j :: 0 <= j < |s'.protocol| && j !in idx' ==> 0 < j && s'.replicas[j] == s'.replicas[j - 1]
  {
    var s', idx' := Inserted(s, m, st, e, c), Shifted(idx, m);
    ShiftedIndices(idx, m, |s.protocol|);
    forall j | 0 <= j < |s'.protocol| && j !in idx'
      ensures 0 < j && s'.replicas[j] == s'.replicas[j - 1]
    {
      if j < m {
        assert j !in idx;
      } else if j > m {
        assert j - 1 !in idx;
      }
    }
  }

  /** One insertion of the midpoint between states `k` and `k + 1` of a
      strictly ascending protocol: it lands at `k + 1`, is built from
      state `k` and copies its replica, and keeps the protocol strictly
      ascending and the records well formed. */
  method InsertMidpoint(ps: ProcessState, p: Params, cv: Curves, keep: bool, k: nat,
                        draws: seq<nat>, pos0: nat)
    returns (r: Result<nat, InsertError>, esNew: seq<Energies>, confsNew: seq<seq<Conf>>,
             ghost picks: seq<seq<(nat, nat, nat)>>, pos: nat)
    requires Parallel(ps.Snapshot()) && StrictlyAscending(ps.protocol) && RecordsOk(ps.es, CopiedTerms(p))
    requires k + 1 < |ps.protocol|
    modifies ps
    ensures pos0 <= pos
    ensures Parallel(ps.Snapshot()) && StrictlyAscending(ps.protocol) && RecordsOk(ps.es, CopiedTerms(p))
    ensures ps.cycle == old(ps.cycle)
    ensures r.Err? ==> ps.Snapshot() == old(ps.Snapshot()) && (r.error == MissingCycle || r.error == OutOfDraws)
    ensures r.Ok? ==>
      var mid := Midpoint(old(ps.protocol), k);
      && r.value == k + 1
      && ps.protocol == Insert(old(ps.protocol), k + 1, NewState(p, cv, mid, old(ps.protocol), k))
      && ps.replicas == Insert(old(ps.replicas), k + 1, old(ps.replicas)[k])
      && ps.es == Insert(old(ps.es), k + 1, esNew)
      && ps.samples == Insert(old(ps.samples), k + 1, confsNew)
      && ResampledOk(old(ps.es), old(ps.samples), CopiedTerms(p), keep, picks, esNew, confsNew)
      && Widened(old(ps.protocol), ps.protocol)
  {
    ghost var s0 := ps.Snapshot();
    var mid := Midpoint(ps.protocol, k);
    MidpointPlacement(ps.protocol, k);
    r, esNew, confsNew, picks, pos := InsertDockState(ps, p, cv, mid, keep, draws, pos0);
    if r.Ok? {
      assert Neighbor(k + 1, |s0.protocol|) == k;
      InsertStrictlyAscending(s0.protocol, mid, k + 1, NewState(p, cv, mid, s0.protocol, k));
      InsertRecordsOk(s0.es, s0.samples, CopiedTerms(p), keep, picks, esNew, confsNew, k + 1);
      InsertWidens(s0.protocol, k + 1, NewState(p, cv, mid, s0.protocol, k));
    }
  }

  /** The protocol the scan for low acceptance leaves, from pair `k` on,
      with the estimates from `accs[j]` on in the order it asks for them:
      an estimate below 0.4 inserts the pair's midpoint after state `k` and
      asks again for the same pair, any other moves on to the next pair.
      None when the estimates run out before the last pair is passed. */
  function Walk(p: Params, cv: Curves, ps: seq<State>, k: nat, accs: seq<real>, j: nat): (r: Option<seq<State>>)
    requires StrictlyAscending(ps) && j <= |accs|
    ensures r.Some? ==> StrictlyAscending(r.value) && |ps| <= |r.value|
    decreases |accs| - j, 1
  {
    if k + 1 >= |ps| then Some(ps)
    else if j == |accs| then None
    else WalkPair(p, cv, ps, k, accs, j)
  }

  /** The scan at pair `k` with the estimate `accs[j]`. */
  function WalkPair(p: Params, cv: Curves, ps: seq<State>, k: nat, accs: seq<real>, j: nat): (r: Option<seq<State>>)
    requires StrictlyAscending(ps) && k + 1 < |ps| && j < |accs|
    ensures r.Some? ==> StrictlyAscending(r.value) && |ps| <= |r.value|
    decreases |accs| - j, 0
  {
    if accs[j] < 0.4 then
      var st := NewState(p, cv, Midpoint(ps, k), ps, k);
      MidpointPlacement(ps, k);
      InsertStrictlyAscending(ps, Midpoint(ps, k), k + 1, st);
      Walk(p, cv, Insert(ps, k + 1, st), k, accs, j + 1)
    else Walk(p, cv, ps, k + 1, accs, j + 1)
  }

  /** One low estimate: the scan goes on from the protocol with the
      midpoint inserted, at the same pair. */
  lemma WalkLow(p: Params, cv: Curves, ps: seq<State>, k: nat, accs: seq<real>, j: nat, ps': seq<State>)
    requires StrictlyAscending(ps) && k + 1 < |ps| && j < |accs| && accs[j] < 0.4
    requires ps' == Insert(ps, k + 1, NewState(p, cv, Midpoint(ps, k), ps, k))
    ensures StrictlyAscending(ps') && Walk(p, cv, ps, k, accs, j) == Walk(p, cv, ps', k, accs, j + 1)
  {
    MidpointPlacement(ps, k);
    InsertStrictlyAscending(ps, Midpoint(ps, k), k + 1, NewState(p, cv, Midpoint(ps, k), ps, k));
    assert Walk(p, cv, ps, k, accs, j) == WalkPair(p, cv, ps, k, accs, j);
  }

  /** One estimate of 0.4 or more: the scan moves on to the next pair. */
  lemma WalkHigh(p: Params, cv: Curves, ps: seq<State>, k: nat, accs: seq<real>, j: nat)
    requires StrictlyAscending(ps) && k + 1 < |ps| && j < |accs| && accs[j] >= 0.4
    ensures Walk(p, cv, ps, k, accs, j) == Walk(p, cv, ps, k + 1, accs, j + 1)
  {
    assert Walk(p, cv, ps, k, accs, j) == WalkPair(p, cv, ps, k, accs, j);
  }

  /** With an estimate of 0.4 or more for every pair from `k` on, the scan
      inserts nothing. */
  lemma {:induction false} WalkKeepsWhenHigh(p: Params, cv: Curves, ps: seq<State>, k: nat, accs: seq<real>, j: nat)
    requires StrictlyAscending(ps) && j <= |accs| && k + (|accs| - j) + 1 >= |ps|
    requires forall i :: j <= i < |accs| ==> accs[i] >= 0.4
    ensures Walk(p, cv, ps, k, accs, j) == Some(ps)
    decreases |accs| - j
  {
    if k + 1 < |ps| {
      WalkHigh(p, cv, ps, k, accs, j);
      WalkKeepsWhenHigh(p, cv, ps, k + 1, accs, j + 1);
    }
  }

  /** The scan only inserts: the end states stay in place and every old
      state is still there. */
  lemma {:induction false} WalkWidens(p: Params, cv: Curves, ps: seq<State>, k: nat, accs: seq<real>, j: nat)
    requires StrictlyAscending(ps) && j <= |accs|
    ensures var w := Walk(p, cv, ps, k, accs, j); w.Some? ==> Widened(ps, w.value)
    decreases |accs| - j, 1
  {
    if k + 1 >= |ps| {
      WidenedRefl(ps);
    } else if j == |accs| {
    } else if accs[j] < 0.4 {
      WalkWidensLow(p, cv, ps, k, accs, j);
    } else {
      WalkHigh(p, cv, ps, k, accs, j);
      WalkWidens(p, cv, ps, k + 1, accs, j + 1);
    }
  }

  /** `WalkWidens` for a low estimate: the inserted midpoint widens the
      protocol, and the rest of the scan widens it further. */
  lemma {:induction false} WalkWidensLow(p: Params, cv: Curves, ps: seq<State>, k: nat, accs: seq<real>, j: nat)
    requires StrictlyAscending(ps) && k + 1 < |ps| && j < |accs| && accs[j] < 0.4
    ensures var w := Walk(p, cv, ps, k, accs, j); w.Some? ==> Widened(ps, w.value)
    decreases |accs| - j, 0
  {
    var w := Walk(p, cv, ps, k, accs, j);
    var st := NewState(p, cv, Midpoint(ps, k), ps, k);
    var ps' := Insert(ps, k + 1, st);
    WalkLow(p, cv, ps, k, accs, j, ps');
    WalkWidens(p, cv, ps', k, accs, j + 1);
    if w.Some? {
      assert Widened(ps, ps') by {
        InsertWidens(ps, k + 1, st);
      }
      WidenedTrans(ps, ps', w.value);
    }
  }

  /** One low estimate `accs[j]` for pair `k`, in place: the midpoint is
      inserted after state `k`, and the scan from before it goes on from
      the widened protocol with the next estimate. */
  method RefineStep(ps: ProcessState, p: Params, cv: Curves, keep: bool, k: nat,
                    accs: seq<real>, j: nat, draws: seq<nat>, pos0: nat)
    returns (r: Result<nat, InsertError>, pos: nat, ghost st: State, esNew: seq<Energies>, confsNew: seq<seq<Conf>>)
    requires Parallel(ps.Snapshot()) && StrictlyAscending(ps.protocol) && RecordsOk(ps.es, CopiedTerms(p))
    requires k + 1 < |ps.protocol| && j < |accs| && accs[j] < 0.4
    modifies ps
    ensures Parallel(ps.Snapshot()) && StrictlyAscending(ps.protocol) && RecordsOk(ps.es, CopiedTerms(p))
    ensures ps.cycle == old(ps.cycle)
    ensures r.Err? ==> ps.Snapshot() == old(ps.Snapshot()) && (r.error == MissingCycle || r.error == OutOfDraws)
    ensures r.Ok? ==> ps.Snapshot() == Inserted(old(ps.Snapshot()), k + 1, st, esNew, confsNew)
    ensures r.Ok? ==> |ps.protocol| == |old(ps.protocol)| + 1 && Widened(old(ps.protocol), ps.protocol)
    ensures r.Ok? ==> Walk(p, cv, old(ps.protocol), k, accs, j) == Walk(p, cv, ps.protocol, k, accs, j + 1)
  {
    ghost var before := ps.Snapshot();
    ghost var picks;
    r, esNew, confsNew, picks, pos := InsertMidpoint(ps, p, cv, keep, k, draws, pos0);
    st := NewState(p, cv, Midpoint(before.protocol, k), before.protocol, k);
    if r.Ok? {
      WalkLow(p, cv, before.protocol, k, accs, j, ps.protocol);
    }
  }

  /** The inner loop of the scan, for pair `k`: reads the pair's estimate
      from `accs[ai0]` and, while it is below 0.4, inserts the midpoint and
      reads the next one. The scan from this pair goes on at pair `k + 1`
      with the estimates left. */
  method RefinePair(ps: ProcessState, p: Params, cv: Curves, keep: bool, k: nat,
                    accs: seq<real>, ai0: nat, draws: seq<nat>, pos0: nat, ghost s0: Stage, ghost idx0: seq<nat>)
    returns (r: Result<(), InsertError>, ai: nat, pos: nat, added: nat, ghost idx: seq<nat>)
    requires Parallel(ps.Snapshot()) && StrictlyAscending(ps.protocol) && RecordsOk(ps.es, CopiedTerms(p))
    requires k + 1 < |ps.protocol| && ai0 < |accs|
    requires Parallel(s0) && Survives(s0, ps.Snapshot(), idx0)
    modifies ps
    ensures Parallel(ps.Snapshot()) && StrictlyAscending(ps.protocol) && RecordsOk(ps.es, CopiedTerms(p))
    ensures ps.cycle == old(ps.cycle)
    ensures Survives(s0, ps.Snapshot(), idx)
    ensures |ps.protocol| == |old(ps.protocol)| + added
    ensures Widened(old(ps.protocol), ps.protocol)
    ensures r.Ok? ==> ai0 < ai <= |accs| &&
                      Walk(p, cv, old(ps.protocol), k, accs, ai0) == Walk(p, cv, ps.protocol, k + 1, accs, ai)
    ensures r == Err(OutOfEstimates) ==> Walk(p, cv, old(ps.protocol), k, accs, ai0).None?
    ensures r.Err? ==> r.error != NoLargerState
  {
    ghost var p0 := ps.protocol;
    ghost var cur := ps.Snapshot();
    pos, added, idx := pos0, 0, idx0;
    var j := ai0;
    while accs[j] < 0.4
      invariant k + 1 < |ps.protocol| && ai0 <= j < |accs|
      invariant Parallel(ps.Snapshot()) && StrictlyAscending(ps.protocol) && RecordsOk(ps.es, CopiedTerms(p))
      // Kept as an equality so that the loop check uses the fact from
      // `SurvivesInsert` whole instead of re-proving each conjunct.
      invariant cur == ps.Snapshot() && Parallel(cur) && Survives(s0, cur, idx) == true
      invariant ps.cycle == old(ps.cycle)
      invariant |ps.protocol| == |p0| + added
      invariant Widened(p0, ps.protocol)
      invariant Walk(p, cv, p0, k, accs, ai0) == Walk(p, cv, ps.protocol, k, accs, j)
      decreases |accs| - j
    {
      ghost var before := ps.Snapshot();
      var step, esNew, confsNew;
      ghost var st;
      step, pos, st, esNew, confsNew := RefineStep(ps, p, cv, keep, k, accs, j, draws, pos);
      if step.Err? {
        return Err(step.error), j + 1, pos, added, idx;
      }
      SurvivesInsert(s0, cur, idx, k + 1, st, esNew, confsNew);
      cur, idx := Inserted(cur, k + 1, st, esNew, confsNew), Shifted(idx, k + 1);
      WidenedTrans(p0, before.protocol, ps.protocol);
      added := added + 1;
      if j + 1 == |accs| {
        assert Walk(p, cv, ps.protocol, k, accs, j + 1) == None;
        return Err(OutOfEstimates), j + 1, pos, added, idx;
      }
      j := j + 1;
    }
    ai := j + 1;
    WalkHigh(p, cv, ps.protocol, k, accs, j);
    r := Ok(());
  }

  /** `_insert_dock_state_between_low_acc`: walks the neighbouring pairs of
      the docking protocol and, while the estimated mean acceptance between
      a pair is below 0.4, inserts their midpoint and estimates again for
      the pair the first state now forms with the midpoint. The estimates,
      which the source computes from the stored energies, come in order
      from `accs`; running out of them stops the walk. On success the
      result says whether anything was inserted and the protocol is the
      one `Walk` describes. */
  method InsertBetweenLowAcceptance(ps: ProcessState, p: Params, cv: Curves, keep: bool,
                                    accs: seq<real>, draws: seq<nat>)
    returns (r: Result<bool, InsertError>, inserted: nat, ghost idx: seq<nat>)
    requires Parallel(ps.Snapshot()) && StrictlyAscending(ps.protocol) && RecordsOk(ps.es, CopiedTerms(p))
    modifies ps
    ensures Parallel(ps.Snapshot()) && StrictlyAscending(ps.protocol) && RecordsOk(ps.es, CopiedTerms(p))
    ensures ps.cycle == old(ps.cycle)
    ensures Parallel(old(ps.Snapshot())) && Survives(old(ps.Snapshot()), ps.Snapshot(), idx)
    ensures |ps.protocol| == |old(ps.protocol)| + inserted
    ensures Widened(old(ps.protocol), ps.protocol)
    ensures r.Ok? ==> (r.value <==> inserted > 0)
    ensures r.Ok? ==> Walk(p, cv, old(ps.protocol), 0, accs, 0) == Some(ps.protocol)
    ensures r == Err(OutOfEstimates) ==> Walk(p, cv, old(ps.protocol), 0, accs, 0).None?
    ensures r.Err? ==> r.error != NoLargerState
  {
    ghost var p0 := ps.protocol;
    ghost var s0 := ps.Snapshot();
    var k := 0;
    var ai := 0;
    var pos := 0;
    inserted := 0;
    SurvivesRefl(s0);
    idx := seq(|s0.protocol|, i => i);
    ghost var cur := s0;
    while k + 1 < |ps.protocol|
      invariant Parallel(ps.Snapshot()) && StrictlyAscending(ps.protocol) && RecordsOk(ps.es, CopiedTerms(p))
      // Kept as an equality so that the loop check uses the fact from
      // `SurvivesInsert` whole instead of re-proving each conjunct.
      invariant cur == ps.Snapshot() && Parallel(cur) && Survives(s0, cur, idx) == true
      invariant ps.cycle == old(ps.cycle)
      invariant |ps.protocol| == |p0| + inserted
      invariant Widened(p0, ps.protocol)
      invariant ai <= |accs|
      invariant Walk(p, cv, p0, 0, accs, 0) == Walk(p, cv, ps.protocol, k, accs, ai)
      decreases |accs| - ai
    {
      if ai == |accs| {
        return Err(OutOfEstimates), inserted, idx;
      }
      ghost var before := ps.protocol;
      var res, added;
      res, ai, pos, added, idx := RefinePair(ps, p, cv, keep, k, accs, ai, draws, pos, s0, idx);
      cur := ps.Snapshot();
      inserted := inserted + added;
      WidenedTrans(p0, before, ps.protocol);
      if res.Err? {
        return Err(res.error), inserted, idx;
      }
      k := k + 1;
    }
    r := Ok(inserted > 0);
  }
}
