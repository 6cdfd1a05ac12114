/** Index bookkeeping of a replica-exchange cycle: which replica pairs may
    swap, which states the sweeps credit, which sweeps are kept as
    snapshots, and how the snapshots are regrouped by thermodynamic state. */
module Exchange {
  import opened Wrappers
  import opened Terms
  import opened Lambdas
  import opened Staging
  import opened Adapt

  /** The pair of replica indices `i` and `i + d`. */
  function Pair(i: int, d: int): (int, int) {
    (i, i + d)
  }

  /** A pair the exchange may swap among `k` states: strides 1 to 4. */
  predicate IsSwapPair(k: nat, p: (int, int)) {
    0 <= p.0 && 1 <= p.1 - p.0 <= 4 && p.1 < k
  }

  predicate Distinct<T(==)>(s: seq<T>) {
    forall a, b :: 0 <= a < b < |s| ==> s[a] != s[b]
  }

  /** Strides 1 to `strides` contribute `k - d` pairs each. */
  function PairCount(k: nat, strides: nat): int {
    if strides == 0 then 0 else PairCount(k, strides - 1) + (k - strides)
  }

  /** The number of strides among `k` states. */
  function Strides(k: nat): nat {
    if k == 0 then 0 else MinInt(5, k) - 1
  }

  lemma ModShift(i: int, d: int)
    requires 1 <= d <= 4 && i >= 0
    ensures (i + d) % d == i % d
  {
    if d == 1 {
    } else if d == 2 {
    } else if d == 3 {
    } else {
    }
  }

  /** Between two members of a residue class lies none of it. */
  lemma ModGap(i: int, i': int, d: int)
    requires 1 <= d <= 4 && 0 <= i < i' < i + d
    ensures i' % d != i % d
  {
    if d == 1 {
    } else if d == 2 {
    } else if d == 3 {
    } else {
    }
  }

  /** A set of integers that is exactly 0 to n - 1 has n members. */
  lemma {:induction false} RangeCard(s: set<int>, n: nat)
    requires forall x :: x in s <==> 0 <= x < n
    ensures |s| == n
  {
    if n == 0 {
      assert forall x :: x !in s;
      assert s == {};
    } else {
      var s' := s - {n - 1};
      assert n - 1 in s;
      RangeCard(s', n - 1);
      assert s == s' + {n - 1};
    }
  }

  /** The pairs of residue class `r` of stride `d`, below `i`, precede the
      cursor; everything of a lower stride or residue precedes it too. */
  predicate Precedes(p: (int, int), d: int, r: int, i: int)
    requires d > 0
  {
    p.1 - p.0 < d || (p.1 - p.0 == d && (p.0 % d < r || (p.0 % d == r && p.0 < i)))
  }

  /** Appends the pairs of stride `d` whose lower index has residue `r`,
      in increasing order. `lows` tracks the lower indices of stride `d`
      emitted so far. */
  method AppendResidue(k: nat, d: int, r: int, pairs0: seq<(int, int)>, ghost lows0: set<int>)
    returns (pairs: seq<(int, int)>, ghost lows: set<int>)
    requires 1 <= d <= 4 && 0 <= r < d
    requires forall j :: 0 <= j < |pairs0| ==> IsSwapPair(k, pairs0[j]) && Precedes(pairs0[j], d, r, 0)
    requires forall i :: 0 <= i && i + d < k && i % d < r ==> Pair(i, d) in pairs0
    requires Distinct(pairs0)
    requires forall x :: x in lows0 <==> 0 <= x < k - d && x % d < r
    ensures |pairs0| <= |pairs| && pairs[..|pairs0|] == pairs0
    ensures forall j :: 0 <= j < |pairs| ==> IsSwapPair(k, pairs[j]) && Precedes(pairs[j], d, r + 1, 0)
    ensures forall i :: 0 <= i && i + d < k && i % d <= r ==> Pair(i, d) in pairs
    ensures Distinct(pairs)
    ensures forall x :: x in lows <==> 0 <= x < k - d && x % d <= r
    ensures |pairs| - |pairs0| == |lows| - |lows0|
  {
    pairs, lows := pairs0, lows0;
    var i := r;
    while i < k - d
      invariant r <= i && i % d == r
      invariant |pairs0| <= |pairs| && pairs[..|pairs0|] == pairs0
      invariant forall j :: 0 <= j < |pairs| ==> IsSwapPair(k, pairs[j]) && Precedes(pairs[j], d, r, i)
      invariant forall i' :: 0 <= i' && i' + d < k && (i' % d < r || (i' % d == r && i' < i)) ==>
        Pair(i', d) in pairs
      invariant Distinct(pairs)
      invariant forall x :: x in lows <==> 0 <= x < k - d && (x % d < r || (x % d == r && x < i))
      invariant |pairs| - |pairs0| == |lows| - |lows0|
      decreases k - d - i
    {
      pairs := pairs + [Pair(i, d)];
      lows := lows + {i};
      ModShift(i, d);
      forall i' | i < i' < i + d
        ensures i' % d != r
      {
        ModGap(i, i', d);
      }
      i := i + d;
    }
  }

  /** Appends every pair of stride `d`, residue class by residue class. */
  method AppendStride(k: nat, d: int, pairs0: seq<(int, int)>) returns (pairs: seq<(int, int)>)
    requires 1 <= d <= 4
    requires forall j :: 0 <= j < |pairs0| ==> IsSwapPair(k, pairs0[j]) && pairs0[j].1 - pairs0[j].0 < d
    requires Distinct(pairs0)
    ensures |pairs0| <= |pairs| && pairs[..|pairs0|] == pairs0
    ensures forall j :: 0 <= j < |pairs| ==> IsSwapPair(k, pairs[j]) && pairs[j].1 - pairs[j].0 <= d
    ensures forall i :: 0 <= i && i + d < k ==> Pair(i, d) in pairs
    ensures Distinct(pairs)
    ensures |pairs| == |pairs0| + MaxInt(k - d, 0)
  {
    pairs := pairs0;
    ghost var lows: set<int> := {};
    for r := 0 to d
      invariant |pairs0| <= |pairs| && pairs[..|pairs0|] == pairs0
      invariant forall j :: 0 <= j < |pairs| ==> IsSwapPair(k, pairs[j]) && Precedes(pairs[j], d, r, 0)
      invariant forall i :: 0 <= i && i + d < k && i % d < r ==> Pair(i, d) in pairs
      invariant Distinct(pairs)
      invariant forall x :: x in lows <==> 0 <= x < k - d && x % d < r
      invariant |pairs| == |pairs0| + |lows|
    {
      ghost var before := pairs;
      pairs, lows := AppendResidue(k, d, r, pairs, lows);
      assert pairs[..|pairs0|] == before[..|pairs0|];
    }
    RangeCard(lows, MaxInt(k - d, 0));
  }

  /** The list of replica pairs to attempt swapping among `k` states: for
      each stride 1 to 4, every pair at that stride, grouped by residue. */
  method SwapPairs(k: nat) returns (pairs: seq<(int, int)>)
    ensures forall j :: 0 <= j < |pairs| ==> IsSwapPair(k, pairs[j])
    ensures forall i, d :: 0 <= i && 1 <= d <= 4 && i + d < k ==> Pair(i, d) in pairs
    ensures Distinct(pairs)
    ensures |pairs| == PairCount(k, Strides(k))
  {
    pairs := [];
    var d := 1;
    while d < MinInt(5, k)
      invariant 1 <= d <= MaxInt(MinInt(5, k), 1)
      invariant forall j :: 0 <= j < |pairs| ==> IsSwapPair(k, pairs[j]) && pairs[j].1 - pairs[j].0 < d
      invariant forall i, d' :: 0 <= i && 1 <= d' < d && i + d' < k ==> Pair(i, d') in pairs
      invariant Distinct(pairs)
      invariant |pairs| == PairCount(k, d - 1)
      decreases k - d
    {
      var before := pairs;
      pairs := AppendStride(k, d, pairs);
      forall i, d' | 0 <= i && 1 <= d' < d && i + d' < k
        ensures Pair(i, d') in pairs
      {
        var j :| 0 <= j < |before| && before[j] == Pair(i, d');
        assert pairs[j] == before[j];
      }
      d := d + 1;
    }
    assert k == 0 || d == MinInt(5, k);
    assert d - 1 == Strides(k);
  }

  /** The neighbour pairs the crossover move works on: the pairs starting at
      an even index, then those starting at an odd one. */
  function CrossoverPairs(k: nat): (r: seq<(int, int)>)
    ensures |r| == MaxInt(k - 1, 0)
    ensures forall j :: 0 <= j < |r| ==> 0 <= r[j].0 && r[j].1 == r[j].0 + 1 && r[j].1 < k
  {
    var evens := seq(k / 2, j requires 0 <= j < k / 2 => (2 * j, 2 * j + 1));
    var odds := seq(if k == 0 then 0 else (k - 1) / 2, j => (2 * j + 1, 2 * j + 2));
    evens + odds
  }

  /** Every neighbour pair appears among the crossover pairs exactly once. */
  lemma CrossoverPairsCover(k: nat)
    ensures forall i :: 0 <= i && i + 1 < k ==> Pair(i, 1) in CrossoverPairs(k)
    ensures Distinct(CrossoverPairs(k))
  {
    var r := CrossoverPairs(k);
    var h := k / 2;
    forall i | 0 <= i && i + 1 < k
      ensures Pair(i, 1) in r
    {
      if i % 2 == 0 {
        assert r[i / 2] == Pair(i, 1);
      } else {
        assert r[h + (i - 1) / 2] == Pair(i, 1);
      }
    }
    forall a, b | 0 <= a < b < |r|
      ensures r[a] != r[b]
    {
      if b < h || a >= h {
      } else {
        assert r[a].0 % 2 == 0 && r[b].0 % 2 == 1;
      }
    }
  }

  /** `p` lists each of 0 to k - 1 exactly once. */
  predicate IsPermutation(p: seq<int>, k: nat) {
    |p| == k && (forall i :: 0 <= i < k ==> 0 <= p[i] < k) && Distinct(p) &&
    forall v :: 0 <= v < k ==> v in p
  }

  /** `q` undoes `p`. */
  predicate Inverts(q: seq<int>, p: seq<int>) {
    forall i :: 0 <= i < |p| ==> 0 <= p[i] < |q| && q[p[i]] == i
  }

  /** For each snapshot, the replica that was in each state: the inverse
      of the snapshot's map from replica to state. */
  method InvertStateInds(stateInds: seq<seq<int>>, k: nat) returns (inv: seq<seq<int>>)
    requires forall s :: 0 <= s < |stateInds| ==> IsPermutation(stateInds[s], k)
    ensures |inv| == |stateInds|
    ensures forall s :: 0 <= s < |inv| ==> |inv[s]| == k && Inverts(inv[s], stateInds[s])
    ensures forall s :: 0 <= s < |inv| ==> IsPermutation(inv[s], k) && Inverts(stateInds[s], inv[s])
  {
    inv := seq(|stateInds|, _ => seq(k, _ => 0));
    for s := 0 to |stateInds|
      invariant |inv| == |stateInds|
      invariant forall s' :: 0 <= s' < |inv| ==> |inv[s']| == k
      invariant forall s' :: 0 <= s' < s ==> Inverts(inv[s'], stateInds[s'])
    {
      var p := stateInds[s];
      for i := 0 to k
        invariant |inv| == |stateInds|
        invariant forall s' :: 0 <= s' < |inv| ==> |inv[s']| == k
        invariant forall s' :: 0 <= s' < s ==> Inverts(inv[s'], stateInds[s'])
        invariant forall i' :: 0 <= i' < i ==> inv[s][p[i']] == i'
      {
        inv := inv[s := inv[s][p[i] := i]];
      }
    }
    forall s | 0 <= s < |inv|
      ensures IsPermutation(inv[s], k) && Inverts(stateInds[s], inv[s])
    {
      InverseIsPermutation(stateInds[s], inv[s], k);
    }
  }

  /** The inverse of a permutation is a permutation, and inverts it back. */
  lemma InverseIsPermutation(p: seq<int>, q: seq<int>, k: nat)
    requires IsPermutation(p, k) && |q| == k && Inverts(q, p)
    ensures IsPermutation(q, k) && Inverts(p, q)
  {
    forall v | 0 <= v < k
      ensures 0 <= q[v] < k && p[q[v]] == v
    {
      assert v in p;
      var i :| 0 <= i < k && p[i] == v;
    }
    forall v | 0 <= v < k
      ensures v in q
    {
      assert q[p[v]] == v;
    }
  }

  /** The entries of the snapshots regrouped by thermodynamic state: for
      state `k`, the entry of the replica that was in it at each snapshot. */
  function Regroup<T>(store: seq<seq<T>>, inv: seq<seq<int>>, k: int): (r: seq<T>)
    requires |inv| == |store|
    requires forall s :: 0 <= s < |store| ==> 0 <= k < |inv[s]| && 0 <= inv[s][k] < |store[s]|
    ensures |r| == |store|
  {
    seq(|store|, s requires 0 <= s < |store| => Entry(store[s], inv[s], k))
  }

  /** Entry `inv[k]` of a snapshot. */
  function Entry<T>(snapshot: seq<T>, inv: seq<int>, k: int): T
    requires 0 <= k < |inv| && 0 <= inv[k] < |snapshot|
  {
    snapshot[inv[k]]
  }

  /** Regrouping by state picks each replica's entry exactly once per
      snapshot: replica `i` lands in the state it was in, and two states
      never read the same replica. */
  lemma RegroupExactlyOnce<T>(store: seq<seq<T>>, stateInds: seq<seq<int>>, inv: seq<seq<int>>, k: nat)
    requires |inv| == |store| == |stateInds|
    requires forall s :: 0 <= s < |store| ==> |store[s]| == k
    requires forall s :: 0 <= s < |store| ==> |inv[s]| == k && |stateInds[s]| == k
    requires forall s, i :: 0 <= s < |store| && 0 <= i < k ==> 0 <= inv[s][i] < k && 0 <= stateInds[s][i] < k
    requires forall s :: 0 <= s < |store| ==> Inverts(inv[s], stateInds[s]) && Inverts(stateInds[s], inv[s])
    ensures forall s, i :: 0 <= s < |store| && 0 <= i < k ==>
      Regroup(store, inv, stateInds[s][i])[s] == store[s][i]
    ensures forall s, k1, k2 :: 0 <= s < |store| && 0 <= k1 < k2 < k ==> inv[s][k1] != inv[s][k2]
  {
    forall s, k1, k2 | 0 <= s < |store| && 0 <= k1 < k2 < k
      ensures inv[s][k1] != inv[s][k2]
    {
      assert stateInds[s][inv[s][k1]] == k1 && stateInds[s][inv[s][k2]] == k2;
    }
  }

  /** The kinds of Monte Carlo move whose statistics a cycle tallies. */
  datatype MoveType = ExternalMC | SmartDarting | Sampler

  const MoveTypes: seq<MoveType> := [ExternalMC, SmartDarting, Sampler]

  /** Adds `gain[j]` to slot `inds[j]` of the tally, for each of the
      first `n` replicas `j` in turn. */
  function Credit(tally: seq<int>, inds: seq<int>, gain: seq<int>, n: nat): (r: seq<int>)
    requires n <= |inds| == |gain| && forall j :: 0 <= j < |inds| ==> 0 <= inds[j] < |tally|
    ensures |r| == |tally|
  {
    if n == 0 then tally
    else
      var t := Credit(tally, inds, gain, n - 1);
      Bump(t, inds[n - 1], gain[n - 1])
  }

  /** Adds `d` to slot `v`. */
  function Bump(t: seq<int>, v: int, d: int): (r: seq<int>)
    requires 0 <= v < |t|
    ensures |r| == |t| && r[v] == t[v] + d && forall u :: 0 <= u < |t| && u != v ==> r[u] == t[u]
  {
    t[v := t[v] + d]
  }

  /** When no two replicas share a state, each replica's statistics land in
      its own state's slot and no other slot moves. */
  lemma {:induction false} CreditDistinct(tally: seq<int>, inds: seq<int>, gain: seq<int>, n: nat)
    requires n <= |inds| == |gain| && forall j :: 0 <= j < |inds| ==> 0 <= inds[j] < |tally|
    requires Distinct(inds)
    ensures forall j :: 0 <= j < n ==> Credit(tally, inds, gain, n)[inds[j]] == tally[inds[j]] + gain[j]
    ensures forall v :: 0 <= v < |tally| && v !in inds[..n] ==> Credit(tally, inds, gain, n)[v] == tally[v]
  {
    if n > 0 {
      CreditDistinct(tally, inds, gain, n - 1);
      var t := Credit(tally, inds, gain, n - 1);
      var w := inds[n - 1];
      var r := Credit(tally, inds, gain, n);
      assert r == Bump(t, w, gain[n - 1]);
      assert inds[..n] == inds[..n - 1] + [w];
      forall j | 0 <= j < n
        ensures r[inds[j]] == tally[inds[j]] + gain[j]
      {
        if j < n - 1 {
          assert inds[j] != w;
        } else {
          ExcludedBefore(inds, n - 1);
        }
      }
      forall v | 0 <= v < |tally| && v !in inds[..n]
        ensures r[v] == tally[v]
      {
        assert v !in inds[..n - 1] && v != w;
      }
    }
  }

  /** In a sequence without repeats, entry `i` is not among those before it. */
  lemma ExcludedBefore(inds: seq<int>, i: nat)
    requires i < |inds| && Distinct(inds)
    ensures inds[i] !in inds[..i]
  {
    assert forall a :: 0 <= a < i ==> inds[..i][a] == inds[a];
  }

  /** What one sweep provides: each replica's new configuration and its
      (accepted, attempted) counts per move kind present in its result, the
      energy terms of the new configurations, and the exchange's new map from
      replica to state with its inverse. */
  datatype SweepOutcome = SweepOutcome(
    confs: seq<Conf>,
    energies: Energies,
    moves: seq<map<MoveType, (int, int)>>,
    stateInds: seq<int>,
    invStateInds: seq<int>)

  /** The shape the sweep results have, and what the exchange is assumed
      to return: a permutation and its inverse. */
  predicate SweepOk(o: SweepOutcome, k: nat) {
    |o.confs| == k && |o.moves| == k && IsPermutation(o.stateInds, k) &&
    |o.invStateInds| == k && Inverts(o.invStateInds, o.stateInds)
  }

  /** Every sweep's outcome is well formed. */
  predicate SweepsOk(outs: seq<SweepOutcome>, k: nat) {
    forall s :: 0 <= s < |outs| ==> SweepOk(outs[s], k)
  }

  /** One move kind's accepted (or attempted) counts, replica by replica. */
  function Gains(moves: seq<map<MoveType, (int, int)>>, m: MoveType, attempted: bool): (r: seq<int>)
    ensures |r| == |moves|
  {
    seq(|moves|, j requires 0 <= j < |moves| =>
      GainOf(moves[j], m, attempted))
  }

  function Identity(k: nat): (r: seq<int>)
    ensures IsPermutation(r, k)
  {
    var r := seq(k, i => i);
    forall v | 0 <= v < k
      ensures v in r
    {
      assert r[v] == v;
    }
    r
  }

  /** The replica-to-state map in force during sweep `n`. */
  function MapDuring(outs: seq<SweepOutcome>, n: nat, k: nat): (r: seq<int>)
    requires n <= |outs| && SweepsOk(outs, k)
    ensures IsPermutation(r, k)
  {
    if n == 0 then Identity(k)
    else assert SweepOk(outs[n - 1], k); outs[n - 1].stateInds
  }

  /** One move kind's statistics tallied by state over the first `n`
      sweeps: each sweep credits the state its replica was simulated in. */
  function Tallied(outs: seq<SweepOutcome>, n: nat, k: nat, m: MoveType, attempted: bool): (r: seq<int>)
    requires n <= |outs| && SweepsOk(outs, k)
    ensures |r| == k
    decreases n
  {
    if n == 0 then seq(k, _ => 0)
    else Credit(Tallied(outs, n - 1, k, m, attempted), MapDuring(outs, n - 1, k),
                Gains(outs[n - 1].moves, m, attempted), k)
  }

  /** Statistics have one slot per state for every move kind. */
  predicate Tally(t: map<MoveType, seq<int>>, k: nat) {
    forall m :: m in MoveTypes ==> m in t && |t[m]| == k
  }

  /** One replica's count of move kind `m`; absent kinds count zero. */
  function GainOf(g: map<MoveType, (int, int)>, m: MoveType, attempted: bool): int {
    if m !in g then 0 else if attempted then g[m].1 else g[m].0
  }

  /** Credits one replica's statistics to the state `v` it was simulated in. */
  method CreditReplica(acc0: map<MoveType, seq<int>>, att0: map<MoveType, seq<int>>, v: int,
                       g: map<MoveType, (int, int)>, k: nat)
    returns (acc: map<MoveType, seq<int>>, att: map<MoveType, seq<int>>)
    requires Tally(acc0, k) && Tally(att0, k) && 0 <= v < k
    ensures Tally(acc, k) && Tally(att, k)
    ensures forall m :: m in MoveTypes ==>
      acc[m] == Bump(acc0[m], v, GainOf(g, m, false)) && att[m] == Bump(att0[m], v, GainOf(g, m, true))
  {
    acc, att := acc0, att0;
    for t := 0 to |MoveTypes|
      invariant Tally(acc, k) && Tally(att, k)
      invariant forall i :: 0 <= i < t ==>
        acc[MoveTypes[i]] == Bump(acc0[MoveTypes[i]], v, GainOf(g, MoveTypes[i], false)) &&
        att[MoveTypes[i]] == Bump(att0[MoveTypes[i]], v, GainOf(g, MoveTypes[i], true))
      invariant forall i :: t <= i < |MoveTypes| ==>
        acc[MoveTypes[i]] == acc0[MoveTypes[i]] && att[MoveTypes[i]] == att0[MoveTypes[i]]
    {
      acc, att := CreditKind(acc, att, MoveTypes[t], v, g, k);
    }
  }

  /** Credits one replica's statistics of one move kind; a kind missing
      from its result leaves the tallies as they are. */
  method CreditKind(acc0: map<MoveType, seq<int>>, att0: map<MoveType, seq<int>>, m: MoveType, v: int,
                    g: map<MoveType, (int, int)>, k: nat)
    returns (acc: map<MoveType, seq<int>>, att: map<MoveType, seq<int>>)
    requires Tally(acc0, k) && Tally(att0, k) && 0 <= v < k && m in MoveTypes
    ensures acc == acc0[m := Bump(acc0[m], v, GainOf(g, m, false))]
    ensures att == att0[m := Bump(att0[m], v, GainOf(g, m, true))]
  {
    if m in g {
      acc := acc0[m := acc0[m][v := acc0[m][v] + g[m].0]];
      att := att0[m := att0[m][v := att0[m][v] + g[m].1]];
    } else {
      acc, att := acc0, att0;
      assert Bump(acc0[m], v, 0) == acc0[m] && Bump(att0[m], v, 0) == att0[m];
    }
  }

  /** Credits one sweep's statistics, replica by replica. */
  method CreditSweep(acc0: map<MoveType, seq<int>>, att0: map<MoveType, seq<int>>, inds: seq<int>,
                     moves: seq<map<MoveType, (int, int)>>, k: nat)
    returns (acc: map<MoveType, seq<int>>, att: map<MoveType, seq<int>>)
    requires Tally(acc0, k) && Tally(att0, k) && IsPermutation(inds, k) && |moves| == k
    ensures Tally(acc, k) && Tally(att, k)
    ensures forall m :: m in MoveTypes ==>
      acc[m] == Credit(acc0[m], inds, Gains(moves, m, false), k) &&
      att[m] == Credit(att0[m], inds, Gains(moves, m, true), k)
  {
    acc, att := acc0, att0;
    for j := 0 to k
      invariant Tally(acc, k) && Tally(att, k)
      invariant forall m :: m in MoveTypes ==>
        acc[m] == Credit(acc0[m], inds, Gains(moves, m, false), j) &&
        att[m] == Credit(att0[m], inds, Gains(moves, m, true), j)
    {
      acc, att := CreditReplica(acc, att, inds[j], moves[j], k);
    }
  }

  /** What a kept sweep stores: the configurations, the replica-to-state
      map after the exchange, and the energy terms. */
  datatype Snap = Snap(confs: seq<Conf>, stateInds: seq<int>, energies: Energies)

  function SnapOf(o: SweepOutcome): Snap {
    Snap(o.confs, o.stateInds, o.energies)
  }

  /** The sweeps kept as snapshots: sweep `n` (from 0) is kept when n + 1
      is a multiple of `snaps`, so the j-th snapshot is sweep
      (j + 1) * snaps - 1, and there are `|outs| / snaps` of them. */
  function KeptSnaps(outs: seq<SweepOutcome>, snaps: nat): (r: seq<Snap>)
    requires snaps > 0
    ensures |r| == |outs| / snaps
  {
    seq(|outs| / snaps, j requires 0 <= j < |outs| / snaps =>
      KeptIndexInRange(|outs|, snaps, j); SnapOf(outs[(j + 1) * snaps - 1]))
  }

  lemma KeptIndexInRange(n: nat, snaps: nat, j: nat)
    requires snaps > 0 && j < n / snaps
    ensures 0 <= (j + 1) * snaps - 1 < n
  {
    DivModUnique(n, snaps, n / snaps, n % snaps);
    assert (j + 1) * snaps <= (n / snaps) * snaps;
  }

  lemma {:induction false} MulAtLeast(d: int, s: int)
    requires d >= 1 && s > 0
    ensures d * s >= s
    decreases d
  {
    if d > 1 {
      MulAtLeast(d - 1, s);
      assert d * s == (d - 1) * s + s;
    }
  }

  lemma DivModUnique(n: int, s: int, q: int, r: int)
    requires s > 0 && 0 <= r < s && n == q * s + r
    ensures n / s == q && n % s == r && n == (n / s) * s + n % s
  {
    var q', r' := n / s, n % s;
    assert n == q' * s + r';
    assert (q - q') * s == r' - r;
    if q > q' {
      MulAtLeast(q - q', s);
    } else if q < q' {
      MulAtLeast(q' - q, s);
    }
  }

  /** Keeping one more sweep: the snapshots of a prefix grow by that sweep
      exactly when it is kept. */
  lemma KeptSnapsStep(outs: seq<SweepOutcome>, snaps: nat, n: nat)
    requires snaps > 0 && n < |outs|
    ensures KeptSnaps(outs[..n + 1], snaps) ==
      if (n + 1) % snaps == 0 then KeptSnaps(outs[..n], snaps) + [SnapOf(outs[n])]
      else KeptSnaps(outs[..n], snaps)
  {
    SnapStep(n, snaps);
    var a, b := KeptSnaps(outs[..n + 1], snaps), KeptSnaps(outs[..n], snaps);
    forall j | 0 <= j < |b|
      ensures a[j] == b[j]
    {
      KeptIndexInRange(n, snaps, j);
    }
    if (n + 1) % snaps == 0 {
      assert a[|b|] == SnapOf(outs[n]);
    }
  }

  /** The snapshots as the sweep loop stores them: after sweep `n - 1`
      (from 0), one more when `n` is a multiple of `snaps`. */
  function Kept(outs: seq<SweepOutcome>, snaps: nat, n: nat): seq<Snap>
    requires snaps > 0 && n <= |outs|
  {
    if n == 0 then []
    else Kept(outs, snaps, n - 1) + if n % snaps == 0 then [SnapOf(outs[n - 1])] else []
  }

  /** The loop's snapshots are the closed form's: snapshot `j` is sweep
      (j + 1) * snaps - 1. */
  lemma {:induction false} KeptClosedForm(outs: seq<SweepOutcome>, snaps: nat, n: nat)
    requires snaps > 0 && n <= |outs|
    ensures Kept(outs, snaps, n) == KeptSnaps(outs[..n], snaps)
  {
    if n == 0 {
      assert outs[..0] == [];
    } else {
      KeptClosedForm(outs, snaps, n - 1);
      KeptSnapsStep(outs, snaps, n - 1);
    }
  }

  /** Whether sweep `n` is kept depends on n + 1 only, and each kept sweep
      adds one to the count. */
  lemma SnapStep(n: nat, snaps: nat)
    requires snaps > 0
    ensures (n + 1) % snaps == 0 ==> (n + 1) / snaps == n / snaps + 1 && (n / snaps + 1) * snaps - 1 == n
    ensures (n + 1) % snaps != 0 ==> (n + 1) / snaps == n / snaps
  {
    var q, r := n / snaps, n % snaps;
    DivModUnique(n, snaps, q, r);
    if r + 1 < snaps {
      DivModUnique(n + 1, snaps, q, r + 1);
    } else {
      DivModUnique(n + 1, snaps, q + 1, 0);
    }
  }

  /** Every move kind's statistics over the first `n` sweeps. */
  function TallyMap(outs: seq<SweepOutcome>, n: nat, k: nat, attempted: bool): (r: map<MoveType, seq<int>>)
    requires n <= |outs| && SweepsOk(outs, k)
    ensures Tally(r, k)
  {
    map[ExternalMC := Tallied(outs, n, k, ExternalMC, attempted),
        SmartDarting := Tallied(outs, n, k, SmartDarting, attempted),
        Sampler := Tallied(outs, n, k, Sampler, attempted)]
  }

  /** What the sweeps have produced so far. */
  datatype Progress = Progress(confs: seq<Conf>, stateInds: seq<int>, acc: map<MoveType, seq<int>>,
                               att: map<MoveType, seq<int>>, store: seq<Snap>)

  /** The progress after the first `n` sweeps, starting from `replicas`
      in the identity map. */
  function Expected(outs: seq<SweepOutcome>, n: nat, k: nat, snaps: nat, replicas: seq<Conf>): Progress
    requires snaps > 0 && n <= |outs| && SweepsOk(outs, k)
  {
    Progress(if n == 0 then replicas else outs[n - 1].confs, MapDuring(outs, n, k),
             TallyMap(outs, n, k, false), TallyMap(outs, n, k, true), Kept(outs, snaps, n))
  }

  /** Two statistics records with a slot list per move kind are equal
      when every kind's list is. */
  lemma TallyExt(a: map<MoveType, seq<int>>, b: map<MoveType, seq<int>>, k: nat)
    requires Tally(a, k) && Tally(b, k)
    requires forall m :: m in MoveTypes ==> a[m] == b[m]
    ensures a == b
  {
    forall m: MoveType
      ensures m in a && m in b && a[m] == b[m]
    {
      assert m == MoveTypes[0] || m == MoveTypes[1] || m == MoveTypes[2];
    }
    assert a.Keys == b.Keys;
  }

  /** Crediting sweep `n` to the statistics of the sweeps before it gives
      the statistics of the sweeps up to and including it. */
  lemma TallyMapStep(outs: seq<SweepOutcome>, n: nat, k: nat, attempted: bool,
                     t: map<MoveType, seq<int>>, t': map<MoveType, seq<int>>)
    requires n < |outs| && SweepsOk(outs, k)
    requires t == TallyMap(outs, n, k, attempted) && Tally(t', k)
    requires forall m :: m in MoveTypes ==>
      t'[m] == Credit(t[m], MapDuring(outs, n, k), Gains(outs[n].moves, m, attempted), k)
    ensures t' == TallyMap(outs, n + 1, k, attempted)
  {
    TallyExt(t', TallyMap(outs, n + 1, k, attempted), k);
  }

  /** One sweep: the replicas' new configurations, the statistics credited
      to the states they were simulated in, the exchange's new map, and the
      snapshot when this sweep is kept. */
  method Sweep(outs: seq<SweepOutcome>, n: nat, k: nat, snaps: nat, replicas: seq<Conf>, p: Progress)
    returns (p': Progress)
    requires snaps > 0 && n < |outs| && SweepsOk(outs, k)
    requires p == Expected(outs, n, k, snaps, replicas)
    ensures p' == Expected(outs, n + 1, k, snaps, replicas)
  {
    var o := outs[n];
    assert SweepOk(o, k);
    var acc', att' := CreditSweep(p.acc, p.att, p.stateInds, o.moves, k);
    TallyMapStep(outs, n, k, false, p.acc, acc');
    TallyMapStep(outs, n, k, true, p.att, att');
    var store' := p.store;
    if (n + 1) % snaps == 0 {
      store' := store' + [Snap(o.confs, o.stateInds, o.energies)];
    }
    p' := Progress(o.confs, o.stateInds, acc', att', store');
  }

  /** Before any sweep: the replicas as given, the identity map, zero
      statistics and no snapshot. */
  lemma SweepsStart(outs: seq<SweepOutcome>, k: nat, snaps: nat, replicas: seq<Conf>)
    requires snaps > 0 && SweepsOk(outs, k)
    ensures Expected(outs, 0, k, snaps, replicas) ==
      Progress(replicas, Identity(k), ZeroTally(k), ZeroTally(k), [])
  {
    assert outs[..0] == [];
  }

  function ZeroTally(k: nat): (r: map<MoveType, seq<int>>)
    ensures Tally(r, k)
  {
    var zeros := seq(k, _ => 0);
    map[ExternalMC := zeros, SmartDarting := zeros, Sampler := zeros]
  }

  /** The sweeps of one cycle: each replica is simulated in the state the
      current map assigns it, the statistics are credited to that state,
      the exchange yields a new map, and every `snaps`-th sweep is kept. */
  method Sweeps(k: nat, snaps: nat, replicas: seq<Conf>, outs: seq<SweepOutcome>) returns (p: Progress)
    requires snaps > 0 && |replicas| == k
    requires SweepsOk(outs, k)
    ensures p == Expected(outs, |outs|, k, snaps, replicas)
  {
    SweepsStart(outs, k, snaps, replicas);
    p := Progress(replicas, Identity(k), ZeroTally(k), ZeroTally(k), []);
    for n := 0 to |outs|
      invariant p == Expected(outs, n, k, snaps, replicas)
    {
      p := Sweep(outs, n, k, snaps, replicas, p);
    }
  }

  /** The progress after every sweep, field by field: the kept
      snapshots, the composed state map, the last configurations, and every
      move kind's statistics summed over all sweeps. */
  lemma ExpectedAtEnd(outs: seq<SweepOutcome>, k: nat, snaps: nat, replicas: seq<Conf>)
    requires snaps > 0 && SweepsOk(outs, k)
    ensures var e := Expected(outs, |outs|, k, snaps, replicas);
      && e.store == KeptSnaps(outs, snaps)
      && e.stateInds == MapDuring(outs, |outs|, k)
      && e.confs == (if outs == [] then replicas else outs[|outs| - 1].confs)
      && Tally(e.acc, k) && Tally(e.att, k)
      && forall m :: m in MoveTypes ==>
        e.acc[m] == Tallied(outs, |outs|, k, m, false) && e.att[m] == Tallied(outs, |outs|, k, m, true)
  {
    KeptClosedForm(outs, snaps, |outs|);
    assert outs[..|outs|] == outs;
  }

  /** Which states keep this cycle's samples: every state when
      intermediate samples are kept, otherwise only the last state and,
      when cooling, the first. */
  predicate Retained(keep: bool, process: Process, k: int, n: int) {
    keep || (process == Cool && k == 0) || k == n - 1
  }

  /** The snapshots have one entry per replica, the energy terms `terms`
      one value per replica, and a permutation as their map. */
  predicate StoreOk(store: seq<Snap>, k: nat, terms: set<Term>) {
    forall s :: 0 <= s < |store| ==>
      |store[s].confs| == k && IsPermutation(store[s].stateInds, k) &&
      forall t :: t in terms ==> t in store[s].energies && |store[s].energies[t]| == k
  }

  function Confs(store: seq<Snap>): (r: seq<seq<Conf>>)
    ensures |r| == |store|
  {
    seq(|store|, s requires 0 <= s < |store| => store[s].confs)
  }

  /** Every snapshot has state `k`'s replica and its terms `terms`. */
  predicate EnergiesFit(store: seq<Snap>, inv: seq<seq<int>>, k: int, terms: set<Term>)
    requires |inv| == |store|
  {
    forall s :: 0 <= s < |store| ==> (0 <= k < |inv[s]| &&
      forall t :: t in terms ==> t in store[s].energies && 0 <= inv[s][k] < |store[s].energies[t]|)
  }

  /** State `k`'s energy terms over the snapshots. */
  function EnergiesByState(store: seq<Snap>, inv: seq<seq<int>>, k: int, terms: set<Term>): Energies
    requires |inv| == |store| && EnergiesFit(store, inv, k, terms)
  {
    map t | t in terms :: seq(|store|, s requires 0 <= s < |store| => store[s].energies[t][inv[s][k]])
  }

  /** The maps from replica to state of the snapshots. */
  function StateIndsOf(store: seq<Snap>): (r: seq<seq<int>>)
    ensures |r| == |store| && forall s :: 0 <= s < |store| ==> r[s] == store[s].stateInds
  {
    seq(|store|, s requires 0 <= s < |store| => store[s].stateInds)
  }

  /** Every state's energy record gains this cycle's terms regrouped by state. */
  function EsAfter(es: seq<seq<Energies>>, store: seq<Snap>, inv: seq<seq<int>>, terms: set<Term>): (r: seq<seq<Energies>>)
    requires |inv| == |store| && forall i :: 0 <= i < |es| ==> EnergiesFit(store, inv, i, terms)
    ensures |r| == |es|
    ensures forall i :: 0 <= i < |es| ==> r[i] == es[i] + [EnergiesByState(store, inv, i, terms)]
  {
    seq(|es|, i requires 0 <= i < |es| => es[i] + [EnergiesByState(store, inv, i, terms)])
  }

  /** Every snapshot's regrouping reads one of its `n` configurations. */
  predicate ConfsFit(store: seq<Snap>, inv: seq<seq<int>>, n: nat)
    requires |inv| == |store|
  {
    forall s :: 0 <= s < |store| ==> (|inv[s]| == n &&
      forall i :: 0 <= i < n ==> 0 <= inv[s][i] < |store[s].confs|)
  }

  /** `inv` holds, for every snapshot, the inverse of its map. */
  predicate InvOk(store: seq<Snap>, inv: seq<seq<int>>, k: nat) {
    |inv| == |store| &&
    forall s :: 0 <= s < |store| ==> IsPermutation(inv[s], k) && Inverts(inv[s], store[s].stateInds)
  }

  /** Inverses of well-formed snapshots' maps index their entries. */
  lemma StoredFits(store: seq<Snap>, inv: seq<seq<int>>, k: nat, terms: set<Term>)
    requires StoreOk(store, k, terms) && InvOk(store, inv, k)
    ensures ConfsFit(store, inv, k) && forall i :: 0 <= i < k ==> EnergiesFit(store, inv, i, terms)
  {
  }

  /** The retained states' samples gain this cycle's configurations
      regrouped by state; the others are unchanged. */
  function SamplesAfter(samples: seq<seq<seq<Conf>>>, store: seq<Snap>, inv: seq<seq<int>>,
                        keep: bool, process: Process): (r: seq<seq<seq<Conf>>>)
    requires |inv| == |store| && ConfsFit(store, inv, |samples|)
    ensures |r| == |samples|
    ensures forall i :: 0 <= i < |samples| ==> (r[i] ==
      if Retained(keep, process, i, |samples|) then samples[i] + [Regroup(Confs(store), inv, i)] else samples[i])
  {
    seq(|samples|, i requires 0 <= i < |samples| =>
      if Retained(keep, process, i, |samples|) then samples[i] + [Regroup(Confs(store), inv, i)] else samples[i])
  }

  /** The replica of each state after the cycle: the configuration that
      was in that state at the last snapshot. */
  function FinalReplicas(last: Snap, lastInv: seq<int>): (r: seq<Conf>)
    requires forall i :: 0 <= i < |lastInv| ==> 0 <= lastInv[i] < |last.confs|
    ensures |r| == |lastInv|
  {
    seq(|lastInv|, i requires 0 <= i < |lastInv| => last.confs[lastInv[i]])
  }

  /** The replica simulated in state `last.stateInds[j]` becomes that
      state's replica, so the new replicas are the last snapshot's
      configurations put in state order. */
  lemma FinalReplicasByState(last: Snap, lastInv: seq<int>, k: nat)
    requires |last.confs| == k && IsPermutation(last.stateInds, k)
    requires |lastInv| == k && Inverts(lastInv, last.stateInds)
    ensures forall i :: 0 <= i < k ==> 0 <= lastInv[i] < k
    ensures forall j :: 0 <= j < k ==> FinalReplicas(last, lastInv)[last.stateInds[j]] == last.confs[j]
    ensures multiset(FinalReplicas(last, lastInv)) == multiset(last.confs)
  {
    InverseIsPermutation(last.stateInds, lastInv, k);
    var r := FinalReplicas(last, lastInv);
    PermutedMultiset(last.confs, lastInv, r, k);
  }

  /** Reading a sequence through a permutation keeps its multiset. */
  lemma {:induction false} PermutedMultiset<T>(xs: seq<T>, p: seq<int>, r: seq<T>, k: nat)
    requires |xs| == k && IsPermutation(p, k) && |r| == k
    requires forall i :: 0 <= i < k ==> r[i] == xs[p[i]]
    ensures multiset(r) == multiset(xs)
    decreases k
  {
    if k > 0 {
      // Drop the entry of r that reads the last element of xs.
      assert k - 1 in p;
      var j :| 0 <= j < k && p[j] == k - 1;
      var p', r' := RemoveAt(p, j), RemoveAt(r, j);
      RemoveLast(p, j, k);
      ReadAfterRemove(xs, p, r, j, k);
      PermutedMultiset(xs[..k - 1], p', r', k - 1);
      RemoveAtMultiset(r, j);
      RemoveAtMultiset(xs, k - 1);
      assert RemoveAt(xs, k - 1) == xs[..k - 1];
    }
  }

  function RemoveAt<T>(s: seq<T>, j: nat): (r: seq<T>)
    requires j < |s|
    ensures |r| == |s| - 1
    ensures forall i :: 0 <= i < |r| ==> r[i] == if i < j then s[i] else s[i + 1]
  {
    s[..j] + s[j + 1..]
  }

  lemma ReadAfterRemove<T>(xs: seq<T>, p: seq<int>, r: seq<T>, j: nat, k: nat)
    requires |xs| == k && |p| == k && |r| == k && j < k && p[j] == k - 1
    requires forall i :: 0 <= i < k ==> 0 <= p[i] < k && (i != j ==> p[i] != k - 1)
    requires forall i :: 0 <= i < k ==> r[i] == xs[p[i]]
    ensures forall i :: 0 <= i < k - 1 ==>
      0 <= RemoveAt(p, j)[i] < k - 1 && RemoveAt(r, j)[i] == xs[..k - 1][RemoveAt(p, j)[i]]
  {
  }

  lemma RemoveAtMultiset<T>(s: seq<T>, j: nat)
    requires j < |s|
    ensures multiset(s) == multiset(RemoveAt(s, j)) + multiset{s[j]}
  {
    assert s == s[..j] + [s[j]] + s[j + 1..];
  }

  /** Removing the entry that holds k - 1 from a permutation of 0 to
      k - 1 leaves a permutation of 0 to k - 2. */
  lemma RemoveLast(p: seq<int>, j: nat, k: nat)
    requires IsPermutation(p, k) && j < k && p[j] == k - 1
    ensures IsPermutation(RemoveAt(p, j), k - 1)
  {
    var p' := RemoveAt(p, j);
    forall i | 0 <= i < k - 1
      ensures 0 <= p'[i] < k - 1
    {
      var i' := if i < j then i else i + 1;
      assert p'[i] == p[i'] && p[i'] != p[j];
    }
    forall a, b | 0 <= a < b < k - 1
      ensures p'[a] != p'[b]
    {
      var a', b' := if a < j then a else a + 1, if b < j then b else b + 1;
      assert p'[a] == p[a'] && p'[b] == p[b'];
    }
    forall v | 0 <= v < k - 1
      ensures v in p'
    {
      assert v in p;
      var i :| 0 <= i < k && p[i] == v;
      if i < j { assert p'[i] == v; } else { assert p'[i - 1] == v; }
    }
  }

  /** Stores a cycle's snapshots in the process, regrouped by state: every
      state's energies, the retained states' samples, and, when there is a
      snapshot, the new replicas and the advanced cycle counter. With no
      snapshot the source fails reading the last one, after the energies
      and samples have been stored; `ok` is false then. */
  method StoreCycle(ps: ProcessState, store: seq<Snap>, keep: bool, process: Process, terms: set<Term>)
    returns (inv: seq<seq<int>>, ok: bool)
    requires Parallel(ps.Snapshot()) && StoreOk(store, |ps.protocol|, terms)
    modifies ps
    ensures ps.protocol == old(ps.protocol) && InvOk(store, inv, |ps.protocol|)
    ensures ConfsFit(store, inv, |ps.protocol|)
    ensures forall i :: 0 <= i < |ps.protocol| ==> EnergiesFit(store, inv, i, terms)
    ensures ps.es == EsAfter(old(ps.es), store, inv, terms)
    ensures ps.samples == SamplesAfter(old(ps.samples), store, inv, keep, process)
    ensures ok <==> |store| > 0
    ensures ok ==> ps.replicas == FinalReplicas(Last(store), Last(inv)) && ps.cycle == old(ps.cycle) + 1
    ensures !ok ==> ps.replicas == old(ps.replicas) && ps.cycle == old(ps.cycle)
    ensures Parallel(ps.Snapshot())
  {
    var k := |ps.protocol|;
    var stateInds := StateIndsOf(store);
    inv := InvertStateInds(stateInds, k);
    StoredFits(store, inv, k, terms);
    StoreEnergies(ps, store, inv, terms);
    StoreSamples(ps, store, inv, keep, process);
    ok := |store| > 0;
    if ok {
      ps.replicas := FinalReplicas(Last(store), Last(inv));
      ps.cycle := ps.cycle + 1;
    }
  }

  /** Appends to every state's energies its terms over the snapshots. */
  method StoreEnergies(ps: ProcessState, store: seq<Snap>, inv: seq<seq<int>>, terms: set<Term>)
    requires |inv| == |store| && forall i :: 0 <= i < |ps.es| ==> EnergiesFit(store, inv, i, terms)
    modifies ps
    ensures ps.Snapshot() == old(ps.Snapshot()).(es := EsAfter(old(ps.es), store, inv, terms))
  {
    var k := |ps.es|;
    for i := 0 to k
      invariant ps.Snapshot() == old(ps.Snapshot()).(es := ps.es)
      invariant |ps.es| == k
      invariant forall j :: 0 <= j < k ==>
        ps.es[j] == if j < i then old(ps.es[j]) + [EnergiesByState(store, inv, j, terms)] else old(ps.es[j])
    {
      ps.es := ps.es[i := ps.es[i] + [EnergiesByState(store, inv, i, terms)]];
    }
  }

  /** Appends to every retained state's samples its configurations over
      the snapshots. */
  method StoreSamples(ps: ProcessState, store: seq<Snap>, inv: seq<seq<int>>, keep: bool, process: Process)
    requires |inv| == |store| && ConfsFit(store, inv, |ps.samples|)
    modifies ps
    ensures ps.Snapshot() == old(ps.Snapshot()).(samples := SamplesAfter(old(ps.samples), store, inv, keep, process))
  {
    var k := |ps.samples|;
    for i := 0 to k
      invariant ps.Snapshot() == old(ps.Snapshot()).(samples := ps.samples)
      invariant |ps.samples| == k
      invariant forall j :: 0 <= j < k ==>
        ps.samples[j] == if j < i && Retained(keep, process, j, k)
          then old(ps.samples[j]) + [Regroup(Confs(store), inv, j)] else old(ps.samples[j])
    {
      if Retained(keep, process, i, k) {
        ps.samples := ps.samples[i := ps.samples[i] + [Regroup(Confs(store), inv, i)]];
      }
    }
  }

  /** The energy terms a cycle records: the molecular-mechanics term, the
      implicit solvent term when cooling, and when docking either the pose
      restraints or the site term, with the scalable interaction terms. */
  function CycleTerms(process: Process, p: Params): (r: set<Term>)
    ensures MM in r
    ensures process == Cool ==> r == {MM, OBC}
    ensures process == Dock ==> ((forall t :: t in Scalables ==> t in r) &&
      (Site in r <==> p.pose <= -1) && (KSpatialExt in r <==> p.pose > -1))
  {
    if process == Cool then {MM, OBC}
    else
      var restraintsOrSite := if p.pose > -1 then {KAngularExt, KSpatialExt, KAngularInt} else {Site};
      {MM} + restraintsOrSite + {OBC, SLJr, SELE, LJr, LJa, ELE}
  }

  /** A sweep's energy record has every recorded term, one value per replica. */
  predicate EnergiesOk(o: SweepOutcome, terms: set<Term>, k: nat) {
    forall t :: t in terms ==> t in o.energies && |o.energies[t]| == k
  }

  /** The kept snapshots meet what storing them needs. */
  lemma KeptStoreOk(outs: seq<SweepOutcome>, snaps: nat, k: nat, terms: set<Term>)
    requires snaps > 0
    requires SweepsOk(outs, k) && forall s :: 0 <= s < |outs| ==> EnergiesOk(outs[s], terms, k)
    ensures StoreOk(KeptSnaps(outs, snaps), k, terms)
  {
    var store := KeptSnaps(outs, snaps);
    forall s | 0 <= s < |store|
      ensures |store[s].confs| == k && IsPermutation(store[s].stateInds, k)
      ensures forall t :: t in terms ==> t in store[s].energies && |store[s].energies[t]| == k
    {
      KeptIndexInRange(|outs|, snaps, s);
      var o := outs[(s + 1) * snaps - 1];
      assert SweepOk(o, k) && EnergiesOk(o, terms, k);
    }
  }

  /** A cycle keeps a snapshot exactly when it has at least `snaps` sweeps. */
  lemma SomeSnapshot(n: nat, snaps: nat)
    requires snaps > 0
    ensures n / snaps > 0 <==> n >= snaps
  {
    DivModUnique(n, snaps, n / snaps, n % snaps);
    if n / snaps > 0 {
      MulAtLeast(n / snaps, snaps);
    }
  }

  /** The sampler's acceptance rate the step rule sees for state `k`. */
  function SamplerRate(outs: seq<SweepOutcome>, n: nat, k: nat, i: nat): real
    requires n <= |outs| && i < k && SweepsOk(outs, k)
  {
    RuleRate(Tallied(outs, n, k, Sampler, false)[i], Tallied(outs, n, k, Sampler, true)[i])
  }

  /** One replica-exchange cycle of a process: the sweeps, the in-place
      adaptation of the sampler's step when it is Hamiltonian Monte Carlo,
      and the storing of the snapshots by state. The process's replica list
      is the one the sweeps overwrite, so when no snapshot was kept (and
      the source stops with an index error) it holds the last sweep's
      configurations. */
  method ReplicaExchangeCycle(ps: ProcessState, p: Params, process: Process, keep: bool, snaps: nat,
                              hmc: bool, stepsPerSweep: int, fs: real, outs: seq<SweepOutcome>)
    returns (store: seq<Snap>, inv: seq<seq<int>>, ok: bool, acc: map<MoveType, seq<int>>, att: map<MoveType, seq<int>>)
    requires Parallel(ps.Snapshot()) && snaps > 0 && fs > 0.0 && SweepsOk(outs, |ps.protocol|)
    requires forall s :: 0 <= s < |outs| ==> EnergiesOk(outs[s], CycleTerms(process, p), |ps.protocol|)
    requires hmc ==> forall i :: 0 <= i < |ps.protocol| ==> Tuned(ps.protocol[i])
    modifies ps
    ensures store == KeptSnaps(outs, snaps)
    ensures |ps.protocol| == |old(ps.protocol)| && InvOk(store, inv, |ps.protocol|)
    ensures ConfsFit(store, inv, |ps.protocol|)
    ensures acc == TallyMap(outs, |outs|, |ps.protocol|, false)
    ensures att == TallyMap(outs, |outs|, |ps.protocol|, true)
    ensures forall i :: 0 <= i < |ps.protocol| ==> EnergiesFit(store, inv, i, CycleTerms(process, p))
    ensures forall i :: 0 <= i < |ps.protocol| ==> (ps.protocol[i] ==
      if hmc then Retuned(old(ps.protocol[i]), SamplerRate(outs, |outs|, |ps.protocol|, i), stepsPerSweep, fs)
      else old(ps.protocol[i]))
    ensures ps.es == EsAfter(old(ps.es), store, inv, CycleTerms(process, p))
    ensures ps.samples == SamplesAfter(old(ps.samples), store, inv, keep, process)
    ensures ok <==> |store| > 0
    ensures ok <==> |outs| >= snaps
    ensures ok ==> (ps.replicas == FinalReplicas(Last(store), Last(inv)) && ps.cycle == old(ps.cycle) + 1)
    ensures !ok ==> (ps.cycle == old(ps.cycle) &&
      ps.replicas == if outs == [] then old(ps.replicas) else Last(outs).confs)
    ensures Parallel(ps.Snapshot())
  {
    var k := |ps.protocol|;
    var terms := CycleTerms(process, p);
    var swept := Sweeps(k, snaps, ps.replicas, outs);
    assert swept.store == KeptSnaps(outs, snaps) &&
           swept.confs == (if outs == [] then ps.replicas else outs[|outs| - 1].confs) by {
      ExpectedAtEnd(outs, k, snaps, ps.replicas);
    }
    store := swept.store;
    acc, att := swept.acc, swept.att;
    ps.replicas := swept.confs;
    if hmc {
      var rates := seq(k, i requires 0 <= i < k => RuleRate(swept.acc[Sampler][i], swept.att[Sampler][i]));
      assert forall i :: 0 <= i < k ==> rates[i] == SamplerRate(outs, |outs|, k, i);
      AdaptHmc(ps, rates, stepsPerSweep, fs);
    }
    assert StoreOk(store, k, terms) by {
      KeptStoreOk(outs, snaps, k, terms);
    }
    assert |store| > 0 <==> |outs| >= snaps by {
      SomeSnapshot(|outs|, snaps);
    }
    inv, ok := StoreCycle(ps, store, keep, process, terms);
  }
}
