/** How the aggregate external-internal and external-external demand is added to the auto class
    matrices (import_auto_demand.py, `add_aggregate_demand`): every aggregate matrix is split into
    three equal parts, one for each value-of-time tier. */
module AggregateRules {
  import opened Outcomes
  import opened Matrices
  import opened Keys

  /** The share of an aggregate matrix each value-of-time tier receives. */
  const Third: real := 1.0 / 3.0

  // ---------------------------------------------------------------------------------------------
  // External-internal trips: all SOV trips go to the transponder class SOV_TR

  /** The matrices external-internal trips are added to. */
  predicate IsEiTarget(k: MatrixName) {
    k.SovTr? || k.Hov2? || k.Hov3?
  }

  /** The general-purpose mode whose trips go to target `k`, added first. */
  function FirstEiMode(k: MatrixName): EiMode
    requires IsEiTarget(k)
  {
    if k.SovTr? then SovGp else if k.Hov2? then Hov2Hov else Hov3Hov
  }

  /** The toll mode whose trips go to target `k`, added right after the general-purpose mode. */
  function SecondEiMode(k: MatrixName): (m: EiMode)
    requires IsEiTarget(k)
    ensures EiModeIndex(m) == EiModeIndex(FirstEiMode(k)) + 1
  {
    if k.SovTr? then SovToll else if k.Hov2? then Hov2Toll else Hov3Toll
  }

  /** `modes_assign`: SOVGP and SOVTOLL go to SOV_TR, HOV2HOV and HOV2TOLL to HOV2, HOV3HOV and
      HOV3TOLL to HOV3, each in the value-of-time tier `v`. */
  function EiTarget(p: Period, m: EiMode, v: Vot): (k: MatrixName)
    ensures IsEiTarget(k) && k.p == p && k.v == v
    ensures m == FirstEiMode(k) || m == SecondEiMode(k)
  {
    match m
    case SovGp => SovTr(p, v)
    case SovToll => SovTr(p, v)
    case Hov2Hov => Hov2(p, v)
    case Hov2Toll => Hov2(p, v)
    case Hov3Hov => Hov3(p, v)
    case Hov3Toll => Hov3(p, v)
  }

  /** Exactly two modes go to each target: the two modes of a target name it as theirs. */
  lemma EiModesOfTarget(k: MatrixName)
    requires IsEiTarget(k)
    ensures EiTarget(k.p, FirstEiMode(k), k.v) == k && EiTarget(k.p, SecondEiMode(k), k.v) == k
  {
  }

  /** Position of the calculation for (period, mode, tier) in the pass: periods outermost, then
      modes, then tiers. */
  function EiPos(p: Period, m: EiMode, v: Vot): nat {
    PeriodIndex(p) * 18 + EiModeIndex(m) * 3 + VotIndex(v)
  }

  /** The nested loops over periods, modes and tiers visit the positions in order. */
  lemma EiPosAt(pi: nat, mi: nat, vi: nat)
    requires pi < |Periods| && mi < |EiModes| && vi < |Vots|
    ensures EiPos(Periods[pi], EiModes[mi], Vots[vi]) == pi * 18 + mi * 3 + vi
  {
    PeriodIndexAt(pi);
    EiModeIndexAt(mi);
    VotIndexAt(vi);
  }

  /** The pass runs 90 calculations, each at its own position. */
  lemma EiPosInjective(p: Period, m: EiMode, v: Vot, p': Period, m': EiMode, v': Vot)
    requires EiPos(p, m, v) == EiPos(p', m', v')
    ensures p == p' && m == m' && v == v'
  {
  }


  /** The matrices one external-internal calculation reads. */
  predicate EiSpecReady(store: map<MatrixName, Matrix>, p: Period, m: EiMode, v: Vot) {
    && EiTarget(p, m, v) in store
    && EiTrips(p, m, Work) in store
    && EiTrips(p, m, NonWork) in store
  }

  /** The first matrix of calculation (`p`, `m`, `v`) missing from the databank, in the order the
      calculator reads them: the target, the work trips, the non-work trips. */
  function EiCheck(store: map<MatrixName, Matrix>, p: Period, m: EiMode, v: Vot): (r: Outcome<Error>)
    ensures r.Pass? <==> EiSpecReady(store, p, m, v)
    ensures r.Fail? ==> r.error.MissingMatrix? && r.error.name !in store
    ensures r.Fail? ==>
      r.error.name == EiTarget(p, m, v) || r.error.name == EiTrips(p, m, Work) || r.error.name == EiTrips(p, m, NonWork)
  {
    if EiTarget(p, m, v) !in store then Fail(MissingMatrix(EiTarget(p, m, v)))
    else if EiTrips(p, m, Work) !in store then Fail(MissingMatrix(EiTrips(p, m, Work)))
    else if EiTrips(p, m, NonWork) !in store then Fail(MissingMatrix(EiTrips(p, m, NonWork)))
    else Pass
  }

  /** Every matrix the external-internal pass reads is in the databank. */
  ghost predicate EiReady(store: map<MatrixName, Matrix>) {
    forall p, m, v :: EiSpecReady(store, p, m, v)
  }

  /** The expression `target + (1.0/3.0)*work + (1.0/3.0)*nonwork`. */
  function EiUpdate(target: Matrix, work: Matrix, nonWork: Matrix): (r: Matrix)
    requires Square(target) && Square(work) && Square(nonWork)
    requires |work| == |target| && |nonWork| == |target|
    ensures IsZoneMatrix(r, |target|)
  {
    Add(Add(target, Scale(work, Third)), Scale(nonWork, Third))
  }

  /** One calculation of mode `m` on matrix `k` as it stands, with the aggregate matrices as they were
      at the start; a calculation whose matrices are missing changes nothing (the pass stops there). */
  function EiStep(s0: map<MatrixName, Matrix>, zones: nat, p: Period, m: EiMode, v: Vot, current: Matrix): (r: Matrix)
    requires AllZoneMatrices(s0, zones) && IsZoneMatrix(current, zones)
    ensures IsZoneMatrix(r, zones)
  {
    if EiSpecReady(s0, p, m, v) then
      EiUpdate(current, s0[EiTrips(p, m, Work)], s0[EiTrips(p, m, NonWork)])
    else current
  }

  /** A calculation whose matrices are there adds a third of the mode's work and non-work trips. */
  lemma EiStepCells(s0: map<MatrixName, Matrix>, zones: nat, p: Period, m: EiMode, v: Vot, current: Matrix, i: nat, j: nat)
    requires AllZoneMatrices(s0, zones) && IsZoneMatrix(current, zones) && EiSpecReady(s0, p, m, v)
    requires i < zones && j < zones
    ensures EiStep(s0, zones, p, m, v, current)[i][j] ==
      current[i][j] + (s0[EiTrips(p, m, Work)][i][j] + s0[EiTrips(p, m, NonWork)][i][j]) * Third
  {
  }

  /** Matrix `k` once the first `n` calculations of the pass have run. */
  function EiAt(s0: map<MatrixName, Matrix>, zones: nat, k: MatrixName, n: nat): (r: Matrix)
    requires AllZoneMatrices(s0, zones) && k in s0
    ensures IsZoneMatrix(r, zones)
  {
    if IsEiTarget(k) then
      var first := FirstEiMode(k);
      var second := SecondEiMode(k);
      var a := if EiPos(k.p, first, k.v) < n then EiStep(s0, zones, k.p, first, k.v, s0[k]) else s0[k];
      if EiPos(k.p, second, k.v) < n then EiStep(s0, zones, k.p, second, k.v, a) else a
    else s0[k]
  }

  /** Matrix `k` of databank `s`, that is `s[k]` under a name of its own. The progress predicates
      below state matrix values through it rather than through `s[k]`, so that the solver consults
      them only where a proof names the matrix; this keeps the proofs of the passes small. */
  function Held(s: map<MatrixName, Matrix>, k: MatrixName): Matrix
    requires k in s
  {
    s[k]
  }

  /** The number of calculations in the external-internal pass. */
  const EiCount: nat := |Periods| * |EiModes| * |Vots|

  /** The databank after the whole external-internal pass. */
  function EiResult(s0: map<MatrixName, Matrix>, zones: nat): (s: map<MatrixName, Matrix>)
    requires AllZoneMatrices(s0, zones)
    ensures s.Keys == s0.Keys && AllZoneMatrices(s, zones)
  {
    map k | k in s0 :: EiAt(s0, zones, k, EiCount)
  }

  /** Every calculation before position `n` of the external-internal pass finds its matrices. */
  ghost predicate EiReadyBefore(s0: map<MatrixName, Matrix>, n: nat) {
    forall p, m, v {:trigger EiSpecReady(s0, p, m, v)} | EiPos(p, m, v) < n :: EiSpecReady(s0, p, m, v)
  }

  /** `s` is the databank after the first `n` calculations of the external-internal pass started
      from `s0`, each of which found its matrices. */
  ghost predicate EiDone(s0: map<MatrixName, Matrix>, zones: nat, s: map<MatrixName, Matrix>, n: nat) {
    AllZoneMatrices(s0, zones) && EiValuesAt(s0, zones, s, n) && EiReadyBefore(s0, n)
  }

  /** Midway through the external-internal pass every matrix is still a zones by zones array. */
  lemma EiDoneZones(s0: map<MatrixName, Matrix>, zones: nat, s: map<MatrixName, Matrix>, n: nat)
    requires EiDone(s0, zones, s, n)
    ensures AllZoneMatrices(s, zones)
  {
    forall k | k in s ensures IsZoneMatrix(s[k], zones) {
      assert Held(s, k) == EiAt(s0, zones, k, n);
    }
  }

  /** Every matrix of `s` is as the first `n` calculations of the external-internal pass leave it. */
  ghost predicate EiValuesAt(s0: map<MatrixName, Matrix>, zones: nat, s: map<MatrixName, Matrix>, n: nat)
    requires AllZoneMatrices(s0, zones)
  {
    s.Keys == s0.Keys && forall k | k in s :: Held(s, k) == EiAt(s0, zones, k, n)
  }

  /** Before the pass, nothing has run. */
  lemma EiDoneStart(s0: map<MatrixName, Matrix>, zones: nat)
    requires AllZoneMatrices(s0, zones)
    ensures EiDone(s0, zones, s0, 0)
  {
  }

  /** A calculation that finds its matrices extends the run of calculations that did. */
  lemma EiReadyNext(s0: map<MatrixName, Matrix>, p: Period, m: EiMode, v: Vot)
    requires EiReadyBefore(s0, EiPos(p, m, v)) && EiSpecReady(s0, p, m, v)
    ensures EiReadyBefore(s0, EiPos(p, m, v) + 1)
  {
    forall p', m', v' | EiPos(p', m', v') < EiPos(p, m, v) + 1 ensures EiSpecReady(s0, p', m', v') {
      if EiPos(p', m', v') == EiPos(p, m, v) {
        EiPosInjective(p', m', v', p, m, v);
      }
    }
  }

  /** Midway through the pass, the matrices calculation (`p`, `m`, `v`) reads are the zone
      matrices the pass started from, and its target is a zone matrix. */
  lemma EiDoneFrame(s0: map<MatrixName, Matrix>, zones: nat, s: map<MatrixName, Matrix>, p: Period, m: EiMode, v: Vot)
    requires EiDone(s0, zones, s, EiPos(p, m, v)) && EiSpecReady(s0, p, m, v)
    ensures
      var t, w, nw := EiTarget(p, m, v), EiTrips(p, m, Work), EiTrips(p, m, NonWork);
      && t in s && w in s && nw in s
      && s[w] == s0[w] && s[nw] == s0[nw]
      && IsZoneMatrix(s[t], zones) && IsZoneMatrix(s[w], zones) && IsZoneMatrix(s[nw], zones)
  {
    var n := EiPos(p, m, v);
    var t, w, nw := EiTarget(p, m, v), EiTrips(p, m, Work), EiTrips(p, m, NonWork);
    assert Held(s, t) == EiAt(s0, zones, t, n);
    assert Held(s, w) == EiAt(s0, zones, w, n) && Held(s, nw) == EiAt(s0, zones, nw, n);
  }

  /** Calculation (`p`, `m`, `v`), run on its target as the pass left it, takes the pass one
      position further. */
  lemma EiDoneNext(s0: map<MatrixName, Matrix>, zones: nat, s: map<MatrixName, Matrix>, p: Period, m: EiMode, v: Vot, s': map<MatrixName, Matrix>)
    requires EiDone(s0, zones, s, EiPos(p, m, v)) && EiSpecReady(s0, p, m, v)
    requires EiTarget(p, m, v) in s && IsZoneMatrix(s[EiTarget(p, m, v)], zones)
    requires s' == s[EiTarget(p, m, v) := EiStep(s0, zones, p, m, v, s[EiTarget(p, m, v)])]
    ensures EiDone(s0, zones, s', EiPos(p, m, v) + 1)
  {
    EiValuesNext(s0, zones, s, p, m, v, s');
    EiReadyNext(s0, p, m, v);
  }

  /** Calculation (`p`, `m`, `v`) changes its target as the pass goes one position further. */
  lemma EiValuesNext(s0: map<MatrixName, Matrix>, zones: nat, s: map<MatrixName, Matrix>, p: Period, m: EiMode, v: Vot, s': map<MatrixName, Matrix>)
    requires AllZoneMatrices(s0, zones) && EiValuesAt(s0, zones, s, EiPos(p, m, v))
    requires EiTarget(p, m, v) in s && IsZoneMatrix(s[EiTarget(p, m, v)], zones)
    requires s' == s[EiTarget(p, m, v) := EiStep(s0, zones, p, m, v, s[EiTarget(p, m, v)])]
    ensures EiValuesAt(s0, zones, s', EiPos(p, m, v) + 1)
  {
    forall k | k in s' ensures Held(s', k) == EiAt(s0, zones, k, EiPos(p, m, v) + 1) {
      EiKeyNext(s0, zones, k, p, m, v, Held(s, k), s'[k]);
    }
  }

  /** Calculation (`p`, `m`, `v`) takes matrix `k` from where the pass left it to one position
      further. */
  lemma EiKeyNext(s0: map<MatrixName, Matrix>, zones: nat, k: MatrixName, p: Period, m: EiMode, v: Vot, before: Matrix, after: Matrix)
    requires AllZoneMatrices(s0, zones) && k in s0 && before == EiAt(s0, zones, k, EiPos(p, m, v))
    requires after == if k == EiTarget(p, m, v) then EiStep(s0, zones, p, m, v, before) else before
    ensures after == EiAt(s0, zones, k, EiPos(p, m, v) + 1)
  {
    if k == EiTarget(p, m, v) {
      EiAtTarget(s0, zones, p, m, v);
    } else {
      EiAtOther(s0, zones, k, p, m, v);
    }
  }

  /** Calculation (`p`, `m`, `v`) is the next one its target undergoes. */
  lemma EiAtTarget(s0: map<MatrixName, Matrix>, zones: nat, p: Period, m: EiMode, v: Vot)
    requires AllZoneMatrices(s0, zones) && EiTarget(p, m, v) in s0
    ensures
      var n, t := EiPos(p, m, v), EiTarget(p, m, v);
      EiAt(s0, zones, t, n + 1) == EiStep(s0, zones, p, m, v, EiAt(s0, zones, t, n))
  {
  }

  /** Calculation (`p`, `m`, `v`) leaves every matrix but its target as it was. */
  lemma EiAtOther(s0: map<MatrixName, Matrix>, zones: nat, k: MatrixName, p: Period, m: EiMode, v: Vot)
    requires AllZoneMatrices(s0, zones) && k in s0 && k != EiTarget(p, m, v)
    ensures EiAt(s0, zones, k, EiPos(p, m, v) + 1) == EiAt(s0, zones, k, EiPos(p, m, v))
  {
    var n := EiPos(p, m, v);
    if IsEiTarget(k) {
      var first, second := FirstEiMode(k), SecondEiMode(k);
      if EiPos(k.p, first, k.v) == n {
        EiPosInjective(k.p, first, k.v, p, m, v);
      }
      if EiPos(k.p, second, k.v) == n {
        EiPosInjective(k.p, second, k.v, p, m, v);
      }
    }
  }

  /** Midway through the pass, calculation (`p`, `m`, `v`) run on the databank as it stands,
      its matrices all there, takes the pass one position further. */
  lemma EiRunStep(s0: map<MatrixName, Matrix>, zones: nat, s: map<MatrixName, Matrix>, p: Period, m: EiMode, v: Vot)
    requires EiDone(s0, zones, s, EiPos(p, m, v)) && EiSpecReady(s, p, m, v)
    ensures IsZoneMatrix(s[EiTarget(p, m, v)], zones) && IsZoneMatrix(s[EiTrips(p, m, Work)], zones)
    ensures IsZoneMatrix(s[EiTrips(p, m, NonWork)], zones) && EiSpecReady(s0, p, m, v)
    ensures EiDone(s0, zones, EiApplied(s, p, m, v), EiPos(p, m, v) + 1)
  {
    EiDoneFrame(s0, zones, s, p, m, v);
    EiDoneNext(s0, zones, s, p, m, v, EiApplied(s, p, m, v));
  }

  /** The databank after calculation (`p`, `m`, `v`) runs on `s`: its target updated from the
      matrices as they stand. */
  function EiApplied(s: map<MatrixName, Matrix>, p: Period, m: EiMode, v: Vot): (r: map<MatrixName, Matrix>)
    requires EiSpecReady(s, p, m, v)
    requires Square(s[EiTarget(p, m, v)]) && Square(s[EiTrips(p, m, Work)]) && Square(s[EiTrips(p, m, NonWork)])
    requires |s[EiTrips(p, m, Work)]| == |s[EiTarget(p, m, v)]| && |s[EiTrips(p, m, NonWork)]| == |s[EiTarget(p, m, v)]|
    ensures r.Keys == s.Keys
  {
    var t := EiTarget(p, m, v);
    s[t := EiUpdate(s[t], s[EiTrips(p, m, Work)], s[EiTrips(p, m, NonWork)])]
  }

  /** A calculation leaves every matrix a zones by zones array. */
  lemma EiUpdateZones(s: map<MatrixName, Matrix>, zones: nat, t: MatrixName, w: MatrixName, nw: MatrixName)
    requires AllZoneMatrices(s, zones) && t in s && w in s && nw in s
    ensures AllZoneMatrices(s[t := EiUpdate(s[t], s[w], s[nw])], zones)
  {
  }

  /** Midway through the pass, a matrix calculation (`p`, `m`, `v`) reads that is not in the
      databank was not there at the start: the pass stops at that calculation. */
  lemma EiMissing(s0: map<MatrixName, Matrix>, zones: nat, s: map<MatrixName, Matrix>, p: Period, m: EiMode, v: Vot, name: MatrixName)
    requires EiDone(s0, zones, s, EiPos(p, m, v)) && name !in s
    requires name == EiTarget(p, m, v) || name == EiTrips(p, m, Work) || name == EiTrips(p, m, NonWork)
    ensures name !in s0 && EiStoppedAt(s0, zones, s, p, m, v)
  {
  }

  /** Once every calculation of the pass has run, the databank is the result of the pass, and every
      calculation found its matrices. */
  lemma EiDoneAll(s0: map<MatrixName, Matrix>, zones: nat, s: map<MatrixName, Matrix>)
    requires EiDone(s0, zones, s, |Periods| * 18)
    ensures EiReady(s0) && s == EiResult(s0, zones)
  {
    assert EiCount == |Periods| * 18;
    forall k | k in s ensures s[k] == EiResult(s0, zones)[k] {
      assert Held(s, k) == EiAt(s0, zones, k, EiCount);
    }
    forall p, m, v ensures EiSpecReady(s0, p, m, v) {
      assert EiPos(p, m, v) < EiCount;
    }
  }

  /** The pass stopped at calculation (`p`, `m`, `v`), whose matrices are not all there, after
      every calculation before it ran. */
  ghost predicate EiStoppedAt(s0: map<MatrixName, Matrix>, zones: nat, s: map<MatrixName, Matrix>, p: Period, m: EiMode, v: Vot) {
    EiDone(s0, zones, s, EiPos(p, m, v)) && !EiSpecReady(s0, p, m, v)
  }

  /** The external-internal pass stopped with error `e`: a matrix missing from the databank from
      the start, at a calculation reached after every calculation before it ran. */
  ghost predicate EiStopped(s0: map<MatrixName, Matrix>, zones: nat, s: map<MatrixName, Matrix>, e: Error) {
    e.MissingMatrix? && e.name !in s0 && exists p, m, v :: EiStoppedAt(s0, zones, s, p, m, v)
  }

  /** A pass that stops is one whose matrices were not all there. */
  lemma EiStoppedNotReady(s0: map<MatrixName, Matrix>, zones: nat, s: map<MatrixName, Matrix>, p: Period, m: EiMode, v: Vot)
    requires EiStoppedAt(s0, zones, s, p, m, v)
    ensures !EiReady(s0)
  {
  }

  /** After the external-internal pass, each cell of SOV_TR, HOV2 and HOV3 has gained one third of
      the work and non-work trips of both of its modes; every other matrix is unchanged. */
  lemma EiResultCells(s0: map<MatrixName, Matrix>, zones: nat, k: MatrixName, i: nat, j: nat)
    requires AllZoneMatrices(s0, zones) && EiReady(s0) && k in s0 && i < zones && j < zones
    ensures !IsEiTarget(k) ==> EiResult(s0, zones)[k] == s0[k]
    ensures IsEiTarget(k) ==>
      var first, second := FirstEiMode(k), SecondEiMode(k);
      EiResult(s0, zones)[k][i][j] == s0[k][i][j] +
        (s0[EiTrips(k.p, first, Work)][i][j] + s0[EiTrips(k.p, first, NonWork)][i][j]
         + s0[EiTrips(k.p, second, Work)][i][j] + s0[EiTrips(k.p, second, NonWork)][i][j]) * Third
  {
    if IsEiTarget(k) {
      var first, second := FirstEiMode(k), SecondEiMode(k);
      var a := EiStep(s0, zones, k.p, first, k.v, s0[k]);
      EiResultTarget(s0, zones, k);
      EiStepCells(s0, zones, k.p, first, k.v, s0[k], i, j);
      EiStepCells(s0, zones, k.p, second, k.v, a, i, j);
    }
  }

  /** After the pass, target `k` has undergone the calculations of both of its modes. */
  lemma EiResultTarget(s0: map<MatrixName, Matrix>, zones: nat, k: MatrixName)
    requires AllZoneMatrices(s0, zones) && EiReady(s0) && k in s0 && IsEiTarget(k)
    ensures
      var first, second := FirstEiMode(k), SecondEiMode(k);
      && EiSpecReady(s0, k.p, first, k.v) && EiSpecReady(s0, k.p, second, k.v)
      && EiResult(s0, zones)[k] == EiStep(s0, zones, k.p, second, k.v, EiStep(s0, zones, k.p, first, k.v, s0[k]))
  {
    var first, second := FirstEiMode(k), SecondEiMode(k);
    assert EiSpecReady(s0, k.p, first, k.v) && EiSpecReady(s0, k.p, second, k.v);
    assert EiPos(k.p, second, k.v) < EiCount;
  }

  /** The three tiers of a target together receive the whole external-internal demand of its two
      modes: the split into three equal parts neither loses nor creates trips. */
  lemma EiSplitConserves(s0: map<MatrixName, Matrix>, zones: nat, k: MatrixName, i: nat, j: nat)
    requires AllZoneMatrices(s0, zones) && EiReady(s0) && IsEiTarget(k) && i < zones && j < zones
    ensures
      var low, med, high := k.(v := L), k.(v := M), k.(v := H);
      var first, second := FirstEiMode(k), SecondEiMode(k);
      && EiSpecReady(s0, k.p, first, L) && EiSpecReady(s0, k.p, second, L)
      && low in s0 && med in s0 && high in s0
      && (EiResult(s0, zones)[low][i][j] - s0[low][i][j])
         + (EiResult(s0, zones)[med][i][j] - s0[med][i][j])
         + (EiResult(s0, zones)[high][i][j] - s0[high][i][j])
         == s0[EiTrips(k.p, first, Work)][i][j] + s0[EiTrips(k.p, first, NonWork)][i][j]
            + s0[EiTrips(k.p, second, Work)][i][j] + s0[EiTrips(k.p, second, NonWork)][i][j]
  {
    var low, med, high := k.(v := L), k.(v := M), k.(v := H);
    assert EiSpecReady(s0, k.p, SecondEiMode(k), L);
    assert EiSpecReady(s0, k.p, FirstEiMode(k), L) && EiTarget(k.p, FirstEiMode(k), L) == low;
    assert EiSpecReady(s0, k.p, FirstEiMode(k), M) && EiTarget(k.p, FirstEiMode(k), M) == med;
    assert EiSpecReady(s0, k.p, FirstEiMode(k), H) && EiTarget(k.p, FirstEiMode(k), H) == high;
    EiResultCells(s0, zones, low, i, j);
    EiResultCells(s0, zones, med, i, j);
    EiResultCells(s0, zones, high, i, j);
  }

  // ---------------------------------------------------------------------------------------------
  // External-external trips: all SOV trips go to the non-transponder class SOV_NT, and only the
  // cells between two external zones change

  /** The matrices external-external trips are added to. */
  predicate IsEeTarget(k: MatrixName) {
    k.SovNt? || k.Hov2? || k.Hov3?
  }

  /** The one mode whose trips go to target `k`. */
  function EeModeOf(k: MatrixName): EeMode
    requires IsEeTarget(k)
  {
    if k.SovNt? then EeSov else if k.Hov2? then EeHov2 else EeHov3
  }

  /** SOV goes to SOV_NT, HOV2 to HOV2 and HOV3 to HOV3, each in the value-of-time tier `v`. */
  function EeTarget(p: Period, m: EeMode, v: Vot): (k: MatrixName)
    ensures IsEeTarget(k) && k.p == p && k.v == v && EeModeOf(k) == m
  {
    match m
    case EeSov => SovNt(p, v)
    case EeHov2 => Hov2(p, v)
    case EeHov3 => Hov3(p, v)
  }

  /** Position of the calculation for (period, mode, tier) in the external-external pass. */
  function EePos(p: Period, m: EeMode, v: Vot): nat {
    PeriodIndex(p) * 9 + EeModeIndex(m) * 3 + VotIndex(v)
  }

  /** The nested loops over periods, modes and tiers visit the positions in order. */
  lemma EePosAt(pi: nat, mi: nat, vi: nat)
    requires pi < |Periods| && mi < |EeModes| && vi < |Vots|
    ensures EePos(Periods[pi], EeModes[mi], Vots[vi]) == pi * 9 + mi * 3 + vi
  {
    PeriodIndexAt(pi);
    EeModeIndexAt(mi);
    VotIndexAt(vi);
  }

  /** The pass runs 45 calculations, each at its own position. */
  lemma EePosInjective(p: Period, m: EeMode, v: Vot, p': Period, m': EeMode, v': Vot)
    requires EePos(p, m, v) == EePos(p', m', v')
    ensures p == p' && m == m' && v == v'
  {
  }


  /** The matrices one external-external calculation reads. */
  predicate EeSpecReady(store: map<MatrixName, Matrix>, p: Period, m: EeMode, v: Vot) {
    EeTarget(p, m, v) in store && EeTrips(p, m) in store
  }

  /** The first matrix of calculation (`p`, `m`, `v`) missing from the databank: the target, then
      the aggregate trips. */
  function EeCheck(store: map<MatrixName, Matrix>, p: Period, m: EeMode, v: Vot): (r: Outcome<Error>)
    ensures r.Pass? <==> EeSpecReady(store, p, m, v)
    ensures r.Fail? ==> r.error.MissingMatrix? && r.error.name !in store
    ensures r.Fail? ==> r.error.name == EeTarget(p, m, v) || r.error.name == EeTrips(p, m)
  {
    if EeTarget(p, m, v) !in store then Fail(MissingMatrix(EeTarget(p, m, v)))
    else if EeTrips(p, m) !in store then Fail(MissingMatrix(EeTrips(p, m)))
    else Pass
  }

  /** Every matrix the external-external pass reads is in the databank. */
  ghost predicate EeReady(store: map<MatrixName, Matrix>) {
    forall p, m, v :: EeSpecReady(store, p, m, v)
  }

  /** The expression `target + (1.0/3.0)*eetrips`, computed with origins and destinations both
      constrained to the external zones `ext`. */
  function EeUpdate(target: Matrix, ee: Matrix, ext: set<int>): (r: Matrix)
    requires Square(target) && Square(ee) && |ee| == |target|
    ensures IsZoneMatrix(r, |target|)
  {
    MaskedAdd(target, Scale(ee, Third), ext)
  }

  /** Matrix `k` once the first `n` calculations of the external-external pass have run; a
      calculation whose matrices are missing changes nothing (the pass stops there). */
  function EeAt(s0: map<MatrixName, Matrix>, zones: nat, ext: set<int>, k: MatrixName, n: nat): (r: Matrix)
    requires AllZoneMatrices(s0, zones) && k in s0
    ensures IsZoneMatrix(r, zones)
  {
    if IsEeTarget(k) && EePos(k.p, EeModeOf(k), k.v) < n && EeSpecReady(s0, k.p, EeModeOf(k), k.v) then
      EeUpdate(s0[k], s0[EeTrips(k.p, EeModeOf(k))], ext)
    else s0[k]
  }

  /** The number of calculations in the external-external pass. */
  const EeCount: nat := |Periods| * |EeModes| * |Vots|

  /** The databank after the whole external-external pass. */
  function EeResult(s0: map<MatrixName, Matrix>, zones: nat, ext: set<int>): (s: map<MatrixName, Matrix>)
    requires AllZoneMatrices(s0, zones)
    ensures s.Keys == s0.Keys && AllZoneMatrices(s, zones)
  {
    map k | k in s0 :: EeAt(s0, zones, ext, k, EeCount)
  }

  /** Every calculation before position `n` of the external-external pass finds its matrices. */
  ghost predicate EeReadyBefore(s0: map<MatrixName, Matrix>, n: nat) {
    forall p, m, v {:trigger EeSpecReady(s0, p, m, v)} | EePos(p, m, v) < n :: EeSpecReady(s0, p, m, v)
  }

  /** `s` is the databank after the first `n` calculations of the external-external pass started
      from `s0`, each of which found its matrices. */
  ghost predicate EeDone(s0: map<MatrixName, Matrix>, zones: nat, ext: set<int>, s: map<MatrixName, Matrix>, n: nat) {
    AllZoneMatrices(s0, zones) && EeValuesAt(s0, zones, ext, s, n) && EeReadyBefore(s0, n)
  }

  /** Midway through the external-external pass every matrix is still a zones by zones array. */
  lemma EeDoneZones(s0: map<MatrixName, Matrix>, zones: nat, ext: set<int>, s: map<MatrixName, Matrix>, n: nat)
    requires EeDone(s0, zones, ext, s, n)
    ensures AllZoneMatrices(s, zones)
  {
    forall k | k in s ensures IsZoneMatrix(s[k], zones) {
      assert Held(s, k) == EeAt(s0, zones, ext, k, n);
    }
  }

  /** Every matrix of `s` is as the first `n` calculations of the external-external pass leave it. */
  ghost predicate EeValuesAt(s0: map<MatrixName, Matrix>, zones: nat, ext: set<int>, s: map<MatrixName, Matrix>, n: nat)
    requires AllZoneMatrices(s0, zones)
  {
    s.Keys == s0.Keys && forall k | k in s :: Held(s, k) == EeAt(s0, zones, ext, k, n)
  }

  /** Before the pass, nothing has run. */
  lemma EeDoneStart(s0: map<MatrixName, Matrix>, zones: nat, ext: set<int>)
    requires AllZoneMatrices(s0, zones)
    ensures EeDone(s0, zones, ext, s0, 0)
  {
  }

  /** A calculation that finds its matrices extends the run of calculations that did. */
  lemma EeReadyNext(s0: map<MatrixName, Matrix>, p: Period, m: EeMode, v: Vot)
    requires EeReadyBefore(s0, EePos(p, m, v)) && EeSpecReady(s0, p, m, v)
    ensures EeReadyBefore(s0, EePos(p, m, v) + 1)
  {
    forall p', m', v' | EePos(p', m', v') < EePos(p, m, v) + 1 ensures EeSpecReady(s0, p', m', v') {
      if EePos(p', m', v') == EePos(p, m, v) {
        EePosInjective(p', m', v', p, m, v);
      }
    }
  }

  /** Midway through the pass, the target of calculation (`p`, `m`, `v`) and the matrix it reads
      are still the zone matrices the pass started from. */
  lemma EeDoneFrame(s0: map<MatrixName, Matrix>, zones: nat, ext: set<int>, s: map<MatrixName, Matrix>, p: Period, m: EeMode, v: Vot)
    requires EeDone(s0, zones, ext, s, EePos(p, m, v)) && EeSpecReady(s0, p, m, v)
    ensures
      var t, ee := EeTarget(p, m, v), EeTrips(p, m);
      && t in s && ee in s && s[ee] == s0[ee] && s[t] == s0[t]
      && IsZoneMatrix(s[t], zones) && IsZoneMatrix(s[ee], zones)
  {
    var n, t, ee := EePos(p, m, v), EeTarget(p, m, v), EeTrips(p, m);
    assert Held(s, ee) == EeAt(s0, zones, ext, ee, n) && Held(s, t) == EeAt(s0, zones, ext, t, n);
  }

  /** Calculation (`p`, `m`, `v`) on its target takes the pass one position further. */
  lemma EeDoneNext(s0: map<MatrixName, Matrix>, zones: nat, ext: set<int>, s: map<MatrixName, Matrix>, p: Period, m: EeMode, v: Vot, s': map<MatrixName, Matrix>)
    requires EeDone(s0, zones, ext, s, EePos(p, m, v)) && EeSpecReady(s0, p, m, v)
    requires EeTarget(p, m, v) in s0 && EeTrips(p, m) in s0
    requires s' == s[EeTarget(p, m, v) := EeUpdate(s0[EeTarget(p, m, v)], s0[EeTrips(p, m)], ext)]
    ensures EeDone(s0, zones, ext, s', EePos(p, m, v) + 1)
  {
    EeValuesNext(s0, zones, ext, s, p, m, v, s');
    EeReadyNext(s0, p, m, v);
  }

  /** Calculation (`p`, `m`, `v`) changes its target as the pass goes one position further. */
  lemma EeValuesNext(s0: map<MatrixName, Matrix>, zones: nat, ext: set<int>, s: map<MatrixName, Matrix>, p: Period, m: EeMode, v: Vot, s': map<MatrixName, Matrix>)
    requires AllZoneMatrices(s0, zones) && EeValuesAt(s0, zones, ext, s, EePos(p, m, v)) && EeSpecReady(s0, p, m, v)
    requires s' == s[EeTarget(p, m, v) := EeUpdate(s0[EeTarget(p, m, v)], s0[EeTrips(p, m)], ext)]
    ensures EeValuesAt(s0, zones, ext, s', EePos(p, m, v) + 1)
  {
    forall k | k in s' ensures Held(s', k) == EeAt(s0, zones, ext, k, EePos(p, m, v) + 1) {
      EeKeyNext(s0, zones, ext, s, p, m, v, s', k);
    }
  }

  /** Calculation (`p`, `m`, `v`) takes matrix `k` from where the pass left it to one position
      further: its target gets the update, every other matrix stays. */
  lemma EeKeyNext(s0: map<MatrixName, Matrix>, zones: nat, ext: set<int>, s: map<MatrixName, Matrix>, p: Period, m: EeMode, v: Vot, s': map<MatrixName, Matrix>, k: MatrixName)
    requires AllZoneMatrices(s0, zones) && EeValuesAt(s0, zones, ext, s, EePos(p, m, v)) && EeSpecReady(s0, p, m, v)
    requires s' == s[EeTarget(p, m, v) := EeUpdate(s0[EeTarget(p, m, v)], s0[EeTrips(p, m)], ext)]
    requires k in s'
    ensures s'[k] == EeAt(s0, zones, ext, k, EePos(p, m, v) + 1)
  {
    assert Held(s, k) == EeAt(s0, zones, ext, k, EePos(p, m, v));
    if IsEeTarget(k) && EePos(k.p, EeModeOf(k), k.v) == EePos(p, m, v) {
      EePosInjective(k.p, EeModeOf(k), k.v, p, m, v);
    }
  }

  /** Midway through the pass, calculation (`p`, `m`, `v`) run on the databank as it stands,
      its matrices both there, takes the pass one position further. */
  lemma EeRunStep(s0: map<MatrixName, Matrix>, zones: nat, ext: set<int>, s: map<MatrixName, Matrix>, p: Period, m: EeMode, v: Vot)
    requires EeDone(s0, zones, ext, s, EePos(p, m, v)) && EeSpecReady(s, p, m, v)
    ensures
      var t, ee := EeTarget(p, m, v), EeTrips(p, m);
      && IsZoneMatrix(s[t], zones) && IsZoneMatrix(s[ee], zones)
      && EeSpecReady(s0, p, m, v)
      && EeDone(s0, zones, ext, s[t := EeUpdate(s[t], s[ee], ext)], EePos(p, m, v) + 1)
  {
    var t := EeTarget(p, m, v);
    EeDoneFrame(s0, zones, ext, s, p, m, v);
    EeDoneNext(s0, zones, ext, s, p, m, v, s[t := EeUpdate(s[t], s[EeTrips(p, m)], ext)]);
  }

  /** Midway through the pass, a matrix calculation (`p`, `m`, `v`) reads that is not in the
      databank was not there at the start: the pass stops at that calculation. */
  lemma EeMissing(s0: map<MatrixName, Matrix>, zones: nat, ext: set<int>, s: map<MatrixName, Matrix>, p: Period, m: EeMode, v: Vot, name: MatrixName)
    requires EeDone(s0, zones, ext, s, EePos(p, m, v)) && name !in s
    requires name == EeTarget(p, m, v) || name == EeTrips(p, m)
    ensures name !in s0 && EeStoppedAt(s0, zones, ext, s, p, m, v)
  {
  }

  /** Once every calculation of the pass has run, the databank is the result of the pass, and every
      calculation found its matrices. */
  lemma EeDoneAll(s0: map<MatrixName, Matrix>, zones: nat, ext: set<int>, s: map<MatrixName, Matrix>)
    requires EeDone(s0, zones, ext, s, |Periods| * 9)
    ensures EeReady(s0) && s == EeResult(s0, zones, ext)
  {
    assert EeCount == |Periods| * 9;
    forall k | k in s ensures s[k] == EeResult(s0, zones, ext)[k] {
      assert Held(s, k) == EeAt(s0, zones, ext, k, EeCount);
    }
    forall p, m, v ensures EeSpecReady(s0, p, m, v) {
      assert EePos(p, m, v) < EeCount;
    }
  }

  /** The pass stopped at calculation (`p`, `m`, `v`), whose matrices are not both there, after
      every calculation before it ran. */
  ghost predicate EeStoppedAt(s0: map<MatrixName, Matrix>, zones: nat, ext: set<int>, s: map<MatrixName, Matrix>, p: Period, m: EeMode, v: Vot) {
    EeDone(s0, zones, ext, s, EePos(p, m, v)) && !EeSpecReady(s0, p, m, v)
  }

  /** After the external-external pass, a cell of SOV_NT, HOV2 or HOV3 between two external zones
      has gained one third of its mode's trips; every other cell and every other matrix is unchanged. */
  lemma EeResultCells(s0: map<MatrixName, Matrix>, zones: nat, ext: set<int>, k: MatrixName, i: nat, j: nat)
    requires AllZoneMatrices(s0, zones) && EeReady(s0) && k in s0 && i < zones && j < zones
    ensures !IsEeTarget(k) ==> EeResult(s0, zones, ext)[k] == s0[k]
    ensures IsEeTarget(k) ==>
      EeResult(s0, zones, ext)[k][i][j] ==
        if i in ext && j in ext then s0[k][i][j] + s0[EeTrips(k.p, EeModeOf(k))][i][j] * Third
        else s0[k][i][j]
  {
    if IsEeTarget(k) {
      EeResultTarget(s0, zones, ext, k);
      var ee := s0[EeTrips(k.p, EeModeOf(k))];
      assert EeResult(s0, zones, ext)[k][i][j] == MaskedAdd(s0[k], Scale(ee, Third), ext)[i][j];
    }
  }

  /** After the pass, target `k` has undergone the calculation of its mode. */
  lemma EeResultTarget(s0: map<MatrixName, Matrix>, zones: nat, ext: set<int>, k: MatrixName)
    requires AllZoneMatrices(s0, zones) && EeReady(s0) && k in s0 && IsEeTarget(k)
    ensures EeTrips(k.p, EeModeOf(k)) in s0
    ensures EeResult(s0, zones, ext)[k] == EeUpdate(s0[k], s0[EeTrips(k.p, EeModeOf(k))], ext)
  {
    assert EeSpecReady(s0, k.p, EeModeOf(k), k.v);
  }

  /** The external-external pass stopped with error `e`: a matrix missing from the databank from
      the start, at a calculation reached after every calculation before it ran. */
  ghost predicate EeStopped(s0: map<MatrixName, Matrix>, zones: nat, ext: set<int>, s: map<MatrixName, Matrix>, e: Error) {
    e.MissingMatrix? && e.name !in s0 && exists p, m, v :: EeStoppedAt(s0, zones, ext, s, p, m, v)
  }

  /** The pass stopped at calculation (`p`, `m`, `v`): the pass was not ready. */
  lemma EeStoppedNotReady(s0: map<MatrixName, Matrix>, zones: nat, ext: set<int>, s: map<MatrixName, Matrix>, p: Period, m: EeMode, v: Vot)
    requires EeStoppedAt(s0, zones, ext, s, p, m, v)
    ensures !EeReady(s0)
  {
  }

  /** `add_aggregate_demand`: the external-internal pass, then the external-external pass. */
  function AggregateResult(s0: map<MatrixName, Matrix>, zones: nat, ext: set<int>): (s: map<MatrixName, Matrix>)
    requires AllZoneMatrices(s0, zones)
    ensures s.Keys == s0.Keys && AllZoneMatrices(s, zones)
  {
    EeResult(EiResult(s0, zones), zones, ext)
  }

  /** The external-internal pass adds no matrix and removes none, so the external-external pass
      finds its matrices after it exactly when it would have before it. */
  lemma EeReadyAfterEi(s0: map<MatrixName, Matrix>, zones: nat)
    requires AllZoneMatrices(s0, zones)
    ensures EeReady(EiResult(s0, zones)) <==> EeReady(s0)
  {
    var s1 := EiResult(s0, zones);
    if EeReady(s0) {
      forall p, m, v ensures EeSpecReady(s1, p, m, v) {
        assert EeSpecReady(s0, p, m, v);
      }
    }
    if EeReady(s1) {
      forall p, m, v ensures EeSpecReady(s0, p, m, v) {
        assert EeSpecReady(s1, p, m, v);
      }
    }
  }

  /** The aggregate matrices themselves are read, never written: both passes leave every
      EIWORK, EINONWORK and EETRIPS matrix unchanged. */
  lemma AggregateInputsUnchanged(s0: map<MatrixName, Matrix>, zones: nat, ext: set<int>, k: MatrixName)
    requires AllZoneMatrices(s0, zones) && k in s0 && (k.EiTrips? || k.EeTrips?)
    ensures EeResult(EiResult(s0, zones), zones, ext)[k] == s0[k]
  {
  }

  /** Both passes on a high-occupancy matrix: a cell gains a third of the HOV external-internal
      trips of both modes, and a third of the external-external trips when both zones are external. */
  lemma AggregateHovCells(s0: map<MatrixName, Matrix>, zones: nat, ext: set<int>, k: MatrixName, i: nat, j: nat)
    requires AllZoneMatrices(s0, zones) && EiReady(s0) && EeReady(s0)
    requires (k.Hov2? || k.Hov3?) && k in s0 && EeTrips(k.p, EeModeOf(k)) in s0 && i < zones && j < zones
    ensures
      var s1 := EiResult(s0, zones);
      var ei := s0[EiTrips(k.p, FirstEiMode(k), Work)][i][j] + s0[EiTrips(k.p, FirstEiMode(k), NonWork)][i][j]
        + s0[EiTrips(k.p, SecondEiMode(k), Work)][i][j] + s0[EiTrips(k.p, SecondEiMode(k), NonWork)][i][j];
      var ee := s0[EeTrips(k.p, EeModeOf(k))][i][j];
      EeResult(s1, zones, ext)[k][i][j] ==
        s0[k][i][j] + ei * Third + (if i in ext && j in ext then ee * Third else 0.0)
  {
    var s1 := EiResult(s0, zones);
    assert EeReady(s1) by {
      forall p, m, v ensures EeSpecReady(s1, p, m, v) {
        assert EeSpecReady(s0, p, m, v);
      }
    }
    EiResultCells(s0, zones, k, i, j);
    EeResultCells(s1, zones, ext, k, i, j);
    EiResultCells(s0, zones, EeTrips(k.p, EeModeOf(k)), i, j);
  }
}
