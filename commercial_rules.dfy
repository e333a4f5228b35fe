/** How commercial-vehicle trips are blended into the SOV and truck matrices and converted to
    passenger-car equivalents (import_auto_demand.py, `import_commercial_vehicle_demand`). */
module CommercialRules {
  import opened Outcomes
  import opened Matrices
  import opened Keys

  /** The `cvm.*` properties: the trip-generation scale factor, per-period scales of the light,
      medium and heavy classes, and the shares of the light, medium and heavy classes. */
  datatype CvmParams = CvmParams(
    scaleFactor: real,
    scaleLight: seq<real>,
    scaleMedium: seq<real>,
    scaleHeavy: seq<real>,
    shareLight: real,
    shareMedium: real,
    shareHeavy: real)

  /** Every per-period scale list has an entry for each of the five periods. */
  predicate ScalesDefined(params: CvmParams) {
    && |params.scaleLight| >= |Periods|
    && |params.scaleMedium| >= |Periods|
    && |params.scaleHeavy| >= |Periods|
  }

  /** One entry of the mapping: the matrix the starting array is read from, the matrix the result is
      written to, the PCE factor, the scale and the share. */
  datatype CvmEntry = CvmEntry(orig: MatrixName, dest: MatrixName, pce: real, scale: real, share: real)

  /** The destination matrix of a column: LNT goes to `<p>_SOV_TR_H`, INT, MNT and HNT to the
      `<p>_TRK_L`, `<p>_TRK_M` and `<p>_TRK_H` truck matrices. */
  function CvmDest(k: CvmKey): (d: MatrixName)
    ensures IsCvmDest(d) && CvmKeyOf(d) == k
  {
    match k.c
    case LNT => SovTr(k.p, H)
    case INT => Truck(k.p, Light)
    case MNT => Truck(k.p, Medium)
    case HNT => Truck(k.p, Heavy)
  }

  predicate IsCvmDest(d: MatrixName) {
    (d.SovTr? && d.v == H) || d.Truck?
  }

  /** The column whose result is written to destination `d`. */
  function CvmKeyOf(d: MatrixName): (k: CvmKey)
    requires IsCvmDest(d)
  {
    if d.SovTr? then CvmKey(d.p, LNT)
    else match d.t
      case Light => CvmKey(d.p, INT)
      case Medium => CvmKey(d.p, MNT)
      case Heavy => CvmKey(d.p, HNT)
  }

  /** Each destination is the destination of exactly one column. */
  lemma CvmDestInverse(d: MatrixName)
    requires IsCvmDest(d)
    ensures CvmDest(CvmKeyOf(d)) == d
  {
  }

  /** The matrix the starting array of a column is read from: the SOV_TR_H matrix itself for LNT
      (it is modified in place), the `<p>_TRK_<t>_VEH` vehicle matrices for the trucks. */
  function CvmOrig(k: CvmKey): (d: MatrixName)
    ensures k.c == LNT <==> d == CvmDest(k)
  {
    match k.c
    case LNT => SovTr(k.p, H)
    case INT => TruckVeh(k.p, Light)
    case MNT => TruckVeh(k.p, Medium)
    case HNT => TruckVeh(k.p, Heavy)
  }

  /** The mapping entry of a column. The light-truck class INT uses the medium scale and share;
      the PCE factors are 1.0, 1.3, 1.5 and 2.5. */
  function Entry(params: CvmParams, k: CvmKey): (e: CvmEntry)
    requires ScalesDefined(params)
    ensures e.orig == CvmOrig(k) && e.dest == CvmDest(k)
  {
    var i := PeriodIndex(k.p);
    match k.c
    case LNT => CvmEntry(SovTr(k.p, H), SovTr(k.p, H), 1.0, params.scaleLight[i], params.shareLight)
    case INT => CvmEntry(TruckVeh(k.p, Light), Truck(k.p, Light), 1.3, params.scaleMedium[i], params.shareMedium)
    case MNT => CvmEntry(TruckVeh(k.p, Medium), Truck(k.p, Medium), 1.5, params.scaleMedium[i], params.shareMedium)
    case HNT => CvmEntry(TruckVeh(k.p, Heavy), Truck(k.p, Heavy), 2.5, params.scaleHeavy[i], params.shareHeavy)
  }

  /** Column `k` of TripMatrices.csv reshaped to a zones by zones array; a missing column or one
      of the wrong length is an error. */
  function Column(table: map<CvmKey, seq<real>>, k: CvmKey, zones: nat): (r: Result<Matrix, Error>)
    ensures r.Ok? <==> k in table && |table[k]| == zones * zones
    ensures r.Ok? ==> IsZoneMatrix(r.value, zones) && r.value == Reshape(table[k], zones)
    ensures k !in table ==> r == Err(MissingColumn(k))
    ensures k in table && |table[k]| != zones * zones ==> r == Err(ShapeMismatch(k, |table[k]|))
  {
    if k !in table then Err(MissingColumn(k))
    else if |table[k]| != zones * zones then Err(ShapeMismatch(k, |table[k]|))
    else Ok(Reshape(table[k], zones))
  }

  /** Raw trips divided by the trip-generation scale factor, then multiplied by the class scale. */
  function Scaled(raw: Matrix, scaleFactor: real, scale: real): (m: Matrix)
    requires Square(raw) && scaleFactor != 0.0
    ensures IsZoneMatrix(m, |raw|)
    ensures forall i, j | 0 <= i < |raw| && 0 <= j < |raw| :: m[i][j] == raw[i][j] / scaleFactor * scale
  {
    Scale(Divide(raw, scaleFactor), scale)
  }

  /** Every column of the table that reshapes to a zones by zones array, reshaped. */
  function Columns(table: map<CvmKey, seq<real>>, zones: nat): (cols: map<CvmKey, Matrix>)
    ensures forall k :: k in cols <==> Column(table, k, zones).Ok?
    ensures forall k | k in cols :: cols[k] == Column(table, k, zones).value && IsZoneMatrix(cols[k], zones)
  {
    map k | k in table.Keys && |table[k]| == zones * zones :: Reshape(table[k], zones)
  }

  /** The four columns of period `p` are loaded as zones by zones arrays. */
  ghost predicate Loaded(cols: map<CvmKey, Matrix>, zones: nat, p: Period) {
    forall c :: CvmKey(p, c) in cols && IsZoneMatrix(cols[CvmKey(p, c)], zones)
  }

  // ---------------------------------------------------------------------------------------------
  // Which error stops the import

  /** The order in which `mapping.iteritems()` visits the twenty columns: each exactly once. */
  ghost predicate IsOrder(order: seq<CvmKey>) {
    && (forall k :: k in order)
    && (forall i, j | 0 <= i < j < |order| :: order[i] != order[j])
  }

  /** The first failure when the keys `ks` are checked in turn by `check`, or `Pass`; a failure is
      the failure of one of the keys. */
  function FirstFailure(ks: seq<CvmKey>, check: CvmKey -> Outcome<Error>): (r: Outcome<Error>)
    ensures r.Fail? ==> FailureOfKey(ks, check, r)
    decreases |ks|
  {
    if ks == [] then Pass
    else
      var before := FirstFailure(ks[..|ks| - 1], check);
      if before.Fail? then before else check(ks[|ks| - 1])
  }

  /** `r` is what `check` gives one of the keys `ks`: the last one, or one of those before it. */
  predicate FailureOfKey(ks: seq<CvmKey>, check: CvmKey -> Outcome<Error>, r: Outcome<Error>)
    decreases |ks|
  {
    ks != [] && (check(ks[|ks| - 1]) == r || FailureOfKey(ks[..|ks| - 1], check, r))
  }

  /** The checks pass exactly when every key passes its check. */
  lemma {:induction false} FirstFailurePass(ks: seq<CvmKey>, check: CvmKey -> Outcome<Error>)
    ensures FirstFailure(ks, check).Pass? <==> forall k | k in ks :: check(k).Pass?
    decreases |ks|
  {
    if ks != [] {
      var init := ks[..|ks| - 1];
      FirstFailurePass(init, check);
      assert ks == init + [ks[|ks| - 1]];
    }
  }

  /** A failure is the failure of some key. */
  lemma {:induction false} FirstFailureOfKey(ks: seq<CvmKey>, check: CvmKey -> Outcome<Error>)
    requires FirstFailure(ks, check).Fail?
    ensures exists i | 0 <= i < |ks| :: check(ks[i]) == FirstFailure(ks, check)
    decreases |ks|
  {
    var init := ks[..|ks| - 1];
    if FirstFailure(init, check).Fail? {
      FirstFailureOfKey(init, check);
      var i :| 0 <= i < |init| && check(init[i]) == FirstFailure(init, check);
      assert ks[i] == init[i];
    } else {
      assert check(ks[|ks| - 1]) == FirstFailure(ks, check);
    }
  }

  /** Once the first `n` keys have failed, the later ones are not checked. */
  lemma {:induction false} FirstFailureStops(ks: seq<CvmKey>, n: nat, check: CvmKey -> Outcome<Error>)
    requires n <= |ks| && FirstFailure(ks[..n], check).Fail?
    ensures FirstFailure(ks, check) == FirstFailure(ks[..n], check)
    decreases |ks|
  {
    if n < |ks| {
      var init := ks[..|ks| - 1];
      assert init[..n] == ks[..n];
      FirstFailureStops(init, n, check);
    } else {
      assert ks[..n] == ks;
    }
  }

  /** One more key after the first `n`. */
  lemma FirstFailureNext(ks: seq<CvmKey>, n: nat, check: CvmKey -> Outcome<Error>)
    requires n < |ks| && FirstFailure(ks[..n], check).Pass?
    ensures FirstFailure(ks[..n + 1], check) == check(ks[n])
  {
    assert ks[..n + 1][..n] == ks[..n];
  }

  /** Loading a starting array fails when its matrix is not in the databank. */
  function OrigCheck(store: map<MatrixName, Matrix>): CvmKey -> Outcome<Error> {
    k => if CvmOrig(k) in store then Pass else Fail(MissingMatrix(CvmOrig(k)))
  }

  /** Reading a column fails when it is missing or cannot be reshaped. */
  function ColumnCheck(table: map<CvmKey, seq<real>>, zones: nat): CvmKey -> Outcome<Error> {
    k => var c := Column(table, k, zones); if c.Ok? then Pass else Fail(c.error)
  }

  /** Saving an array fails when its destination matrix is not in the databank. */
  function DestCheck(store: map<MatrixName, Matrix>): CvmKey -> Outcome<Error> {
    k => if CvmDest(k) in store then Pass else Fail(MissingMatrix(CvmDest(k)))
  }

  /** How the commercial-vehicle import ends: a scale list too short for the five periods fails
      while the mapping is built; then every starting matrix is loaded, then every column is read,
      then every array is saved, each phase visiting the columns in `order`. A failure is the scale
      error or the failure of one column in one of the three phases. */
  function CvmOutcome(store: map<MatrixName, Matrix>, table: map<CvmKey, seq<real>>, params: CvmParams, zones: nat, order: seq<CvmKey>): (r: Outcome<Error>)
    ensures r.Fail? ==>
      || r.error == ScaleIndexOutOfRange
      || FailureOfKey(order, OrigCheck(store), r)
      || FailureOfKey(order, ColumnCheck(table, zones), r)
      || FailureOfKey(order, DestCheck(store), r)
  {
    if !ScalesDefined(params) then Fail(ScaleIndexOutOfRange)
    else if FirstFailure(order, OrigCheck(store)).Fail? then FirstFailure(order, OrigCheck(store))
    else if FirstFailure(order, ColumnCheck(table, zones)).Fail? then FirstFailure(order, ColumnCheck(table, zones))
    else FirstFailure(order, DestCheck(store))
  }

  /** Everything the import reads and writes is there: the scale lists, every starting matrix,
      every column and every destination matrix. */
  ghost predicate CvmReady(store: map<MatrixName, Matrix>, table: map<CvmKey, seq<real>>, params: CvmParams, zones: nat) {
    && ScalesDefined(params)
    && (forall k :: CvmOrig(k) in store)
    && (forall p :: Loaded(Columns(table, zones), zones, p))
    && (forall k :: CvmDest(k) in store)
  }

  /** The import passes exactly when everything it reads and writes is there. */
  lemma CvmOutcomeReady(store: map<MatrixName, Matrix>, table: map<CvmKey, seq<real>>, params: CvmParams, zones: nat, order: seq<CvmKey>)
    requires IsOrder(order)
    ensures CvmOutcome(store, table, params, zones, order).Pass? <==> CvmReady(store, table, params, zones)
  {
    FirstFailurePass(order, OrigCheck(store));
    FirstFailurePass(order, ColumnCheck(table, zones));
    FirstFailurePass(order, DestCheck(store));
    var cols := Columns(table, zones);
    if CvmOutcome(store, table, params, zones, order).Pass? {
      forall k ensures CvmOrig(k) in store && CvmDest(k) in store && k in cols {
        assert OrigCheck(store)(k).Pass? && DestCheck(store)(k).Pass? && ColumnCheck(table, zones)(k).Pass?;
      }
    }
    if CvmReady(store, table, params, zones) {
      forall k | k in order ensures ColumnCheck(table, zones)(k).Pass? {
        assert Loaded(cols, zones, k.p);
        assert CvmKey(k.p, k.c) == k;
      }
    }
  }

  /** The scaled trips of column `k`. */
  function ScaledColumn(cols: map<CvmKey, Matrix>, params: CvmParams, zones: nat, k: CvmKey): (m: Matrix)
    requires ScalesDefined(params) && params.scaleFactor != 0.0 && k in cols && IsZoneMatrix(cols[k], zones)
    ensures IsZoneMatrix(m, zones)
  {
    Scaled(cols[k], params.scaleFactor, Entry(params, k).scale)
  }

  /** The starting array plus the share of the class's own trips that stays with the class. */
  function OwnBlend(start: Matrix, cols: map<CvmKey, Matrix>, params: CvmParams, zones: nat, k: CvmKey): (m: Matrix)
    requires ScalesDefined(params) && params.scaleFactor != 0.0 && k in cols && IsZoneMatrix(cols[k], zones)
    requires IsZoneMatrix(start, zones)
    ensures IsZoneMatrix(m, zones)
  {
    Add(start, Scale(ScaledColumn(cols, params, zones, k), 1.0 - Entry(params, k).share))
  }

  /** The array of column `k` holds its own blend. */
  ghost predicate OwnBlended(arrays: map<CvmKey, Matrix>, starts: map<CvmKey, Matrix>, cols: map<CvmKey, Matrix>, params: CvmParams, zones: nat, k: CvmKey)
    requires ScalesDefined(params) && params.scaleFactor != 0.0
  {
    && k in starts && IsZoneMatrix(starts[k], zones) && k in cols && IsZoneMatrix(cols[k], zones)
    && k in arrays && arrays[k] == OwnBlend(starts[k], cols, params, zones, k)
  }

  /** The classes whose shares are redistributed to the light-truck class, in the order they are added. */
  const Donors: seq<CvmClass> := [LNT, MNT, HNT]

  /** `acc` after the first `n` donors of period `p` have passed their share on to it; a donor
      whose share is zero is skipped. */
  function Redistribute(acc: Matrix, cols: map<CvmKey, Matrix>, params: CvmParams, zones: nat, p: Period, n: nat): (m: Matrix)
    requires n <= |Donors| && ScalesDefined(params) && params.scaleFactor != 0.0
    requires Loaded(cols, zones, p) && IsZoneMatrix(acc, zones)
    ensures IsZoneMatrix(m, zones)
  {
    if n == 0 then acc
    else
      var prev := Redistribute(acc, cols, params, zones, p, n - 1);
      var donor := CvmKey(p, Donors[n - 1]);
      var share := Entry(params, donor).share;
      if share != 0.0 then Add(prev, Scale(ScaledColumn(cols, params, zones, donor), share)) else prev
  }

  /** The part of donor `c`'s scaled trips that its share passes on, at one cell. */
  function Passed(cols: map<CvmKey, Matrix>, params: CvmParams, zones: nat, p: Period, c: CvmClass, i: nat, j: nat): real
    requires ScalesDefined(params) && params.scaleFactor != 0.0 && Loaded(cols, zones, p)
    requires i < zones && j < zones
  {
    ScaledColumn(cols, params, zones, CvmKey(p, c))[i][j] * Entry(params, CvmKey(p, c)).share
  }

  /** The trips the first `n` donors pass on, at one cell, with no test on the share. */
  function PassedSum(cols: map<CvmKey, Matrix>, params: CvmParams, zones: nat, p: Period, n: nat, i: nat, j: nat): real
    requires n <= |Donors| && ScalesDefined(params) && params.scaleFactor != 0.0 && Loaded(cols, zones, p)
    requires i < zones && j < zones
  {
    if n == 0 then 0.0 else PassedSum(cols, params, zones, p, n - 1, i, j) + Passed(cols, params, zones, p, Donors[n - 1], i, j)
  }

  /** The share-is-non-zero test changes nothing over the reals: the redistribution adds every
      donor's passed-on trips, a zero share passing on nothing. */
  lemma {:induction false} RedistributeCells(acc: Matrix, cols: map<CvmKey, Matrix>, params: CvmParams, zones: nat, p: Period, n: nat, i: nat, j: nat)
    requires n <= |Donors| && ScalesDefined(params) && params.scaleFactor != 0.0
    requires Loaded(cols, zones, p) && IsZoneMatrix(acc, zones) && i < zones && j < zones
    ensures Redistribute(acc, cols, params, zones, p, n)[i][j] == acc[i][j] + PassedSum(cols, params, zones, p, n, i, j)
  {
    if n > 0 {
      RedistributeCells(acc, cols, params, zones, p, n - 1, i, j);
      var donor := CvmKey(p, Donors[n - 1]);
      if Entry(params, donor).share == 0.0 {
        assert Passed(cols, params, zones, p, Donors[n - 1], i, j) == 0.0;
      }
    }
  }

  /** All three donors: the LNT, MNT and HNT shares. */
  lemma AllDonors(cols: map<CvmKey, Matrix>, params: CvmParams, zones: nat, p: Period, i: nat, j: nat)
    requires ScalesDefined(params) && params.scaleFactor != 0.0 && Loaded(cols, zones, p)
    requires i < zones && j < zones
    ensures PassedSum(cols, params, zones, p, |Donors|, i, j) ==
      Passed(cols, params, zones, p, LNT, i, j) + Passed(cols, params, zones, p, MNT, i, j) + Passed(cols, params, zones, p, HNT, i, j)
  {
    assert PassedSum(cols, params, zones, p, 1, i, j) == Passed(cols, params, zones, p, LNT, i, j);
    assert PassedSum(cols, params, zones, p, 2, i, j) == PassedSum(cols, params, zones, p, 1, i, j) + Passed(cols, params, zones, p, MNT, i, j);
  }

  /** The array of column `k` before PCE conversion: its own blend, and for the light-truck class
      the redistributed shares of the LNT, MNT and HNT classes. */
  function Blended(start: Matrix, cols: map<CvmKey, Matrix>, params: CvmParams, zones: nat, k: CvmKey): (m: Matrix)
    requires ScalesDefined(params) && params.scaleFactor != 0.0
    requires Loaded(cols, zones, k.p) && IsZoneMatrix(start, zones)
    ensures IsZoneMatrix(m, zones)
  {
    var own := OwnBlend(start, cols, params, zones, k);
    if k.c == INT then Redistribute(own, cols, params, zones, k.p, |Donors|) else own
  }

  /** The blended array at one cell: the start, the kept share of the class's own scaled trips,
      and for the light-truck class the shares the LNT, MNT and HNT classes pass on. */
  lemma BlendedCells(start: Matrix, cols: map<CvmKey, Matrix>, params: CvmParams, zones: nat, k: CvmKey, i: nat, j: nat)
    requires ScalesDefined(params) && params.scaleFactor != 0.0
    requires Loaded(cols, zones, k.p) && IsZoneMatrix(start, zones) && i < zones && j < zones
    ensures Blended(start, cols, params, zones, k)[i][j] ==
      start[i][j]
      + ScaledColumn(cols, params, zones, k)[i][j] * (1.0 - Entry(params, k).share)
      + (if k.c == INT then
           Passed(cols, params, zones, k.p, LNT, i, j)
           + Passed(cols, params, zones, k.p, MNT, i, j)
           + Passed(cols, params, zones, k.p, HNT, i, j)
         else 0.0)
  {
    var own := OwnBlend(start, cols, params, zones, k);
    OwnBlendCell(start, cols, params, zones, k, i, j);
    if k.c == INT {
      RedistributeCells(own, cols, params, zones, k.p, |Donors|, i, j);
      AllDonors(cols, params, zones, k.p, i, j);
    }
  }

  /** The own blend at one cell: the start plus the kept share of the class's scaled trips. */
  lemma OwnBlendCell(start: Matrix, cols: map<CvmKey, Matrix>, params: CvmParams, zones: nat, k: CvmKey, i: nat, j: nat)
    requires ScalesDefined(params) && params.scaleFactor != 0.0
    requires Loaded(cols, zones, k.p) && IsZoneMatrix(start, zones) && i < zones && j < zones
    ensures OwnBlend(start, cols, params, zones, k)[i][j] ==
      start[i][j] + ScaledColumn(cols, params, zones, k)[i][j] * (1.0 - Entry(params, k).share)
  {
  }

  /** What is written to the destination of column `k`: the blended array times the PCE factor,
      from the starting matrix as it was before this phase. */
  function Persisted(store: map<MatrixName, Matrix>, table: map<CvmKey, seq<real>>, params: CvmParams, zones: nat, k: CvmKey): (m: Matrix)
    requires ScalesDefined(params) && params.scaleFactor != 0.0 && Loaded(Columns(table, zones), zones, k.p)
    requires Entry(params, k).orig in store && IsZoneMatrix(store[Entry(params, k).orig], zones)
    ensures IsZoneMatrix(m, zones)
  {
    Scale(Blended(store[Entry(params, k).orig], Columns(table, zones), params, zones, k), Entry(params, k).pce)
  }

  /** The databank after a complete commercial-vehicle import: the SOV_TR_H and truck matrices
      hold their blended PCE demand, every other matrix is untouched. */
  function CvmResult(store: map<MatrixName, Matrix>, table: map<CvmKey, seq<real>>, params: CvmParams, zones: nat): (s: map<MatrixName, Matrix>)
    requires CvmReady(store, table, params, zones) && params.scaleFactor != 0.0 && AllZoneMatrices(store, zones)
    ensures s.Keys == store.Keys && AllZoneMatrices(s, zones)
  {
    map d | d in store :: if IsCvmDest(d) then Persisted(store, table, params, zones, CvmKeyOf(d)) else store[d]
  }

  /** A pass over every column loads the columns of every period. */
  lemma ColumnsLoaded(table: map<CvmKey, seq<real>>, zones: nat, order: seq<CvmKey>)
    requires IsOrder(order) && FirstFailure(order, ColumnCheck(table, zones)).Pass?
    ensures forall k :: k in Columns(table, zones) && IsZoneMatrix(Columns(table, zones)[k], zones)
    ensures forall p :: Loaded(Columns(table, zones), zones, p)
  {
    FirstFailurePass(order, ColumnCheck(table, zones));
    forall k ensures k in Columns(table, zones) && IsZoneMatrix(Columns(table, zones)[k], zones) {
      assert ColumnCheck(table, zones)(k).Pass?;
    }
  }

  /** The arrays the phases of the import compute, written to their destinations, make up the
      databank after a complete import. */
  lemma SavedIsResult(
    s0: map<MatrixName, Matrix>, table: map<CvmKey, seq<real>>, params: CvmParams, zones: nat, order: seq<CvmKey>,
    starts: map<CvmKey, Matrix>, arrays: map<CvmKey, Matrix>, blended: map<CvmKey, Matrix>, s1: map<MatrixName, Matrix>)
    requires CvmReady(s0, table, params, zones) && params.scaleFactor != 0.0 && AllZoneMatrices(s0, zones)
    requires IsOrder(order)
    requires forall k :: k in Columns(table, zones) && IsZoneMatrix(Columns(table, zones)[k], zones)
    requires forall k | k in order :: CvmOrig(k) in s0 && k in starts && starts[k] == s0[CvmOrig(k)]
    requires forall k | k in order ::
      && k in Columns(table, zones) && k in arrays && IsZoneMatrix(starts[k], zones)
      && arrays[k] == OwnBlend(starts[k], Columns(table, zones), params, zones, k)
    requires forall k | k in order ::
      && k in blended && IsZoneMatrix(arrays[k], zones)
      && blended[k] == (if k.c == INT then Redistribute(arrays[k], Columns(table, zones), params, zones, k.p, |Donors|) else arrays[k])
    requires s1.Keys == s0.Keys && forall d | d in s1 && !IsCvmDest(d) :: s1[d] == s0[d]
    requires forall k | k in order ::
      && CvmDest(k) in s1 && IsZoneMatrix(blended[k], zones)
      && s1[CvmDest(k)] == Scale(blended[k], Entry(params, k).pce)
    ensures s1 == CvmResult(s0, table, params, zones)
  {
    forall d | d in s1 ensures s1[d] == CvmResult(s0, table, params, zones)[d] {
      if IsCvmDest(d) {
        CvmDestInverse(d);
        assert CvmKeyOf(d) in order;
      }
    }
  }

  /** A loaded column is row-major: cell (i, j) is the column's value at position `i * zones + j`. */
  lemma ColumnCells(table: map<CvmKey, seq<real>>, k: CvmKey, zones: nat, i: nat, j: nat)
    requires Column(table, k, zones).Ok? && i < zones && j < zones
    ensures i * zones + j < |table[k]| && Columns(table, zones)[k][i][j] == table[k][i * zones + j]
  {
    ReshapeRowMajor(table[k], zones, i, j);
  }

  /** A written cell is the blended cell (see `BlendedCells`) times the PCE factor, and the scaled
      trips in it are the loaded column's cell divided by the scale factor and multiplied by the
      class scale. */
  lemma PersistedBlended(store: map<MatrixName, Matrix>, table: map<CvmKey, seq<real>>, params: CvmParams, zones: nat, k: CvmKey, i: nat, j: nat)
    requires CvmReady(store, table, params, zones) && params.scaleFactor != 0.0
    requires IsZoneMatrix(store[Entry(params, k).orig], zones) && i < zones && j < zones
    ensures k in Columns(table, zones)
    ensures ScaledColumn(Columns(table, zones), params, zones, k)[i][j] == Columns(table, zones)[k][i][j] / params.scaleFactor * Entry(params, k).scale
    ensures Persisted(store, table, params, zones, k)[i][j] ==
      Blended(store[Entry(params, k).orig], Columns(table, zones), params, zones, k)[i][j] * Entry(params, k).pce
  {
    assert Loaded(Columns(table, zones), zones, k.p);
    assert CvmKey(k.p, k.c) == k;
  }

  /** The blended array of column `k`: redistributed for the light-truck class, unchanged for
      the others. */
  ghost predicate ShareBlended(blended: map<CvmKey, Matrix>, arrays: map<CvmKey, Matrix>, cols: map<CvmKey, Matrix>, params: CvmParams, zones: nat, k: CvmKey)
    requires ScalesDefined(params) && params.scaleFactor != 0.0 && Loaded(cols, zones, k.p)
    requires k in arrays && IsZoneMatrix(arrays[k], zones)
  {
    k in blended && blended[k] == if k.c == INT then Redistribute(arrays[k], cols, params, zones, k.p, |Donors|) else arrays[k]
  }

  /** Trips added to class `c`'s array by the blend of period `p`, at one cell. */
  function Gain(start: Matrix, cols: map<CvmKey, Matrix>, params: CvmParams, zones: nat, p: Period, c: CvmClass, i: nat, j: nat): real
    requires ScalesDefined(params) && params.scaleFactor != 0.0
    requires Loaded(cols, zones, p) && IsZoneMatrix(start, zones) && i < zones && j < zones
  {
    Blended(start, cols, params, zones, CvmKey(p, c))[i][j] - start[i][j]
  }

  /** Shares move the trips of the LNT, MNT and HNT classes: what their arrays gain, plus what
      the light-truck array gains beyond its own kept share, is exactly their scaled trips (before
      PCE conversion). The light-truck class's own share is not part of this balance; see
      `ShareBalance`. */
  lemma ShareConservation(sL: Matrix, sM: Matrix, sH: Matrix, sI: Matrix, cols: map<CvmKey, Matrix>, params: CvmParams, zones: nat, p: Period, i: nat, j: nat)
    requires ScalesDefined(params) && params.scaleFactor != 0.0 && Loaded(cols, zones, p)
    requires IsZoneMatrix(sL, zones) && IsZoneMatrix(sM, zones) && IsZoneMatrix(sH, zones) && IsZoneMatrix(sI, zones)
    requires i < zones && j < zones
    ensures
      Gain(sL, cols, params, zones, p, LNT, i, j)
      + Gain(sM, cols, params, zones, p, MNT, i, j)
      + Gain(sH, cols, params, zones, p, HNT, i, j)
      + Gain(sI, cols, params, zones, p, INT, i, j)
      - Kept(cols, params, zones, p, INT, i, j)
      == ScaledColumn(cols, params, zones, CvmKey(p, LNT))[i][j]
      + ScaledColumn(cols, params, zones, CvmKey(p, MNT))[i][j]
      + ScaledColumn(cols, params, zones, CvmKey(p, HNT))[i][j]
  {
    GainCell(sL, cols, params, zones, p, LNT, i, j);
    GainCell(sM, cols, params, zones, p, MNT, i, j);
    GainCell(sH, cols, params, zones, p, HNT, i, j);
    GainCell(sI, cols, params, zones, p, INT, i, j);
    KeptAndPassed(cols, params, zones, p, LNT, i, j);
    KeptAndPassed(cols, params, zones, p, MNT, i, j);
    KeptAndPassed(cols, params, zones, p, HNT, i, j);
  }

  /** Over the four classes of a period, the blend adds all the scaled trips of LNT, MNT and HNT
      but only `1 - share_medium` of the light-truck class's own: INT takes the medium share, keeps
      the rest, and the share it gives up is added to no array. */
  lemma ShareBalance(sL: Matrix, sM: Matrix, sH: Matrix, sI: Matrix, cols: map<CvmKey, Matrix>, params: CvmParams, zones: nat, p: Period, i: nat, j: nat)
    requires ScalesDefined(params) && params.scaleFactor != 0.0 && Loaded(cols, zones, p)
    requires IsZoneMatrix(sL, zones) && IsZoneMatrix(sM, zones) && IsZoneMatrix(sH, zones) && IsZoneMatrix(sI, zones)
    requires i < zones && j < zones
    ensures
      Gain(sL, cols, params, zones, p, LNT, i, j)
      + Gain(sM, cols, params, zones, p, MNT, i, j)
      + Gain(sH, cols, params, zones, p, HNT, i, j)
      + Gain(sI, cols, params, zones, p, INT, i, j)
      == ScaledColumn(cols, params, zones, CvmKey(p, LNT))[i][j]
      + ScaledColumn(cols, params, zones, CvmKey(p, MNT))[i][j]
      + ScaledColumn(cols, params, zones, CvmKey(p, HNT))[i][j]
      + ScaledColumn(cols, params, zones, CvmKey(p, INT))[i][j] * (1.0 - params.shareMedium)
  {
    GainCell(sL, cols, params, zones, p, LNT, i, j);
    GainCell(sM, cols, params, zones, p, MNT, i, j);
    GainCell(sH, cols, params, zones, p, HNT, i, j);
    GainCell(sI, cols, params, zones, p, INT, i, j);
    KeptAndPassed(cols, params, zones, p, LNT, i, j);
    KeptAndPassed(cols, params, zones, p, MNT, i, j);
    KeptAndPassed(cols, params, zones, p, HNT, i, j);
    KeptLightTrucks(cols, params, zones, p, i, j);
  }

  /** The light-truck class keeps `1 - share_medium` of its own scaled trips. */
  lemma KeptLightTrucks(cols: map<CvmKey, Matrix>, params: CvmParams, zones: nat, p: Period, i: nat, j: nat)
    requires ScalesDefined(params) && params.scaleFactor != 0.0 && Loaded(cols, zones, p)
    requires i < zones && j < zones
    ensures Kept(cols, params, zones, p, INT, i, j)
      == ScaledColumn(cols, params, zones, CvmKey(p, INT))[i][j] * (1.0 - params.shareMedium)
  {
    assert Entry(params, CvmKey(p, INT)).share == params.shareMedium;
  }

  /** The part of class `c`'s scaled trips that its own array keeps, at one cell. */
  function Kept(cols: map<CvmKey, Matrix>, params: CvmParams, zones: nat, p: Period, c: CvmClass, i: nat, j: nat): real
    requires ScalesDefined(params) && params.scaleFactor != 0.0 && Loaded(cols, zones, p)
    requires i < zones && j < zones
  {
    ScaledColumn(cols, params, zones, CvmKey(p, c))[i][j] * (1.0 - Entry(params, CvmKey(p, c)).share)
  }

  /** Each donor keeps `1 - share` of its trips and passes `share` on: the two parts make up its
      scaled trips. */
  lemma KeptAndPassed(cols: map<CvmKey, Matrix>, params: CvmParams, zones: nat, p: Period, c: CvmClass, i: nat, j: nat)
    requires ScalesDefined(params) && params.scaleFactor != 0.0 && Loaded(cols, zones, p)
    requires i < zones && j < zones
    ensures Kept(cols, params, zones, p, c, i, j) + Passed(cols, params, zones, p, c, i, j)
      == ScaledColumn(cols, params, zones, CvmKey(p, c))[i][j]
  {
    var x, s := ScaledColumn(cols, params, zones, CvmKey(p, c))[i][j], Entry(params, CvmKey(p, c)).share;
    assert x * (1.0 - s) + x * s == x;
  }

  /** What class `c`'s array gains at one cell. */
  lemma GainCell(start: Matrix, cols: map<CvmKey, Matrix>, params: CvmParams, zones: nat, p: Period, c: CvmClass, i: nat, j: nat)
    requires ScalesDefined(params) && params.scaleFactor != 0.0
    requires Loaded(cols, zones, p) && IsZoneMatrix(start, zones) && i < zones && j < zones
    ensures Gain(start, cols, params, zones, p, c, i, j) ==
      Kept(cols, params, zones, p, c, i, j)
      + (if c == INT then
           Passed(cols, params, zones, p, LNT, i, j)
           + Passed(cols, params, zones, p, MNT, i, j)
           + Passed(cols, params, zones, p, HNT, i, j)
         else 0.0)
  {
    BlendedCells(start, cols, params, zones, CvmKey(p, c), i, j);
  }

  /** Column `k`'s blended array, times its PCE factor, is in its destination matrix. */
  ghost predicate Saved(store: map<MatrixName, Matrix>, blended: map<CvmKey, Matrix>, params: CvmParams, zones: nat, k: CvmKey)
    requires ScalesDefined(params)
  {
    && k in blended && IsZoneMatrix(blended[k], zones)
    && CvmDest(k) in store && store[CvmDest(k)] == Scale(blended[k], Entry(params, k).pce)
  }

  /** The destinations of the first `n` columns of `order`. */
  function Dests(order: seq<CvmKey>, n: nat): (ds: set<MatrixName>)
    requires n <= |order|
    ensures forall i | 0 <= i < n :: CvmDest(order[i]) in ds
    ensures forall d | d in ds :: IsCvmDest(d) && CvmKeyOf(d) in order[..n]
  {
    set i | 0 <= i < n :: CvmDest(order[i])
  }

  /** One more column adds its destination. */
  lemma DestsNext(order: seq<CvmKey>, n: nat)
    requires n < |order|
    ensures Dests(order, n + 1) == Dests(order, n) + {CvmDest(order[n])}
  {
    forall d | d in Dests(order, n + 1) ensures d in Dests(order, n) + {CvmDest(order[n])} {
      var i :| 0 <= i < n + 1 && d == CvmDest(order[i]);
    }
  }

  /** The save phase has written the first `n` columns: each holds its blended array times its PCE
      factor, and every matrix that is not one of their destinations is as it was. */
  ghost predicate SavedBefore(s0: map<MatrixName, Matrix>, s: map<MatrixName, Matrix>, blended: map<CvmKey, Matrix>,
                              params: CvmParams, zones: nat, order: seq<CvmKey>, n: nat)
    requires ScalesDefined(params) && n <= |order|
  {
    && s.Keys == s0.Keys
    && (forall i | 0 <= i < n :: Saved(s, blended, params, zones, order[i]))
    && (forall d | d in s && d !in Dests(order, n) :: s[d] == s0[d])
  }

  /** Saving column `order[n]` extends the save phase by one column. */
  lemma SavedBeforeNext(s0: map<MatrixName, Matrix>, s: map<MatrixName, Matrix>, blended: map<CvmKey, Matrix>,
                        params: CvmParams, zones: nat, order: seq<CvmKey>, n: nat)
    requires ScalesDefined(params) && IsOrder(order) && n < |order|
    requires SavedBefore(s0, s, blended, params, zones, order, n)
    requires order[n] in blended && IsZoneMatrix(blended[order[n]], zones) && CvmDest(order[n]) in s
    ensures SavedBefore(s0, s[CvmDest(order[n]) := Scale(blended[order[n]], Entry(params, order[n]).pce)], blended, params, zones, order, n + 1)
  {
    SavedNext(s, blended, params, zones, order, n);
    UntouchedNext(s0, s, order, n, Scale(blended[order[n]], Entry(params, order[n]).pce));
  }

  /** However far the save phase got, it left every matrix that is no commercial-vehicle
      destination as it was. */
  lemma SavedOthers(s0: map<MatrixName, Matrix>, s: map<MatrixName, Matrix>, blended: map<CvmKey, Matrix>,
                    params: CvmParams, zones: nat, order: seq<CvmKey>, n: nat)
    requires ScalesDefined(params) && n <= |order| && SavedBefore(s0, s, blended, params, zones, order, n)
    ensures forall d | d in s && !IsCvmDest(d) :: s[d] == s0[d]
  {
  }

  /** A save phase that got through every column of `order` saved each of them and left every
      matrix that is no commercial-vehicle destination as it was. */
  lemma SavedAll(s0: map<MatrixName, Matrix>, s: map<MatrixName, Matrix>, blended: map<CvmKey, Matrix>,
                 params: CvmParams, zones: nat, order: seq<CvmKey>)
    requires ScalesDefined(params) && SavedBefore(s0, s, blended, params, zones, order, |order|)
    ensures forall k | k in order :: Saved(s, blended, params, zones, k)
    ensures forall d | d in s && !IsCvmDest(d) :: s[d] == s0[d]
  {
    forall k | k in order
      ensures Saved(s, blended, params, zones, k)
    {
      var i :| 0 <= i < |order| && order[i] == k;
    }
    SavedOthers(s0, s, blended, params, zones, order, |order|);
  }

  /** Writing the next column's destination leaves alone every matrix that is no destination of
      the columns so far. */
  lemma UntouchedNext(s0: map<MatrixName, Matrix>, s: map<MatrixName, Matrix>, order: seq<CvmKey>, n: nat, a: Matrix)
    requires n < |order| && s.Keys == s0.Keys
    requires forall d | d in s && d !in Dests(order, n) :: s[d] == s0[d]
    ensures forall d | d in s[CvmDest(order[n]) := a] && d !in Dests(order, n + 1) :: s[CvmDest(order[n]) := a][d] == s0[d]
  {
    DestsNext(order, n);
  }

  /** What the save phase reads is there: the scale lists, a non-zero scale factor, every starting
      matrix as a zones by zones array, and every column. */
  ghost predicate CvmSaving(s0: map<MatrixName, Matrix>, table: map<CvmKey, seq<real>>, params: CvmParams, zones: nat) {
    && ScalesDefined(params) && params.scaleFactor != 0.0 && AllZoneMatrices(s0, zones)
    && (forall k :: CvmOrig(k) in s0)
    && (forall p :: Loaded(Columns(table, zones), zones, p))
  }

  /** A save phase stopped before column `order[n]`: the destinations of the columns before it
      hold their PCE demand, every other matrix is as it was. */
  ghost predicate CvmSavedBefore(s0: map<MatrixName, Matrix>, s: map<MatrixName, Matrix>, table: map<CvmKey, seq<real>>,
                                 params: CvmParams, zones: nat, order: seq<CvmKey>, n: nat)
    requires CvmSaving(s0, table, params, zones) && n <= |order|
  {
    && s.Keys == s0.Keys
    && (forall i | 0 <= i < n :: CvmDest(order[i]) in s && s[CvmDest(order[i])] == Persisted(s0, table, params, zones, order[i]))
    && (forall d | d in s && d !in Dests(order, n) :: s[d] == s0[d])
  }

  /** The array the phases compute for column `k`, times its PCE factor, is its `Persisted` demand. */
  lemma ArrayPersisted(
    s0: map<MatrixName, Matrix>, table: map<CvmKey, seq<real>>, params: CvmParams, zones: nat,
    starts: map<CvmKey, Matrix>, arrays: map<CvmKey, Matrix>, blended: map<CvmKey, Matrix>, k: CvmKey)
    requires CvmSaving(s0, table, params, zones)
    requires k in starts && starts[k] == s0[CvmOrig(k)] && IsZoneMatrix(starts[k], zones)
    requires k in Columns(table, zones) && k in arrays && arrays[k] == OwnBlend(starts[k], Columns(table, zones), params, zones, k)
    requires k in blended && IsZoneMatrix(arrays[k], zones)
    requires blended[k] == if k.c == INT then Redistribute(arrays[k], Columns(table, zones), params, zones, k.p, |Donors|) else arrays[k]
    ensures Scale(blended[k], Entry(params, k).pce) == Persisted(s0, table, params, zones, k)
  {
  }

  /** A save phase that stopped before column `order[n]` leaves the first `n` destinations with
      their PCE demand and the rest of the databank as it was. */
  lemma SaveStopped(
    s0: map<MatrixName, Matrix>, s: map<MatrixName, Matrix>, table: map<CvmKey, seq<real>>, params: CvmParams, zones: nat,
    order: seq<CvmKey>, starts: map<CvmKey, Matrix>, arrays: map<CvmKey, Matrix>, blended: map<CvmKey, Matrix>, n: nat)
    requires CvmSaving(s0, table, params, zones) && n <= |order|
    requires forall k | k in order :: k in starts && starts[k] == s0[CvmOrig(k)] && IsZoneMatrix(starts[k], zones)
    requires forall k | k in order ::
      && k in Columns(table, zones) && k in arrays
      && arrays[k] == OwnBlend(starts[k], Columns(table, zones), params, zones, k)
    requires forall k | k in order ::
      && k in blended && IsZoneMatrix(arrays[k], zones)
      && blended[k] == if k.c == INT then Redistribute(arrays[k], Columns(table, zones), params, zones, k.p, |Donors|) else arrays[k]
    requires SavedBefore(s0, s, blended, params, zones, order, n)
    ensures CvmSavedBefore(s0, s, table, params, zones, order, n)
  {
    forall i | 0 <= i < n
      ensures CvmDest(order[i]) in s && s[CvmDest(order[i])] == Persisted(s0, table, params, zones, order[i])
    {
      assert Saved(s, blended, params, zones, order[i]);
      ArrayPersisted(s0, table, params, zones, starts, arrays, blended, order[i]);
    }
  }

  /** Saving column `order[n]` to its own destination keeps the columns saved before it: the
      destinations of distinct columns are distinct. */
  lemma SavedNext(store: map<MatrixName, Matrix>, blended: map<CvmKey, Matrix>, params: CvmParams, zones: nat, order: seq<CvmKey>, n: nat)
    requires ScalesDefined(params) && IsOrder(order) && n < |order|
    requires forall i | 0 <= i < n :: Saved(store, blended, params, zones, order[i])
    requires order[n] in blended && IsZoneMatrix(blended[order[n]], zones) && CvmDest(order[n]) in store
    ensures forall i | 0 <= i < n + 1 ::
      Saved(store[CvmDest(order[n]) := Scale(blended[order[n]], Entry(params, order[n]).pce)], blended, params, zones, order[i])
  {
    var k := order[n];
    var s' := store[CvmDest(k) := Scale(blended[k], Entry(params, k).pce)];
    forall i | 0 <= i < n + 1 ensures Saved(s', blended, params, zones, order[i]) {
      if i < n {
        assert Saved(store, blended, params, zones, order[i]);
        assert CvmKeyOf(CvmDest(order[i])) != CvmKeyOf(CvmDest(k));
      }
    }
  }

  /** Writing one array to its destination. A destination already written in this phase gets the
      stored contents added back first, so two columns sharing a destination would sum. */
  function Persist(store: map<MatrixName, Matrix>, written: set<MatrixName>, d: MatrixName, a: Matrix): (r: map<MatrixName, Matrix>)
    requires d in written ==> d in store && Square(a) && Square(store[d]) && |a| == |store[d]|
    ensures r.Keys == store.Keys + {d}
    ensures forall k | k in store && k != d :: r[k] == store[k]
  {
    if d in written then store[d := Add(a, store[d])] else store[d := a]
  }

  /** A destination not yet written in this phase is overwritten. */
  lemma PersistFresh(store: map<MatrixName, Matrix>, written: set<MatrixName>, d: MatrixName, a: Matrix)
    requires d !in written
    ensures Persist(store, written, d, a) == store[d := a]
  {
  }

  /** Two arrays written to one destination in the same phase add up instead of the second
      replacing the first, in either order. */
  lemma PersistAliasSums(store: map<MatrixName, Matrix>, written: set<MatrixName>, d: MatrixName, a: Matrix, b: Matrix)
    requires Square(a) && Square(b) && |a| == |b| && d !in written
    ensures
      var once := Persist(store, written, d, a);
      var twice := Persist(once, written + {d}, d, b);
      var swapped := Persist(Persist(store, written, d, b), written + {d}, d, a);
      && d in twice && SameCells(twice[d], Add(a, b))
      && twice == swapped
  {
    var twice := Persist(Persist(store, written, d, a), written + {d}, d, b);
    var swapped := Persist(Persist(store, written, d, b), written + {d}, d, a);
    CellsDetermine(Add(b, a), Add(a, b));
    assert twice == store[d := Add(b, a)];
    assert swapped == store[d := Add(a, b)];
  }
}
