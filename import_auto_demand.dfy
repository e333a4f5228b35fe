/** The import tool itself (import_auto_demand.py, class `ImportMatrices`): it fills the auto class
    matrices of the Emme databank from the CT-RAMP trip tables, blends in the commercial-vehicle
    trips, and adds the aggregate external demand. */
module ImportAutoDemand {
  import opened Outcomes
  import opened Matrices
  import opened Keys
  import opened Omx
  import opened TrafficRules
  import opened TrafficImport
  import opened CommercialRules
  import opened AggregateRules

  class ImportMatrices {
    /** Number of zones of the scenario. */
    const zones: nat
    /** The full matrices of the Emme databank, by name. */
    var store: map<MatrixName, Matrix>
    /** `_matrix_cache`: matrices collected during a CT-RAMP import, written out when it ends. */
    var cache: map<MatrixName, Matrix>

    /** Every matrix, in the databank or in the cache, belongs to the scenario's zone system. */
    ghost predicate Valid()
      reads this
    {
      AllZoneMatrices(store, zones) && AllZoneMatrices(cache, zones)
    }

    constructor(zones: nat, store: map<MatrixName, Matrix>)
      requires AllZoneMatrices(store, zones)
      ensures Valid() && this.zones == zones && this.store == store && cache == map[]
    {
      this.zones := zones;
      this.store := store;
      this.cache := map[];
    }

    /** `set_data`. */
    method SetData(name: MatrixName, value: Matrix)
      requires Valid() && IsZoneMatrix(value, zones)
      modifies this`cache
      ensures Valid() && cache == Accumulate(old(cache), name, value)
    {
      if name in cache {
        cache := cache[name := Add(value, cache[name])];
      } else {
        cache := cache[name := value];
      }
    }

    /** The `finally` of `setup`: the cached matrices are written to their databank matrices one
        by one, in the cache's own order. A name the databank lacks raises, with the matrices
        visited before it already written. */
    method Flush() returns (r: Outcome<Error>)
      requires Valid()
      modifies this`store
      ensures Valid() && store.Keys == old(store).Keys
      ensures r.Pass? <==> cache.Keys <= old(store).Keys
      ensures r.Pass? ==> store == old(store) + cache
      ensures r.Fail? ==> FlushStopped(old(store), cache, store, r.error)
    {
      var pending := cache.Keys;
      while pending != {}
        invariant pending <= cache.Keys && store.Keys == old(store).Keys && Valid()
        invariant cache.Keys - pending <= store.Keys
        invariant forall k | k in store :: store[k] == if k in cache && k !in pending then cache[k] else old(store)[k]
        decreases pending
      {
        var name :| name in pending;
        if name !in store {
          return Fail(MissingMatrix(name));
        }
        store := store[name := cache[name]];
        pending := pending - {name};
      }
      assert store.Keys == (old(store) + cache).Keys;
      r := Pass;
    }

    /** A block of the CT-RAMP import: each step's tables are looked up and its demand passed to
        `set_data`; the first missing table stops the block. */
    method ImportSteps(omx: OmxFiles, params: TrafficParams, ghost d: Demands, steps: seq<Step>) returns (r: Outcome<Error>)
      requires Valid() && omx.Valid() && omx.zones == zones && params.taxiPassengers != 0.0
      requires LooksUp(d, omx, params)
      modifies this`cache
      ensures Valid() && Progress(r, cache) == Apply(old(cache), Writes(d, steps))
    {
      ghost var c0 := cache;
      for n := 0 to |steps|
        invariant Valid() && Progress(Pass, cache) == Apply(c0, Writes(d, steps[..n]))
      {
        var demand := StepDemand(omx, params, steps[n]);
        assert demand == Lookup(d, steps[n]);
        StepsNext(c0, d, steps, n, cache);
        if demand.Err? {
          StepsStop(c0, d, steps, n);
          return Fail(demand.error);
        }
        SetData(StepName(steps[n]), demand.value);
      }
      assert steps[..|steps|] == steps;
      r := Pass;
    }

    /** The four blocks of tier `vi` of period `pi`. */
    method ImportTier(omx: OmxFiles, params: TrafficParams, ghost d: Demands, pi: nat, vi: nat) returns (r: Outcome<Error>)
      requires Valid() && omx.Valid() && omx.zones == zones && params.taxiPassengers != 0.0
      requires LooksUp(d, omx, params)
      requires pi < |Periods| && vi < |Vots| && Progress(Pass, cache) == Apply(map[], WritesBefore(d, pi, vi))
      modifies this`cache
      ensures Valid() && Progress(r, cache) == Apply(map[], WritesBefore(d, pi, vi + 1))
      ensures r.Fail? ==> Progress(r, cache) == Apply(map[], TrafficWrites(d, pi + 1))
    {
      ghost var c0 := cache;
      r := ImportSteps(omx, params, d, VotSteps(Periods[pi], Vots[vi]));
      TierDone(d, pi, vi, c0, r, cache);
    }

    /** The low, medium and high tiers of period `pi`, in turn; a missing table stops the import. */
    method ImportTiers(omx: OmxFiles, params: TrafficParams, ghost d: Demands, pi: nat) returns (r: Outcome<Error>)
      requires Valid() && omx.Valid() && omx.zones == zones && params.taxiPassengers != 0.0
      requires LooksUp(d, omx, params)
      requires pi < |Periods| && Progress(Pass, cache) == Apply(map[], WritesBefore(d, pi, 0))
      modifies this`cache
      ensures Valid()
      ensures r.Pass? ==> Progress(Pass, cache) == Apply(map[], WritesBefore(d, pi, |Vots|))
      ensures r.Fail? ==> Progress(r, cache) == Apply(map[], TrafficWrites(d, pi + 1))
    {
      for vi := 0 to |Vots|
        invariant Valid() && Progress(Pass, cache) == Apply(map[], WritesBefore(d, pi, vi))
      {
        r := ImportTier(omx, params, d, pi, vi);
        if r.Fail? {
          return;
        }
      }
      r := Pass;
    }

    /** One period of `import_traffic_trips`: the blocks of the low, medium and high tiers, then
        the high targets; a missing table stops the import. */
    method ImportPeriod(omx: OmxFiles, params: TrafficParams, ghost d: Demands, pi: nat) returns (r: Outcome<Error>)
      requires Valid() && omx.Valid() && omx.zones == zones && params.taxiPassengers != 0.0
      requires LooksUp(d, omx, params)
      requires pi < |Periods| && Progress(Pass, cache) == Apply(map[], TrafficWrites(d, pi))
      modifies this`cache
      ensures Valid() && Progress(r, cache) == Apply(map[], TrafficWrites(d, pi + 1))
    {
      BeforeFirst(d, pi);
      r := ImportTiers(omx, params, d, pi);
      if r.Pass? {
        r := ImportHigh(omx, params, d, pi);
      }
    }

    /** The three high-target blocks of period `pi`, after all its tiers. */
    method ImportHigh(omx: OmxFiles, params: TrafficParams, ghost d: Demands, pi: nat) returns (r: Outcome<Error>)
      requires Valid() && omx.Valid() && omx.zones == zones && params.taxiPassengers != 0.0
      requires LooksUp(d, omx, params)
      requires pi < |Periods| && Progress(Pass, cache) == Apply(map[], WritesBefore(d, pi, |Vots|))
      modifies this`cache
      ensures Valid() && Progress(r, cache) == Apply(map[], TrafficWrites(d, pi + 1))
    {
      ghost var c0 := cache;
      r := ImportSteps(omx, params, d, HighSteps(Periods[pi]));
      HighDone(d, pi, c0, r, cache);
    }

    /** The periods of `import_traffic_trips` in turn, from an empty cache; the first missing
        table stops the import. */
    method ImportPeriods(omx: OmxFiles, params: TrafficParams, ghost d: Demands) returns (r: Outcome<Error>)
      requires Valid() && omx.Valid() && omx.zones == zones && params.taxiPassengers != 0.0
      requires LooksUp(d, omx, params) && cache == map[]
      modifies this`cache
      ensures Valid() && Progress(r, cache) == Apply(map[], TrafficWrites(d, |Periods|))
    {
      for pi := 0 to |Periods|
        invariant Valid() && Progress(Pass, cache) == Apply(map[], TrafficWrites(d, pi))
      {
        r := ImportPeriod(omx, params, d, pi);
        if r.Fail? {
          PeriodFailStops(d, pi, r, cache);
          return;
        }
      }
      r := Pass;
    }

    /** `import_traffic_trips`: the taxi factors are computed first (a zero passengers-per-vehicle
        fails before anything is touched); then the cache is emptied, the blocks of every period
        run in turn, and the cache is written to the databank whether or not the import failed. A
        cached name the databank lacks raises in that write, and its error replaces the import's. */
    method ImportTrafficTrips(omx: OmxFiles, params: TrafficParams) returns (r: Outcome<Error>)
      requires Valid() && omx.Valid() && omx.zones == zones
      modifies this`store, this`cache
      ensures Valid() && store.Keys == old(store).Keys
      ensures params.taxiPassengers == 0.0 ==> r == Fail(ZeroDivision) && store == old(store) && cache == old(cache)
      ensures params.taxiPassengers != 0.0 ==> cache == TrafficRun(omx, params).cache
      ensures params.taxiPassengers != 0.0 && cache.Keys <= old(store).Keys ==>
        && r == TrafficRun(omx, params).outcome
        && store == old(store) + cache
      ensures params.taxiPassengers != 0.0 && !(cache.Keys <= old(store).Keys) ==>
        r.Fail? && FlushStopped(old(store), cache, store, r.error)
    {
      if params.taxiPassengers == 0.0 {
        return Fail(ZeroDivision);
      }
      ghost var d := Lookups(omx, params);
      assert LooksUp(d, omx, params);
      cache := map[];
      var imported := ImportPeriods(omx, params, d);
      var flushed := Flush();
      r := if flushed.Fail? then flushed else imported;
    }

    // -------------------------------------------------------------------------------------------
    // import_commercial_vehicle_demand

    /** Loading the starting arrays: the `orig` matrix of every column, visited in `order`; a
        missing matrix stops the import. */
    method LoadStarts(order: seq<CvmKey>) returns (r: Outcome<Error>, starts: map<CvmKey, Matrix>)
      ensures r == FirstFailure(order, OrigCheck(store))
      ensures r.Pass? ==> forall k | k in order :: CvmOrig(k) in store && k in starts && starts[k] == store[CvmOrig(k)]
    {
      starts := map[];
      for n := 0 to |order|
        invariant FirstFailure(order[..n], OrigCheck(store)).Pass?
        invariant forall i | 0 <= i < n :: CvmOrig(order[i]) in store && order[i] in starts && starts[order[i]] == store[CvmOrig(order[i])]
      {
        var k := order[n];
        FirstFailureNext(order, n, OrigCheck(store));
        if CvmOrig(k) !in store {
          FirstFailureStops(order, n + 1, OrigCheck(store));
          return Fail(MissingMatrix(CvmOrig(k))), starts;
        }
        starts := starts[k := store[CvmOrig(k)]];
      }
      assert order[..|order|] == order;
      r := Pass;
      forall k | k in order ensures CvmOrig(k) in store && k in starts && starts[k] == store[CvmOrig(k)] {
        var i :| 0 <= i < |order| && order[i] == k;
      }
    }

    /** Reading TripMatrices.csv: each column, visited in `order`, is reshaped to a zones by zones
        array, divided by the trip-generation scale factor, multiplied by its class scale, and the
        share that stays with the class is added to the starting array. A missing column, or one
        that cannot be reshaped, stops the import. */
    method BlendColumns(table: map<CvmKey, seq<real>>, params: CvmParams, order: seq<CvmKey>, starts: map<CvmKey, Matrix>)
      returns (r: Outcome<Error>, arrays: map<CvmKey, Matrix>)
      requires ScalesDefined(params) && params.scaleFactor != 0.0
      requires forall k | k in order :: k in starts && IsZoneMatrix(starts[k], zones)
      ensures r == FirstFailure(order, ColumnCheck(table, zones))
      ensures r.Pass? ==> forall k | k in order ::
        && k in Columns(table, zones) && k in arrays
        && arrays[k] == OwnBlend(starts[k], Columns(table, zones), params, zones, k)
    {
      arrays := map[];
      ghost var cols := Columns(table, zones);
      for n := 0 to |order|
        invariant FirstFailure(order[..n], ColumnCheck(table, zones)).Pass?
        invariant forall i | 0 <= i < n :: OwnBlended(arrays, starts, cols, params, zones, order[i])
      {
        var k := order[n];
        FirstFailureNext(order, n, ColumnCheck(table, zones));
        var blend, own := BlendColumn(table, params, k, starts[k]);
        if blend.Fail? {
          FirstFailureStops(order, n + 1, ColumnCheck(table, zones));
          return blend, arrays;
        }
        ghost var before := arrays;
        arrays := arrays[k := own];
        forall i | 0 <= i < n + 1 ensures OwnBlended(arrays, starts, cols, params, zones, order[i]) {
          if order[i] != k {
            assert OwnBlended(before, starts, cols, params, zones, order[i]);
          }
        }
      }
      assert order[..|order|] == order;
      r := Pass;
      forall k | k in order ensures k in cols && k in arrays && arrays[k] == OwnBlend(starts[k], cols, params, zones, k) {
        var i :| 0 <= i < |order| && order[i] == k;
        assert OwnBlended(arrays, starts, cols, params, zones, order[i]);
      }
    }

    /** One column's own blend: the column is read, divided by the scale factor, multiplied by
        the class scale, and the share that stays with the class is added to the starting array.
        A missing or misshapen column stops the import. */
    method BlendColumn(table: map<CvmKey, seq<real>>, params: CvmParams, k: CvmKey, start: Matrix)
      returns (r: Outcome<Error>, own: Matrix)
      requires ScalesDefined(params) && params.scaleFactor != 0.0 && IsZoneMatrix(start, zones)
      ensures r == ColumnCheck(table, zones)(k)
      ensures r.Pass? ==> k in Columns(table, zones) && own == OwnBlend(start, Columns(table, zones), params, zones, k)
    {
      var e := Entry(params, k);
      var column := Column(table, k, zones);
      if column.Err? {
        return Fail(column.error), start;
      }
      var cvm := Divide(column.value, params.scaleFactor);
      cvm := Scale(cvm, e.scale);
      assert cvm == ScaledColumn(Columns(table, zones), params, zones, k);
      r, own := Pass, Add(start, Scale(cvm, 1.0 - e.share));
    }

    /** Adding the commercial trucks to one light-truck array of period `p`: from the LNT, MNT
        and HNT columns in turn, their scaled trips times their share, skipping a donor whose
        share is zero. */
    method AddDonors(table: map<CvmKey, seq<real>>, params: CvmParams, p: Period, start: Matrix) returns (acc: Matrix)
      requires ScalesDefined(params) && params.scaleFactor != 0.0
      requires Loaded(Columns(table, zones), zones, p) && IsZoneMatrix(start, zones)
      ensures acc == Redistribute(start, Columns(table, zones), params, zones, p, |Donors|)
    {
      ghost var cols := Columns(table, zones);
      acc := start;
      for di := 0 to |Donors|
        invariant IsZoneMatrix(acc, zones) && acc == Redistribute(start, cols, params, zones, p, di)
      {
        var donor := CvmKey(p, Donors[di]);
        var e := Entry(params, donor);
        if e.share != 0.0 {
          var column := Column(table, donor, zones);
          var cvm := Divide(column.value, params.scaleFactor);
          cvm := Scale(cvm, e.scale);
          acc := Add(acc, Scale(cvm, e.share));
        }
      }
    }

    /** Adding the commercial trucks to the light trucks: every INT column, visited in `order`,
        receives the shares of the LNT, MNT and HNT columns of its period. */
    method RedistributeShares(table: map<CvmKey, seq<real>>, params: CvmParams, order: seq<CvmKey>, arrays: map<CvmKey, Matrix>)
      returns (blended: map<CvmKey, Matrix>)
      requires ScalesDefined(params) && params.scaleFactor != 0.0 && IsOrder(order)
      requires forall p :: Loaded(Columns(table, zones), zones, p)
      requires forall k :: k in arrays && IsZoneMatrix(arrays[k], zones)
      ensures forall k ::
        && k in blended
        && blended[k] == if k.c == INT then Redistribute(arrays[k], Columns(table, zones), params, zones, k.p, |Donors|) else arrays[k]
    {
      ghost var cols := Columns(table, zones);
      blended := arrays;
      for n := 0 to |order|
        invariant forall i | 0 <= i < n :: ShareBlended(blended, arrays, cols, params, zones, order[i])
        invariant forall i | n <= i < |order| :: order[i] in blended && blended[order[i]] == arrays[order[i]]
      {
        var k := order[n];
        ghost var before := blended;
        if k.c == INT {
          var acc := AddDonors(table, params, k.p, blended[k]);
          blended := blended[k := acc];
        }
        forall i | 0 <= i < |order| && i != n ensures order[i] in blended && blended[order[i]] == before[order[i]] {
          assert order[i] != k;
        }
        forall i | 0 <= i < n + 1 ensures ShareBlended(blended, arrays, cols, params, zones, order[i]) {
          if i < n {
            assert ShareBlended(before, arrays, cols, params, zones, order[i]);
          }
        }
      }
      forall k ensures k in blended && blended[k] ==
        if k.c == INT then Redistribute(arrays[k], cols, params, zones, k.p, |Donors|) else arrays[k]
      {
        assert k in order;
        var i :| 0 <= i < |order| && order[i] == k;
        assert ShareBlended(blended, arrays, cols, params, zones, order[i]);
      }
    }

    /** Saving: each array, visited in `order`, times its PCE factor is written to its destination
        matrix; a destination already written in this phase would get its contents added back
        (see `Persist`), which the distinct destinations of the mapping never trigger. A missing
        destination stops the import with the earlier destinations already written. */
    method SaveArrays(params: CvmParams, order: seq<CvmKey>, blended: map<CvmKey, Matrix>) returns (r: Outcome<Error>)
      requires Valid() && ScalesDefined(params) && IsOrder(order)
      requires forall k | k in order :: k in blended && IsZoneMatrix(blended[k], zones)
      modifies this`store
      ensures Valid() && store.Keys == old(store).Keys
      ensures r == FirstFailure(order, DestCheck(old(store)))
      ensures forall d | d in store && !IsCvmDest(d) :: store[d] == old(store)[d]
      ensures r.Pass? ==> forall k | k in order ::
        && CvmDest(k) in store && IsZoneMatrix(blended[k], zones)
        && store[CvmDest(k)] == Scale(blended[k], Entry(params, k).pce)
      ensures r.Fail? ==> exists n | 0 <= n < |order| ::
        && r.error == MissingMatrix(CvmDest(order[n]))
        && SavedBefore(old(store), store, blended, params, zones, order, n)
    {
      ghost var s0 := store;
      var saving := store;
      var written: set<MatrixName> := {};
      for n := 0 to |order|
        invariant AllZoneMatrices(saving, zones)
        invariant FirstFailure(order[..n], DestCheck(s0)).Pass?
        invariant written == Dests(order, n)
        invariant forall i | n <= i < |order| :: CvmDest(order[i]) !in written
        invariant SavedBefore(s0, saving, blended, params, zones, order, n)
      {
        var k := order[n];
        var e := Entry(params, k);
        FirstFailureNext(order, n, DestCheck(s0));
        if e.dest !in saving {
          FirstFailureStops(order, n + 1, DestCheck(s0));
          SavedOthers(s0, saving, blended, params, zones, order, n);
          store := saving;
          r := Fail(MissingMatrix(e.dest));
          assert r.error == MissingMatrix(CvmDest(order[n])) && SavedBefore(s0, store, blended, params, zones, order, n);
          return;
        }
        var saved := Scale(blended[k], e.pce);
        PersistFresh(saving, written, e.dest, saved);
        SavedBeforeNext(s0, saving, blended, params, zones, order, n);
        DestsNext(order, n);
        saving := Persist(saving, written, e.dest, saved);
        written := written + {e.dest};
      }
      assert order[..|order|] == order;
      store := saving;
      r := Pass;
      SavedAll(s0, store, blended, params, zones, order);
    }

    /** `import_commercial_vehicle_demand`, the columns visited in `order` in every phase: build
        the mapping, load the starting arrays, blend in the columns, redistribute the commercial
        shares to the light trucks, and save the arrays as PCEs. Only the save phase writes to the
        databank. */
    method ImportCommercialVehicleDemand(table: map<CvmKey, seq<real>>, params: CvmParams, order: seq<CvmKey>)
      returns (r: Outcome<Error>)
      requires Valid() && IsOrder(order) && params.scaleFactor != 0.0
      modifies this`store
      ensures Valid() && store.Keys == old(store).Keys
      ensures r == CvmOutcome(old(store), table, params, zones, order)
      ensures r.Pass? <==> CvmReady(old(store), table, params, zones)
      ensures r.Pass? ==> store == CvmResult(old(store), table, params, zones)
      ensures r.Fail? ==> forall d | d in store && !IsCvmDest(d) :: store[d] == old(store)[d]
      ensures r.Fail? && !ScalesDefined(params) ==> store == old(store)
      ensures r.Fail? && FirstFailure(order, OrigCheck(old(store))).Fail? ==> store == old(store)
      ensures r.Fail? && FirstFailure(order, ColumnCheck(table, zones)).Fail? ==> store == old(store)
      ensures (r.Fail? && ScalesDefined(params) && FirstFailure(order, OrigCheck(old(store))).Pass?
               && FirstFailure(order, ColumnCheck(table, zones)).Pass?) ==>
        && CvmSaving(old(store), table, params, zones)
        && exists n | 0 <= n < |order| ::
          && r.error == MissingMatrix(CvmDest(order[n]))
          && CvmSavedBefore(old(store), store, table, params, zones, order, n)
    {
      CvmOutcomeReady(store, table, params, zones, order);
      if !ScalesDefined(params) {
        return Fail(ScaleIndexOutOfRange);
      }
      var starts;
      r, starts := LoadStarts(order);
      if r.Fail? {
        return;
      }
      var arrays;
      r, arrays := BlendColumns(table, params, order, starts);
      if r.Fail? {
        return;
      }
      ColumnsLoaded(table, zones, order);
      var blended := RedistributeShares(table, params, order, arrays);
      ghost var s0 := store;
      r := SaveArrays(params, order, blended);
      if r.Pass? {
        SavedIsResult(s0, table, params, zones, order, starts, arrays, blended, store);
      } else {
        forall k ensures CvmOrig(k) in s0 {
          assert k in order;
        }
        ghost var n :| 0 <= n < |order| && r.error == MissingMatrix(CvmDest(order[n]))
          && SavedBefore(s0, store, blended, params, zones, order, n);
        SaveStopped(s0, store, table, params, zones, order, starts, arrays, blended, n);
      }
    }

    // -------------------------------------------------------------------------------------------
    // add_aggregate_demand

    /** One calculation of the external-internal pass, the `n`th: a third of mode `m`'s work and
        non-work trips is added to its target in tier `v`; a missing matrix stops the pass. */
    method AddEiSpec(ghost s0: map<MatrixName, Matrix>, ghost n: nat, p: Period, m: EiMode, v: Vot) returns (r: Outcome<Error>)
      requires n == EiPos(p, m, v) && Valid() && EiDone(s0, zones, store, n)
      modifies this`store
      ensures Valid()
      ensures r.Pass? ==> EiDone(s0, zones, store, n + 1)
      ensures r.Fail? ==> store == old(store) && EiStoppedAt(s0, zones, store, p, m, v)
      ensures r.Fail? ==> EiStopped(s0, zones, store, r.error)
    {
      var s := store;
      r := EiCheck(s, p, m, v);
      if r.Fail? {
        EiMissing(s0, zones, s, p, m, v, r.error.name);
        return;
      }
      RunEiSpec(s0, n, p, m, v);
    }

    /** A calculation whose matrices are all there adds a third of the work and of the non-work
        trips to its target. */
    method RunEiSpec(ghost s0: map<MatrixName, Matrix>, ghost n: nat, p: Period, m: EiMode, v: Vot)
      requires n == EiPos(p, m, v) && Valid() && EiDone(s0, zones, store, n) && EiSpecReady(store, p, m, v)
      modifies this`store
      ensures Valid() && EiDone(s0, zones, store, n + 1)
    {
      var s := store;
      var target, work, nonWork := EiTarget(p, m, v), EiTrips(p, m, Work), EiTrips(p, m, NonWork);
      EiRunStep(s0, zones, s, p, m, v);
      EiUpdateZones(s, zones, target, work, nonWork);
      store := s[target := EiUpdate(s[target], s[work], s[nonWork])];
    }

    /** The three tiers of mode `EiModes[mi]` in period `Periods[pi]`, calculations `n` to `n + 2`. */
    method AddEiTiers(ghost s0: map<MatrixName, Matrix>, ghost n: nat, pi: nat, mi: nat) returns (r: Outcome<Error>)
      requires pi < |Periods| && mi < |EiModes| && n == pi * 18 + mi * 3
      requires Valid() && EiDone(s0, zones, store, n)
      modifies this`store
      ensures Valid()
      ensures r.Pass? ==> EiDone(s0, zones, store, n + 3)
      ensures r.Fail? ==> EiStopped(s0, zones, store, r.error)
    {
      ghost var done := n;
      for vi := 0 to |Vots|
        invariant done == n + vi
        invariant Valid() && EiDone(s0, zones, store, done)
      {
        EiPosAt(pi, mi, vi);
        r := AddEiSpec(s0, done, Periods[pi], EiModes[mi], Vots[vi]);
        if r.Fail? {
          return;
        }
        done := done + 1;
      }
      assert done == n + 3;
      r := Pass;
    }

    /** The six modes of period `Periods[pi]`, calculations `n` to `n + 17`. */
    method AddEiModes(ghost s0: map<MatrixName, Matrix>, ghost n: nat, pi: nat) returns (r: Outcome<Error>)
      requires pi < |Periods| && n == pi * 18
      requires Valid() && EiDone(s0, zones, store, n)
      modifies this`store
      ensures Valid()
      ensures r.Pass? ==> EiDone(s0, zones, store, n + 18)
      ensures r.Fail? ==> EiStopped(s0, zones, store, r.error)
    {
      ghost var done := n;
      for mi := 0 to |EiModes|
        invariant done == n + mi * 3
        invariant Valid() && EiDone(s0, zones, store, done)
      {
        r := AddEiTiers(s0, done, pi, mi);
        if r.Fail? {
          return;
        }
        done := done + 3;
      }
      assert done == n + 18;
      r := Pass;
    }

    /** The external-internal pass: for every period, mode and tier, in that order, a third of the
        mode's aggregate trips is added to its target; the first missing matrix stops the pass,
        with the calculations before it done. */
    method AddExternalInternal() returns (r: Outcome<Error>)
      requires Valid()
      modifies this`store
      ensures Valid() && store.Keys == old(store).Keys
      ensures r.Pass? <==> EiReady(old(store))
      ensures r.Pass? ==> store == EiResult(old(store), zones)
      ensures r.Fail? ==> EiStopped(old(store), zones, store, r.error)
    {
      ghost var s0 := store;
      EiDoneStart(s0, zones);
      ghost var done := 0;
      for pi := 0 to |Periods|
        invariant done == pi * 18
        invariant Valid() && EiDone(s0, zones, store, done)
      {
        r := AddEiModes(s0, done, pi);
        if r.Fail? {
          ghost var p, m, v :| EiStoppedAt(s0, zones, store, p, m, v);
          EiStoppedNotReady(s0, zones, store, p, m, v);
          return;
        }
        done := done + 18;
      }
      assert done == |Periods| * 18;
      EiDoneAll(s0, zones, store);
      r := Pass;
    }

    /** One calculation of the external-external pass, the `n`th: a third of mode `m`'s trips is
        added to its target in tier `v`, between external zones only; a missing matrix stops the
        pass. */
    method AddEeSpec(ghost s0: map<MatrixName, Matrix>, ghost n: nat, ext: set<int>, p: Period, m: EeMode, v: Vot) returns (r: Outcome<Error>)
      requires n == EePos(p, m, v) && Valid() && EeDone(s0, zones, ext, store, n)
      modifies this`store
      ensures Valid()
      ensures r.Pass? ==> EeDone(s0, zones, ext, store, n + 1)
      ensures r.Fail? ==> store == old(store) && EeStoppedAt(s0, zones, ext, store, p, m, v)
      ensures r.Fail? ==> EeStopped(s0, zones, ext, store, r.error)
    {
      var s := store;
      r := EeCheck(s, p, m, v);
      if r.Fail? {
        EeMissing(s0, zones, ext, s, p, m, v, r.error.name);
        return;
      }
      var target := EeTarget(p, m, v);
      EeRunStep(s0, zones, ext, s, p, m, v);
      store := s[target := EeUpdate(s[target], s[EeTrips(p, m)], ext)];
    }

    /** The three tiers of mode `EeModes[mi]` in period `Periods[pi]`, calculations `n` to `n + 2`. */
    method AddEeTiers(ghost s0: map<MatrixName, Matrix>, ghost n: nat, ext: set<int>, pi: nat, mi: nat) returns (r: Outcome<Error>)
      requires pi < |Periods| && mi < |EeModes| && n == pi * 9 + mi * 3
      requires Valid() && EeDone(s0, zones, ext, store, n)
      modifies this`store
      ensures Valid()
      ensures r.Pass? ==> EeDone(s0, zones, ext, store, n + 3)
      ensures r.Fail? ==> EeStopped(s0, zones, ext, store, r.error)
    {
      ghost var done := n;
      for vi := 0 to |Vots|
        invariant done == n + vi
        invariant Valid() && EeDone(s0, zones, ext, store, done)
      {
        EePosAt(pi, mi, vi);
        r := AddEeSpec(s0, done, ext, Periods[pi], EeModes[mi], Vots[vi]);
        if r.Fail? {
          return;
        }
        done := done + 1;
      }
      assert done == n + 3;
      r := Pass;
    }

    /** The three modes of period `Periods[pi]`, calculations `n` to `n + 8`. */
    method AddEeModes(ghost s0: map<MatrixName, Matrix>, ghost n: nat, ext: set<int>, pi: nat) returns (r: Outcome<Error>)
      requires pi < |Periods| && n == pi * 9
      requires Valid() && EeDone(s0, zones, ext, store, n)
      modifies this`store
      ensures Valid()
      ensures r.Pass? ==> EeDone(s0, zones, ext, store, n + 9)
      ensures r.Fail? ==> EeStopped(s0, zones, ext, store, r.error)
    {
      ghost var done := n;
      for mi := 0 to |EeModes|
        invariant done == n + mi * 3
        invariant Valid() && EeDone(s0, zones, ext, store, done)
      {
        r := AddEeTiers(s0, done, ext, pi, mi);
        if r.Fail? {
          return;
        }
        done := done + 3;
      }
      assert done == n + 9;
      r := Pass;
    }

    /** The external-external pass: for every period, mode and tier, in that order, a third of the
        mode's trips is added to its target between external zones; the first missing matrix stops
        the pass, with the calculations before it done. */
    method AddExternalExternal(ext: set<int>) returns (r: Outcome<Error>)
      requires Valid()
      modifies this`store
      ensures Valid() && store.Keys == old(store).Keys
      ensures r.Pass? <==> EeReady(old(store))
      ensures r.Pass? ==> store == EeResult(old(store), zones, ext)
      ensures r.Fail? ==> EeStopped(old(store), zones, ext, store, r.error)
    {
      ghost var s0 := store;
      EeDoneStart(s0, zones, ext);
      ghost var done := 0;
      for pi := 0 to |Periods|
        invariant done == pi * 9
        invariant Valid() && EeDone(s0, zones, ext, store, done)
      {
        r := AddEeModes(s0, done, ext, pi);
        if r.Fail? {
          ghost var p, m, v :| EeStoppedAt(s0, zones, ext, store, p, m, v);
          EeStoppedNotReady(s0, zones, ext, store, p, m, v);
          return;
        }
        done := done + 9;
      }
      assert done == |Periods| * 9;
      EeDoneAll(s0, zones, ext, store);
      r := Pass;
    }

    /** `add_aggregate_demand`: the external-internal pass, then, if it completed, the
        external-external pass. */
    method AddAggregateDemand(ext: set<int>) returns (r: Outcome<Error>)
      requires Valid()
      modifies this`store
      ensures Valid() && store.Keys == old(store).Keys
      ensures r.Pass? <==> EiReady(old(store)) && EeReady(old(store))
      ensures r.Pass? ==> store == AggregateResult(old(store), zones, ext)
      ensures r.Fail? ==> r.error.MissingMatrix? && r.error.name !in old(store)
      ensures r.Fail? && !EiReady(old(store)) ==> EiStopped(old(store), zones, store, r.error)
      ensures r.Fail? && EiReady(old(store)) ==> EeStopped(EiResult(old(store), zones), zones, ext, store, r.error)
    {
      r := AddExternalInternal();
      if r.Fail? {
        return;
      }
      EeReadyAfterEi(old(store), zones);
      r := AddExternalExternal(ext);
    }

    // -------------------------------------------------------------------------------------------
    // __call__

    /** The tool: the CT-RAMP import, then the commercial-vehicle import, then the aggregate
        demand; a step that fails stops the tool. */
    method Run(omx: OmxFiles, params: TrafficParams, table: map<CvmKey, seq<real>>, cvm: CvmParams, order: seq<CvmKey>, ext: set<int>)
      returns (r: Outcome<Error>)
      requires Valid() && omx.Valid() && omx.zones == zones
      requires IsOrder(order) && cvm.scaleFactor != 0.0
      modifies this`store, this`cache
      ensures Valid() && store.Keys == old(store).Keys
      ensures r.Pass? <==> RunReady(old(store), zones, omx, params, table, cvm)
      ensures r.Pass? ==> store == RunResult(old(store), zones, omx, params, table, cvm, ext)
      ensures params.taxiPassengers == 0.0 ==> r == Fail(ZeroDivision) && store == old(store)
    {
      r := ImportTrafficTrips(omx, params);
      if r.Fail? {
        if params.taxiPassengers != 0.0 {
          TrafficPass(omx, params);
        }
        return;
      }
      TrafficPass(omx, params);
      TrafficCacheNames(omx, params);
      TrafficComplete(omx, params, old(store));
      ghost var s1 := store;
      r := ImportCommercialVehicleDemand(table, cvm, order);
      if r.Fail? {
        return;
      }
      r := AddAggregateDemand(ext);
    }
  }

  /** A flush that raised on a name the databank lacks: that name was cached, the databank keeps
      its names, and each matrix holds either its old contents or the cached matrix written to it
      before the raise. The name it raised on is still missing, so a flush raises only when the
      cache holds a name the databank lacks. */
  ghost predicate FlushStopped(s0: map<MatrixName, Matrix>, cache: map<MatrixName, Matrix>, s: map<MatrixName, Matrix>, e: Error)
    ensures FlushStopped(s0, cache, s, e) ==> e.MissingMatrix? && e.name !in s && !(cache.Keys <= s0.Keys)
  {
    && e.MissingMatrix? && e.name in cache && e.name !in s0
    && s.Keys == s0.Keys
    && forall k | k in s :: s[k] == s0[k] || (k in cache && s[k] == cache[k])
  }

  /** Everything the tool reads and writes is there: the taxi occupancy is not zero, every
      CT-RAMP field of every period is in its file, the sixty auto class matrices are in the
      databank, and so are the commercial-vehicle and aggregate matrices. Then the CT-RAMP import
      passes and its flush finds every matrix it cached in the databank. */
  ghost predicate RunReady(s0: map<MatrixName, Matrix>, zones: nat, omx: OmxFiles, params: TrafficParams,
                           table: map<CvmKey, seq<real>>, cvm: CvmParams)
    requires AllZoneMatrices(s0, zones) && omx.Valid() && omx.zones == zones && cvm.scaleFactor != 0.0
    ensures RunReady(s0, zones, omx, params, table, cvm) ==>
      && params.taxiPassengers != 0.0
      && TrafficRun(omx, params).outcome.Pass?
      && TrafficRun(omx, params).cache.Keys <= s0.Keys
  {
    && params.taxiPassengers != 0.0 && TrafficReady(omx)
    && (forall k | IsAutoName(k) :: k in s0)
    && (TrafficPass(omx, params);
        var s1 := TrafficResult(s0, omx, params);
        && CvmReady(s1, table, cvm, zones)
        && var s2 := CvmResult(s1, table, cvm, zones);
        && EiReady(s2) && EeReady(s2))
  }

  /** The databank after the tool: the three steps, one after the other. */
  ghost function RunResult(s0: map<MatrixName, Matrix>, zones: nat, omx: OmxFiles, params: TrafficParams,
                           table: map<CvmKey, seq<real>>, cvm: CvmParams, ext: set<int>): (s: map<MatrixName, Matrix>)
    requires AllZoneMatrices(s0, zones) && omx.Valid() && omx.zones == zones && cvm.scaleFactor != 0.0
    requires RunReady(s0, zones, omx, params, table, cvm)
    ensures s.Keys == s0.Keys
  {
    var s1 := TrafficResult(s0, omx, params);
    AggregateResult(CvmResult(s1, table, cvm, zones), zones, ext)
  }
}
