/** The CT-RAMP import as the sequence of `set_data` calls it makes (import_auto_demand.py,
    `import_traffic_trips` and `set_data`): for each period, the four base matrices of each
    value-of-time tier, then the taxi and fleet demand of the three high targets. A run stops at
    the first missing table and keeps what it has cached so far. */
module TrafficImport {
  import opened Outcomes
  import opened Matrices
  import opened Keys
  import opened Omx
  import opened TrafficRules

  /** `set_data`: a matrix written to the cache under a name it already holds is added to the
      cached one (`value + cache[name]`); otherwise it is stored as it is. */
  function Accumulate(cache: map<MatrixName, Matrix>, name: MatrixName, value: Matrix): (c: map<MatrixName, Matrix>)
    ensures c.Keys == cache.Keys + {name}
    ensures forall k | k in cache && k != name :: c[k] == cache[k]
    ensures name !in cache ==> c[name] == value
    ensures name in cache ==> c[name] == Add(value, cache[name])
    ensures AllZoneMatrices(cache, |value|) && Square(value) ==> AllZoneMatrices(c, |value|)
  {
    if name in cache then cache[name := Add(value, cache[name])] else cache[name := value]
  }

  /** Writing `a` and then `b` under one name leaves what writing their sum once would, whichever
      comes first and whether or not the name was cached before: the cache sums what it is given
      and does not depend on the order. */
  lemma AccumulateCommutes(cache: map<MatrixName, Matrix>, name: MatrixName, a: Matrix, b: Matrix)
    requires Square(a) && Square(b) && |a| == |b|
    requires name in cache ==> Square(cache[name]) && |cache[name]| == |a|
    ensures Accumulate(Accumulate(cache, name, a), name, b) == Accumulate(cache, name, Add(a, b))
    ensures Accumulate(Accumulate(cache, name, a), name, b) == Accumulate(Accumulate(cache, name, b), name, a)
  {
    AccumulateTwice(cache, name, a, b);
    AccumulateTwice(cache, name, b, a);
    if name in cache {
      AddRegrouped(a, b, cache[name]);
    } else {
      CellsDetermine(Add(b, a), Add(a, b));
    }
  }

  /** Two writes under one name: the second is added to what the first left. */
  lemma AccumulateTwice(cache: map<MatrixName, Matrix>, name: MatrixName, a: Matrix, b: Matrix)
    ensures Accumulate(Accumulate(cache, name, a), name, b)
      == cache[name := if name in cache then Add(b, Add(a, cache[name])) else Add(b, a)]
  {
  }

  /** Adding `a` and then `b` to a cached matrix, or `b` and then `a`, adds `a + b` to it. */
  lemma AddRegrouped(a: Matrix, b: Matrix, m: Matrix)
    requires Square(a) && Square(b) && Square(m) && |a| == |b| == |m|
    ensures Add(b, Add(a, m)) == Add(Add(a, b), m)
    ensures Add(a, Add(b, m)) == Add(Add(a, b), m)
  {
    CellsDetermine(Add(b, Add(a, m)), Add(Add(a, b), m));
    CellsDetermine(Add(a, Add(b, m)), Add(Add(a, b), m));
  }

  // ---------------------------------------------------------------------------------------------
  // Runs of `set_data` blocks

  /** One block of the import that ends in a `set_data`: the matrix it writes to, and what its
      lookups gave, the demand or the error of the first table that is missing. */
  datatype Write = Write(name: MatrixName, demand: Result<Matrix, Error>)

  /** How far an import got: `Pass` with the cache so far, or the error that stopped it with the
      cache as it was when it stopped. */
  datatype Progress = Progress(outcome: Outcome<Error>, cache: map<MatrixName, Matrix>)

  /** One more block: nothing happens once the import has failed; a missing table fails it;
      otherwise its demand is passed to `set_data`. */
  function Next(prog: Progress, w: Write): Progress {
    if prog.outcome.Fail? then prog
    else
      match w.demand
      case Err(e) => Progress(Fail(e), prog.cache)
      case Ok(m) => Progress(Pass, Accumulate(prog.cache, w.name, m))
  }

  /** The blocks `ws` run in order from cache `c`; a run that fails reports the error of one of
      its blocks. */
  function Apply(c: map<MatrixName, Matrix>, ws: seq<Write>): (r: Progress)
    ensures r.outcome.Fail? ==> ErrorOfBlock(ws, r.outcome.error)
    decreases |ws|
  {
    if ws == [] then Progress(Pass, c) else Next(Apply(c, ws[..|ws| - 1]), ws[|ws| - 1])
  }

  /** `e` is the error one of the blocks `ws` found: the last one, or one of those before it. */
  predicate ErrorOfBlock(ws: seq<Write>, e: Error)
    decreases |ws|
  {
    ws != [] && (ws[|ws| - 1].demand == Err(e) || ErrorOfBlock(ws[..|ws| - 1], e))
  }

  /** Every block found all its tables. */
  predicate AllFound(ws: seq<Write>) {
    forall w | w in ws :: w.demand.Ok?
  }

  /** Every demand found is a matrix of the zone system. */
  predicate ZoneDemands(ws: seq<Write>, zones: nat) {
    forall w | w in ws && w.demand.Ok? :: IsZoneMatrix(w.demand.value, zones)
  }

  /** Running `a` and then `b` is running `a + b`; `b` does not run once `a` has failed. */
  lemma {:induction false} ApplyAppend(c: map<MatrixName, Matrix>, a: seq<Write>, b: seq<Write>)
    ensures Apply(c, a + b) ==
      var first := Apply(c, a);
      if first.outcome.Fail? then first else Apply(first.cache, b)
    decreases |b|
  {
    if b == [] {
      assert a + b == a;
    } else {
      var b' := b[..|b| - 1];
      assert (a + b)[..|a + b| - 1] == a + b';
      assert (a + b)[|a + b| - 1] == b[|b| - 1];
      ApplyAppend(c, a, b');
    }
  }

  /** A run that has failed stays failed, with the same cache, whatever blocks follow. */
  lemma ApplyFailStops(c: map<MatrixName, Matrix>, a: seq<Write>, b: seq<Write>)
    requires Apply(c, a).outcome.Fail?
    ensures Apply(c, a + b) == Apply(c, a)
  {
    ApplyAppend(c, a, b);
  }

  /** One more block after a run. */
  lemma ApplySnoc(c: map<MatrixName, Matrix>, ws: seq<Write>, w: Write)
    ensures Apply(c, ws + [w]) == Next(Apply(c, ws), w)
  {
    assert (ws + [w])[..|ws|] == ws;
  }

  /** A run passes exactly when every block finds all its tables. */
  lemma {:induction false} ApplyPass(c: map<MatrixName, Matrix>, ws: seq<Write>)
    ensures Apply(c, ws).outcome.Pass? <==> AllFound(ws)
    decreases |ws|
  {
    if ws != [] {
      var init := ws[..|ws| - 1];
      assert ws == init + [ws[|ws| - 1]];
      ApplyPass(c, init);
    }
  }

  /** A run that fails reports the error of the first block that misses a table; every block
      before it found its tables. */
  lemma {:induction false} ApplyFirstError(c: map<MatrixName, Matrix>, ws: seq<Write>)
    requires Apply(c, ws).outcome.Fail?
    ensures exists i | 0 <= i < |ws| ::
      && ws[i].demand == Err(Apply(c, ws).outcome.error)
      && AllFound(ws[..i])
      && Apply(c, ws) == Progress(Fail(ws[i].demand.error), Apply(c, ws[..i]).cache)
    decreases |ws|
  {
    var n := |ws| - 1;
    var init := ws[..n];
    if Apply(c, init).outcome.Fail? {
      ApplyFirstError(c, init);
      var i :| 0 <= i < |init| && init[i].demand == Err(Apply(c, init).outcome.error) && AllFound(init[..i])
        && Apply(c, init) == Progress(Fail(init[i].demand.error), Apply(c, init[..i]).cache);
      assert init[..i] == ws[..i];
    } else {
      ApplyPass(c, init);
      assert ws[..n] == init;
    }
  }

  /** A run keeps every matrix of the cache it starts from, adds only the matrices its blocks
      name, and leaves alone every matrix no block names. */
  lemma {:induction false} ApplyWrites(c: map<MatrixName, Matrix>, ws: seq<Write>)
    ensures c.Keys <= Apply(c, ws).cache.Keys
    ensures forall k | k in Apply(c, ws).cache && k !in c :: exists w | w in ws :: w.name == k
    ensures forall k | k in c && (forall w | w in ws :: w.name != k) :: Apply(c, ws).cache[k] == c[k]
    decreases |ws|
  {
    if ws != [] {
      var init := ws[..|ws| - 1];
      assert forall w | w in init :: w in ws;
      ApplyWrites(c, init);
    }
  }

  /** A run from a cache of zone matrices whose demands are zone matrices caches only zone matrices. */
  lemma {:induction false} ApplyZones(c: map<MatrixName, Matrix>, ws: seq<Write>, zones: nat)
    requires AllZoneMatrices(c, zones) && ZoneDemands(ws, zones)
    ensures AllZoneMatrices(Apply(c, ws).cache, zones)
    decreases |ws|
  {
    if ws != [] {
      var init := ws[..|ws| - 1];
      assert forall w | w in init :: w in ws;
      ApplyZones(c, init, zones);
      assert ws[|ws| - 1] in ws;
    }
  }

  // ---------------------------------------------------------------------------------------------
  // The blocks of the CT-RAMP import

  /** The `set_data` blocks of `import_traffic_trips`: the SOV non-transponder, SOV transponder,
      HOV2 and HOV3 demand of one period and tier, and the taxi and fleet demand of a high target. */
  datatype Step =
    | SovNtStep(p: Period, v: Vot)
    | SovTrStep(p: Period, v: Vot)
    | Hov2Step(p: Period, v: Vot)
    | Hov3Step(p: Period, v: Vot)
    | HighStep(t: HighTarget, p: Period)

  /** The matrix a block writes to. */
  function StepName(s: Step): (k: MatrixName)
    ensures IsAutoName(k) && k.p == s.p
    ensures s.HighStep? ==> k == HighName(s.t, s.p)
  {
    match s
    case SovNtStep(p, v) => SovNt(p, v)
    case SovTrStep(p, v) => SovTr(p, v)
    case Hov2Step(p, v) => Hov2(p, v)
    case Hov3Step(p, v) => Hov3(p, v)
    case HighStep(t, p) => HighName(t, p)
  }

  /** Every table a block reads is there. */
  predicate StepPresent(omx: OmxFiles, s: Step) {
    match s
    case HighStep(_, p) => HighSourcesPresent(omx, p)
    case _ => BasePresent(omx, StepName(s))
  }

  /** The lookups of one block, in the import's order. */
  function StepDemand(omx: OmxFiles, params: TrafficParams, s: Step): (r: Result<Matrix, Error>)
    requires omx.Valid() && params.taxiPassengers != 0.0
    ensures r.Ok? <==> StepPresent(omx, s)
    ensures r.Ok? ==> IsZoneMatrix(r.value, omx.zones)
  {
    match s
    case SovNtStep(p, v) => SovNtDemand(omx, p, v)
    case SovTrStep(p, v) => SovTrDemand(omx, p, v)
    case Hov2Step(p, v) => HovDemand(omx, Sr2, p, v)
    case Hov3Step(p, v) => HovDemand(omx, Sr3, p, v)
    case HighStep(t, p) => HighDemand(omx, params, t, p)
  }

  /** What the lookups of each block give. The runs below are stated for any such function; the
      import's own is `Lookups`. */
  type Demands = Step -> Result<Matrix, Error>

  /** The lookups of the import, read from the OMX files. */
  function Lookups(omx: OmxFiles, params: TrafficParams): Demands
    requires omx.Valid() && params.taxiPassengers != 0.0
  {
    s => StepDemand(omx, params, s)
  }

  /** `d` gives what the OMX files give for every block. */
  ghost predicate LooksUp(d: Demands, omx: OmxFiles, params: TrafficParams)
    requires omx.Valid() && params.taxiPassengers != 0.0
  {
    forall s {:trigger Lookup(d, s)} :: Lookup(d, s) == StepDemand(omx, params, s)
  }

  /** What `d` gives for block `s`. */
  function Lookup(d: Demands, s: Step): Result<Matrix, Error> {
    d(s)
  }

  /** The blocks `steps` with what their lookups give. */
  function Writes(d: Demands, steps: seq<Step>): seq<Write> {
    seq(|steps|, i requires 0 <= i < |steps| => Write(StepName(steps[i]), d(steps[i])))
  }

  /** Every block of `steps` finds its tables exactly when the lookups of every step succeed. */
  lemma WritesFound(d: Demands, steps: seq<Step>)
    ensures AllFound(Writes(d, steps)) <==> forall s | s in steps :: d(s).Ok?
  {
    var ws := Writes(d, steps);
    if AllFound(ws) {
      forall s | s in steps ensures d(s).Ok? {
        var i :| 0 <= i < |steps| && steps[i] == s;
        assert ws[i] in ws;
      }
    }
  }

  /** The blocks of the first `n + 1` steps are those of the first `n`, then that of step `n`. */
  lemma WritesSnoc(d: Demands, steps: seq<Step>, n: nat)
    requires n < |steps|
    ensures Writes(d, steps[..n + 1]) == Writes(d, steps[..n]) + [Write(StepName(steps[n]), d(steps[n]))]
  {
  }

  /** One more of the blocks `steps`, after the first `n` have passed with cache `c`. */
  lemma StepsNext(c0: map<MatrixName, Matrix>, d: Demands, steps: seq<Step>, n: nat, c: map<MatrixName, Matrix>)
    requires n < |steps| && Apply(c0, Writes(d, steps[..n])) == Progress(Pass, c)
    ensures Apply(c0, Writes(d, steps[..n + 1])) == Next(Progress(Pass, c), Write(StepName(steps[n]), d(steps[n])))
  {
    WritesSnoc(d, steps, n);
    ApplySnoc(c0, Writes(d, steps[..n]), Write(StepName(steps[n]), d(steps[n])));
  }

  /** Once the first `n + 1` of the blocks `steps` have failed, the rest change nothing. */
  lemma StepsStop(c0: map<MatrixName, Matrix>, d: Demands, steps: seq<Step>, n: nat)
    requires n < |steps| && Apply(c0, Writes(d, steps[..n + 1])).outcome.Fail?
    ensures Apply(c0, Writes(d, steps)) == Apply(c0, Writes(d, steps[..n + 1]))
  {
    assert steps[..n + 1] + steps[n + 1..] == steps;
    WritesAppend(d, steps[..n + 1], steps[n + 1..]);
    ApplyFailStops(c0, Writes(d, steps[..n + 1]), Writes(d, steps[n + 1..]));
  }

  /** Lifting steps to blocks distributes over concatenation. */
  lemma WritesAppend(d: Demands, a: seq<Step>, b: seq<Step>)
    ensures Writes(d, a + b) == Writes(d, a) + Writes(d, b)
  {
  }

  /** The four blocks of one period and tier: SOV_NT, SOV_TR, HOV2, HOV3. */
  function VotSteps(p: Period, v: Vot): seq<Step> {
    [SovNtStep(p, v), SovTrStep(p, v), Hov2Step(p, v), Hov3Step(p, v)]
  }

  /** The blocks of the first `n` tiers of period `p`, low first. */
  function TierSteps(p: Period, n: nat): seq<Step>
    requires n <= |Vots|
  {
    if n == 0 then [] else TierSteps(p, n - 1) + VotSteps(p, Vots[n - 1])
  }

  /** The three high-target blocks of period `p`, SOV_TR first. */
  function HighSteps(p: Period): seq<Step> {
    [HighStep(SovTrHigh, p), HighStep(Hov2High, p), HighStep(Hov3High, p)]
  }

  /** One period: the blocks of the low, medium and high tiers, then the high targets. */
  function PeriodSteps(p: Period): seq<Step> {
    TierSteps(p, |Vots|) + HighSteps(p)
  }

  /** The blocks of the first `n` periods. */
  function TrafficWrites(d: Demands, n: nat): seq<Write>
    requires n <= |Periods|
  {
    if n == 0 then [] else TrafficWrites(d, n - 1) + Writes(d, PeriodSteps(Periods[n - 1]))
  }

  /** The whole CT-RAMP import, from an empty cache. Whether it passes or fails, it caches only
      auto class matrices. */
  function TrafficRun(omx: OmxFiles, params: TrafficParams): (r: Progress)
    requires omx.Valid() && params.taxiPassengers != 0.0
    ensures forall k | k in r.cache :: IsAutoName(k)
  {
    TrafficWritesAuto(Lookups(omx, params));
    Apply(map[], TrafficWrites(Lookups(omx, params), |Periods|))
  }

  // ---------------------------------------------------------------------------------------------
  // Where a failing import stops

  /** Running `a`, then `b`, then `d`. */
  lemma ApplyAssoc(c: map<MatrixName, Matrix>, a: seq<Write>, b: seq<Write>, d: seq<Write>)
    ensures Apply(c, a + (b + d)) ==
      var r := Apply(c, a + b);
      if r.outcome.Fail? then r else Apply(r.cache, d)
  {
    ApplyAppend(c, a, b + d);
    ApplyAppend(c, a, b);
    ApplyAppend(Apply(c, a).cache, b, d);
  }

  /** The first `m` tiers of a period are a prefix of its first `n`. */
  lemma {:induction false} TierPrefix(p: Period, m: nat, n: nat)
    requires m <= n <= |Vots|
    ensures exists rest :: TierSteps(p, n) == TierSteps(p, m) + rest
    decreases n
  {
    if m == n {
      assert TierSteps(p, n) == TierSteps(p, m) + [];
    } else {
      TierPrefix(p, m, n - 1);
      var rest :| TierSteps(p, n - 1) == TierSteps(p, m) + rest;
      var head, last := TierSteps(p, m), VotSteps(p, Vots[n - 1]);
      assert TierSteps(p, n) == (head + rest) + last;
      assert (head + rest) + last == head + (rest + last);
    }
  }

  /** An import that fails in period `pi` ends as it was when it failed. */
  lemma PeriodFailStops(d: Demands, pi: nat, r: Outcome<Error>, c: map<MatrixName, Matrix>)
    requires pi < |Periods| && r.Fail? && Progress(r, c) == Apply(map[], TrafficWrites(d, pi + 1))
    ensures Progress(r, c) == Apply(map[], TrafficWrites(d, |Periods|))
  {
    TrafficFailStops(d, pi + 1, |Periods|);
  }

  /** Once the first `m` periods have failed, the first `n` fail the same way. */
  lemma {:induction false} TrafficFailStops(d: Demands, m: nat, n: nat)
    requires m <= n <= |Periods|
    requires Apply(map[], TrafficWrites(d, m)).outcome.Fail?
    ensures Apply(map[], TrafficWrites(d, n)) == Apply(map[], TrafficWrites(d, m))
    decreases n
  {
    if m < n {
      TrafficFailStops(d, m, n - 1);
      var before, last := TrafficWrites(d, n - 1), Writes(d, PeriodSteps(Periods[n - 1]));
      assert TrafficWrites(d, n) == before + last;
      ApplyFailStops(map[], before, last);
    }
  }

  /** The blocks before tier `vi` of period `pi`. */
  function WritesBefore(d: Demands, pi: nat, vi: nat): seq<Write>
    requires pi < |Periods| && vi <= |Vots|
  {
    TrafficWrites(d, pi) + Writes(d, TierSteps(Periods[pi], vi))
  }

  /** The blocks of tier `vi` of period `pi` take the run from the tiers before it to the tiers
      up to it; if they fail, the whole period has failed. */
  lemma TierDone(d: Demands, pi: nat, vi: nat, c0: map<MatrixName, Matrix>, r: Outcome<Error>, c1: map<MatrixName, Matrix>)
    requires pi < |Periods| && vi < |Vots|
    requires Progress(Pass, c0) == Apply(map[], WritesBefore(d, pi, vi))
    requires Progress(r, c1) == Apply(c0, Writes(d, VotSteps(Periods[pi], Vots[vi])))
    ensures Progress(r, c1) == Apply(map[], WritesBefore(d, pi, vi + 1))
    ensures r.Fail? ==> Progress(r, c1) == Apply(map[], TrafficWrites(d, pi + 1))
  {
    BeforeNext(d, pi, vi);
    ApplyAppend(map[], WritesBefore(d, pi, vi), Writes(d, VotSteps(Periods[pi], Vots[vi])));
    if r.Fail? {
      FailedBefore(d, pi, vi + 1);
    }
  }

  /** The high-target blocks of period `pi`, after all its tiers, complete the period. */
  lemma HighDone(d: Demands, pi: nat, c0: map<MatrixName, Matrix>, r: Outcome<Error>, c1: map<MatrixName, Matrix>)
    requires pi < |Periods|
    requires Progress(Pass, c0) == Apply(map[], WritesBefore(d, pi, |Vots|))
    requires Progress(r, c1) == Apply(c0, Writes(d, HighSteps(Periods[pi])))
    ensures Progress(r, c1) == Apply(map[], TrafficWrites(d, pi + 1))
  {
    PeriodNext(d, pi);
    ApplyAppend(map[], WritesBefore(d, pi, |Vots|), Writes(d, HighSteps(Periods[pi])));
  }

  /** Before the first tier of period `pi` come the whole periods before it. */
  lemma BeforeFirst(d: Demands, pi: nat)
    requires pi < |Periods|
    ensures WritesBefore(d, pi, 0) == TrafficWrites(d, pi)
  {
    assert Writes(d, TierSteps(Periods[pi], 0)) == [];
  }

  /** One more tier of period `pi`. */
  lemma BeforeNext(d: Demands, pi: nat, vi: nat)
    requires pi < |Periods| && vi < |Vots|
    ensures WritesBefore(d, pi, vi + 1) == WritesBefore(d, pi, vi) + Writes(d, VotSteps(Periods[pi], Vots[vi]))
  {
    var p := Periods[pi];
    WritesAppend(d, TierSteps(p, vi), VotSteps(p, Vots[vi]));
  }

  /** The tiers of period `pi`, then its high blocks, complete the period. */
  lemma PeriodNext(d: Demands, pi: nat)
    requires pi < |Periods|
    ensures TrafficWrites(d, pi + 1) == WritesBefore(d, pi, |Vots|) + Writes(d, HighSteps(Periods[pi]))
  {
    var p := Periods[pi];
    WritesAppend(d, TierSteps(p, |Vots|), HighSteps(p));
  }

  /** A period's blocks are its blocks before tier `vi`, then the rest. */
  lemma PeriodSplit(p: Period, vi: nat)
    requires vi <= |Vots|
    ensures exists rest :: PeriodSteps(p) == TierSteps(p, vi) + rest
  {
    TierPrefix(p, vi, |Vots|);
    var tiers :| TierSteps(p, |Vots|) == TierSteps(p, vi) + tiers;
    assert PeriodSteps(p) == TierSteps(p, vi) + (tiers + HighSteps(p));
  }

  /** Once the blocks before some tier of period `pi` have failed, the periods up to and
      including `pi` fail the same way. */
  lemma FailedBefore(d: Demands, pi: nat, vi: nat)
    requires pi < |Periods| && vi <= |Vots|
    requires Apply(map[], WritesBefore(d, pi, vi)).outcome.Fail?
    ensures Apply(map[], TrafficWrites(d, pi + 1)) == Apply(map[], WritesBefore(d, pi, vi))
  {
    var p := Periods[pi];
    PeriodSplit(p, vi);
    var rest :| PeriodSteps(p) == TierSteps(p, vi) + rest;
    WritesAppend(d, TierSteps(p, vi), rest);
    ApplyAssoc(map[], TrafficWrites(d, pi), Writes(d, TierSteps(p, vi)), Writes(d, rest));
  }

  // ---------------------------------------------------------------------------------------------
  // Whether the import passes

  lemma AllFoundAppend(a: seq<Write>, b: seq<Write>)
    ensures AllFound(a + b) <==> AllFound(a) && AllFound(b)
  {
    assert forall w | w in a :: w in a + b;
    assert forall w | w in b :: w in a + b;
  }

  /** The first `n` tiers of period `p` hold one block per base matrix of those tiers, and nothing else. */
  lemma {:induction false} TierMembers(p: Period, n: nat)
    requires n <= |Vots|
    ensures forall s :: s in TierSteps(p, n) <==> !s.HighStep? && s.p == p && VotIndex(s.v) < n
    decreases n
  {
    if n > 0 {
      TierMembers(p, n - 1);
    }
  }

  /** The high blocks of period `p` are one per target. */
  lemma HighMembers(p: Period)
    ensures forall s :: s in HighSteps(p) <==> s.HighStep? && s.p == p
  {
    forall s: Step | s.HighStep? && s.p == p ensures s in HighSteps(p) {
      assert s == HighSteps(p)[HighTargetIndex(s.t)];
    }
  }

  /** A period's blocks are exactly the blocks of that period. */
  lemma PeriodMembers(p: Period)
    ensures forall s :: s in PeriodSteps(p) <==> s.p == p
  {
    TierMembers(p, |Vots|);
    HighMembers(p);
    forall s ensures s in PeriodSteps(p) <==> s in TierSteps(p, |Vots|) || s in HighSteps(p) {
    }
  }

  /** The base block that writes auto class matrix `k`. */
  function BaseStep(k: MatrixName): (s: Step)
    requires IsAutoName(k)
    ensures !s.HighStep? && StepName(s) == k
  {
    match k
    case SovNt(p, v) => SovNtStep(p, v)
    case SovTr(p, v) => SovTrStep(p, v)
    case Hov2(p, v) => Hov2Step(p, v)
    case Hov3(p, v) => Hov3Step(p, v)
  }

  /** The lookups of every block of period `p` succeed. */
  ghost predicate PeriodOk(d: Demands, p: Period) {
    forall s: Step | s.p == p :: d(s).Ok?
  }

  /** Every block of period `p` finds its tables exactly when all its lookups succeed. */
  lemma PeriodFound(d: Demands, p: Period)
    ensures AllFound(Writes(d, PeriodSteps(p))) <==> PeriodOk(d, p)
  {
    WritesFound(d, PeriodSteps(p));
    PeriodMembers(p);
  }

  /** Every block of period `p` finds its tables. */
  predicate PeriodWritesFound(d: Demands, p: Period) {
    AllFound(Writes(d, PeriodSteps(p)))
  }

  /** Every block of every period before `n` finds its tables. */
  ghost predicate FoundBefore(d: Demands, n: nat) {
    forall q | PeriodIndex(q) < n :: PeriodWritesFound(d, q)
  }

  /** The periods before `n` are those before `n - 1` and period `n - 1`. */
  lemma FoundSplit(d: Demands, n: nat)
    requires 0 < n <= |Periods|
    ensures FoundBefore(d, n) <==> FoundBefore(d, n - 1) && PeriodWritesFound(d, Periods[n - 1])
  {
    assert PeriodIndex(Periods[n - 1]) == n - 1;
  }

  /** The blocks of the first `n` periods all find their tables exactly when those of each of
      the periods do. */
  lemma {:induction false} TrafficFound(d: Demands, n: nat)
    requires n <= |Periods|
    ensures AllFound(TrafficWrites(d, n)) <==> FoundBefore(d, n)
    decreases n
  {
    if n > 0 {
      TrafficFound(d, n - 1);
      AllFoundAppend(TrafficWrites(d, n - 1), Writes(d, PeriodSteps(Periods[n - 1])));
      FoundSplit(d, n);
    }
  }

  /** The import's lookups for period `p` all succeed exactly when everything the period reads
      is there. */
  lemma LookupsOk(omx: OmxFiles, params: TrafficParams, p: Period)
    requires omx.Valid() && params.taxiPassengers != 0.0
    ensures PeriodOk(Lookups(omx, params), p) <==> PeriodReady(omx, p)
  {
    var d := Lookups(omx, params);
    if PeriodOk(d, p) {
      forall k | IsAutoName(k) && k.p == p ensures BasePresent(omx, k) {
        assert d(BaseStep(k)).Ok?;
      }
      assert d(HighStep(SovTrHigh, p)).Ok?;
    }
    if PeriodReady(omx, p) {
      forall s: Step | s.p == p ensures d(s).Ok? {
        if !s.HighStep? {
          assert BasePresent(omx, StepName(s));
        }
      }
    }
  }

  /** The import passes exactly when every input of every period is there. */
  lemma TrafficPass(omx: OmxFiles, params: TrafficParams)
    requires omx.Valid() && params.taxiPassengers != 0.0
    ensures TrafficRun(omx, params).outcome.Pass? <==> TrafficReady(omx)
  {
    var d := Lookups(omx, params);
    ApplyPass(map[], TrafficWrites(d, |Periods|));
    TrafficFound(d, |Periods|);
    forall p ensures PeriodWritesFound(d, p) <==> PeriodReady(omx, p) {
      PeriodFound(d, p);
      LookupsOk(omx, params, p);
    }
  }

  /** Every block of the first `n` periods writes an auto class matrix. */
  lemma {:induction false} TrafficNames(d: Demands, n: nat)
    requires n <= |Periods|
    ensures forall w | w in TrafficWrites(d, n) :: IsAutoName(w.name)
    decreases n
  {
    if n > 0 {
      TrafficNames(d, n - 1);
      var last := Writes(d, PeriodSteps(Periods[n - 1]));
      assert forall w | w in TrafficWrites(d, n) :: w in TrafficWrites(d, n - 1) || w in last;
    }
  }

  /** Whether it passes or fails, the import caches only auto class matrices. */
  lemma TrafficWritesAuto(d: Demands)
    ensures forall k | k in Apply(map[], TrafficWrites(d, |Periods|)).cache :: IsAutoName(k)
  {
    TrafficNames(d, |Periods|);
    ApplyWrites(map[], TrafficWrites(d, |Periods|));
  }

  // ---------------------------------------------------------------------------------------------
  // What a complete import caches

  /** The cache after blocks that all found their tables, each writing to a matrix of its own. */
  function Fill(c: map<MatrixName, Matrix>, ws: seq<Write>): map<MatrixName, Matrix>
    requires AllFound(ws)
    decreases |ws|
  {
    if ws == [] then c
    else
      assert ws[|ws| - 1] in ws && forall w | w in ws[..|ws| - 1] :: w in ws;
      Fill(c, ws[..|ws| - 1])[ws[|ws| - 1].name := ws[|ws| - 1].demand.value]
  }

  /** When block `i` writes to the matrix of slot `i`, filling keeps the cache and adds each
      block's demand under its matrix, and nothing else. */
  lemma {:induction false} FillSlots(c: map<MatrixName, Matrix>, ws: seq<Write>, slot: MatrixName -> int)
    requires AllFound(ws)
    requires forall i | 0 <= i < |ws| :: ws[i].name !in c && slot(ws[i].name) == i
    ensures
      var f := Fill(c, ws);
      && (forall k | k in c :: k in f && f[k] == c[k])
      && (forall k | k in f && k !in c :: 0 <= slot(k) < |ws| && ws[slot(k)].name == k)
      && (forall i | 0 <= i < |ws| :: ws[i].name in f && f[ws[i].name] == ws[i].demand.value)
    decreases |ws|
  {
    if ws != [] {
      assert forall w | w in ws[..|ws| - 1] :: w in ws;
      FillSlots(c, ws[..|ws| - 1], slot);
    }
  }

  /** Blocks that all find their tables, block `i` writing to the matrix of slot `i`, none of them
      cached yet, fill the cache with their demands. */
  lemma {:induction false} ApplyFresh(c: map<MatrixName, Matrix>, ws: seq<Write>, slot: MatrixName -> int)
    requires AllFound(ws)
    requires forall i | 0 <= i < |ws| :: ws[i].name !in c && slot(ws[i].name) == i
    ensures Apply(c, ws) == Progress(Pass, Fill(c, ws))
    decreases |ws|
  {
    if ws != [] {
      var n := |ws| - 1;
      var init := ws[..n];
      assert forall w | w in init :: w in ws;
      ApplyFresh(c, init, slot);
      FillSlots(c, init, slot);
      assert ws[n].name !in Fill(c, init) by {
        assert ws[n].name !in c && slot(ws[n].name) == n;
      }
      assert ws[n] in ws;
    }
  }

  /** Where the import writes base matrix `k` within its period: four slots per tier, in the order
      SOV_NT, SOV_TR, HOV2, HOV3. */
  function BaseSlot(k: MatrixName): int {
    match k
    case SovNt(_, v) => 4 * VotIndex(v)
    case SovTr(_, v) => 4 * VotIndex(v) + 1
    case Hov2(_, v) => 4 * VotIndex(v) + 2
    case Hov3(_, v) => 4 * VotIndex(v) + 3
    case _ => -1
  }

  /** Block `j` of tier `v` is the base block of slot `4 * VotIndex(v) + j`. */
  lemma VotSlots(p: Period, v: Vot)
    ensures forall j | 0 <= j < 4 ::
      !VotSteps(p, v)[j].HighStep? && VotSteps(p, v)[j].p == p && BaseSlot(StepName(VotSteps(p, v)[j])) == 4 * VotIndex(v) + j
  {
  }

  /** Block `i` of the first `n` tiers of period `p` is the base block of slot `i`. */
  lemma {:induction false} TierSlots(p: Period, n: nat)
    requires n <= |Vots|
    ensures |TierSteps(p, n)| == 4 * n
    ensures forall i | 0 <= i < 4 * n ::
      !TierSteps(p, n)[i].HighStep? && TierSteps(p, n)[i].p == p && BaseSlot(StepName(TierSteps(p, n)[i])) == i
    decreases n
  {
    if n > 0 {
      TierSlots(p, n - 1);
      var v := Vots[n - 1];
      assert VotIndex(v) == n - 1;
      VotSlots(p, v);
      var before := TierSteps(p, n - 1);
      forall i | 0 <= i < 4 * n
        ensures !TierSteps(p, n)[i].HighStep? && TierSteps(p, n)[i].p == p && BaseSlot(StepName(TierSteps(p, n)[i])) == i
      {
        if i < 4 * (n - 1) {
          assert TierSteps(p, n)[i] == before[i];
        } else {
          assert TierSteps(p, n)[i] == VotSteps(p, v)[i - 4 * (n - 1)];
        }
      }
    }
  }

  /** The only base block of period `k.p` in the slot of `k` is the base block of `k`. */
  lemma SlotStep(s: Step, k: MatrixName)
    requires !s.HighStep? && IsAutoName(k) && s.p == k.p && BaseSlot(StepName(s)) == BaseSlot(k)
    ensures s == BaseStep(k)
  {
    assert VotIndex(s.v) == VotIndex(k.v);
  }

  /** Auto class matrix `k` is written by the block of its slot. */
  lemma TierWrite(d: Demands, k: MatrixName)
    requires IsAutoName(k)
    ensures
      var ws := Writes(d, TierSteps(k.p, |Vots|));
      0 <= BaseSlot(k) < |ws| && ws[BaseSlot(k)] == Write(k, d(BaseStep(k)))
  {
    var steps := TierSteps(k.p, |Vots|);
    TierSlots(k.p, |Vots|);
    SlotStep(steps[BaseSlot(k)], k);
  }

  /** `r` is cache `c` with the twelve base matrices of period `p` added, each holding what its
      lookups give. */
  ghost predicate TierAdded(d: Demands, p: Period, c: map<MatrixName, Matrix>, r: Progress)
    requires PeriodOk(d, p)
  {
    && r.outcome == Pass
    && (forall k | k in c :: k in r.cache && r.cache[k] == c[k])
    && (forall k | k in r.cache && k !in c :: IsAutoName(k) && k.p == p)
    && (forall k | IsAutoName(k) && k.p == p :: k in r.cache && r.cache[k] == d(BaseStep(k)).value)
  }

  /** The base blocks of period `p` all find their tables and write, block `i`, the auto class
      matrix of slot `i`, none of which is in `c` yet. */
  lemma TierFresh(d: Demands, c: map<MatrixName, Matrix>, p: Period)
    requires forall k | k in c :: !(IsAutoName(k) && k.p == p)
    requires PeriodOk(d, p)
    ensures
      var ws := Writes(d, TierSteps(p, |Vots|));
      && AllFound(ws)
      && forall i | 0 <= i < |ws| ::
           IsAutoName(ws[i].name) && ws[i].name.p == p && ws[i].name !in c && BaseSlot(ws[i].name) == i
  {
    var steps := TierSteps(p, |Vots|);
    var ws := Writes(d, steps);
    TierSlots(p, |Vots|);
    forall i | 0 <= i < |ws|
      ensures ws[i].demand.Ok? && IsAutoName(ws[i].name) && ws[i].name.p == p && ws[i].name !in c && BaseSlot(ws[i].name) == i
    {
      assert ws[i] == Write(StepName(steps[i]), d(steps[i]));
    }
  }

  /** `r` is cache `c` with the demand of each of `ws` added under its matrix, block `i` writing
      to the matrix of slot `i`. */
  ghost predicate FreshAdded(c: map<MatrixName, Matrix>, ws: seq<Write>, slot: MatrixName -> int, r: Progress)
    requires AllFound(ws)
  {
    && r.outcome == Pass
    && (forall k | k in c :: k in r.cache && r.cache[k] == c[k])
    && (forall k | k in r.cache && k !in c :: 0 <= slot(k) < |ws| && ws[slot(k)].name == k)
    && (forall i | 0 <= i < |ws| :: ws[i].name in r.cache && r.cache[ws[i].name] == ws[i].demand.value)
  }

  /** Blocks that all find their tables, block `i` writing to the matrix of slot `i`, none of them
      cached yet, add exactly their demands to the cache. */
  lemma FreshEffect(c: map<MatrixName, Matrix>, ws: seq<Write>, slot: MatrixName -> int)
    requires AllFound(ws)
    requires forall i | 0 <= i < |ws| :: ws[i].name !in c && slot(ws[i].name) == i
    ensures FreshAdded(c, ws, slot, Apply(c, ws))
  {
    ApplyFresh(c, ws, slot);
    FillSlots(c, ws, slot);
  }

  /** Fresh writes of the base blocks of period `p` give what the base tiers promise. */
  lemma TierFromFresh(d: Demands, c: map<MatrixName, Matrix>, p: Period, r: Progress)
    requires forall k | k in c :: !(IsAutoName(k) && k.p == p)
    requires PeriodOk(d, p)
    requires AllFound(Writes(d, TierSteps(p, |Vots|)))
    requires forall i | 0 <= i < |Writes(d, TierSteps(p, |Vots|))| ::
      IsAutoName(Writes(d, TierSteps(p, |Vots|))[i].name) && Writes(d, TierSteps(p, |Vots|))[i].name.p == p
    requires FreshAdded(c, Writes(d, TierSteps(p, |Vots|)), BaseSlot, r)
    ensures TierAdded(d, p, c, r)
  {
    var ws := Writes(d, TierSteps(p, |Vots|));
    forall k | IsAutoName(k) && k.p == p
      ensures k in r.cache && r.cache[k] == d(BaseStep(k)).value
    {
      TierWrite(d, k);
    }
  }

  /** The base blocks of period `p`, from a cache that holds no auto class matrix of the period:
      each of its twelve auto class matrices gets what its lookups give, and nothing else changes. */
  lemma TierEffect(d: Demands, c: map<MatrixName, Matrix>, p: Period)
    requires forall k | k in c :: !(IsAutoName(k) && k.p == p)
    requires PeriodOk(d, p)
    ensures TierAdded(d, p, c, Apply(c, Writes(d, TierSteps(p, |Vots|))))
  {
    var ws := Writes(d, TierSteps(p, |Vots|));
    TierFresh(d, c, p);
    FreshEffect(c, ws, BaseSlot);
    TierFromFresh(d, c, p, Apply(c, ws));
  }

  /** `r` is cache `c` with the taxi and fleet demand of each high target of period `p` added to
      its matrix. */
  ghost predicate HighAdded(d: Demands, p: Period, c: map<MatrixName, Matrix>, r: Progress)
    requires PeriodOk(d, p) && SovTr(p, H) in c && Hov2(p, H) in c && Hov3(p, H) in c
  {
    && r.outcome == Pass
    && r.cache.Keys == c.Keys
    && (forall k | k in c && k != SovTr(p, H) && k != Hov2(p, H) && k != Hov3(p, H) :: r.cache[k] == c[k])
    && r.cache[SovTr(p, H)] == Add(d(HighStep(SovTrHigh, p)).value, c[SovTr(p, H)])
    && r.cache[Hov2(p, H)] == Add(d(HighStep(Hov2High, p)).value, c[Hov2(p, H)])
    && r.cache[Hov3(p, H)] == Add(d(HighStep(Hov3High, p)).value, c[Hov3(p, H)])
  }

  /** Cache `c` after the three high blocks of period `p`, each of which found its tables. */
  function HighCache(d: Demands, p: Period, c: map<MatrixName, Matrix>): map<MatrixName, Matrix>
    requires SovTr(p, H) in c && Hov2(p, H) in c && Hov3(p, H) in c
    requires PeriodOk(d, p)
  {
    var c1 := c[SovTr(p, H) := Add(d(HighStep(SovTrHigh, p)).value, c[SovTr(p, H)])];
    var c2 := c1[Hov2(p, H) := Add(d(HighStep(Hov2High, p)).value, c1[Hov2(p, H)])];
    c2[Hov3(p, H) := Add(d(HighStep(Hov3High, p)).value, c2[Hov3(p, H)])]
  }

  /** The three high targets are distinct matrices, so each gets exactly its own demand added. */
  lemma HighCacheAdded(d: Demands, p: Period, c: map<MatrixName, Matrix>)
    requires SovTr(p, H) in c && Hov2(p, H) in c && Hov3(p, H) in c
    requires PeriodOk(d, p)
    ensures HighAdded(d, p, c, Progress(Pass, HighCache(d, p, c)))
  {
  }

  /** A block that finds its tables, run after blocks that left the cache as `c'` with its
      target in it, adds its demand to that target. */
  lemma ApplyAdd(c: map<MatrixName, Matrix>, ws: seq<Write>, w: Write, c': map<MatrixName, Matrix>)
    requires Apply(c, ws) == Progress(Pass, c') && w.name in c' && w.demand.Ok?
    ensures Apply(c, ws + [w]) == Progress(Pass, c'[w.name := Add(w.demand.value, c'[w.name])])
  {
    ApplySnoc(c, ws, w);
  }

  /** The three high blocks of period `p`: each target's matrix gets its taxi and fleet demand
      added to what it held, and every other matrix is unchanged. */
  lemma HighEffect(d: Demands, c: map<MatrixName, Matrix>, p: Period)
    requires SovTr(p, H) in c && Hov2(p, H) in c && Hov3(p, H) in c
    requires PeriodOk(d, p)
    ensures HighAdded(d, p, c, Apply(c, Writes(d, HighSteps(p))))
  {
    var w0 := Write(SovTr(p, H), d(HighStep(SovTrHigh, p)));
    var w1 := Write(Hov2(p, H), d(HighStep(Hov2High, p)));
    var w2 := Write(Hov3(p, H), d(HighStep(Hov3High, p)));
    assert Writes(d, HighSteps(p)) == [w0] + [w1] + [w2];
    var c1 := c[SovTr(p, H) := Add(w0.demand.value, c[SovTr(p, H)])];
    var c2 := c1[Hov2(p, H) := Add(w1.demand.value, c1[Hov2(p, H)])];
    ApplyAdd(c, [], w0, c);
    assert [] + [w0] == [w0];
    ApplyAdd(c, [w0], w1, c1);
    ApplyAdd(c, [w0] + [w1], w2, c2);
    HighCacheAdded(d, p, c);
  }

  /** What the import leaves in the cache for auto class matrix `k`: what its base block's lookups
      give, with what the high block of its target gives added for the high tier's SOV_TR, HOV2
      and HOV3 (`set_data` adds the new value to the cached one). */
  function Cached(d: Demands, k: MatrixName): Matrix
    requires IsAutoName(k) && PeriodOk(d, k.p)
  {
    if k.v == H && !k.SovNt? then
      Add(d(HighStep(HighTargetOf(k), k.p)).value, d(BaseStep(k)).value)
    else
      d(BaseStep(k)).value
  }

  /** `r` is cache `c` with the twelve auto class matrices of period `p` added, each holding what
      the import caches for it. */
  ghost predicate PeriodAdded(d: Demands, p: Period, c: map<MatrixName, Matrix>, r: Progress)
    requires PeriodOk(d, p)
  {
    && r.outcome == Pass
    && (forall k | k in c :: k in r.cache && r.cache[k] == c[k])
    && (forall k | k in r.cache && k !in c :: IsAutoName(k) && k.p == p)
    && (forall k | IsAutoName(k) && k.p == p :: k in r.cache && r.cache[k] == Cached(d, k))
  }

  /** After the high blocks, an auto class matrix of the period holds what the import caches for it. */
  lemma HighKey(d: Demands, p: Period, tiers: map<MatrixName, Matrix>, r: Progress, k: MatrixName)
    requires PeriodOk(d, p) && IsAutoName(k) && k.p == p
    requires k in tiers && tiers[k] == d(BaseStep(k)).value
    requires SovTr(p, H) in tiers && Hov2(p, H) in tiers && Hov3(p, H) in tiers
    requires forall t :: tiers[HighName(t, p)] == d(BaseStep(HighName(t, p))).value
    requires HighAdded(d, p, tiers, r)
    ensures k in r.cache && r.cache[k] == Cached(d, k)
  {
    if k.v == H && !k.SovNt? {
      assert HighName(HighTargetOf(k), p) == k;
    }
  }

  /** The base blocks and then the high blocks make up the period. */
  lemma TierThenHigh(d: Demands, p: Period, c: map<MatrixName, Matrix>, tiers: Progress, r: Progress)
    requires PeriodOk(d, p) && forall k | k in c :: !(IsAutoName(k) && k.p == p)
    requires TierAdded(d, p, c, tiers)
    requires SovTr(p, H) in tiers.cache && Hov2(p, H) in tiers.cache && Hov3(p, H) in tiers.cache
    requires HighAdded(d, p, tiers.cache, r)
    ensures PeriodAdded(d, p, c, r)
  {
    assert forall t :: tiers.cache[HighName(t, p)] == d(BaseStep(HighName(t, p))).value;
    forall k | IsAutoName(k) && k.p == p
      ensures k in r.cache && r.cache[k] == Cached(d, k)
    {
      HighKey(d, p, tiers.cache, r, k);
    }
  }

  /** One whole period, from a cache that holds no auto class matrix of the period: each of its
      twelve auto class matrices gets its demand and nothing else changes. */
  lemma PeriodEffect(d: Demands, c: map<MatrixName, Matrix>, p: Period)
    requires forall k | k in c :: !(IsAutoName(k) && k.p == p)
    requires PeriodOk(d, p)
    ensures PeriodAdded(d, p, c, Apply(c, Writes(d, PeriodSteps(p))))
  {
    TierEffect(d, c, p);
    var tiers := Apply(c, Writes(d, TierSteps(p, |Vots|)));
    assert SovTr(p, H) in tiers.cache && Hov2(p, H) in tiers.cache && Hov3(p, H) in tiers.cache;
    HighEffect(d, tiers.cache, p);
    WritesAppend(d, TierSteps(p, |Vots|), HighSteps(p));
    ApplyAppend(c, Writes(d, TierSteps(p, |Vots|)), Writes(d, HighSteps(p)));
    TierThenHigh(d, p, c, tiers, Apply(tiers.cache, Writes(d, HighSteps(p))));
  }

  /** `r` holds exactly the auto class matrices of the first `n` periods, each holding what the
      import caches for it. */
  ghost predicate TrafficAdded(d: Demands, n: nat, r: Progress)
    requires forall p | PeriodIndex(p) < n :: PeriodOk(d, p)
  {
    && r.outcome == Pass
    && (forall k | k in r.cache :: IsAutoName(k) && PeriodIndex(k.p) < n)
    && (forall k | IsAutoName(k) && PeriodIndex(k.p) < n :: k in r.cache && r.cache[k] == Cached(d, k))
  }

  /** The first `n - 1` periods and then period `n - 1` make up the first `n` periods. */
  lemma PeriodAfter(d: Demands, n: nat, p: Period, before: Progress, r: Progress)
    requires 0 < n && PeriodIndex(p) == n - 1 && forall q | PeriodIndex(q) < n :: PeriodOk(d, q)
    requires TrafficAdded(d, n - 1, before)
    requires PeriodAdded(d, p, before.cache, r)
    ensures TrafficAdded(d, n, r)
  {
  }

  /** The first `n` periods, from an empty cache: every auto class matrix of those periods holds
      its demand, and the cache holds nothing else. */
  lemma {:induction false} TrafficEffect(d: Demands, n: nat)
    requires n <= |Periods|
    requires forall p | PeriodIndex(p) < n :: PeriodOk(d, p)
    ensures TrafficAdded(d, n, Apply(map[], TrafficWrites(d, n)))
    decreases n
  {
    if n > 0 {
      var p := Periods[n - 1];
      assert PeriodIndex(p) == n - 1;
      TrafficEffect(d, n - 1);
      var before := Apply(map[], TrafficWrites(d, n - 1));
      ApplyAppend(map[], TrafficWrites(d, n - 1), Writes(d, PeriodSteps(p)));
      assert forall k | k in before.cache :: !(IsAutoName(k) && k.p == p);
      PeriodEffect(d, before.cache, p);
      PeriodAfter(d, n, p, before, Apply(before.cache, Writes(d, PeriodSteps(p))));
    }
  }

  /** What the import's own lookups leave for auto class matrix `k` is its demand. */
  lemma LookupsCached(omx: OmxFiles, params: TrafficParams, k: MatrixName)
    requires omx.Valid() && params.taxiPassengers != 0.0 && IsAutoName(k) && PeriodReady(omx, k.p)
    ensures PeriodOk(Lookups(omx, params), k.p)
    ensures Cached(Lookups(omx, params), k) == TrafficValue(omx, params, k)
  {
    LookupsOk(omx, params, k.p);
    assert StepPresent(omx, BaseStep(k));
  }

  /** A cache holding exactly the sixty auto class matrices, each with what the import's own
      lookups leave for it, written over the databank gives the databank of the complete import. */
  lemma CompleteFrom(omx: OmxFiles, params: TrafficParams, s0: map<MatrixName, Matrix>, r: Progress)
    requires omx.Valid() && params.taxiPassengers != 0.0 && TrafficReady(omx)
    requires AllZoneMatrices(s0, omx.zones) && forall k | IsAutoName(k) :: k in s0
    requires forall p :: PeriodOk(Lookups(omx, params), p)
    requires TrafficAdded(Lookups(omx, params), |Periods|, r)
    ensures s0 + r.cache == TrafficResult(s0, omx, params)
  {
    var expected := TrafficResult(s0, omx, params);
    assert (s0 + r.cache).Keys == expected.Keys;
    forall k | k in expected
      ensures (s0 + r.cache)[k] == expected[k]
    {
      if IsAutoName(k) {
        assert k in r.cache && r.cache[k] == Cached(Lookups(omx, params), k);
        LookupsCached(omx, params, k);
      } else {
        assert k !in r.cache;
      }
    }
  }

  /** A complete import caches exactly the sixty auto class matrices, so its flush succeeds
      exactly when the databank holds all of them. */
  lemma TrafficCacheNames(omx: OmxFiles, params: TrafficParams)
    requires omx.Valid() && params.taxiPassengers != 0.0 && TrafficReady(omx)
    ensures forall k :: k in TrafficRun(omx, params).cache <==> IsAutoName(k)
  {
    var d := Lookups(omx, params);
    forall p ensures PeriodOk(d, p) {
      LookupsOk(omx, params, p);
    }
    TrafficEffect(d, |Periods|);
    forall k | IsAutoName(k) ensures PeriodIndex(k.p) < |Periods| {
    }
  }

  /** Writing the cache of a complete import over the databank gives the databank of the
      complete import: the cache holds exactly the sixty auto class matrices, each with its demand. */
  lemma TrafficComplete(omx: OmxFiles, params: TrafficParams, s0: map<MatrixName, Matrix>)
    requires omx.Valid() && params.taxiPassengers != 0.0 && TrafficReady(omx)
    requires AllZoneMatrices(s0, omx.zones) && forall k | IsAutoName(k) :: k in s0
    ensures s0 + TrafficRun(omx, params).cache == TrafficResult(s0, omx, params)
  {
    var d := Lookups(omx, params);
    forall p ensures PeriodOk(d, p) {
      LookupsOk(omx, params, p);
    }
    TrafficEffect(d, |Periods|);
    CompleteFrom(omx, params, s0, TrafficRun(omx, params));
  }
}
