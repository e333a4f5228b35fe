/** Which CT-RAMP trip tables add up to which auto class matrix
    (import_auto_demand.py, `import_traffic_trips`). */
module TrafficRules {
  import opened Outcomes
  import opened Matrices
  import opened Keys
  import opened Omx

  /** The properties the CT-RAMP import reads: the taxi occupancy shares, the taxi
      passengers per vehicle, and the AV adoption share (`Mobility.AV.Share`). */
  datatype TrafficParams = TrafficParams(
    taxiDaShare: real,
    taxiS2Share: real,
    taxiS3Share: real,
    taxiPassengers: real,
    avShare: real)

  /** The three high value-of-time matrices that also receive taxi and AV/TNC fleet demand,
      in the order the import fills them. */
  datatype HighTarget = SovTrHigh | Hov2High | Hov3High

  const HighTargets: seq<HighTarget> := [SovTrHigh, Hov2High, Hov3High]

  function HighTargetIndex(t: HighTarget): (i: nat)
    ensures i < |HighTargets| && HighTargets[i] == t
  {
    match t
    case SovTrHigh => 0
    case Hov2High => 1
    case Hov3High => 2
  }

  /** The `mf<p>_SOV_TR_H`, `mf<p>_HOV2_H`, `mf<p>_HOV3_H` matrix of a high target. */
  function HighName(t: HighTarget, p: Period): (k: MatrixName)
    ensures IsAutoName(k) && k.p == p && k.v == H && !k.SovNt?
  {
    match t
    case SovTrHigh => SovTr(p, H)
    case Hov2High => Hov2(p, H)
    case Hov3High => Hov3(p, H)
  }

  /** The high target an auto class matrix other than SOV_NT belongs to. */
  function HighTargetOf(k: MatrixName): (t: HighTarget)
    requires k.SovTr? || k.Hov2? || k.Hov3?
    ensures HighName(t, k.p) == k.(v := H)
  {
    if k.SovTr? then SovTrHigh else if k.Hov2? then Hov2High else Hov3High
  }

  /** Each high target names its own matrix. */
  lemma HighNameInverse(t: HighTarget, p: Period)
    ensures HighTargetOf(HighName(t, p)) == t
  {
  }

  /** `Taxi.{da,s2,s3}.share / Taxi.passengersPerVehicle`: taxi trips to vehicle trips of one class.
      Times the passengers per vehicle, the factor gives back the share of the class. */
  function TaxiFactor(params: TrafficParams, t: HighTarget): (f: real)
    requires params.taxiPassengers != 0.0
    ensures t == SovTrHigh ==> f * params.taxiPassengers == params.taxiDaShare
    ensures t == Hov2High ==> f * params.taxiPassengers == params.taxiS2Share
    ensures t == Hov3High ==> f * params.taxiPassengers == params.taxiS3Share
  {
    match t
    case SovTrHigh => params.taxiDaShare / params.taxiPassengers
    case Hov2High => params.taxiS2Share / params.taxiPassengers
    case Hov3High => params.taxiS3Share / params.taxiPassengers
  }

  // ---------------------------------------------------------------------------------------------
  // Base demand of one period and value-of-time tier

  function SanAuto(p: Period, v: Vot): SourceFile { AutoTrips(AirportSegment(San), p, v) }
  function CbxAuto(p: Period, v: Vot): SourceFile { AutoTrips(AirportSegment(Cbx), p, v) }

  /** The SAN airport file has the field, and so does the CBX airport file if it exists. */
  predicate AirportPresent(omx: OmxFiles, kind: FieldKind, p: Period, v: Vot) {
    && omx.Has(SanAuto(p, v), Field(kind, p))
    && (omx.Exists(CbxAuto(p, v)) ==> omx.Has(CbxAuto(p, v), Field(kind, p)))
  }

  /** One cell of the airport demand: SAN, plus CBX when its file exists. */
  function AirportCell(omx: OmxFiles, kind: FieldKind, p: Period, v: Vot, i: nat, j: nat): real
    requires omx.Valid() && AirportPresent(omx, kind, p, v) && i < omx.zones && j < omx.zones
  {
    omx.Table(SanAuto(p, v), Field(kind, p))[i][j]
      + if omx.Exists(CbxAuto(p, v)) then omx.Table(CbxAuto(p, v), Field(kind, p))[i][j] else 0.0
  }

  /** Airport demand of one field: the SAN file's matrix, plus the CBX file's matrix only when that
      file exists; a missing CBX file is not an error. */
  function AirportValue(omx: OmxFiles, kind: FieldKind, p: Period, v: Vot): (m: Matrix)
    requires omx.Valid() && AirportPresent(omx, kind, p, v)
    ensures IsZoneMatrix(m, omx.zones)
    ensures forall i, j | 0 <= i < omx.zones && 0 <= j < omx.zones :: m[i][j] == AirportCell(omx, kind, p, v, i, j)
  {
    var san := omx.Table(SanAuto(p, v), Field(kind, p));
    if omx.Exists(CbxAuto(p, v)) then Add(san, omx.Table(CbxAuto(p, v), Field(kind, p))) else san
  }

  /** The airport lookups in the order the import makes them: SAN, then CBX when its file exists. */
  function AirportDemand(omx: OmxFiles, kind: FieldKind, p: Period, v: Vot): (r: Result<Matrix, Error>)
    requires omx.Valid()
    ensures r.Ok? <==> AirportPresent(omx, kind, p, v)
    ensures r.Ok? ==> r.value == AirportValue(omx, kind, p, v)
  {
    var san :- omx.Lookup(SanAuto(p, v), Field(kind, p));
    if omx.Exists(CbxAuto(p, v)) then
      var cbx :- omx.Lookup(CbxAuto(p, v), Field(kind, p));
      Ok(Add(san, cbx))
    else
      Ok(san)
  }

  /** The SOV non-transponder tables: resident SOVNOTRPDR, visitor SOV and cross-border SOV. */
  predicate SovNtPresent(omx: OmxFiles, p: Period, v: Vot) {
    && omx.Has(AutoTrips(Resident, p, v), Field(SovNotrpdr, p))
    && omx.Has(AutoTrips(Visitor, p, v), Field(Sov, p))
    && omx.Has(AutoTrips(CrossBorder, p, v), Field(Sov, p))
  }

  /** SOV non-transponder demand: resident SOVNOTRPDR + visitor SOV + cross-border SOV.
      There is no airport and no internal-external term. */
  function SovNtValue(omx: OmxFiles, p: Period, v: Vot): (m: Matrix)
    requires omx.Valid() && SovNtPresent(omx, p, v)
    ensures IsZoneMatrix(m, omx.zones)
    ensures forall i, j | 0 <= i < omx.zones && 0 <= j < omx.zones ::
      m[i][j] ==
        omx.Table(AutoTrips(Resident, p, v), Field(SovNotrpdr, p))[i][j]
        + omx.Table(AutoTrips(Visitor, p, v), Field(Sov, p))[i][j]
        + omx.Table(AutoTrips(CrossBorder, p, v), Field(Sov, p))[i][j]
  {
    Add(Add(omx.Table(AutoTrips(Resident, p, v), Field(SovNotrpdr, p)),
            omx.Table(AutoTrips(Visitor, p, v), Field(Sov, p))),
        omx.Table(AutoTrips(CrossBorder, p, v), Field(Sov, p)))
  }

  /** The SOV non-transponder lookups in the import's order; the first missing table is the error. */
  function SovNtDemand(omx: OmxFiles, p: Period, v: Vot): (r: Result<Matrix, Error>)
    requires omx.Valid()
    ensures r.Ok? <==> SovNtPresent(omx, p, v)
    ensures r.Ok? ==> r.value == SovNtValue(omx, p, v)
  {
    var resident :- omx.Lookup(AutoTrips(Resident, p, v), Field(SovNotrpdr, p));
    var visitor :- omx.Lookup(AutoTrips(Visitor, p, v), Field(Sov, p));
    var crossBorder :- omx.Lookup(AutoTrips(CrossBorder, p, v), Field(Sov, p));
    Ok(Add(Add(resident, visitor), crossBorder))
  }

  /** The SOV transponder tables: resident SOVTRPDR, the airport SOV fields and internal-external SOV. */
  predicate SovTrPresent(omx: OmxFiles, p: Period, v: Vot) {
    && omx.Has(AutoTrips(Resident, p, v), Field(SovTrpdr, p))
    && AirportPresent(omx, Sov, p, v)
    && omx.Has(AutoTrips(InternalExternal, p, v), Field(Sov, p))
  }

  /** SOV transponder demand: resident SOVTRPDR + airport (SAN, and CBX if present) + internal-external.
      There is no visitor and no cross-border term. */
  function SovTrValue(omx: OmxFiles, p: Period, v: Vot): (m: Matrix)
    requires omx.Valid() && SovTrPresent(omx, p, v)
    ensures IsZoneMatrix(m, omx.zones)
    ensures forall i, j | 0 <= i < omx.zones && 0 <= j < omx.zones ::
      m[i][j] ==
        omx.Table(AutoTrips(Resident, p, v), Field(SovTrpdr, p))[i][j]
        + AirportCell(omx, Sov, p, v, i, j)
        + omx.Table(AutoTrips(InternalExternal, p, v), Field(Sov, p))[i][j]
  {
    Add(Add(omx.Table(AutoTrips(Resident, p, v), Field(SovTrpdr, p)), AirportValue(omx, Sov, p, v)),
        omx.Table(AutoTrips(InternalExternal, p, v), Field(Sov, p)))
  }

  /** The SOV transponder lookups in the import's order. */
  function SovTrDemand(omx: OmxFiles, p: Period, v: Vot): (r: Result<Matrix, Error>)
    requires omx.Valid()
    ensures r.Ok? <==> SovTrPresent(omx, p, v)
    ensures r.Ok? ==> r.value == SovTrValue(omx, p, v)
  {
    var resident :- omx.Lookup(AutoTrips(Resident, p, v), Field(SovTrpdr, p));
    var airport :- AirportDemand(omx, Sov, p, v);
    var internalExternal :- omx.Lookup(AutoTrips(InternalExternal, p, v), Field(Sov, p));
    Ok(Add(Add(resident, airport), internalExternal))
  }

  /** The HOV2 or HOV3 tables: resident transponder and non-transponder, visitor, cross-border,
      the airport fields and internal-external, all of the SR2 or SR3 field. */
  predicate HovPresent(omx: OmxFiles, s: Shared, p: Period, v: Vot) {
    && omx.Has(AutoTrips(Resident, p, v), Field(SrTrpdr(s), p))
    && omx.Has(AutoTrips(Resident, p, v), Field(SrNotrpdr(s), p))
    && omx.Has(AutoTrips(Visitor, p, v), Field(Sr(s), p))
    && omx.Has(AutoTrips(CrossBorder, p, v), Field(Sr(s), p))
    && AirportPresent(omx, Sr(s), p, v)
    && omx.Has(AutoTrips(InternalExternal, p, v), Field(Sr(s), p))
  }

  /** HOV2 or HOV3 demand: resident transponder + resident non-transponder + visitor + cross-border
      + airport (SAN, and CBX if present) + internal-external, all of the SR2 or SR3 field. */
  function HovValue(omx: OmxFiles, s: Shared, p: Period, v: Vot): (m: Matrix)
    requires omx.Valid() && HovPresent(omx, s, p, v)
    ensures IsZoneMatrix(m, omx.zones)
    ensures forall i, j | 0 <= i < omx.zones && 0 <= j < omx.zones ::
      m[i][j] ==
        omx.Table(AutoTrips(Resident, p, v), Field(SrTrpdr(s), p))[i][j]
        + omx.Table(AutoTrips(Resident, p, v), Field(SrNotrpdr(s), p))[i][j]
        + omx.Table(AutoTrips(Visitor, p, v), Field(Sr(s), p))[i][j]
        + omx.Table(AutoTrips(CrossBorder, p, v), Field(Sr(s), p))[i][j]
        + AirportCell(omx, Sr(s), p, v, i, j)
        + omx.Table(AutoTrips(InternalExternal, p, v), Field(Sr(s), p))[i][j]
  {
    Add(Add(Add(Add(Add(
      omx.Table(AutoTrips(Resident, p, v), Field(SrTrpdr(s), p)),
      omx.Table(AutoTrips(Resident, p, v), Field(SrNotrpdr(s), p))),
      omx.Table(AutoTrips(Visitor, p, v), Field(Sr(s), p))),
      omx.Table(AutoTrips(CrossBorder, p, v), Field(Sr(s), p))),
      AirportValue(omx, Sr(s), p, v)),
      omx.Table(AutoTrips(InternalExternal, p, v), Field(Sr(s), p)))
  }

  /** The HOV2 or HOV3 lookups in the import's order. */
  function HovDemand(omx: OmxFiles, s: Shared, p: Period, v: Vot): (r: Result<Matrix, Error>)
    requires omx.Valid()
    ensures r.Ok? <==> HovPresent(omx, s, p, v)
    ensures r.Ok? ==> r.value == HovValue(omx, s, p, v)
  {
    var transponder :- omx.Lookup(AutoTrips(Resident, p, v), Field(SrTrpdr(s), p));
    var nonTransponder :- omx.Lookup(AutoTrips(Resident, p, v), Field(SrNotrpdr(s), p));
    var visitor :- omx.Lookup(AutoTrips(Visitor, p, v), Field(Sr(s), p));
    var crossBorder :- omx.Lookup(AutoTrips(CrossBorder, p, v), Field(Sr(s), p));
    var airport :- AirportDemand(omx, Sr(s), p, v);
    var internalExternal :- omx.Lookup(AutoTrips(InternalExternal, p, v), Field(Sr(s), p));
    Ok(Add(Add(Add(Add(Add(transponder, nonTransponder), visitor), crossBorder), airport), internalExternal))
  }

  /** Every table the base demand of auto class matrix `k` is summed from is there. */
  predicate BasePresent(omx: OmxFiles, k: MatrixName)
    requires IsAutoName(k)
  {
    match k
    case SovNt(p, v) => SovNtPresent(omx, p, v)
    case SovTr(p, v) => SovTrPresent(omx, p, v)
    case Hov2(p, v) => HovPresent(omx, Sr2, p, v)
    case Hov3(p, v) => HovPresent(omx, Sr3, p, v)
  }

  /** The CT-RAMP demand of one auto class matrix before taxi and fleet demand. */
  function BaseValue(omx: OmxFiles, k: MatrixName): (m: Matrix)
    requires omx.Valid() && IsAutoName(k) && BasePresent(omx, k)
    ensures IsZoneMatrix(m, omx.zones)
  {
    match k
    case SovNt(p, v) => SovNtValue(omx, p, v)
    case SovTr(p, v) => SovTrValue(omx, p, v)
    case Hov2(p, v) => HovValue(omx, Sr2, p, v)
    case Hov3(p, v) => HovValue(omx, Sr3, p, v)
  }

  /** The lookups behind one auto class matrix: they succeed exactly when its tables are all there,
      and then give its base demand. */
  function BaseDemand(omx: OmxFiles, k: MatrixName): (r: Result<Matrix, Error>)
    requires omx.Valid() && IsAutoName(k)
    ensures r.Ok? <==> BasePresent(omx, k)
    ensures r.Ok? ==> r.value == BaseValue(omx, k)
  {
    match k
    case SovNt(p, v) => SovNtDemand(omx, p, v)
    case SovTr(p, v) => SovTrDemand(omx, p, v)
    case Hov2(p, v) => HovDemand(omx, Sr2, p, v)
    case Hov3(p, v) => HovDemand(omx, Sr3, p, v)
  }

  /** All four base matrices of one period and tier can be computed. */
  ghost predicate VotSourcesPresent(omx: OmxFiles, p: Period, v: Vot) {
    forall k | IsAutoName(k) && k.p == p && k.v == v :: BasePresent(omx, k)
  }

  // ---------------------------------------------------------------------------------------------
  // Taxi and AV/TNC fleet demand of the high tier

  /** The AV/TNC occupancy remap. With AVs there is no driver: empty AVs and TNC vehicles with 0 or 1
      passengers are SOV, 2 passengers HOV2, 3 passengers HOV3. Without AVs the driver counts: TNC
      vehicles with 0 passengers are SOV, 1 passenger HOV2, 2 and 3 passengers HOV3. */
  function AvDemand(avShare: real, t: HighTarget, emptyAv: Matrix, tnc0: Matrix, tnc1: Matrix, tnc2: Matrix, tnc3: Matrix): (r: Matrix)
    requires Square(emptyAv) && Square(tnc0) && Square(tnc1) && Square(tnc2) && Square(tnc3)
    requires |tnc0| == |emptyAv| && |tnc1| == |emptyAv| && |tnc2| == |emptyAv| && |tnc3| == |emptyAv|
    ensures IsZoneMatrix(r, |emptyAv|)
  {
    if avShare > 0.0 then
      match t
      case SovTrHigh => Add(Add(emptyAv, tnc0), tnc1)
      case Hov2High => tnc2
      case Hov3High => tnc3
    else
      match t
      case SovTrHigh => tnc0
      case Hov2High => tnc1
      case Hov3High => Add(tnc2, tnc3)
  }

  /** Reference statement of the remap, by occupancy: the class a TNC vehicle with `occupants`
      passengers is assigned to. */
  function OccupancyTarget(avShare: real, occupants: nat): HighTarget
    requires occupants <= 3
  {
    if avShare > 0.0 then
      if occupants <= 1 then SovTrHigh else if occupants == 2 then Hov2High else Hov3High
    else
      if occupants == 0 then SovTrHigh else if occupants == 1 then Hov2High else Hov3High
  }

  /** A cell counted only when the vehicles it holds belong to target `t`. */
  function Counted(b: bool, x: real): real {
    if b then x else 0.0
  }

  /** The remap agrees with the occupancy rule: each target receives exactly the TNC vehicles whose
      occupancy maps to it, plus the empty AV trips for SOV when the AV share is positive. */
  lemma AvRemapByOccupancy(avShare: real, t: HighTarget, emptyAv: Matrix, tnc0: Matrix, tnc1: Matrix, tnc2: Matrix, tnc3: Matrix, i: nat, j: nat)
    requires Square(emptyAv) && Square(tnc0) && Square(tnc1) && Square(tnc2) && Square(tnc3)
    requires |tnc0| == |emptyAv| && |tnc1| == |emptyAv| && |tnc2| == |emptyAv| && |tnc3| == |emptyAv|
    requires i < |emptyAv| && j < |emptyAv|
    ensures AvDemand(avShare, t, emptyAv, tnc0, tnc1, tnc2, tnc3)[i][j] ==
      Counted(avShare > 0.0 && t == SovTrHigh, emptyAv[i][j])
      + Counted(OccupancyTarget(avShare, 0) == t, tnc0[i][j])
      + Counted(OccupancyTarget(avShare, 1) == t, tnc1[i][j])
      + Counted(OccupancyTarget(avShare, 2) == t, tnc2[i][j])
      + Counted(OccupancyTarget(avShare, 3) == t, tnc3[i][j])
  {
  }

  /** Without AVs every occupancy class moves one class up: the class of `k` occupants without AVs
      is the class of `k + 1` occupants with AVs (for k = 0, 1, 2). */
  lemma OccupancyShift(noAv: real, withAv: real, k: nat)
    requires noAv <= 0.0 < withAv && k < 3
    ensures OccupancyTarget(noAv, k) == OccupancyTarget(withAv, k + 1)
  {
  }

  /** Over the three targets the fleet demand adds up to all TNC vehicle trips, plus the empty AV
      trips exactly when the AV share is positive: nothing is dropped or counted twice. */
  lemma AvRemapConserves(avShare: real, emptyAv: Matrix, tnc0: Matrix, tnc1: Matrix, tnc2: Matrix, tnc3: Matrix, i: nat, j: nat)
    requires Square(emptyAv) && Square(tnc0) && Square(tnc1) && Square(tnc2) && Square(tnc3)
    requires |tnc0| == |emptyAv| && |tnc1| == |emptyAv| && |tnc2| == |emptyAv| && |tnc3| == |emptyAv|
    requires i < |emptyAv| && j < |emptyAv|
    ensures AvDemand(avShare, SovTrHigh, emptyAv, tnc0, tnc1, tnc2, tnc3)[i][j]
          + AvDemand(avShare, Hov2High, emptyAv, tnc0, tnc1, tnc2, tnc3)[i][j]
          + AvDemand(avShare, Hov3High, emptyAv, tnc0, tnc1, tnc2, tnc3)[i][j]
         == Counted(avShare > 0.0, emptyAv[i][j]) + tnc0[i][j] + tnc1[i][j] + tnc2[i][j] + tnc3[i][j]
  {
  }

  function TaxiFile(segment: Segment, p: Period): SourceFile { OthrTrips(segment, p) }

  /** Every file and field the high-tier step of a period reads is there; the CBX airport
      taxi file only if it exists. All five fleet fields are read whatever the AV share. */
  predicate HighSourcesPresent(omx: OmxFiles, p: Period) {
    && omx.Has(OthrTrips(Resident, p), Field(Taxi, p))
    && omx.Has(OthrTrips(Visitor, p), Field(Taxi, p))
    && omx.Has(OthrTrips(CrossBorder, p), Field(Taxi, p))
    && omx.Has(OthrTrips(AirportSegment(San), p), Field(Taxi, p))
    && (omx.Exists(OthrTrips(AirportSegment(Cbx), p)) ==> omx.Has(OthrTrips(AirportSegment(Cbx), p), Field(Taxi, p)))
    && omx.Has(OthrTrips(InternalExternal, p), Field(Taxi, p))
    && omx.Has(EmptyAvTrips, Field(EmptyAv, p))
    && omx.Has(TncVehicleTrips(p), Field(Tnc(0), p))
    && omx.Has(TncVehicleTrips(p), Field(Tnc(1), p))
    && omx.Has(TncVehicleTrips(p), Field(Tnc(2), p))
    && omx.Has(TncVehicleTrips(p), Field(Tnc(3), p))
  }

  /** One cell of all taxi trips of a period: resident, visitor, cross-border, SAN airport,
      CBX airport when its file exists, and internal-external. */
  function TaxiCell(omx: OmxFiles, p: Period, i: nat, j: nat): real
    requires omx.Valid() && HighSourcesPresent(omx, p) && i < omx.zones && j < omx.zones
  {
    omx.Table(OthrTrips(Resident, p), Field(Taxi, p))[i][j]
    + omx.Table(OthrTrips(Visitor, p), Field(Taxi, p))[i][j]
    + omx.Table(OthrTrips(CrossBorder, p), Field(Taxi, p))[i][j]
    + omx.Table(OthrTrips(AirportSegment(San), p), Field(Taxi, p))[i][j]
    + (if omx.Exists(OthrTrips(AirportSegment(Cbx), p))
       then omx.Table(OthrTrips(AirportSegment(Cbx), p), Field(Taxi, p))[i][j] else 0.0)
    + omx.Table(OthrTrips(InternalExternal, p), Field(Taxi, p))[i][j]
  }

  /** The fleet matrix of target `t` in period `p`, from the stored empty AV and TNC tables. */
  function FleetDemand(omx: OmxFiles, avShare: real, t: HighTarget, p: Period): (m: Matrix)
    requires omx.Valid() && HighSourcesPresent(omx, p)
    ensures IsZoneMatrix(m, omx.zones)
  {
    AvDemand(avShare, t,
      omx.Table(EmptyAvTrips, Field(EmptyAv, p)),
      omx.Table(TncVehicleTrips(p), Field(Tnc(0), p)),
      omx.Table(TncVehicleTrips(p), Field(Tnc(1), p)),
      omx.Table(TncVehicleTrips(p), Field(Tnc(2), p)),
      omx.Table(TncVehicleTrips(p), Field(Tnc(3), p)))
  }

  /** What the high-tier step adds to target `t` of period `p`: every taxi table scaled by the
      target's taxi factor (SAN and CBX scaled before they are added), plus the unscaled AV/TNC
      fleet demand of the target. */
  function HighValue(omx: OmxFiles, params: TrafficParams, t: HighTarget, p: Period): (m: Matrix)
    requires omx.Valid() && params.taxiPassengers != 0.0 && HighSourcesPresent(omx, p)
    ensures IsZoneMatrix(m, omx.zones)
    ensures forall i, j | 0 <= i < omx.zones && 0 <= j < omx.zones ::
      m[i][j] == TaxiCell(omx, p, i, j) * TaxiFactor(params, t) + FleetDemand(omx, params.avShare, t, p)[i][j]
  {
    var factor := TaxiFactor(params, t);
    var san := Scale(omx.Table(OthrTrips(AirportSegment(San), p), Field(Taxi, p)), factor);
    var airport :=
      if omx.Exists(OthrTrips(AirportSegment(Cbx), p))
      then Add(san, Scale(omx.Table(OthrTrips(AirportSegment(Cbx), p), Field(Taxi, p)), factor))
      else san;
    Add(Add(Add(Add(Add(
      Scale(omx.Table(OthrTrips(Resident, p), Field(Taxi, p)), factor),
      Scale(omx.Table(OthrTrips(Visitor, p), Field(Taxi, p)), factor)),
      Scale(omx.Table(OthrTrips(CrossBorder, p), Field(Taxi, p)), factor)),
      airport),
      Scale(omx.Table(OthrTrips(InternalExternal, p), Field(Taxi, p)), factor)),
      FleetDemand(omx, params.avShare, t, p))
  }

  /** A taxi table scaled by the target's taxi factor. */
  function TaxiLookup(omx: OmxFiles, factor: real, segment: Segment, p: Period): (r: Result<Matrix, Error>)
    requires omx.Valid()
    ensures r.Ok? <==> omx.Has(OthrTrips(segment, p), Field(Taxi, p))
    ensures r.Ok? ==> r.value == Scale(omx.Table(OthrTrips(segment, p), Field(Taxi, p)), factor)
  {
    var m :- omx.Lookup(OthrTrips(segment, p), Field(Taxi, p));
    Ok(Scale(m, factor))
  }

  /** The high-tier lookups in the import's order: the five taxi tables (CBX only when its file
      exists), the empty AV table and the four TNC vehicle tables. */
  function HighDemand(omx: OmxFiles, params: TrafficParams, t: HighTarget, p: Period): (r: Result<Matrix, Error>)
    requires omx.Valid() && params.taxiPassengers != 0.0
    ensures r.Ok? <==> HighSourcesPresent(omx, p)
    ensures r.Ok? ==> r.value == HighValue(omx, params, t, p)
  {
    var factor := TaxiFactor(params, t);
    var residentTaxi :- TaxiLookup(omx, factor, Resident, p);
    var visitorTaxi :- TaxiLookup(omx, factor, Visitor, p);
    var crossBorderTaxi :- TaxiLookup(omx, factor, CrossBorder, p);
    var sanTaxi :- TaxiLookup(omx, factor, AirportSegment(San), p);
    var airportTaxi :-
      if omx.Exists(OthrTrips(AirportSegment(Cbx), p)) then
        var cbxTaxi :- TaxiLookup(omx, factor, AirportSegment(Cbx), p);
        Ok(Add(sanTaxi, cbxTaxi))
      else Ok(sanTaxi);
    var internalExternalTaxi :- TaxiLookup(omx, factor, InternalExternal, p);
    var emptyAv :- omx.Lookup(EmptyAvTrips, Field(EmptyAv, p));
    var tnc0 :- omx.Lookup(TncVehicleTrips(p), Field(Tnc(0), p));
    var tnc1 :- omx.Lookup(TncVehicleTrips(p), Field(Tnc(1), p));
    var tnc2 :- omx.Lookup(TncVehicleTrips(p), Field(Tnc(2), p));
    var tnc3 :- omx.Lookup(TncVehicleTrips(p), Field(Tnc(3), p));
    var av := AvDemand(params.avShare, t, emptyAv, tnc0, tnc1, tnc2, tnc3);
    Ok(Add(Add(Add(Add(Add(residentTaxi, visitorTaxi), crossBorderTaxi), airportTaxi), internalExternalTaxi), av))
  }

  // ---------------------------------------------------------------------------------------------
  // The whole CT-RAMP import

  /** Everything the import of period `p` reads is there. */
  ghost predicate PeriodReady(omx: OmxFiles, p: Period) {
    (forall k | IsAutoName(k) && k.p == p :: BasePresent(omx, k)) && HighSourcesPresent(omx, p)
  }

  /** The demand the import leaves in the cache for auto class matrix `k`: its base demand, and for the
      SOV_TR, HOV2 and HOV3 matrices of the high tier the taxi and fleet demand added to it
      (accumulated as `new + old`). */
  function TrafficValue(omx: OmxFiles, params: TrafficParams, k: MatrixName): (m: Matrix)
    requires omx.Valid() && params.taxiPassengers != 0.0 && IsAutoName(k) && PeriodReady(omx, k.p)
    ensures IsZoneMatrix(m, omx.zones)
  {
    if k.v == H && !k.SovNt? then
      Add(HighValue(omx, params, HighTargetOf(k), k.p), BaseValue(omx, k))
    else
      BaseValue(omx, k)
  }

  /** Taxi and fleet demand reach only the high tier, and never SOV_NT: every other auto class
      matrix holds exactly its CT-RAMP base demand. */
  lemma TaxiOnlyInHighTier(omx: OmxFiles, params: TrafficParams, k: MatrixName)
    requires omx.Valid() && params.taxiPassengers != 0.0 && IsAutoName(k) && PeriodReady(omx, k.p)
    requires k.v != H || k.SovNt?
    ensures TrafficValue(omx, params, k) == BaseValue(omx, k)
  {
  }

  /** The fleet part of the high-tier SOV transponder matrix: empty AVs and 0/1-occupant TNC
      vehicles when the AV share is positive, 0-occupant TNC vehicles otherwise. */
  lemma SovFleetCell(omx: OmxFiles, avShare: real, p: Period, i: nat, j: nat)
    requires omx.Valid() && HighSourcesPresent(omx, p) && i < omx.zones && j < omx.zones
    ensures FleetDemand(omx, avShare, SovTrHigh, p)[i][j] ==
      Counted(avShare > 0.0, omx.Table(EmptyAvTrips, Field(EmptyAv, p))[i][j])
      + omx.Table(TncVehicleTrips(p), Field(Tnc(0), p))[i][j]
      + Counted(avShare > 0.0, omx.Table(TncVehicleTrips(p), Field(Tnc(1), p))[i][j])
  {
    var emptyAv := omx.Table(EmptyAvTrips, Field(EmptyAv, p));
    var tnc0 := omx.Table(TncVehicleTrips(p), Field(Tnc(0), p));
    var tnc1 := omx.Table(TncVehicleTrips(p), Field(Tnc(1), p));
    var tnc2 := omx.Table(TncVehicleTrips(p), Field(Tnc(2), p));
    var tnc3 := omx.Table(TncVehicleTrips(p), Field(Tnc(3), p));
    AvRemapByOccupancy(avShare, SovTrHigh, emptyAv, tnc0, tnc1, tnc2, tnc3, i, j);
  }

  /** A high target's cell: its taxi and fleet demand plus its base demand. */
  lemma HighValueCell(omx: OmxFiles, params: TrafficParams, t: HighTarget, p: Period, i: nat, j: nat)
    requires omx.Valid() && params.taxiPassengers != 0.0 && PeriodReady(omx, p)
    requires i < omx.zones && j < omx.zones
    ensures BasePresent(omx, HighName(t, p))
    ensures TrafficValue(omx, params, HighName(t, p))[i][j] ==
      HighValue(omx, params, t, p)[i][j] + BaseValue(omx, HighName(t, p))[i][j]
  {
    HighNameInverse(t, p);
  }

  /** Every input of every period is there. */
  ghost predicate TrafficReady(omx: OmxFiles) {
    forall p :: PeriodReady(omx, p)
  }

  /** The databank after a complete CT-RAMP import: each of the sixty auto class matrices holds
      its demand, every other matrix is untouched. */
  function TrafficResult(store: map<MatrixName, Matrix>, omx: OmxFiles, params: TrafficParams): (s: map<MatrixName, Matrix>)
    requires omx.Valid() && params.taxiPassengers != 0.0 && TrafficReady(omx)
    requires AllZoneMatrices(store, omx.zones)
    ensures s.Keys == store.Keys && AllZoneMatrices(s, omx.zones)
  {
    map k | k in store :: if IsAutoName(k) then TrafficValue(omx, params, k) else store[k]
  }
}
