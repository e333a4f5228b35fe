/** Names of everything the importer reads and writes: time periods, value-of-time tiers,
    Emme matrix names, CT-RAMP OMX files and fields, commercial-vehicle table columns, errors. */
module Keys {

  /** The five time periods EA, AM, MD, PM, EV. */
  datatype Period = EA | AM | MD | PM | EV

  /** Value-of-time tiers: `_low`, `_med`, `_high` in OMX file names, `L`, `M`, `H` in matrix names. */
  datatype Vot = L | M | H

  const Periods: seq<Period> := [EA, AM, MD, PM, EV]
  const Vots: seq<Vot> := [L, M, H]

  function PeriodIndex(p: Period): (i: nat)
    ensures i < |Periods| && Periods[i] == p
  {
    match p
    case EA => 0
    case AM => 1
    case MD => 2
    case PM => 3
    case EV => 4
  }

  function VotIndex(v: Vot): (i: nat)
    ensures i < |Vots| && Vots[i] == v
  {
    match v
    case L => 0
    case M => 1
    case H => 2
  }

  /** `Periods` lists each period at its index. */
  lemma PeriodIndexAt(i: nat)
    requires i < |Periods|
    ensures PeriodIndex(Periods[i]) == i
  {
    if i == 0 {} else if i == 1 {} else if i == 2 {} else if i == 3 {} else {}
  }

  /** `Vots` lists each tier at its index. */
  lemma VotIndexAt(i: nat)
    requires i < |Vots|
    ensures VotIndex(Vots[i]) == i
  {
    if i == 0 {} else if i == 1 {} else {}
  }

  /** Truck weight classes of the `TRK_L`, `TRK_M`, `TRK_H` matrices. */
  datatype TruckClass = Light | Medium | Heavy

  /** Modes of the aggregate external-internal demand matrices. */
  datatype EiMode = SovGp | SovToll | Hov2Hov | Hov2Toll | Hov3Hov | Hov3Toll

  const EiModes: seq<EiMode> := [SovGp, SovToll, Hov2Hov, Hov2Toll, Hov3Hov, Hov3Toll]

  function EiModeIndex(m: EiMode): (i: nat)
    ensures i < |EiModes| && EiModes[i] == m
  {
    match m
    case SovGp => 0
    case SovToll => 1
    case Hov2Hov => 2
    case Hov2Toll => 3
    case Hov3Hov => 4
    case Hov3Toll => 5
  }

  /** `EiModes` lists each mode at its index. */
  lemma EiModeIndexAt(i: nat)
    requires i < |EiModes|
    ensures EiModeIndex(EiModes[i]) == i
  {
    if i == 0 {} else if i == 1 {} else if i == 2 {} else if i == 3 {} else if i == 4 {} else {}
  }

  /** Modes of the aggregate external-external demand matrices. */
  datatype EeMode = EeSov | EeHov2 | EeHov3

  const EeModes: seq<EeMode> := [EeSov, EeHov2, EeHov3]

  function EeModeIndex(m: EeMode): (i: nat)
    ensures i < |EeModes| && EeModes[i] == m
  {
    match m
    case EeSov => 0
    case EeHov2 => 1
    case EeHov3 => 2
  }

  /** `EeModes` lists each mode at its index. */
  lemma EeModeIndexAt(i: nat)
    requires i < |EeModes|
    ensures EeModeIndex(EeModes[i]) == i
  {
    if i == 0 {} else if i == 1 {} else {}
  }

  /** Trip purpose of an external-internal matrix: `EIWORK` or `EINONWORK`. */
  datatype Purpose = Work | NonWork

  /** Full matrices of the Emme databank, by the name they are stored under. */
  datatype MatrixName =
    | SovNt(p: Period, v: Vot)                        // mf<p>_SOV_NT_<v>
    | SovTr(p: Period, v: Vot)                        // mf<p>_SOV_TR_<v>
    | Hov2(p: Period, v: Vot)                         // mf<p>_HOV2_<v>
    | Hov3(p: Period, v: Vot)                         // mf<p>_HOV3_<v>
    | TruckVeh(p: Period, t: TruckClass)              // mf<p>_TRK_<t>_VEH
    | Truck(p: Period, t: TruckClass)                 // mf<p>_TRK_<t>
    | EiTrips(p: Period, mode: EiMode, purpose: Purpose)  // mf<p>_<mode>_EIWORK / _EINONWORK
    | EeTrips(p: Period, eeMode: EeMode)              // mf<p>_<mode>_EETRIPS

  /** The sixty auto class matrices the CT-RAMP import fills: SOV_NT, SOV_TR, HOV2 and HOV3
      for every period and value-of-time tier. */
  predicate IsAutoName(k: MatrixName) {
    k.SovNt? || k.SovTr? || k.Hov2? || k.Hov3?
  }

  /** The four auto class matrices of one period and tier, in the order the import fills them. */
  function VotNames(p: Period, v: Vot): (names: seq<MatrixName>)
    ensures |names| == 4
    ensures forall k :: k in names <==> IsAutoName(k) && k.p == p && k.v == v
    ensures forall i, j | 0 <= i < j < |names| :: names[i] != names[j]
  {
    [SovNt(p, v), SovTr(p, v), Hov2(p, v), Hov3(p, v)]
  }

  /** Vehicle classes of the commercial-vehicle table: light non-truck, light (intermediate),
      medium and heavy trucks. */
  datatype CvmClass = LNT | INT | MNT | HNT

  /** A column `CVM_<p>:<class>` of the commercial-vehicle trip table. */
  datatype CvmKey = CvmKey(p: Period, c: CvmClass)

  datatype Airport = San | Cbx

  /** The demand segment a CT-RAMP trip file belongs to. */
  datatype Segment = Resident | Visitor | CrossBorder | AirportSegment(airport: Airport) | InternalExternal

  /** A CT-RAMP OMX trip file `<base>Trips<...>.omx`. */
  datatype SourceFile =
    | AutoTrips(segment: Segment, p: Period, v: Vot)   // auto<segment>Trips_<p>_<vot>.omx
    | OthrTrips(segment: Segment, p: Period)           // othr<segment>Trips_<p>.omx
    | EmptyAvTrips                                     // EmptyAVTrips.omx
    | TncVehicleTrips(p: Period)                       // TNCVehicleTrips_<p>.omx

  /** Shared-ride occupancy of the `SR2` and `SR3` fields. */
  datatype Shared = Sr2 | Sr3

  datatype FieldKind =
    | SovNotrpdr                  // SOVNOTRPDR
    | SovTrpdr                    // SOVTRPDR
    | Sov                         // SOV
    | SrTrpdr(shared: Shared)     // SR2TRPDR, SR3TRPDR
    | SrNotrpdr(shared: Shared)   // SR2NOTRPDR, SR3NOTRPDR
    | Sr(shared: Shared)          // SR2, SR3
    | Taxi                        // TAXI
    | EmptyAv                     // EmptyAV
    | Tnc(occupants: nat)         // TNC<p>_<occupants>

  /** A matrix inside an OMX file; every field name carries its period suffix. */
  datatype Field = Field(kind: FieldKind, p: Period)

  /** The exceptions the import can raise. */
  datatype Error =
    | ZeroDivision                                  // Taxi.passengersPerVehicle is zero
    | MissingSource(file: SourceFile, field: Field) // an OMX file or field that is not there
    | MissingMatrix(name: MatrixName)               // an Emme matrix that is not there
    | ScaleIndexOutOfRange                          // a cvm.scale_* list with fewer than five entries
    | MissingColumn(key: CvmKey)                    // a column missing from TripMatrices.csv
    | ShapeMismatch(key: CvmKey, length: nat)       // a column that cannot be reshaped to zones by zones
}
