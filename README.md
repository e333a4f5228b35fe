# SANDAG auto demand import and shadow-pricing file selection, in Dafny

This project models two pieces of the SANDAG activity-based model (ABM) and its rapid strategic
model (RSM) and proves properties of them.

**The Emme tool `ImportMatrices` (`import_auto_demand.py`).** The tool builds the
time-of-day auto demand of an Emme databank in three steps.

1. **CT-RAMP import.** For each of the five periods and three value-of-time tiers, it sums the
   CT-RAMP trip tables of the OMX files into the SOV non-transponder, SOV transponder, HOV2 and
   HOV3 matrices. Taxi demand and AV/TNC fleet demand are then added to the high-tier SOV_TR,
   HOV2 and HOV3 matrices. Every write goes through the `set_data` cache, which sums repeated
   writes. The cache is flushed to the databank when the import ends, also when it ends with an
   error. A cached name the databank lacks raises during the flush, and that error replaces the
   import's own.
2. **Commercial vehicles.** It blends the commercial-vehicle trips of `TripMatrices.csv` into the
   high SOV_TR matrix and the light, medium and heavy truck matrices. It moves the configured
   shares to the light trucks and converts to passenger-car equivalents (PCE) on save. The
   light-truck class INT is given the medium share: it keeps `1 - share_medium` of its own trips,
   and the rest goes to no matrix (`CommercialRules.ShareBalance`).
3. **Aggregate demand.** It adds one third of the external-internal trips (two modes per target)
   to SOV_TR, HOV2 and HOV3 of each tier. It adds one third of the external-external trips to
   SOV_NT, HOV2 and HOV3, only between external zones.

The tool is the class `ImportAutoDemand.ImportMatrices`:

- Its `store` field is the databank.
- Its `cache` field is `_matrix_cache`.
- Each phase is a method with loops over periods, tiers, modes and CVM columns. Its contract ties
  the new databank to a specification function of the old one (`TrafficResult`, `CvmResult`,
  `EiResult`, `EeResult`), and says when the phase fails and how.
- The pure sum formulas, the AV remap, the blend and the passes are functions in
  `TrafficRules`, `CommercialRules` and `AggregateRules`.
- `TrafficImport` models the CT-RAMP import as a run of `set_data` blocks and proves what the run
  leaves in the cache.

**Shadow-pricing file selection (`sandag_rsm/utility.py`).** `ShadowPricing` models three things:

- `extract_number_in_filename`: the first run of ASCII digits, read as a decimal number, or −1.
  The number is paired with the name.
- The stripping of folders from paths.
- The `max` by (number, name) key that picks the latest work and school shadow-pricing outputs.

Matrices are `seq<seq<real>>`, zones by zones. The number of zones is a parameter (the source
hard-codes 4996).

## Model

| member | source | states |
|---|---|---|
| Keys.PeriodIndex | sandag_abm/src/main/emme/toolbox/import/import_auto_demand.py:217 | every period has a position in the period list, and the list holds it there |
| Keys.VotIndex | sandag_abm/src/main/emme/toolbox/import/import_auto_demand.py:218 | every value-of-time tier has a position in the tier list, and the list holds it there |
| Keys.PeriodIndexAt | sandag_abm/src/main/emme/toolbox/import/import_auto_demand.py:217 | the position of the i-th period is i: the list has no repeats |
| Keys.VotIndexAt | sandag_abm/src/main/emme/toolbox/import/import_auto_demand.py:218 | the position of the i-th tier is i |
| Keys.EiModeIndex | sandag_abm/src/main/emme/toolbox/import/import_auto_demand.py:479 | every external-internal mode has a position in the six-mode list |
| Keys.EiModeIndexAt | sandag_abm/src/main/emme/toolbox/import/import_auto_demand.py:479 | the six external-internal modes are distinct |
| Keys.EeModeIndex | sandag_abm/src/main/emme/toolbox/import/import_auto_demand.py:502 | every external-external mode has a position in the three-mode list |
| Keys.EeModeIndexAt | sandag_abm/src/main/emme/toolbox/import/import_auto_demand.py:502 | the three external-external modes are distinct |
| Keys.VotNames | sandag_abm/src/main/emme/toolbox/import/import_auto_demand.py:233-303 | one period and tier fills exactly four distinct matrices: SOV_NT, SOV_TR, HOV2, HOV3 of that period and tier |
| Matrices.Add | sandag_abm/src/main/emme/toolbox/import/import_auto_demand.py:242-243 | numpy `+` of two zone arrays is the cell-wise sum, of the same shape |
| Matrices.Scale | sandag_abm/src/main/emme/toolbox/import/import_auto_demand.py:309-310 | numpy `* s` multiplies every cell by s |
| Matrices.Divide | sandag_abm/src/main/emme/toolbox/import/import_auto_demand.py:428 | numpy `/ d` divides every cell by d |
| Matrices.MaskedAdd | sandag_abm/src/main/emme/toolbox/import/import_auto_demand.py:509-517 | a calculation constrained to origins and destinations in a zone set adds only at cells whose row and column are both in the set, and leaves the other cells as they were |
| Matrices.Rows | sandag_abm/src/main/emme/toolbox/import/import_auto_demand.py:426 | cutting a flat column into rows gives the requested number of rows of the requested width |
| Matrices.Reshape | sandag_abm/src/main/emme/toolbox/import/import_auto_demand.py:426 | `reshape((N, N))` of a column of N·N values is an N by N array |
| Matrices.RowsAt | sandag_abm/src/main/emme/toolbox/import/import_auto_demand.py:426 | cell (i, j) of the rows is value i·width + j of the column (row-major) |
| Matrices.ReshapeRowMajor | sandag_abm/src/main/emme/toolbox/import/import_auto_demand.py:426 | cell (i, j) of the reshaped array is value i·N + j of the column |
| Matrices.FlattenRows | sandag_abm/src/main/emme/toolbox/import/import_auto_demand.py:426 | flattening the rows cut from a column gives the column back |
| Matrices.RowsFlatten | sandag_abm/src/main/emme/toolbox/import/import_auto_demand.py:426 | cutting a flattened rectangular array into rows gives the array back |
| Matrices.ReshapeRoundTrip | sandag_abm/src/main/emme/toolbox/import/import_auto_demand.py:426 | reshape and flatten are inverse bijections between columns of N·N values and N by N arrays, so the reshape loses and invents no trip |
| Omx.OmxFiles.Table | sandag_abm/src/main/emme/toolbox/import/import_auto_demand.py:238 | a stored OMX table is a zones by zones array |
| Omx.OmxFiles.Lookup | sandag_abm/src/main/emme/toolbox/import/import_auto_demand.py:238-240 | a lookup succeeds exactly when the file has the field, gives the stored table, and otherwise fails naming that file and field |
| TrafficRules.HighTargetIndex | sandag_abm/src/main/emme/toolbox/import/import_auto_demand.py:219-229 | each of the three high targets has its place in `mode_shares` |
| TrafficRules.HighName | sandag_abm/src/main/emme/toolbox/import/import_auto_demand.py:306-307 | the high targets write the high-tier SOV_TR, HOV2 and HOV3 matrices of the period, never SOV_NT |
| TrafficRules.HighTargetOf | sandag_abm/src/main/emme/toolbox/import/import_auto_demand.py:306-307 | every SOV_TR, HOV2 or HOV3 matrix belongs to the high target whose high-tier matrix it is |
| TrafficRules.HighNameInverse | sandag_abm/src/main/emme/toolbox/import/import_auto_demand.py:306-307 | distinct high targets write distinct matrices |
| TrafficRules.AirportValue | sandag_abm/src/main/emme/toolbox/import/import_auto_demand.py:258-260 | airport demand is the SAN table plus the CBX table only when the CBX file exists, cell by cell |
| TrafficRules.AirportDemand | sandag_abm/src/main/emme/toolbox/import/import_auto_demand.py:258-260 | the airport lookups succeed exactly when SAN has the field and CBX has it if its file exists, and then give the airport demand; a missing CBX file is not an error |
| TrafficRules.SovNtValue | sandag_abm/src/main/emme/toolbox/import/import_auto_demand.py:236-243 | SOV_NT is resident SOVNOTRPDR + visitor SOV + cross-border SOV at every cell, with no airport or internal-external term |
| TrafficRules.SovNtDemand | sandag_abm/src/main/emme/toolbox/import/import_auto_demand.py:236-251 | the SOV_NT lookups succeed exactly when the three tables are there, and then give the SOV_NT demand |
| TrafficRules.SovTrValue | sandag_abm/src/main/emme/toolbox/import/import_auto_demand.py:254-264 | SOV_TR is resident SOVTRPDR + airport + internal-external SOV at every cell, with no visitor or cross-border term |
| TrafficRules.SovTrDemand | sandag_abm/src/main/emme/toolbox/import/import_auto_demand.py:254-272 | the SOV_TR lookups succeed exactly when their tables are there, and then give the SOV_TR demand |
| TrafficRules.HovValue | sandag_abm/src/main/emme/toolbox/import/import_auto_demand.py:275-293 | HOV2 and HOV3 are resident TRPDR + resident NOTRPDR + visitor + cross-border + airport + internal-external of the SR2 or SR3 field, at every cell |
| TrafficRules.HovDemand | sandag_abm/src/main/emme/toolbox/import/import_auto_demand.py:275-303 | the HOV lookups succeed exactly when their tables are there, and then give the HOV demand |
| TrafficRules.BaseValue | sandag_abm/src/main/emme/toolbox/import/import_auto_demand.py:233-303 | the CT-RAMP demand of any auto class matrix is a zones by zones array; its cells are those of `SovNtValue`, `SovTrValue` or `HovValue` |
| TrafficRules.BaseDemand | sandag_abm/src/main/emme/toolbox/import/import_auto_demand.py:233-303 | the lookups behind any auto class matrix succeed exactly when its tables are there, and then give its CT-RAMP demand |
| TrafficRules.AvDemand | sandag_abm/src/main/emme/toolbox/import/import_auto_demand.py:336-349 | the AV/TNC fleet demand of a target is a zones by zones array; its cells are stated by `AvRemapByOccupancy` and `AvRemapConserves` |
| TrafficRules.AvRemapByOccupancy | sandag_abm/src/main/emme/toolbox/import/import_auto_demand.py:332-349 | each target gets exactly the TNC vehicles whose occupancy the occupancy rule assigns to it (with AVs: 0-1 SOV, 2 HOV2, 3 HOV3; without: 0 SOV, 1 HOV2, 2-3 HOV3), plus the empty AVs for SOV when the AV share is positive |
| TrafficRules.OccupancyShift | sandag_abm/src/main/emme/toolbox/import/import_auto_demand.py:332-335 | without AVs, k occupants go where k + 1 occupants go with AVs: the mapping shifts by one |
| TrafficRules.AvRemapConserves | sandag_abm/src/main/emme/toolbox/import/import_auto_demand.py:336-349 | over the three targets the fleet demand sums to all TNC vehicle trips, plus the empty AV trips exactly when the AV share is positive |
| TrafficRules.FleetDemand | sandag_abm/src/main/emme/toolbox/import/import_auto_demand.py:326-349 | the fleet demand built from the stored EmptyAV and TNC tables is a zones by zones array; its SOV cells are stated by `SovFleetCell` |
| TrafficRules.HighValue | sandag_abm/src/main/emme/toolbox/import/import_auto_demand.py:306-353 | each cell of a high target's added demand is all taxi trips times the target's share divided by passengers per vehicle, plus its unscaled fleet demand |
| TrafficRules.TaxiLookup | sandag_abm/src/main/emme/toolbox/import/import_auto_demand.py:309-310 | a taxi lookup succeeds exactly when the file has the TAXI field, and gives it scaled by the taxi factor |
| TrafficRules.TaxiFactor | sandag_abm/src/main/emme/toolbox/import/import_auto_demand.py:221-227 | the taxi factor of a high target, times the passengers per taxi, gives back the taxi share of that class (`Taxi.da.share`, `Taxi.s2.share` or `Taxi.s3.share`) |
| TrafficRules.HighDemand | sandag_abm/src/main/emme/toolbox/import/import_auto_demand.py:306-353 | the high-tier lookups succeed exactly when all taxi, EmptyAV and TNC tables are there (CBX only if its file exists), and then give the high target's added demand |
| TrafficRules.TrafficValue | sandag_abm/src/main/emme/toolbox/import/import_auto_demand.py:305-364 | the demand an auto class matrix ends with is a zones by zones array; `TaxiOnlyInHighTier` and `HighValueCell` state what it holds |
| TrafficRules.TaxiOnlyInHighTier | sandag_abm/src/main/emme/toolbox/import/import_auto_demand.py:305-307 | taxi and fleet demand reach only the high tier and never SOV_NT: every other auto class matrix holds exactly its CT-RAMP demand |
| TrafficRules.SovFleetCell | sandag_abm/src/main/emme/toolbox/import/import_auto_demand.py:336-345 | high-tier SOV_TR fleet demand is EmptyAV + TNC_0 + TNC_1 when the AV share is positive, TNC_0 otherwise |
| TrafficRules.HighValueCell | sandag_abm/src/main/emme/toolbox/import/import_auto_demand.py:351-364 | a high target's matrix is its taxi and fleet demand plus its CT-RAMP demand, cell by cell |
| TrafficRules.TrafficResult | sandag_abm/src/main/emme/toolbox/import/import_auto_demand.py:198-365 | the databank after the CT-RAMP import has the same matrices as before, all zones by zones; each auto class matrix holds its `TrafficValue`, every other matrix is unchanged |
| TrafficImport.Accumulate | sandag_abm/src/main/emme/toolbox/import/import_auto_demand.py:193-196 | `set_data` adds the name to the cache: a new name holds the value, a name already cached holds the value plus the cached matrix, and every other entry is left alone |
| TrafficImport.AccumulateCommutes | sandag_abm/src/main/emme/toolbox/import/import_auto_demand.py:193-196 | two writes of a and b under one name, cached before or not, leave what one write of a + b leaves, and the order of the two writes does not matter |
| TrafficImport.Apply | sandag_abm/src/main/emme/toolbox/import/import_auto_demand.py:231-364 | the `set_data` blocks run in order; a run that raises reports the error of one of its blocks |
| TrafficImport.ApplyAppend | sandag_abm/src/main/emme/toolbox/import/import_auto_demand.py:231-364 | running two runs of blocks in turn is running their concatenation; the second does not run once the first has raised |
| TrafficImport.ApplyFailStops | sandag_abm/src/main/emme/toolbox/import/import_auto_demand.py:231-364 | an import that has raised stays failed with the same cache, whatever blocks follow |
| TrafficImport.ApplySnoc | sandag_abm/src/main/emme/toolbox/import/import_auto_demand.py:231-364 | one more block after a run is one more step of the run |
| TrafficImport.ApplyPass | sandag_abm/src/main/emme/toolbox/import/import_auto_demand.py:231-364 | a run completes exactly when every block finds all its tables |
| TrafficImport.ApplyFirstError | sandag_abm/src/main/emme/toolbox/import/import_auto_demand.py:231-364 | a failed run reports the error of the first block missing a table, with the cache the blocks before it left |
| TrafficImport.ApplyWrites | sandag_abm/src/main/emme/toolbox/import/import_auto_demand.py:193-196 | a run keeps every cached matrix, adds only matrices its blocks name, and leaves alone every matrix no block names |
| TrafficImport.ApplyZones | sandag_abm/src/main/emme/toolbox/import/import_auto_demand.py:193-196 | a run whose demands are zone arrays caches only zone arrays |
| TrafficImport.StepName | sandag_abm/src/main/emme/toolbox/import/import_auto_demand.py:236-307 | every block writes an auto class matrix of its own period; a high block writes its target's high-tier matrix |
| TrafficImport.StepDemand | sandag_abm/src/main/emme/toolbox/import/import_auto_demand.py:236-353 | a block's lookups succeed exactly when its tables are there, and give a zone array |
| TrafficImport.WritesFound | sandag_abm/src/main/emme/toolbox/import/import_auto_demand.py:231-364 | every block finds its tables exactly when every lookup succeeds |
| TrafficImport.StepsStop | sandag_abm/src/main/emme/toolbox/import/import_auto_demand.py:231-364 | once a block has raised, the blocks after it change nothing |
| TrafficImport.TierPrefix | sandag_abm/src/main/emme/toolbox/import/import_auto_demand.py:234 | the blocks of the first m tiers come before those of later tiers |
| TrafficImport.PeriodFailStops | sandag_abm/src/main/emme/toolbox/import/import_auto_demand.py:233 | an import that fails in some period ends as it was when it failed |
| TrafficImport.TrafficFailStops | sandag_abm/src/main/emme/toolbox/import/import_auto_demand.py:233 | once the first m periods have failed, later periods do not run |
| TrafficImport.TierDone | sandag_abm/src/main/emme/toolbox/import/import_auto_demand.py:234-303 | the four blocks of a tier extend the run by that tier; a failure there ends the period's run |
| TrafficImport.HighDone | sandag_abm/src/main/emme/toolbox/import/import_auto_demand.py:305-364 | the high blocks after the three tiers complete the period |
| TrafficImport.PeriodNext | sandag_abm/src/main/emme/toolbox/import/import_auto_demand.py:233-306 | a period is its three tiers, then its high targets |
| TrafficImport.FailedBefore | sandag_abm/src/main/emme/toolbox/import/import_auto_demand.py:233-303 | a failure in a tier is the failure of the period's whole run |
| TrafficImport.TierMembers | sandag_abm/src/main/emme/toolbox/import/import_auto_demand.py:234-303 | the tier blocks of a period are exactly its base blocks of those tiers |
| TrafficImport.HighMembers | sandag_abm/src/main/emme/toolbox/import/import_auto_demand.py:306 | the high blocks of a period are exactly one per high target |
| TrafficImport.PeriodMembers | sandag_abm/src/main/emme/toolbox/import/import_auto_demand.py:233-306 | a period's blocks are exactly the blocks of that period |
| TrafficImport.BaseStep | sandag_abm/src/main/emme/toolbox/import/import_auto_demand.py:236-303 | every auto class matrix has a base block that writes it |
| TrafficImport.PeriodFound | sandag_abm/src/main/emme/toolbox/import/import_auto_demand.py:233-364 | a period's blocks find their tables exactly when every lookup of the period succeeds |
| TrafficImport.TrafficFound | sandag_abm/src/main/emme/toolbox/import/import_auto_demand.py:233 | the blocks of the first n periods find their tables exactly when those of each period do |
| TrafficImport.LookupsOk | sandag_abm/src/main/emme/toolbox/import/import_auto_demand.py:233-364 | the lookups of a period succeed exactly when every table the period reads is there |
| TrafficImport.TrafficPass | sandag_abm/src/main/emme/toolbox/import/import_auto_demand.py:198-365 | the CT-RAMP import completes exactly when every table of every period is there |
| TrafficImport.TrafficRun | sandag_abm/src/main/emme/toolbox/import/import_auto_demand.py:198-365 | the whole CT-RAMP import from an empty cache, passing or raising, caches only auto class matrices |
| TrafficImport.TrafficNames | sandag_abm/src/main/emme/toolbox/import/import_auto_demand.py:198-365 | every block writes an auto class matrix |
| TrafficImport.TrafficWritesAuto | sandag_abm/src/main/emme/toolbox/import/import_auto_demand.py:189-191 | whether the import passes or fails, the cache it flushes holds only auto class matrices |
| TrafficImport.FillSlots | sandag_abm/src/main/emme/toolbox/import/import_auto_demand.py:193-196 | blocks writing to distinct new names each leave their own demand, keep the old cache, and add nothing else |
| TrafficImport.ApplyFresh | sandag_abm/src/main/emme/toolbox/import/import_auto_demand.py:193-196 | blocks writing to distinct new names never accumulate: the run stores each demand as it is |
| TrafficImport.TierSlots | sandag_abm/src/main/emme/toolbox/import/import_auto_demand.py:234-303 | the base blocks of a period write 4 per tier, each to its own slot |
| TrafficImport.SlotStep | sandag_abm/src/main/emme/toolbox/import/import_auto_demand.py:234-303 | no two base blocks of a period write the same matrix |
| TrafficImport.TierWrite | sandag_abm/src/main/emme/toolbox/import/import_auto_demand.py:234-303 | every auto class matrix of a period is written by the base block of its slot |
| TrafficImport.TierFresh | sandag_abm/src/main/emme/toolbox/import/import_auto_demand.py:234-303 | the base blocks of a period write twelve distinct auto matrices not yet cached |
| TrafficImport.FreshEffect | sandag_abm/src/main/emme/toolbox/import/import_auto_demand.py:193-196 | fresh writes add exactly their demands to the cache |
| TrafficImport.TierFromFresh | sandag_abm/src/main/emme/toolbox/import/import_auto_demand.py:234-303 | fresh base writes give each auto matrix of the period its base demand |
| TrafficImport.TierEffect | sandag_abm/src/main/emme/toolbox/import/import_auto_demand.py:234-303 | the three tiers of a period leave each of its twelve auto matrices holding its CT-RAMP demand, and change nothing else |
| TrafficImport.HighCacheAdded | sandag_abm/src/main/emme/toolbox/import/import_auto_demand.py:306-364 | the three high targets are distinct, so each gets only its own demand added |
| TrafficImport.ApplyAdd | sandag_abm/src/main/emme/toolbox/import/import_auto_demand.py:193-196 | a write to a cached name adds the new demand to the cached matrix |
| TrafficImport.HighEffect | sandag_abm/src/main/emme/toolbox/import/import_auto_demand.py:305-364 | the high blocks add each target's taxi and fleet demand to what its matrix held, and change nothing else |
| TrafficImport.HighKey | sandag_abm/src/main/emme/toolbox/import/import_auto_demand.py:305-364 | after the high blocks, every auto matrix of the period holds what the import caches for it |
| TrafficImport.TierThenHigh | sandag_abm/src/main/emme/toolbox/import/import_auto_demand.py:233-364 | the tiers, then the high blocks, give the period's auto matrices their demand |
| TrafficImport.PeriodEffect | sandag_abm/src/main/emme/toolbox/import/import_auto_demand.py:233-364 | one period, from a cache without its matrices, gives each of its twelve auto matrices its demand and changes nothing else |
| TrafficImport.PeriodAfter | sandag_abm/src/main/emme/toolbox/import/import_auto_demand.py:233 | the first n − 1 periods, then period n − 1, give the first n periods |
| TrafficImport.TrafficEffect | sandag_abm/src/main/emme/toolbox/import/import_auto_demand.py:231-364 | from an empty cache, the first n periods leave exactly their auto class matrices, each holding its demand |
| TrafficImport.LookupsCached | sandag_abm/src/main/emme/toolbox/import/import_auto_demand.py:231-364 | what the import caches for an auto class matrix is its demand as the sum rules define it |
| TrafficImport.CompleteFrom | sandag_abm/src/main/emme/toolbox/import/import_auto_demand.py:185-191 | flushing a cache holding every auto class matrix's demand gives the databank of the complete import |
| TrafficImport.TrafficComplete | sandag_abm/src/main/emme/toolbox/import/import_auto_demand.py:181-365 | flushing the cache of a complete CT-RAMP import over the databank gives the databank of the complete import |
| TrafficImport.TrafficCacheNames | sandag_abm/src/main/emme/toolbox/import/import_auto_demand.py:198-365 | a complete CT-RAMP import caches exactly the sixty auto class matrices, so its flush succeeds exactly when the databank holds them all |
| CommercialRules.CvmDest | sandag_abm/src/main/emme/toolbox/import/import_auto_demand.py:385-416 | LNT goes to the high SOV_TR matrix and INT, MNT, HNT to the light, medium, heavy truck matrices; each destination belongs to exactly that column |
| CommercialRules.CvmDestInverse | sandag_abm/src/main/emme/toolbox/import/import_auto_demand.py:385-416 | destinations are pairwise distinct: each is the destination of exactly one column |
| CommercialRules.CvmOrig | sandag_abm/src/main/emme/toolbox/import/import_auto_demand.py:385-416 | a column reads its starting array from its own destination exactly when it is LNT (trucks read the _VEH matrices) |
| CommercialRules.Entry | sandag_abm/src/main/emme/toolbox/import/import_auto_demand.py:385-417 | the mapping entry: PCE 1.0, 1.3, 1.5, 2.5; INT uses the medium scale and share; its orig and dest are those of the column |
| CommercialRules.Column | sandag_abm/src/main/emme/toolbox/import/import_auto_demand.py:426 | reading a column succeeds exactly when it exists and has N·N values, and gives its row-major reshape; a missing column and a bad length are distinct errors |
| CommercialRules.Scaled | sandag_abm/src/main/emme/toolbox/import/import_auto_demand.py:428-430 | scaled trips are raw trips divided by the scale factor and multiplied by the class scale, cell by cell |
| CommercialRules.Columns | sandag_abm/src/main/emme/toolbox/import/import_auto_demand.py:424-426 | the loaded columns are exactly the readable ones, each reshaped |
| CommercialRules.FirstFailurePass | sandag_abm/src/main/emme/toolbox/import/import_auto_demand.py:419-420 | a loop over the mapping completes exactly when no column raises |
| CommercialRules.FirstFailure | sandag_abm/src/main/emme/toolbox/import/import_auto_demand.py:418-455 | a loop over the mapping, columns checked in the visiting order, raises only what the check of one of its columns gives |
| CommercialRules.FirstFailureOfKey | sandag_abm/src/main/emme/toolbox/import/import_auto_demand.py:418-455 | a loop over the mapping that raises raises the error of one of its columns, found by its position in the visiting order |
| CommercialRules.FirstFailureStops | sandag_abm/src/main/emme/toolbox/import/import_auto_demand.py:419-420 | once a column has raised, later columns are not visited |
| CommercialRules.FirstFailureNext | sandag_abm/src/main/emme/toolbox/import/import_auto_demand.py:419-420 | after columns that passed, the next column's check decides the loop |
| CommercialRules.CvmOutcomeReady | sandag_abm/src/main/emme/toolbox/import/import_auto_demand.py:367-456 | the commercial-vehicle import completes exactly when the scale lists cover five periods and every orig matrix, column and destination is there, in any visiting order |
| CommercialRules.CvmOutcome | sandag_abm/src/main/emme/toolbox/import/import_auto_demand.py:367-456 | the commercial-vehicle import raises only the scale-list error or what the load, read or save check gives one of the columns |
| CommercialRules.ScaledColumn | sandag_abm/src/main/emme/toolbox/import/import_auto_demand.py:426-430 | the scaled trips of a column are a zones by zones array; `PersistedBlended` states their cells |
| CommercialRules.OwnBlend | sandag_abm/src/main/emme/toolbox/import/import_auto_demand.py:433 | start plus kept share is a zones by zones array; `OwnBlendCell` states its cells |
| CommercialRules.Redistribute | sandag_abm/src/main/emme/toolbox/import/import_auto_demand.py:436-447 | the light-truck array after the donors is a zones by zones array; `RedistributeCells` states its cells |
| CommercialRules.RedistributeCells | sandag_abm/src/main/emme/toolbox/import/import_auto_demand.py:443-447 | the share ≠ 0 test changes nothing over the reals: the redistribution adds every donor's share unguarded |
| CommercialRules.AllDonors | sandag_abm/src/main/emme/toolbox/import/import_auto_demand.py:438-447 | the donors are LNT, MNT and HNT, once each |
| CommercialRules.Blended | sandag_abm/src/main/emme/toolbox/import/import_auto_demand.py:422-447 | the blended array of a column is a zones by zones array; `BlendedCells` states its cells |
| CommercialRules.BlendedCells | sandag_abm/src/main/emme/toolbox/import/import_auto_demand.py:422-447 | a blended cell is start + scaled·(1 − share), and for INT only, plus the L, M and H shares passed on |
| CommercialRules.OwnBlendCell | sandag_abm/src/main/emme/toolbox/import/import_auto_demand.py:433 | the own blend at a cell is start + scaled·(1 − share) |
| CommercialRules.Persisted | sandag_abm/src/main/emme/toolbox/import/import_auto_demand.py:448-455 | what is saved for a column is a zones by zones array; `PersistedBlended` states its cells |
| CommercialRules.CvmResult | sandag_abm/src/main/emme/toolbox/import/import_auto_demand.py:367-456 | the databank after the commercial-vehicle import has the same matrices, all zones by zones; each destination holds its `Persisted` array, every other matrix is unchanged |
| CommercialRules.ColumnsLoaded | sandag_abm/src/main/emme/toolbox/import/import_auto_demand.py:425-426 | if every column of the visiting order reads, all twenty columns of every period are loaded |
| CommercialRules.SavedIsResult | sandag_abm/src/main/emme/toolbox/import/import_auto_demand.py:418-456 | the arrays the three phases compute, saved, give the result of the import whatever the visiting order |
| CommercialRules.ColumnCells | sandag_abm/src/main/emme/toolbox/import/import_auto_demand.py:426 | a loaded column is read row-major |
| CommercialRules.PersistedBlended | sandag_abm/src/main/emme/toolbox/import/import_auto_demand.py:426-455 | a saved cell is PCE × blended cell, and its scaled trips are the raw column cell / scale factor × scale |
| CommercialRules.ShareConservation | sandag_abm/src/main/emme/toolbox/import/import_auto_demand.py:433-447 | the gains of the LNT, MNT and HNT arrays, plus what the INT array gains beyond its kept share, sum to the L, M and H scaled trips: their shares move to the light trucks |
| CommercialRules.ShareBalance | sandag_abm/src/main/emme/toolbox/import/import_auto_demand.py:394-447 | the four arrays of a period together gain the L, M and H scaled trips and only (1 − share_medium) of the INT trips: INT takes the medium share at :399, keeps 1 − share at :433, and the share it gives up goes to no array |
| CommercialRules.KeptAndPassed | sandag_abm/src/main/emme/toolbox/import/import_auto_demand.py:433-447 | the kept and passed parts of a class make up all its scaled trips |
| CommercialRules.GainCell | sandag_abm/src/main/emme/toolbox/import/import_auto_demand.py:433-447 | what a class's array gains at a cell: kept share, plus for INT the shares passed on |
| CommercialRules.KeptLightTrucks | sandag_abm/src/main/emme/toolbox/import/import_auto_demand.py:433 | the light-truck class keeps 1 − share_medium of its own scaled trips |
| CommercialRules.SavedNext | sandag_abm/src/main/emme/toolbox/import/import_auto_demand.py:450-456 | saving one column keeps the columns saved before it, since destinations are distinct |
| CommercialRules.DestsNext | sandag_abm/src/main/emme/toolbox/import/import_auto_demand.py:448-455 | the destinations of the first n + 1 columns are those of the first n plus the next one |
| CommercialRules.SavedBeforeNext | sandag_abm/src/main/emme/toolbox/import/import_auto_demand.py:448-455 | saving the next column extends the saved prefix: the columns before it stay saved and the matrices that are no destination of the prefix stay as they were |
| CommercialRules.UntouchedNext | sandag_abm/src/main/emme/toolbox/import/import_auto_demand.py:448-455 | saving the next column leaves alone every matrix that is no destination of the columns saved so far |
| CommercialRules.SavedAll | sandag_abm/src/main/emme/toolbox/import/import_auto_demand.py:448-455 | a save phase that got through every column saved each of them and left every matrix that is no commercial-vehicle destination as it was |
| CommercialRules.ArrayPersisted | sandag_abm/src/main/emme/toolbox/import/import_auto_demand.py:419-455 | the array the load, blend and share phases compute for a column, times its PCE, is its `Persisted` demand |
| CommercialRules.SaveStopped | sandag_abm/src/main/emme/toolbox/import/import_auto_demand.py:448-455 | a save phase stopped at a column leaves the destinations of the columns before it with their `Persisted` demand and every other matrix as it was |
| CommercialRules.Persist | sandag_abm/src/main/emme/toolbox/import/import_auto_demand.py:448-456 | saving writes the destination only and leaves every other matrix |
| CommercialRules.PersistFresh | sandag_abm/src/main/emme/toolbox/import/import_auto_demand.py:453-455 | a destination not yet written in this phase is overwritten |
| CommercialRules.PersistAliasSums | sandag_abm/src/main/emme/toolbox/import/import_auto_demand.py:453-456 | two arrays saved to one destination in the phase add up, in either order |
| AggregateRules.SecondEiMode | sandag_abm/src/main/emme/toolbox/import/import_auto_demand.py:479-485 | a target's toll mode comes right after its general-purpose mode |
| AggregateRules.EiTarget | sandag_abm/src/main/emme/toolbox/import/import_auto_demand.py:480-492 | `modes_assign` sends each mode to SOV_TR, HOV2 or HOV3 of the same period and tier, as one of that target's two modes |
| AggregateRules.EiModesOfTarget | sandag_abm/src/main/emme/toolbox/import/import_auto_demand.py:480-485 | each target receives exactly its two modes |
| AggregateRules.EiPosAt | sandag_abm/src/main/emme/toolbox/import/import_auto_demand.py:486-488 | the loops visit period, mode, tier in nested order |
| AggregateRules.EiPosInjective | sandag_abm/src/main/emme/toolbox/import/import_auto_demand.py:486-488 | no calculation of the pass is visited twice |
| AggregateRules.EiCheck | sandag_abm/src/main/emme/toolbox/import/import_auto_demand.py:492-495 | a calculation fails exactly when a matrix it reads is missing, naming the target, EIWORK or EINONWORK matrix |
| AggregateRules.EiUpdate | sandag_abm/src/main/emme/toolbox/import/import_auto_demand.py:493-495 | the expression result is a zones by zones array; `EiStepCells` states its cells |
| AggregateRules.EiStep | sandag_abm/src/main/emme/toolbox/import/import_auto_demand.py:492-495 | one calculation keeps its target a zones by zones array; `EiStepCells` states its cells |
| AggregateRules.EiStepCells | sandag_abm/src/main/emme/toolbox/import/import_auto_demand.py:492-495 | a calculation adds a third of the mode's work plus non-work trips to every cell of its target |
| AggregateRules.EiAt | sandag_abm/src/main/emme/toolbox/import/import_auto_demand.py:486-495 | a matrix midway through the pass is a zones by zones array; `EiAtTarget` and `EiAtOther` state how each calculation moves it |
| AggregateRules.EiResult | sandag_abm/src/main/emme/toolbox/import/import_auto_demand.py:478-495 | the pass keeps every matrix name and every matrix zones by zones; `EiResultCells` states its cells |
| AggregateRules.EiDoneZones | sandag_abm/src/main/emme/toolbox/import/import_auto_demand.py:486-495 | midway through the pass every matrix is still zones by zones |
| AggregateRules.EiDoneStart | sandag_abm/src/main/emme/toolbox/import/import_auto_demand.py:478 | before the pass nothing has changed |
| AggregateRules.EiReadyNext | sandag_abm/src/main/emme/toolbox/import/import_auto_demand.py:486-495 | a calculation that finds its matrices extends the run that did |
| AggregateRules.EiDoneFrame | sandag_abm/src/main/emme/toolbox/import/import_auto_demand.py:486-495 | midway through the pass, the aggregate matrices a calculation reads are as they were at the start |
| AggregateRules.EiDoneNext | sandag_abm/src/main/emme/toolbox/import/import_auto_demand.py:486-495 | one calculation on its target takes the pass one position further |
| AggregateRules.EiValuesNext | sandag_abm/src/main/emme/toolbox/import/import_auto_demand.py:486-495 | one calculation changes only its target, as the pass prescribes |
| AggregateRules.EiKeyNext | sandag_abm/src/main/emme/toolbox/import/import_auto_demand.py:486-495 | each matrix goes one position further: the target is updated, the others stay |
| AggregateRules.EiAtTarget | sandag_abm/src/main/emme/toolbox/import/import_auto_demand.py:486-495 | the calculation at a position is the next its target undergoes |
| AggregateRules.EiAtOther | sandag_abm/src/main/emme/toolbox/import/import_auto_demand.py:486-495 | a calculation leaves every matrix but its target as it was |
| AggregateRules.EiRunStep | sandag_abm/src/main/emme/toolbox/import/import_auto_demand.py:492-495 | the calculation run on the databank as it stands is the pass's next step |
| AggregateRules.EiUpdateZones | sandag_abm/src/main/emme/toolbox/import/import_auto_demand.py:492-495 | a calculation keeps the databank zones by zones |
| AggregateRules.EiMissing | sandag_abm/src/main/emme/toolbox/import/import_auto_demand.py:492-495 | a matrix missing midway was missing at the start: the pass stops there |
| AggregateRules.EiDoneAll | sandag_abm/src/main/emme/toolbox/import/import_auto_demand.py:478-495 | after all 90 calculations the databank is the pass's result and every matrix was there |
| AggregateRules.EiStoppedNotReady | sandag_abm/src/main/emme/toolbox/import/import_auto_demand.py:478-495 | a pass that stops is one whose matrices were not all there |
| AggregateRules.EiResultCells | sandag_abm/src/main/emme/toolbox/import/import_auto_demand.py:489-495 | each SOV_TR, HOV2, HOV3 cell gains a third of work and non-work trips of both its modes; every other matrix, SOV_NT included, is unchanged |
| AggregateRules.EiResultTarget | sandag_abm/src/main/emme/toolbox/import/import_auto_demand.py:486-495 | a target undergoes the calculations of both its modes, in order |
| AggregateRules.EiSplitConserves | sandag_abm/src/main/emme/toolbox/import/import_auto_demand.py:489 | the three tiers together receive all external-internal trips of the target's two modes |
| AggregateRules.EeTarget | sandag_abm/src/main/emme/toolbox/import/import_auto_demand.py:502-517 | SOV goes to SOV_NT, HOV2 to HOV2, HOV3 to HOV3, of the same period and tier |
| AggregateRules.EePosAt | sandag_abm/src/main/emme/toolbox/import/import_auto_demand.py:503-505 | the loops visit period, mode, tier in nested order |
| AggregateRules.EePosInjective | sandag_abm/src/main/emme/toolbox/import/import_auto_demand.py:503-505 | no calculation of the pass is visited twice |
| AggregateRules.EeCheck | sandag_abm/src/main/emme/toolbox/import/import_auto_demand.py:508-517 | a calculation fails exactly when its target or EETRIPS matrix is missing, naming it |
| AggregateRules.EeUpdate | sandag_abm/src/main/emme/toolbox/import/import_auto_demand.py:508-517 | the constrained expression result is a zones by zones array; `EeResultCells` states its cells |
| AggregateRules.EeAt | sandag_abm/src/main/emme/toolbox/import/import_auto_demand.py:501-517 | a matrix midway through the pass is a zones by zones array; `EeKeyNext` states how each calculation moves it |
| AggregateRules.EeResult | sandag_abm/src/main/emme/toolbox/import/import_auto_demand.py:501-517 | the pass keeps every matrix name and every matrix zones by zones; `EeResultCells` states its cells |
| AggregateRules.EeDoneZones | sandag_abm/src/main/emme/toolbox/import/import_auto_demand.py:503-517 | midway through the pass every matrix is still zones by zones |
| AggregateRules.EeDoneStart | sandag_abm/src/main/emme/toolbox/import/import_auto_demand.py:501 | before the pass nothing has changed |
| AggregateRules.EeReadyNext | sandag_abm/src/main/emme/toolbox/import/import_auto_demand.py:503-517 | a calculation that finds its matrices extends the run that did |
| AggregateRules.EeDoneFrame | sandag_abm/src/main/emme/toolbox/import/import_auto_demand.py:503-517 | midway through the pass, a calculation's target and EETRIPS matrix are as at the start |
| AggregateRules.EeDoneNext | sandag_abm/src/main/emme/toolbox/import/import_auto_demand.py:503-517 | one calculation on its target takes the pass one position further |
| AggregateRules.EeValuesNext | sandag_abm/src/main/emme/toolbox/import/import_auto_demand.py:503-517 | one calculation changes only its target |
| AggregateRules.EeKeyNext | sandag_abm/src/main/emme/toolbox/import/import_auto_demand.py:503-517 | each matrix goes one position further: the target is updated, the others stay |
| AggregateRules.EeRunStep | sandag_abm/src/main/emme/toolbox/import/import_auto_demand.py:508-517 | the calculation run on the databank as it stands is the pass's next step |
| AggregateRules.EeMissing | sandag_abm/src/main/emme/toolbox/import/import_auto_demand.py:508-517 | a matrix missing midway was missing at the start: the pass stops there |
| AggregateRules.EeDoneAll | sandag_abm/src/main/emme/toolbox/import/import_auto_demand.py:501-517 | after all 45 calculations the databank is the pass's result and every matrix was there |
| AggregateRules.EeResultCells | sandag_abm/src/main/emme/toolbox/import/import_auto_demand.py:506-517 | an SOV_NT, HOV2 or HOV3 cell gains a third of its mode's EETRIPS only when both zones are external; every other cell and matrix is unchanged |
| AggregateRules.EeResultTarget | sandag_abm/src/main/emme/toolbox/import/import_auto_demand.py:503-517 | a target undergoes the calculation of its one mode |
| AggregateRules.EeStoppedNotReady | sandag_abm/src/main/emme/toolbox/import/import_auto_demand.py:501-517 | a pass that stops is one whose matrices were not all there |
| AggregateRules.AggregateResult | sandag_abm/src/main/emme/toolbox/import/import_auto_demand.py:471-517 | both passes keep every matrix name and every matrix zones by zones; `AggregateHovCells` states the HOV cells |
| AggregateRules.EeReadyAfterEi | sandag_abm/src/main/emme/toolbox/import/import_auto_demand.py:478-517 | the external-internal pass neither adds nor removes a matrix, so the second pass is ready after it exactly when it was before |
| AggregateRules.AggregateInputsUnchanged | sandag_abm/src/main/emme/toolbox/import/import_auto_demand.py:471-517 | the EIWORK, EINONWORK and EETRIPS matrices are read, never written |
| AggregateRules.AggregateHovCells | sandag_abm/src/main/emme/toolbox/import/import_auto_demand.py:478-517 | an HOV cell gains a third of both modes' external-internal trips, plus a third of external-external trips when both zones are external |
| ImportAutoDemand.ImportMatrices.constructor | sandag_abm/src/main/emme/toolbox/import/import_auto_demand.py:181-184 | the tool starts on a databank of zone arrays with an empty cache |
| ImportAutoDemand.ImportMatrices.SetData | sandag_abm/src/main/emme/toolbox/import/import_auto_demand.py:193-196 | `set_data` leaves the cache as `Accumulate` says: sum if present, store if new, others untouched |
| ImportAutoDemand.ImportMatrices.Flush | sandag_abm/src/main/emme/toolbox/import/import_auto_demand.py:188-191 | the cached matrices are written in turn; the flush completes exactly when every cached name is in the databank, and then each cached matrix is written over its databank matrix; otherwise it raises `MissingMatrix` on a cached name the databank lacks, and each matrix holds its old contents or the cached matrix written before the raise |
| ImportAutoDemand.FlushStopped | sandag_abm/src/main/emme/toolbox/import/import_auto_demand.py:184-191 | a flush that raised did so on a name still missing from the databank, so it raises only when the cache holds a name the databank lacks |
| ImportAutoDemand.ImportMatrices.ImportSteps | sandag_abm/src/main/emme/toolbox/import/import_auto_demand.py:231-364 | the loop over blocks leaves outcome and cache exactly as the run of those blocks does |
| ImportAutoDemand.ImportMatrices.ImportTier | sandag_abm/src/main/emme/toolbox/import/import_auto_demand.py:234-303 | one tier takes the import one tier further; a failure ends the period |
| ImportAutoDemand.ImportMatrices.ImportTiers | sandag_abm/src/main/emme/toolbox/import/import_auto_demand.py:234-303 | the tier loop completes the tiers of the period or stops the import |
| ImportAutoDemand.ImportMatrices.ImportPeriod | sandag_abm/src/main/emme/toolbox/import/import_auto_demand.py:233-364 | one period takes the import one period further |
| ImportAutoDemand.ImportMatrices.ImportHigh | sandag_abm/src/main/emme/toolbox/import/import_auto_demand.py:305-364 | the high-target loop completes the period |
| ImportAutoDemand.ImportMatrices.ImportPeriods | sandag_abm/src/main/emme/toolbox/import/import_auto_demand.py:233-364 | the period loop, from an empty cache, is the whole run of the import |
| ImportAutoDemand.ImportMatrices.ImportTrafficTrips | sandag_abm/src/main/emme/toolbox/import/import_auto_demand.py:181-365 | a zero passengers-per-vehicle raises before anything changes; otherwise the cache is what the import run leaves, and it is flushed over the databank also on failure; when the databank lacks a cached name, the flush error replaces the import outcome |
| ImportAutoDemand.ImportMatrices.LoadStarts | sandag_abm/src/main/emme/toolbox/import/import_auto_demand.py:418-420 | loading fails at the first column whose orig matrix is missing; otherwise every start is its orig matrix |
| ImportAutoDemand.ImportMatrices.BlendColumns | sandag_abm/src/main/emme/toolbox/import/import_auto_demand.py:422-433 | reading fails at the first unreadable column; otherwise every array is its own blend |
| ImportAutoDemand.ImportMatrices.BlendColumn | sandag_abm/src/main/emme/toolbox/import/import_auto_demand.py:425-433 | one column is read or fails as `Column` says, and blended |
| ImportAutoDemand.ImportMatrices.AddDonors | sandag_abm/src/main/emme/toolbox/import/import_auto_demand.py:440-447 | the donor loop gives the light-truck array with the three donors' shares added |
| ImportAutoDemand.ImportMatrices.RedistributeShares | sandag_abm/src/main/emme/toolbox/import/import_auto_demand.py:436-447 | every INT array receives its period's shares, every other array is unchanged |
| ImportAutoDemand.ImportMatrices.SaveArrays | sandag_abm/src/main/emme/toolbox/import/import_auto_demand.py:448-456 | saving fails at the first missing destination, with the columns before it saved as PCE × array and every other matrix unchanged; otherwise every destination holds PCE × its array; non-destinations never change |
| ImportAutoDemand.ImportMatrices.ImportCommercialVehicleDemand | sandag_abm/src/main/emme/toolbox/import/import_auto_demand.py:367-456 | the import completes exactly when everything it reads and writes is there, and then leaves the databank the commercial-vehicle result, in any visiting order; failures before saving change nothing; a failure while saving leaves the destinations of the columns saved before it with their PCE demand and the rest unchanged |
| ImportAutoDemand.ImportMatrices.AddEiSpec | sandag_abm/src/main/emme/toolbox/import/import_auto_demand.py:489-495 | one calculation takes the pass one position further, or, on a matrix missing from the start, raises leaving the databank as the calculations before it left it |
| ImportAutoDemand.ImportMatrices.RunEiSpec | sandag_abm/src/main/emme/toolbox/import/import_auto_demand.py:492-495 | a calculation whose matrices are there takes the pass one position further |
| ImportAutoDemand.ImportMatrices.AddEiTiers | sandag_abm/src/main/emme/toolbox/import/import_auto_demand.py:488-495 | the tier loop takes the pass three positions further, or stops it |
| ImportAutoDemand.ImportMatrices.AddEiModes | sandag_abm/src/main/emme/toolbox/import/import_auto_demand.py:487-495 | the mode loop takes the pass eighteen positions further, or stops it |
| ImportAutoDemand.ImportMatrices.AddExternalInternal | sandag_abm/src/main/emme/toolbox/import/import_auto_demand.py:478-495 | the pass completes exactly when its matrices are all there, and then leaves the external-internal result; a failure names a matrix missing from the start |
| ImportAutoDemand.ImportMatrices.AddEeSpec | sandag_abm/src/main/emme/toolbox/import/import_auto_demand.py:508-517 | one calculation takes the pass one position further, or, on a matrix missing from the start, raises leaving the databank as the calculations before it left it |
| ImportAutoDemand.ImportMatrices.AddEeTiers | sandag_abm/src/main/emme/toolbox/import/import_auto_demand.py:505-517 | the tier loop takes the pass three positions further, or stops it |
| ImportAutoDemand.ImportMatrices.AddEeModes | sandag_abm/src/main/emme/toolbox/import/import_auto_demand.py:504-517 | the mode loop takes the pass nine positions further, or stops it |
| ImportAutoDemand.ImportMatrices.AddExternalExternal | sandag_abm/src/main/emme/toolbox/import/import_auto_demand.py:497-517 | the pass completes exactly when its matrices are all there, and then leaves the external-external result |
| ImportAutoDemand.ImportMatrices.AddAggregateDemand | sandag_abm/src/main/emme/toolbox/import/import_auto_demand.py:471-517 | both passes complete exactly when both are ready on the starting databank, and then leave the aggregate result; a failure names a matrix missing from the start and leaves either the stopped external-internal pass, or the external-internal result followed by the stopped external-external pass |
| ImportAutoDemand.ImportMatrices.Run | sandag_abm/src/main/emme/toolbox/import/import_auto_demand.py:159-179 | the tool completes exactly when everything its three steps read and write is there, and then leaves the three results composed; a zero taxi occupancy changes nothing |
| ImportAutoDemand.RunReady | sandag_abm/src/main/emme/toolbox/import/import_auto_demand.py:159-179 | when everything the tool reads and writes is there, the taxi occupancy is not zero, the CT-RAMP import passes and its flush finds every matrix it cached in the databank |
| ImportAutoDemand.RunResult | sandag_abm/src/main/emme/toolbox/import/import_auto_demand.py:176-179 | the three steps keep every matrix name of the databank; the value is `TrafficResult`, then `CvmResult`, then `AggregateResult` |
| ShadowPricing.DigitChar | sandag_rsm/utility.py:25 | every digit value 0-9 has a `\d` character with that value |
| ShadowPricing.Numeral | sandag_rsm/utility.py:26 | the decimal numeral of a number is a non-empty run of digits without a leading zero |
| ShadowPricing.NumeralValue | sandag_rsm/utility.py:26 | `int` of the numeral of n is n |
| ShadowPricing.LeadingZero | sandag_rsm/utility.py:26 | leading zeros do not change the value ("007" is 7) |
| ShadowPricing.DecimalValue | sandag_rsm/utility.py:26 | `int` of a run of digits is zero exactly when every digit is 0 |
| ShadowPricing.FirstDigit | sandag_rsm/utility.py:25 | the position of the first digit, with no digit before it |
| ShadowPricing.DigitRun | sandag_rsm/utility.py:25 | the length of the maximal digit run at the front |
| ShadowPricing.DigitRuns | sandag_rsm/utility.py:25 | every match of `\d+` is a non-empty run of digits |
| ShadowPricing.ExtractNumberInFilename | sandag_rsm/utility.py:20-26 | the key's second part is the name unchanged, and the number is at least −1 |
| ShadowPricing.FirstRun | sandag_rsm/utility.py:25-26 | `findall` finds a run exactly when there is a digit, and its first match is the maximal run at the first digit |
| ShadowPricing.FirstDigitAt | sandag_rsm/utility.py:25 | a digit with no digit before it is the first digit |
| ShadowPricing.DigitRunAt | sandag_rsm/utility.py:25 | digits up to a non-digit or the end are the maximal run |
| ShadowPricing.NumberIsFirstRun | sandag_rsm/utility.py:25-26 | the number is the decimal value of the leftmost maximal digit run; later runs are ignored |
| ShadowPricing.NoNumber | sandag_rsm/utility.py:25-26 | the number is −1 exactly when the name has no digit |
| ShadowPricing.IterationRoundTrip | sandag_rsm/utility.py:20-26 | a name made of a digit-free prefix, the numeral of n and a suffix not starting with a digit gives back (n, name) |
| ShadowPricing.Basename | sandag_rsm/utility.py:36-37 | the last path component has no '/', ends the path, and is preceded by '/' when shorter than the path |
| ShadowPricing.BasenameSnoc | sandag_rsm/utility.py:36-37 | a trailing '/' empties the last component; any other character extends it |
| ShadowPricing.BasenameOfJoin | sandag_rsm/utility.py:33-37 | stripping the folder from `folder/name` gives back the name when it has no '/' |
| ShadowPricing.BasenameOfName | sandag_rsm/utility.py:36-37 | a name without '/' is its own last component |
| ShadowPricing.BasenameIdempotent | sandag_rsm/utility.py:36-37 | stripping twice is stripping once |
| ShadowPricing.StrLessIrreflexive | sandag_rsm/utility.py:39-40 | no name is less than itself under Python string order |
| ShadowPricing.StrLessTransitive | sandag_rsm/utility.py:39-40 | Python string order is transitive |
| ShadowPricing.StrLessTotal | sandag_rsm/utility.py:39-40 | any two distinct names are ordered one way |
| ShadowPricing.StrLess | sandag_rsm/utility.py:39-40 | under Python string order a proper prefix comes before the longer name |
| ShadowPricing.KeyLessTransitive | sandag_rsm/utility.py:39-40 | the (number, name) tuple order is transitive |
| ShadowPricing.KeyLessTotal | sandag_rsm/utility.py:39-40 | distinct names have ordered keys, so ties go to the larger name |
| ShadowPricing.KeyLessIrreflexive | sandag_rsm/utility.py:39-40 | no key is less than itself |
| ShadowPricing.KeyLess | sandag_rsm/utility.py:39-40 | in the (number, name) tuple order a greater iteration number always wins; the name only breaks a tie |
| ShadowPricing.Key | sandag_rsm/utility.py:39-40 | the key `max` compares a file by is (number, name), the number −1 exactly when the name has no digit |
| ShadowPricing.MaxByKey | sandag_rsm/utility.py:39-40 | `max` fails exactly on an empty list, and otherwise returns one of the files |
| ShadowPricing.MaxFrom | sandag_rsm/utility.py:39-40 | the scan `max` makes ends on one of the files it was given |
| ShadowPricing.MaxFromGreatest | sandag_rsm/utility.py:39-40 | the left-to-right scan ends on a member no member's key beats |
| ShadowPricing.GreatestUnique | sandag_rsm/utility.py:39-40 | at most one member has the greatest key |
| ShadowPricing.MaxByKeyGreatest | sandag_rsm/utility.py:39-40 | for a non-empty list `max` returns a member whose key is ≥ every member's: the highest iteration wins |
| ShadowPricing.MaxByKeyOrderFree | sandag_rsm/utility.py:39-40 | the pick does not depend on the order the folder listing returns |
| ShadowPricing.ShadowPricingPicks | sandag_rsm/utility.py:29-42 | both picks succeed exactly when both listings are non-empty, and each is the stripped name with the greatest key in its listing |
| ShadowPricing.GetShadowPricingFiles | sandag_rsm/utility.py:29-42 | both picks succeed exactly when both listings have a file, and each pick is a stripped name from its own listing |

## Left out

- `ImportMatrices.page`, `run` and `tool_run_msg`, the Emme tool plumbing (import_auto_demand.py:80-157): user interface and host environment.
- Logbook tracing, `log_snapshot` and `demand_report`: reporting side effects with no effect on the matrices.
- Loading `sandag_abm.properties`, reading the OMX files, reading `TripMatrices.csv` and the Emme databank I/O: foreign I/O. The properties are the parameters `TrafficParams` and `CvmParams`. The OMX files are the value `OmxFiles`. The CSV table is a map from column to values. The databank is the `store` field.
- `MatrixCalculator` internals (its expression syntax, the parsing of the external-zone range string, `num_processors`): library code that is not part of this model. Only the effect of each calculation is modelled, with the external zones as a set of zone indices.
- `convert_light_trucks_to_pce`: its call is commented out at import_auto_demand.py:178, so it never runs.
- The TNC single and shared shares and passengers per vehicle (import_auto_demand.py:207-214): they are read but never used.
- Floating-point rounding, including the representation of 1.0/3.0: matrices hold `real`s.
- Python 2 integer division: the properties and the CSV values are taken as floats. The source has no `from __future__ import division`, so `taxi_*_share / taxi_pce` (import_auto_demand.py:221-227) and `cvm_array / scale_factor` (:428, :445) would floor if both operands were integers. The model divides reals.
- The zone count 4996 in the reshape is the parameter `zones`.
- Python dict iteration order over the CVM mapping is the parameter `order`: any sequence visiting the twenty columns once each. The contracts hold for every such order.
- ImportAutoDemand.ImportMatrices.ImportCommercialVehicleDemand: requires `cvm.scale_factor` to be non-zero. The source would divide by zero and produce infinities, which `real` cannot express.
- ImportAutoDemand.ImportMatrices.Run: requires the CVM scale factor to be non-zero. Its outcome is stated for the whole tool, and its databank only when every step completes or the taxi occupancy is zero; the databank a failing step leaves is stated by that step's own method.
- ImportAutoDemand.ImportMatrices.SaveArrays: the arrays are written into a local copy of the databank, which is then assigned to `store`. The twenty destinations are distinct, so no write aliases another.
- ImportAutoDemand.ImportMatrices.AddEiSpec: a failure is stated as a matrix missing from the start at a calculation reached in order. Which of the three matrices is named is stated by `AggregateRules.EiCheck`, not in this method's contract.
- ImportAutoDemand.ImportMatrices.AddEeSpec: likewise; `AggregateRules.EeCheck` states which of the two matrices is named.
- ImportAutoDemand.ImportMatrices.AddExternalInternal, ImportAutoDemand.ImportMatrices.AddExternalExternal and ImportAutoDemand.ImportMatrices.AddAggregateDemand: each `matrix_calc.add` is taken to apply its calculation at once, and a calculation on a missing matrix to raise with the calculations before it applied. The calculator sits inside `trace_run` blocks (import_auto_demand.py:478, 501) and is not part of this model. If it ran the calculations as one batch when the block exits, a failed pass would apply none of them.
- `ReplacementOfString`, `copy_file` and the `modify_sandag_properties_*` functions (utility.py:6-17, 45-93): regular-expression substitution and file I/O outside the selection logic.
- `glob.glob` in `get_shadow_pricing_files`: the work and school listings are inputs.
- `\d` matches ASCII digits only here; Python 3 `re` also matches other Unicode decimal digits.
- Paths use '/' as the only separator, as `os.path.split` does on POSIX.
