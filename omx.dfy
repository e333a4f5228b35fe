/** The CT-RAMP trip files as the importer sees them through its OMX manager:
    which files exist, and the matrix stored under each (file, field). */
module Omx {
  import opened Outcomes
  import opened Matrices
  import opened Keys

  datatype OmxFiles = OmxFiles(zones: nat, present: set<SourceFile>, tables: map<(SourceFile, Field), Matrix>) {

    /** Every stored matrix belongs to the scenario's zone system. */
    predicate Valid() {
      forall key | key in tables :: IsZoneMatrix(tables[key], zones)
    }

    /** `file_exists`: the file is there. */
    predicate Exists(file: SourceFile) {
      file in present
    }

    /** The file is there and holds the field. */
    predicate Has(file: SourceFile, field: Field) {
      file in present && (file, field) in tables
    }

    function Table(file: SourceFile, field: Field): (m: Matrix)
      requires Valid() && Has(file, field)
      ensures IsZoneMatrix(m, zones)
    {
      tables[(file, field)]
    }

    /** `lookup`: the field's matrix, or an error naming what is missing. */
    function Lookup(file: SourceFile, field: Field): (r: Result<Matrix, Error>)
      requires Valid()
      ensures r.Ok? <==> Has(file, field)
      ensures r.Ok? ==> r.value == Table(file, field) && IsZoneMatrix(r.value, zones)
      ensures r.Err? ==> r.error == MissingSource(file, field)
    {
      if Has(file, field) then Ok(tables[(file, field)]) else Err(MissingSource(file, field))
    }
  }
}
