/** Dense origin-destination demand matrices and the array arithmetic the importer uses on them. */
module Matrices {

  /** Row i holds the trips from origin zone i; column j the trips to destination zone j. */
  type Matrix = seq<seq<real>>

  /** Every row is as long as there are rows. */
  predicate Square(m: Matrix) {
    forall i | 0 <= i < |m| :: |m[i]| == |m|
  }

  /** A full matrix of a zone system with `zones` zones. */
  predicate IsZoneMatrix(m: Matrix, zones: nat) {
    |m| == zones && Square(m)
  }

  /** A store of matrices, all of one zone system. */
  predicate AllZoneMatrices<K>(store: map<K, Matrix>, zones: nat) {
    forall k | k in store :: IsZoneMatrix(store[k], zones)
  }

  /** Two square matrices of one size hold the same number in every cell. */
  predicate SameCells(a: Matrix, b: Matrix) {
    && Square(a) && Square(b) && |a| == |b|
    && forall i, j | 0 <= i < |a| && 0 <= j < |a| :: a[i][j] == b[i][j]
  }

  /** Cell (i, j) of `m`, zero where `m` has no such cell. */
  function Cell(m: Matrix, i: int, j: int): real {
    if 0 <= i < |m| && 0 <= j < |m[i]| then m[i][j] else 0.0
  }

  /** Element-wise sum, the `+` of two arrays of one shape. It is total: the result has the shape
      of `a`, and a cell missing from either side counts as zero, which never happens to the
      matrices of one zone system. */
  function Add(a: Matrix, b: Matrix): (c: Matrix)
    ensures IsZoneMatrix(c, |a|)
    ensures Square(a) && Square(b) && |a| == |b| ==>
      forall i, j | 0 <= i < |a| && 0 <= j < |a| :: c[i][j] == a[i][j] + b[i][j]
  {
    seq(|a|, i requires 0 <= i < |a| => seq(|a|, j requires 0 <= j < |a| => Cell(a, i, j) + Cell(b, i, j)))
  }

  /** Every cell multiplied by the scalar `s`. */
  function Scale(a: Matrix, s: real): (c: Matrix)
    requires Square(a)
    ensures IsZoneMatrix(c, |a|)
    ensures forall i, j | 0 <= i < |a| && 0 <= j < |a| :: c[i][j] == a[i][j] * s
  {
    seq(|a|, i requires 0 <= i < |a| => seq(|a|, j requires 0 <= j < |a| => a[i][j] * s))
  }

  /** Every cell divided by the non-zero scalar `d`. */
  function Divide(a: Matrix, d: real): (c: Matrix)
    requires Square(a) && d != 0.0
    ensures IsZoneMatrix(c, |a|)
    ensures forall i, j | 0 <= i < |a| && 0 <= j < |a| :: c[i][j] == a[i][j] / d
  {
    seq(|a|, i requires 0 <= i < |a| => seq(|a|, j requires 0 <= j < |a| => a[i][j] / d))
  }

  /** `m + t` computed only on the cells whose origin and destination both lie in `zones`;
      every other cell keeps its value (a matrix calculation constrained by origins and destinations). */
  function MaskedAdd(m: Matrix, t: Matrix, zones: set<int>): (c: Matrix)
    requires Square(m) && Square(t) && |m| == |t|
    ensures IsZoneMatrix(c, |m|)
    ensures forall i, j | 0 <= i < |m| && 0 <= j < |m| ::
      c[i][j] == if i in zones && j in zones then m[i][j] + t[i][j] else m[i][j]
  {
    seq(|m|, i requires 0 <= i < |m| =>
      seq(|m|, j requires 0 <= j < |m| => if i in zones && j in zones then m[i][j] + t[i][j] else m[i][j]))
  }

  /** Square matrices of one size that agree cell by cell are equal. */
  lemma CellsDetermine(a: Matrix, b: Matrix)
    requires SameCells(a, b)
    ensures a == b
  {
    forall i | 0 <= i < |a|
      ensures a[i] == b[i]
    {
      assert |a[i]| == |b[i]|;
    }
  }

  /** Cuts a flat column of `rows * width` values into rows of `width` values, first row first. */
  function Rows(flat: seq<real>, rows: nat, width: nat): (m: Matrix)
    requires |flat| == rows * width
    ensures |m| == rows && forall i | 0 <= i < rows :: |m[i]| == width
    decreases rows
  {
    if rows == 0 then []
    else
      assert |flat| == (rows - 1) * width + width;
      [flat[..width]] + Rows(flat[width..], rows - 1, width)
  }

  /** A flat column reshaped into a square `zones` by `zones` array (a row-major reshape). */
  function Reshape(flat: seq<real>, zones: nat): (m: Matrix)
    requires |flat| == zones * zones
    ensures IsZoneMatrix(m, zones)
  {
    Rows(flat, zones, zones)
  }

  /** The rows of a matrix laid end to end. */
  function Flatten(m: Matrix): seq<real> {
    if m == [] then [] else m[0] + Flatten(m[1..])
  }

  /** Cell (i, j) of the reshaped array is element i * width + j of the flat column. */
  lemma {:induction false} RowsAt(flat: seq<real>, rows: nat, width: nat, i: nat, j: nat)
    requires |flat| == rows * width && i < rows && j < width
    ensures i * width + j < |flat|
    ensures Rows(flat, rows, width)[i][j] == flat[i * width + j]
    decreases rows
  {
    MulPred(rows, width);
    var m := Rows(flat, rows, width);
    if i == 0 {
      assert m[0] == flat[..width];
    } else {
      RowsAt(flat[width..], rows - 1, width, i - 1, j);
      MulPred(i, width);
      assert m[i] == Rows(flat[width..], rows - 1, width)[i - 1];
    }
  }

  /** Multiplication distributes over a successor. */
  lemma MulPred(a: nat, b: nat)
    requires a > 0
    ensures (a - 1) * b + b == a * b && (a - 1) * b >= 0
  {
  }

  /** The reshape is row-major: cell (i, j) comes from position i * zones + j. */
  lemma ReshapeRowMajor(flat: seq<real>, zones: nat, i: nat, j: nat)
    requires |flat| == zones * zones && i < zones && j < zones
    ensures i * zones + j < |flat| && Reshape(flat, zones)[i][j] == flat[i * zones + j]
  {
    RowsAt(flat, zones, zones, i, j);
  }

  /** Reshaping loses nothing: laying the rows end to end gives back the flat column. */
  lemma {:induction false} FlattenRows(flat: seq<real>, rows: nat, width: nat)
    requires |flat| == rows * width
    ensures Flatten(Rows(flat, rows, width)) == flat
    decreases rows
  {
    if rows > 0 {
      assert |flat| == (rows - 1) * width + width;
      var m := Rows(flat, rows, width);
      assert m[1..] == Rows(flat[width..], rows - 1, width);
      FlattenRows(flat[width..], rows - 1, width);
      assert flat[..width] + flat[width..] == flat;
    }
  }

  /** Flattening a matrix whose rows all have `width` values, then cutting it again, gives the matrix back. */
  lemma {:induction false} RowsFlatten(m: Matrix, width: nat)
    requires forall i | 0 <= i < |m| :: |m[i]| == width
    ensures |Flatten(m)| == |m| * width
    ensures Rows(Flatten(m), |m|, width) == m
    decreases |m|
  {
    if m != [] {
      RowsFlatten(m[1..], width);
      var f := Flatten(m);
      assert f == m[0] + Flatten(m[1..]);
      assert |f| == width + (|m| - 1) * width;
      assert f[..width] == m[0];
      assert f[width..] == Flatten(m[1..]);
      assert [m[0]] + m[1..] == m;
    }
  }

  /** Round trip of the reshape: a square matrix flattened and reshaped is unchanged, and a
      column of the right length reshaped and flattened is unchanged. */
  lemma ReshapeRoundTrip(flat: seq<real>, m: Matrix, zones: nat)
    requires |flat| == zones * zones && IsZoneMatrix(m, zones)
    ensures Flatten(Reshape(flat, zones)) == flat
    ensures |Flatten(m)| == zones * zones && Reshape(Flatten(m), zones) == m
  {
    FlattenRows(flat, zones, zones);
    RowsFlatten(m, zones);
  }
}
