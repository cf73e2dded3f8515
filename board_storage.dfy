/**
 * tetrio-replay's grid storage: a list of rows with a recorded column count, read and
 * written cell by cell. Rectangularity is never checked, so every access demands only that
 * the row and the cell within that row exist.
 */
module BoardStorage {

  import Offsets

  /** The rows after the cell at (row, column) is overwritten with value. */
  function Update<T>(rows: seq<seq<T>>, row: int, column: int, value: T): (r: seq<seq<T>>)
    requires 0 <= row < |rows| && 0 <= column < |rows[row]|
    ensures |r| == |rows| && forall i :: 0 <= i < |r| ==> |r[i]| == |rows[i]|
    ensures r[row][column] == value
    ensures forall i, j :: 0 <= i < |r| && 0 <= j < |r[i]| && (i, j) != (row, column) ==> r[i][j] == rows[i][j]
  {
    rows[row := rows[row][column := value]]
  }

  /** Writing back the old value undoes a write. */
  lemma UpdateRestores<T>(rows: seq<seq<T>>, row: int, column: int, value: T)
    requires 0 <= row < |rows| && 0 <= column < |rows[row]|
    ensures Update(Update(rows, row, column, value), row, column, rows[row][column]) == rows
  {
    var back := Update(Update(rows, row, column, value), row, column, rows[row][column]);
    forall i | 0 <= i < |rows|
      ensures back[i] == rows[i]
    {
      assert |back[i]| == |rows[i]|;
    }
  }

  /** Of two writes to one cell, the later one is all that remains. */
  lemma UpdateTwice<T>(rows: seq<seq<T>>, row: int, column: int, first: T, second: T)
    requires 0 <= row < |rows| && 0 <= column < |rows[row]|
    ensures Update(Update(rows, row, column, first), row, column, second) == Update(rows, row, column, second)
  {
    var twice := Update(Update(rows, row, column, first), row, column, second);
    var once := Update(rows, row, column, second);
    forall i | 0 <= i < |rows|
      ensures twice[i] == once[i]
    {
      assert |twice[i]| == |once[i]|;
    }
  }

  /** Only the value already in a cell can be written back without changing the grid. */
  lemma WriteBackIsRead<T>(rows: seq<seq<T>>, row: int, column: int, v: T)
    requires 0 <= row < |rows| && 0 <= column < |rows[row]|
    requires Update(rows, row, column, v) == rows
    ensures v == rows[row][column]
  {
  }

  class BoardStorage<T> {
    var columns: int
    var storage: seq<seq<T>>

    /** The `usize` fields fit their type. */
    ghost predicate Valid()
      reads this
    {
      Offsets.InUsize(columns) && Offsets.InUsize(|storage|)
    }

    /** `new_from_rows_unchecked`: the rows as given, and the first row's length as the column count. */
    constructor FromRowsUnchecked(v: seq<seq<T>>)
      requires Offsets.InUsize(|v|) && (|v| > 0 ==> Offsets.InUsize(|v[0]|))
      ensures Valid()
      ensures storage == v
      ensures columns == if |v| > 0 then |v[0]| else 0
    {
      columns := if |v| > 0 then |v[0]| else 0;
      storage := v;
    }

    /** `dimensions`: the number of rows and the recorded column count, cast to `isize`. */
    function Dimensions(): (d: (int, int))
      reads this
      requires Valid()
      ensures Offsets.InIsize(d.0) && Offsets.InIsize(d.1)
      ensures |storage| <= Offsets.ISIZE_MAX ==> d.0 == |storage|
      ensures columns <= Offsets.ISIZE_MAX ==> d.1 == columns
    {
      (Offsets.UsizeAsIsize(|storage|), Offsets.UsizeAsIsize(columns))
    }

    /** `root`: the grid starts at row 0, column 0. */
    function Root(): (r: (int, int))
      ensures r.0 == 0 && r.1 == 0
    {
      (0, 0)
    }

    /** The row exists and the cell exists within it; otherwise an `unwrap` panics. */
    predicate InBounds(row: int, column: int)
      reads this
    {
      0 <= row < |storage| && 0 <= column < |storage[row]|
    }

    /**
     * `get_unchecked`: the cell at (row, column), the one value that writing back into that
     * cell leaves the grid as it was.
     */
    function GetUnchecked(row: int, column: int): (r: T)
      reads this
      requires InBounds(row, column)
      ensures r in storage[row]
      ensures Update(storage, row, column, r) == storage
    {
      var r := storage[row][column];
      assert storage[row][column := r] == storage[row];
      r
    }

    /** `set_unchecked`: overwrites one cell through `get_unchecked_mut`. */
    method SetUnchecked(row: int, column: int, value: T)
      requires InBounds(row, column)
      modifies this
      ensures storage == Update(old(storage), row, column, value)
      ensures columns == old(columns)
      ensures old(Valid()) ==> Valid()
      ensures GetUnchecked(row, column) == value
    {
      storage := storage[row := storage[row][column := value]];
    }

    /** `replace_unchecked`: overwrites one cell and returns what was there. */
    method ReplaceUnchecked(row: int, column: int, value: T) returns (previous: T)
      requires InBounds(row, column)
      modifies this
      ensures previous == old(GetUnchecked(row, column))
      ensures storage == Update(old(storage), row, column, value)
      ensures columns == old(columns)
      ensures old(Valid()) ==> Valid()
      ensures GetUnchecked(row, column) == value
    {
      previous := storage[row][column];
      storage := storage[row := storage[row][column := value]];
    }
  }
}
