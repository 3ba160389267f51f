/**
 The review spreadsheets as the consolidation scripts see them: rows of cell
 values read with openpyxl's iter_rows(values_only=True), and the two ways a
 script run can fail.
 */
module Sheet {

  /** A cell value: text, a whole number, or an empty cell (None). */
  datatype Cell = Text(text: string) | Num(n: int) | Blank

  type Row = seq<Cell>

  /** The mark a reviewer puts in the "confirmed duplicate" column. */
  const Yes: Cell := Text("Y")

  /** Rows read with iter_rows(max_col = width): every row has exactly width cells. */
  predicate Shaped(rows: seq<Row>, width: nat)
  {
    forall row :: row in rows ==> |row| == width
  }

  /** The Python exceptions that end a script run before anything is written. */
  datatype Failure =
    | TypeError   // arithmetic on a cell that is not a number
    | IndexError  // a tuple index outside the tuple

  datatype Result<T> = Ok(value: T) | Err(failure: Failure)
}
