/** The parsed table the source keeps in a pandas DataFrame, seen only
    through its column names and its rows. */
module Frames {

  /** A cell after the source's clean-up: a missing value or a scalar,
      shown by its text. */
  datatype Cell = Null | Scalar(text: string)

  type Row = seq<Cell>

  datatype Table = Table(columns: seq<string>, rows: seq<Row>)
}
