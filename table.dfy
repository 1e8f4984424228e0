/**
 * The in-memory tables the offline scripts work on: a table read from CSV is
 * a set of column names and a sequence of rows, and a row maps column names
 * to cells.  Cells hold what `pandas.read_csv` infers for the two label
 * layouts: text, integers, booleans, or a missing value (NaN).
 */
module Table {
  import opened Wrappers
  import opened Text

  datatype Cell = Text(s: string) | Int(i: int) | Bool(b: bool) | Missing

  type Row = map<string, Cell>

  datatype RawTable = RawTable(columns: set<string>, rows: seq<Row>)

  /** A row without an entry for a column of its table has a missing value there. */
  function CellAt(row: Row, column: string): Cell {
    if column in row then row[column] else Missing
  }

  /** `Series.astype(str)`: NaN becomes the text "nan". */
  function CellText(c: Cell): (r: string)
    ensures c.Text? ==> r == c.s
    ensures c == Missing ==> r == "nan"
  {
    match c
    case Text(s) => s
    case Int(i) => IntToString(i)
    case Bool(b) => if b then "True" else "False"
    case Missing => "nan"
  }

  /** `"spam" if x == 1 else "ham"`: in Python `True == 1`, and text or NaN never equals 1. */
  function CategoryFromFlag(c: Cell): (r: string)
    ensures r == "spam" <==> c == Int(1) || c == Bool(true)
    ensures r == "spam" || r == "ham"
  {
    if c == Int(1) || c == Bool(true) then "spam" else "ham"
  }

  /** The two layouts a label table may have. */
  datatype Layout = TextSpam | MessageCategory

  /**
   * The layout check: ('text', 'spam') is tried first, then ('Message',
   * 'Category'); a table with neither pair is refused.
   */
  function DetectLayout(columns: set<string>): (r: Option<Layout>)
    ensures r == Some(TextSpam) <==> "text" in columns && "spam" in columns
    ensures r == Some(MessageCategory) <==>
      !("text" in columns && "spam" in columns) && "Message" in columns && "Category" in columns
    ensures r == None <==>
      !("text" in columns && "spam" in columns) && !("Message" in columns && "Category" in columns)
  {
    if "text" in columns && "spam" in columns then Some(TextSpam)
    else if "Message" in columns && "Category" in columns then Some(MessageCategory)
    else None
  }

  /** A message and its class name, as every downstream step sees a row. */
  datatype LabeledText = LabeledText(message: string, category: string)
}
