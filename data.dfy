/**
 * Loading the labelled message table for training: the two column layouts
 * are brought to (Message, Category), Category is stripped and lower-cased,
 * Message is stripped, and labels are encoded as 1 for spam and 0 otherwise.
 * Reading the CSV file is replaced by a map from paths to parsed tables.
 */
module Dataset {
  import opened Wrappers
  import opened Text
  import opened Table

  datatype DataError =
    | DatasetNotFound(path: string)          // FileNotFoundError
    | UnexpectedColumns(found: set<string>)  // ValueError naming the columns found

  type Bit = b: int | 0 <= b <= 1

  predicate NoEdgeSpace(s: string) {
    s == [] || (!IsSpace(s[0]) && !IsSpace(s[|s| - 1]))
  }

  /** The flag values that compare equal to 1 in Python. */
  predicate IsTrueFlag(c: Cell) {
    c == Int(1) || c == Bool(true)
  }

  /** `.astype(str).str.strip()` on a Message cell. */
  function NormalizeMessage(message: string): (r: string)
    ensures NoEdgeSpace(r) && |r| <= |message|
  {
    Strip(message)
  }

  /** `.astype(str).str.strip().str.lower()` on a Category cell. */
  function NormalizeCategory(category: string): (r: string)
    ensures NoEdgeSpace(r) && NoUpper(r)
    ensures |r| <= |category|
  {
    LowerKeepsEdges(Strip(category));
    Lower(Strip(category))
  }

  lemma LowerKeepsEdges(t: string)
    requires NoEdgeSpace(t)
    ensures NoEdgeSpace(Lower(t)) && NoUpper(Lower(t))
  {
    var r := Lower(t);
    if r != [] {
      assert r[0] == LowerChar(t[0]) && r[|r| - 1] == LowerChar(t[|t| - 1]);
    }
  }

  /** One row of `load_dataset`, for a table of the given layout. */
  function LoadRow(layout: Layout, row: Row): (r: LabeledText)
    ensures NoEdgeSpace(r.message) && NoEdgeSpace(r.category) && NoUpper(r.category)
    ensures layout == TextSpam ==>
      && r.message == NormalizeMessage(CellText(CellAt(row, "text")))
      && (r.category == "spam" <==> IsTrueFlag(CellAt(row, "spam")))
      && (r.category == "spam" || r.category == "ham")
    ensures layout == MessageCategory ==>
      && r.message == NormalizeMessage(CellText(CellAt(row, "Message")))
      && r.category == NormalizeCategory(CellText(CellAt(row, "Category")))
  {
    match layout
    case TextSpam =>
      var category := CategoryFromFlag(CellAt(row, "spam"));
      FlagCategoryNormal(CellAt(row, "spam"));
      LabeledText(NormalizeMessage(CellText(CellAt(row, "text"))), NormalizeCategory(category))
    case MessageCategory =>
      LabeledText(NormalizeMessage(CellText(CellAt(row, "Message"))), NormalizeCategory(CellText(CellAt(row, "Category"))))
  }

  /** A class name made from a flag is already stripped and lower-case. */
  lemma FlagCategoryNormal(c: Cell)
    ensures NormalizeCategory(CategoryFromFlag(c)) == CategoryFromFlag(c)
  {
    ClassNamesNormal();
  }

  lemma ClassNamesNormal()
    ensures NormalizeCategory("spam") == "spam"
    ensures NormalizeCategory("ham") == "ham"
  {
    NormalName("spam");
    NormalName("ham");
  }

  /** A name already stripped and in lower case normalises to itself. */
  lemma NormalName(c: string)
    requires NoEdgeSpace(c) && NoUpper(c)
    ensures NormalizeCategory(c) == c
  {
    StripNoEdgeSpace(c);
    LowerOfLower(c);
  }

  /**
   * `load_dataset`: a missing path and an unknown layout are errors; otherwise
   * every row is normalised, none dropped or reordered.
   */
  function LoadDataset(files: map<string, RawTable>, path: string): (r: Result<seq<LabeledText>, DataError>)
    ensures path !in files <==> r == Err(DatasetNotFound(path))
    ensures path in files ==>
      (r.Ok? <==> DetectLayout(files[path].columns).Some?)
    ensures path in files && DetectLayout(files[path].columns).None? ==>
      r == Err(UnexpectedColumns(files[path].columns))
    ensures r.Ok? ==>
      && |r.value| == |files[path].rows|
      && forall i :: 0 <= i < |r.value| ==>
           r.value[i] == LoadRow(DetectLayout(files[path].columns).value, files[path].rows[i])
  {
    if path !in files then Err(DatasetNotFound(path))
    else
      var table := files[path];
      match DetectLayout(table.columns)
      case None => Err(UnexpectedColumns(table.columns))
      case Some(layout) =>
        Ok(seq(|table.rows|, i requires 0 <= i < |table.rows| => LoadRow(layout, table.rows[i])))
  }

  /** `encode_labels`: 1 exactly where Category equals "spam". */
  function EncodeLabels(data: seq<LabeledText>): (y: seq<Bit>)
    ensures |y| == |data|
    ensures forall i :: 0 <= i < |data| ==> (y[i] == 1 <==> data[i].category == "spam")
  {
    seq(|data|, i requires 0 <= i < |data| => if data[i].category == "spam" then 1 else 0)
  }

  /** `get_features_and_labels`: the Message column and the labels, row by row. */
  function FeaturesAndLabels(data: seq<LabeledText>): (r: (seq<string>, seq<Bit>))
    ensures |r.0| == |data| && |r.1| == |data|
    ensures forall i :: 0 <= i < |data| ==> r.0[i] == data[i].message && r.1[i] == EncodeLabels(data)[i]
  {
    (seq(|data|, i requires 0 <= i < |data| => data[i].message), EncodeLabels(data))
  }

  /**
   * From file to label: in the ('text', 'spam') layout a row is labelled 1
   * exactly when its flag is 1 (or `True`); in the ('Message', 'Category')
   * layout exactly when its category reads "spam" after strip and lower.
   */
  lemma {:induction false} LabelOfRow(files: map<string, RawTable>, path: string, i: nat)
    requires LoadDataset(files, path).Ok? && i < |files[path].rows|
    ensures var y := FeaturesAndLabels(LoadDataset(files, path).value).1;
      && i < |y|
      && (DetectLayout(files[path].columns) == Some(TextSpam) ==>
            (y[i] == 1 <==> IsTrueFlag(CellAt(files[path].rows[i], "spam"))))
      && (DetectLayout(files[path].columns) == Some(MessageCategory) ==>
            (y[i] == 1 <==> NormalizeCategory(CellText(CellAt(files[path].rows[i], "Category"))) == "spam"))
  {
    var data := LoadDataset(files, path).value;
    assert data[i] == LoadRow(DetectLayout(files[path].columns).value, files[path].rows[i]);
  }

  /** One space on either side of a category does not change how it normalises. */
  lemma PaddedCategory(c: string, padded: string)
    requires c != [] && NoEdgeSpace(c)
    requires padded == " " + c + " "
    ensures NormalizeCategory(padded) == Lower(c)
  {
    assert padded[1..] == c + " ";
    assert TrimStart(c + " ") == c + " " by {
      assert (c + " ")[0] == c[0];
    }
    assert TrimStart(padded) == c + " ";
    assert (c + " ")[..|c|] == c;
    assert TrimEnd(c) == c;
    assert TrimEnd(c + " ") == c;
  }

  /** A padded, capitalised " Spam " category is read as spam. */
  lemma PaddedCategoryIsSpam()
    ensures NormalizeCategory(" Spam ") == "spam"
  {
    assert " Spam " == " " + "Spam" + " ";
    PaddedCategory("Spam", " Spam ");
    CapitalisedSpam();
  }

  lemma CapitalisedSpam()
    ensures Lower("Spam") == "spam"
  {
    var l := Lower("Spam");
    assert LowerChar('S') == 's';
    assert l[0] == 's' && l[1] == 'p' && l[2] == 'a' && l[3] == 'm';
  }
}
