/**
 * python/kaggle_data_loader.py, lines 53-188: the notebook-style script
 * that standardises a downloaded ticket dataset. It finds the text,
 * category and urgency columns by keywords in their names, builds `text`,
 * `category` and `urgency` from them (with defaults), drops blank texts and
 * chooses a train/test split.
 */
module KaggleLoader {
  import opened Wrappers
  import opened PyText
  import opened Frames
  import Seqs
  import Classifier

  const TextKeywords: seq<string> := ["text", "description", "message", "content", "body", "title", "subject"]
  const CategoryKeywords: seq<string> := ["category", "type", "class", "label", "tag"]
  const UrgencyKeywords: seq<string> := ["urgency", "priority", "severity", "level"]

  /**
   * One of the `for col in df.columns` loops: the columns whose lower-cased
   * name contains one of `keywords`, appended in column order.
   */
  method Candidates(columns: seq<string>, keywords: seq<string>) returns (cols: seq<string>)
    ensures cols == KeywordColumns(columns, keywords)
  {
    cols := [];
    var i := 0;
    while i < |columns|
      invariant 0 <= i <= |columns|
      invariant cols == KeywordColumns(columns[..i], keywords)
    {
      var p := (c: string) => MentionsAny(c, keywords);
      assert columns[..i + 1] == columns[..i] + [columns[i]];
      Seqs.FilterAppend(columns[..i], columns[i], p);
      if MentionsAny(columns[i], keywords) {
        cols := cols + [columns[i]];
      }
      i := i + 1;
    }
    assert columns[..i] == columns;
  }

  /** The text cells of `row` in the columns `cols`, NaN read as ''. */
  function FilledCells(row: Row, cols: seq<string>): (r: seq<string>)
    ensures |r| == |cols|
    ensures forall k :: 0 <= k < |cols| ==> r[k] == FillNa(At(row, cols[k]))
  {
    seq(|cols|, k requires 0 <= k < |cols| => FillNa(At(row, cols[k])))
  }

  /**
   * The text the script builds: the text columns joined with single
   * spaces when there are several, the one column when there is one, and
   * '' when there is none.
   */
  function TextFrom(row: Row, textCols: seq<string>): string {
    if |textCols| > 1 then Join(FilledCells(row, textCols), " ")
    else if |textCols| == 1 then FillNa(At(row, textCols[0]))
    else ""
  }

  /** The three branches are one rule: every case is the space-joined text of the columns. */
  lemma TextIsJoin(row: Row, textCols: seq<string>)
    ensures TextFrom(row, textCols) == Join(FilledCells(row, textCols), " ")
    ensures forall k :: 0 <= k < |textCols| ==> Contains(TextFrom(row, textCols), FillNa(At(row, textCols[k])))
  {
    JoinContainsParts(FilledCells(row, textCols), " ");
  }

  /** `df['category'] = df[category_columns[0]]`, or the constant 'general'. */
  function CategoryFrom(row: Row, categoryCols: seq<string>): Cell {
    if categoryCols != [] then At(row, categoryCols[0]) else Some("general")
  }

  /** `df['urgency'] = df[urgency_columns[0]]`, or the constant 'medium'. */
  function UrgencyFrom(row: Row, urgencyCols: seq<string>): Cell {
    if urgencyCols != [] then At(row, urgencyCols[0]) else Some("medium")
  }

  /** A row with its three standard columns assigned in the script's order. */
  function Standardized(row: Row, textCols: seq<string>, categoryCols: seq<string>,
                        urgencyCols: seq<string>): Row
  {
    var withText := Set(row, "text", Some(TextFrom(row, textCols)));
    var withCategory := Set(withText, "category", CategoryFrom(withText, categoryCols));
    Set(withCategory, "urgency", UrgencyFrom(withCategory, urgencyCols))
  }

  /** The dataset as the script finds it. */
  datatype Dataset = Downloaded(frame: Frame) | Unavailable | ReadFails

  /**
   * The eight demonstration tickets used when no dataset is available: the
   * first eight of the classifier's samples.
   */
  function Sample(): Frame {
    Classifier.SampleFrame(8)
  }

  /** `row` is one of the rows the script keeps from `f`. */
  ghost predicate LoaderKeeps(f: Frame, row: Row) {
    var textCols := KeywordColumns(f.columns, TextKeywords);
    var categoryCols := KeywordColumns(f.columns, CategoryKeywords);
    var urgencyCols := KeywordColumns(f.columns, UrgencyKeywords);
    exists i :: 0 <= i < |f.rows| &&
      row == Standardized(f.rows[i], textCols, categoryCols, urgencyCols) &&
      !AllSpace(TextFrom(f.rows[i], textCols))
  }

  /** Every row of `f` standardised with the columns the keyword search finds, in order. */
  function StandardRows(f: Frame): (r: seq<Row>)
    ensures |r| == |f.rows|
  {
    var textCols := KeywordColumns(f.columns, TextKeywords);
    var categoryCols := KeywordColumns(f.columns, CategoryKeywords);
    var urgencyCols := KeywordColumns(f.columns, UrgencyKeywords);
    seq(|f.rows|, i requires 0 <= i < |f.rows| => Standardized(f.rows[i], textCols, categoryCols, urgencyCols))
  }

  /**
   * The READ DATA block: the sample when no dataset is available, the empty
   * frame when reading fails, otherwise the standardised frame with the
   * blank texts dropped.
   */
  method Load(data: Dataset) returns (df: Frame)
    ensures data == Unavailable ==> df == Sample()
    ensures data == ReadFails ==> df == EmptyFrame
    ensures data.Downloaded? ==>
      && (forall c :: c in ["text", "category", "urgency"] ==> c in df.columns)
      && (forall row :: row in df.rows <==> LoaderKeeps(data.frame, row))
      && (forall row :: row in df.rows ==> At(row, "text").Some? && !AllSpace(At(row, "text").value))
      && df.rows == Seqs.Filter(StandardRows(data.frame), HasText)
  {
    match data {
      case Unavailable =>
        return Sample();
      case ReadFails =>
        return EmptyFrame;
      case Downloaded(f) =>
        df := Standardize(f);
    }
  }

  /** Lines 67-119 on a frame that was read. */
  method Standardize(f: Frame) returns (df: Frame)
    ensures forall c :: c in ["text", "category", "urgency"] ==> c in df.columns
    ensures forall row :: row in df.rows <==> LoaderKeeps(f, row)
    ensures forall row :: row in df.rows ==> At(row, "text").Some? && !AllSpace(At(row, "text").value)
    ensures df.rows == Seqs.Filter(StandardRows(f), HasText)
  {
    var textCols := Candidates(f.columns, TextKeywords);
    var categoryCols := Candidates(f.columns, CategoryKeywords);
    var urgencyCols := Candidates(f.columns, UrgencyKeywords);
    var withText := AssignText(f, textCols);
    var withCategory := AssignCategory(withText, categoryCols);
    var standardized := AssignUrgency(withCategory, urgencyCols);
    StandardizedRows(f, withText, withCategory, standardized, textCols, categoryCols, urgencyCols);
    var dropped := DropNa(standardized, ["text"]);
    df := DropBlank(dropped.value, "text");
    KeptRows(f, standardized, df, textCols, categoryCols, urgencyCols);
  }

  /** Lines 93-101: the `text` column. */
  method AssignText(f: Frame, textCols: seq<string>) returns (df: Frame)
    ensures "text" in df.columns && forall c :: c in f.columns ==> c in df.columns
    ensures |df.rows| == |f.rows|
    ensures forall i :: 0 <= i < |f.rows| ==>
      df.rows[i] == Set(f.rows[i], "text", Some(TextFrom(f.rows[i], textCols)))
  {
    if textCols != [] {
      if |textCols| > 1 {
        df := Derive(f, "text", row => Some(Join(FilledCells(row, textCols), " ")));
      } else {
        df := Derive(f, "text", row => Some(FillNa(At(row, textCols[0]))));
      }
    } else {
      df := Derive(f, "text", row => Some(""));
    }
  }

  /** Lines 104-108: the `category` column. */
  method AssignCategory(f: Frame, categoryCols: seq<string>) returns (df: Frame)
    ensures "category" in df.columns && forall c :: c in f.columns ==> c in df.columns
    ensures |df.rows| == |f.rows|
    ensures forall i :: 0 <= i < |f.rows| ==>
      df.rows[i] == Set(f.rows[i], "category", CategoryFrom(f.rows[i], categoryCols))
  {
    if categoryCols != [] {
      df := Derive(f, "category", row => At(row, categoryCols[0]));
    } else {
      df := Derive(f, "category", row => Some("general"));
    }
  }

  /** Lines 111-115: the `urgency` column. */
  method AssignUrgency(f: Frame, urgencyCols: seq<string>) returns (df: Frame)
    ensures "urgency" in df.columns && forall c :: c in f.columns ==> c in df.columns
    ensures |df.rows| == |f.rows|
    ensures forall i :: 0 <= i < |f.rows| ==>
      df.rows[i] == Set(f.rows[i], "urgency", UrgencyFrom(f.rows[i], urgencyCols))
  {
    if urgencyCols != [] {
      df := Derive(f, "urgency", row => At(row, urgencyCols[0]));
    } else {
      df := Derive(f, "urgency", row => Some("medium"));
    }
  }

  /** The three assignments give each row its standardized form, position by position. */
  lemma StandardizedRows(f: Frame, withText: Frame, withCategory: Frame, standardized: Frame,
                         textCols: seq<string>, categoryCols: seq<string>, urgencyCols: seq<string>)
    requires |withText.rows| == |f.rows| && "text" in withText.columns
    requires forall i :: 0 <= i < |f.rows| ==>
      withText.rows[i] == Set(f.rows[i], "text", Some(TextFrom(f.rows[i], textCols)))
    requires |withCategory.rows| == |f.rows|
    requires forall c :: c in withText.columns ==> c in withCategory.columns
    requires "category" in withCategory.columns
    requires forall i :: 0 <= i < |f.rows| ==>
      withCategory.rows[i] == Set(withText.rows[i], "category", CategoryFrom(withText.rows[i], categoryCols))
    requires |standardized.rows| == |f.rows|
    requires forall c :: c in withCategory.columns ==> c in standardized.columns
    requires "urgency" in standardized.columns
    requires forall i :: 0 <= i < |f.rows| ==>
      standardized.rows[i] == Set(withCategory.rows[i], "urgency", UrgencyFrom(withCategory.rows[i], urgencyCols))
    ensures forall c :: c in ["text", "category", "urgency"] ==> c in standardized.columns
    ensures forall i :: 0 <= i < |f.rows| ==>
      standardized.rows[i] == Standardized(f.rows[i], textCols, categoryCols, urgencyCols)
  {
  }

  /**
   * Dropping NaN texts removes nothing; dropping blank texts keeps exactly
   * the rows with some text, in their order and multiplicity.
   */
  lemma KeptRows(f: Frame, standardized: Frame, df: Frame,
                 textCols: seq<string>, categoryCols: seq<string>, urgencyCols: seq<string>)
    requires textCols == KeywordColumns(f.columns, TextKeywords)
    requires categoryCols == KeywordColumns(f.columns, CategoryKeywords)
    requires urgencyCols == KeywordColumns(f.columns, UrgencyKeywords)
    requires |standardized.rows| == |f.rows| && "text" in standardized.columns
    requires forall i :: 0 <= i < |f.rows| ==>
      standardized.rows[i] == Standardized(f.rows[i], textCols, categoryCols, urgencyCols)
    requires DropNa(standardized, ["text"]).Success?
    requires df == DropBlank(DropNa(standardized, ["text"]).value, "text")
    ensures forall row :: row in df.rows <==> LoaderKeeps(f, row)
    ensures forall row :: row in df.rows ==> At(row, "text").Some? && !AllSpace(At(row, "text").value)
    ensures df.rows == Seqs.Filter(StandardRows(f), HasText)
  {
    forall row ensures row in df.rows <==> LoaderKeeps(f, row) {
      KeptRow(f, standardized, df, textCols, categoryCols, urgencyCols, row);
    }
    forall row | row in df.rows ensures At(row, "text").Some? && !AllSpace(At(row, "text").value) {
      NotBlankMeans(row, "text");
      var i :| 0 <= i < |standardized.rows| && standardized.rows[i] == row;
    }
    assert standardized.rows == StandardRows(f);
    KeptInOrder(standardized, df);
  }

  /** The two drops are one order-preserving filter by `HasText`. */
  lemma KeptInOrder(standardized: Frame, df: Frame)
    requires DropNa(standardized, ["text"]).Success?
    requires df == DropBlank(DropNa(standardized, ["text"]).value, "text")
    ensures df.rows == Seqs.Filter(standardized.rows, HasText)
  {
    forall row | row in standardized.rows
      ensures HasText(row) <==> Complete(row, ["text"]) && NotBlank(row, "text")
    {
      HasTextMeans(row);
    }
    DropNaThenBlank(standardized, ["text"], HasText);
  }

  /** A row has text exactly when it passes both `dropna(subset=["text"])` and the blank filter. */
  lemma HasTextMeans(row: Row)
    ensures HasText(row) <==> Complete(row, ["text"]) && NotBlank(row, "text")
  {
    NotBlankMeans(row, "text");
    assert Complete(row, ["text"]) <==> At(row, "text").Some? by {
      assert "text" in ["text"];
    }
  }

  lemma KeptRow(f: Frame, standardized: Frame, df: Frame,
                textCols: seq<string>, categoryCols: seq<string>, urgencyCols: seq<string>, row: Row)
    requires textCols == KeywordColumns(f.columns, TextKeywords)
    requires categoryCols == KeywordColumns(f.columns, CategoryKeywords)
    requires urgencyCols == KeywordColumns(f.columns, UrgencyKeywords)
    requires |standardized.rows| == |f.rows| && "text" in standardized.columns
    requires forall i :: 0 <= i < |f.rows| ==>
      standardized.rows[i] == Standardized(f.rows[i], textCols, categoryCols, urgencyCols)
    requires DropNa(standardized, ["text"]).Success?
    requires df == DropBlank(DropNa(standardized, ["text"]).value, "text")
    ensures row in df.rows <==> LoaderKeeps(f, row)
  {
    TextKept(standardized, df, row);
    if row in df.rows {
      var i :| 0 <= i < |standardized.rows| && standardized.rows[i] == row;
      StandardizedText(f.rows[i], textCols, categoryCols, urgencyCols);
      assert !AllSpace(TextFrom(f.rows[i], textCols));
    }
    if LoaderKeeps(f, row) {
      var i := KeptAt(f, textCols, categoryCols, urgencyCols, row);
      assert standardized.rows[i] == row;
    }
  }

  /** After the two drops, a row is kept exactly when it was there and has some non-blank text. */
  lemma TextKept(standardized: Frame, df: Frame, row: Row)
    requires DropNa(standardized, ["text"]).Success?
    requires df == DropBlank(DropNa(standardized, ["text"]).value, "text")
    ensures row in df.rows <==>
      row in standardized.rows && At(row, "text").Some? && !AllSpace(At(row, "text").value)
  {
    NotBlankMeans(row, "text");
    var dropped := DropNa(standardized, ["text"]).value;
    assert row in df.rows <==> row in dropped.rows && NotBlank(row, "text");
    assert row in dropped.rows <==> row in standardized.rows && Complete(row, ["text"]);
  }

  /** Where a kept row comes from, and the text it has there. */
  lemma KeptAt(f: Frame, textCols: seq<string>, categoryCols: seq<string>, urgencyCols: seq<string>, row: Row)
    returns (i: nat)
    requires textCols == KeywordColumns(f.columns, TextKeywords)
    requires categoryCols == KeywordColumns(f.columns, CategoryKeywords)
    requires urgencyCols == KeywordColumns(f.columns, UrgencyKeywords)
    requires LoaderKeeps(f, row)
    ensures i < |f.rows| && row == Standardized(f.rows[i], textCols, categoryCols, urgencyCols)
    ensures At(row, "text").Some? && !AllSpace(At(row, "text").value)
  {
    i :| 0 <= i < |f.rows| &&
      row == Standardized(f.rows[i], textCols, categoryCols, urgencyCols) &&
      !AllSpace(TextFrom(f.rows[i], textCols));
    StandardizedText(f.rows[i], textCols, categoryCols, urgencyCols);
  }

  /** The standardized row's `text` is the text built from the original row. */
  lemma StandardizedText(row: Row, textCols: seq<string>, categoryCols: seq<string>, urgencyCols: seq<string>)
    ensures At(Standardized(row, textCols, categoryCols, urgencyCols), "text") == Some(TextFrom(row, textCols))
  {
  }

  /** What the PROCESS DATA block does about the split. */
  datatype SplitOutcome = NoSplit | Chosen(split: Split) | Crashed

  /**
   * Lines 148-188: no split for an empty frame; the whole frame for fewer
   * than two rows; with four rows or more and both label columns diverse, a
   * split stratified on both, falling back to type only when that raises
   * (a second `ValueError` is not caught); with only the type column
   * diverse, a split stratified on type (its `ValueError` is not caught);
   * otherwise an unstratified split.
   */
  method ChooseSplit(df: Frame, raises: Stratify -> bool) returns (r: SplitOutcome)
    ensures r == NoSplit <==> Empty(df)
    ensures r == Chosen(WholeAsBoth) <==> !Empty(df) && |df.rows| < 2
    ensures r == Chosen(Stratified(OnBoth)) <==>
      !Empty(df) && |df.rows| >= 4 && Diverse(df, OnBoth) && !raises(OnBoth)
    ensures r == Chosen(Stratified(OnType)) <==>
      && !Empty(df) && |df.rows| >= 4 && Diverse(df, OnType) && !raises(OnType)
      && (Diverse(df, OnUrgency) ==> raises(OnBoth))
    ensures r == Crashed <==>
      && !Empty(df) && |df.rows| >= 4 && Diverse(df, OnType) && raises(OnType)
      && (Diverse(df, OnUrgency) ==> raises(OnBoth))
    ensures r == Chosen(Plain) <==> !Empty(df) && |df.rows| >= 2 && (|df.rows| < 4 || !Diverse(df, OnType))
    ensures r != Chosen(Stratified(OnUrgency))
  {
    if Empty(df) {
      return NoSplit;
    }
    if |df.rows| < 2 {
      return Chosen(WholeAsBoth);
    }
    var types := TwoDistinct(Types(df));
    var urgencies := TwoDistinct(Urgencies(df));
    if types && urgencies && |df.rows| >= 4 {
      if !raises(OnBoth) {
        r := Chosen(Stratified(OnBoth));
      } else if !raises(OnType) {
        r := Chosen(Stratified(OnType));
      } else {
        r := Crashed;
      }
    } else if types && |df.rows| >= 4 {
      r := if raises(OnType) then Crashed else Chosen(Stratified(OnType));
    } else {
      r := Chosen(Plain);
    }
  }
}
