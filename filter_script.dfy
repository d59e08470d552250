/**
 * Filter.py, lines 79-158: the experiment script's data preparation and its
 * choice of train/test split. The text column is chosen as in the
 * classifier, except that an existing `text` column has its NaNs filled;
 * any error while preparing leaves an empty frame, and a missing CSV
 * leaves the script's eight built-in samples.
 */
module FilterScript {
  import opened Wrappers
  import opened PyText
  import opened Frames
  import opened Classifier
  import Seqs

  /** `read_csv` on the script's path: the frame, `FileNotFoundError`, or any other error. */
  datatype Load = Found(frame: Frame) | NotFound | ReadError

  /**
   * The script's text rule: `title` and `body` together, else
   * `description`, else `text` (NaN filled with ''), else the first column
   * whose name mentions a text keyword; otherwise `ValueError`.
   */
  function ScriptTextRule(columns: seq<string>): (r: Option<TextSource>)
    ensures r == Some(TitleAndBody) <==> "title" in columns && "body" in columns
    ensures r == Some(Filled("description")) <==>
      !("title" in columns && "body" in columns) && "description" in columns
    ensures r == Some(Filled("text")) <==>
      !("title" in columns && "body" in columns) && "description" !in columns && "text" in columns
    ensures r.None? <==>
      && !("title" in columns && "body" in columns)
      && "description" !in columns && "text" !in columns
      && (forall c :: c in columns ==> !MentionsAny(c, TextKeywords))
    ensures r.Some? ==> r.value != AsIs
    ensures r.Some? && r.value.Filled? && r.value.column != "description" && r.value.column != "text" ==>
      exists i :: 0 <= i < |columns| && columns[i] == r.value.column &&
        MentionsAny(columns[i], TextKeywords) &&
        (forall j :: 0 <= j < i ==> !MentionsAny(columns[j], TextKeywords))
  {
    match TextRule(columns)
    case Some(AsIs) => Some(Filled("text"))
    case other => other
  }

  /** The frame cannot be prepared: no text source, or no `category`/`urgency` column for `dropna`. */
  predicate Unpreparable(f: Frame) {
    ScriptTextRule(f.columns).None? || "category" !in f.columns || "urgency" !in f.columns
  }

  /** `row` is one of the rows the script keeps from `f`. */
  ghost predicate ScriptKeeps(f: Frame, row: Row)
    requires ScriptTextRule(f.columns).Some?
  {
    exists i :: 0 <= i < |f.rows| && row == WithText(ScriptTextRule(f.columns).value, f.rows[i]) && Usable(row)
  }

  /**
   * The eight demonstration tickets used when the CSV is missing: the first
   * eight of the classifier's samples.
   */
  function ScriptSample(): Frame {
    SampleFrame(8)
  }

  /**
   * The label column(s) the script wants to stratify on: both when both
   * have two values or more, else type, else urgency, and none with fewer
   * than four rows or a single value in each.
   */
  function Preferred(df: Frame): (r: Option<Stratify>)
    ensures r.Some? ==> |df.rows| >= 4 && Diverse(df, r.value)
    ensures r == Some(OnBoth) <==> |df.rows| >= 4 && Diverse(df, OnBoth)
    ensures r == Some(OnType) ==> !Diverse(df, OnUrgency)
    ensures r == Some(OnUrgency) ==> !Diverse(df, OnType)
    ensures r.None? <==> |df.rows| < 4 || (!Diverse(df, OnType) && !Diverse(df, OnUrgency))
  {
    if |df.rows| < 4 then None
    else if Diverse(df, OnBoth) then Some(OnBoth)
    else if Diverse(df, OnType) then Some(OnType)
    else if Diverse(df, OnUrgency) then Some(OnUrgency)
    else None
  }

  /**
   * Lines 79-158 after the CSV has been read: prepare the frame, then, when
   * it is not empty, choose the split. A stratified split that raises
   * `ValueError` (`raises`) is replaced by an unstratified one. `split` is
   * `None` when the frame is empty and no split happens.
   */
  method PrepareAndSplit(load: Load, raises: Stratify -> bool) returns (df: Frame, split: Option<Split>)
    ensures load == NotFound ==> df == ScriptSample()
    ensures load == ReadError ==> df == EmptyFrame
    ensures load.Found? && Unpreparable(load.frame) ==> df == EmptyFrame
    ensures load.Found? && !Unpreparable(load.frame) ==>
      && "text" in df.columns
      && (forall row :: row in df.rows ==> Usable(row))
      && (forall row :: row in df.rows <==> ScriptKeeps(load.frame, row))
      && df.rows == Seqs.Filter(TextRows(ScriptTextRule(load.frame.columns).value, load.frame.rows), Usable)
    ensures split.None? <==> Empty(df)
    ensures split == Some(WholeAsBoth) <==> !Empty(df) && |df.rows| < 2
    ensures split.Some? && split.value.Stratified? <==>
      !Empty(df) && Preferred(df).Some? && !raises(Preferred(df).value)
    ensures split.Some? && split.value.Stratified? ==> split.value.on == Preferred(df).value
    ensures split == Some(Plain) <==>
      !Empty(df) && |df.rows| >= 2 && (Preferred(df).None? || raises(Preferred(df).value))
  {
    match load {
      case NotFound =>
        df := ScriptSample();
      case ReadError =>
        df := EmptyFrame;
      case Found(f) =>
        df := Prepare(f);
    }
    split := ChooseSplit(df, raises);
  }

  /**
   * Lines 125-158: no split for an empty frame; the whole frame for one
   * row; otherwise the preferred stratification, or an unstratified split
   * when there is none or it raises `ValueError` (`raises`).
   */
  method ChooseSplit(df: Frame, raises: Stratify -> bool) returns (split: Option<Split>)
    ensures split.None? <==> Empty(df)
    ensures split == Some(WholeAsBoth) <==> !Empty(df) && |df.rows| < 2
    ensures split.Some? && split.value.Stratified? <==>
      !Empty(df) && Preferred(df).Some? && !raises(Preferred(df).value)
    ensures split.Some? && split.value.Stratified? ==> split.value.on == Preferred(df).value
    ensures split == Some(Plain) <==>
      !Empty(df) && |df.rows| >= 2 && (Preferred(df).None? || raises(Preferred(df).value))
  {
    if Empty(df) {
      return None;
    }
    if |df.rows| < 2 {
      return Some(WholeAsBoth);
    }
    var types := TwoDistinct(Types(df));
    var urgencies := TwoDistinct(Urgencies(df));
    var on: Stratify;
    if types && urgencies && |df.rows| >= 4 {
      on := OnBoth;
    } else if types && |df.rows| >= 4 {
      on := OnType;
    } else if urgencies && |df.rows| >= 4 {
      on := OnUrgency;
    } else {
      return Some(Plain);
    }
    if raises(on) {
      split := Some(Plain);
    } else {
      split := Some(Stratified(on));
    }
  }

  /** Lines 79-98 on a frame that was read: the frame the `try` block leaves, or the empty one. */
  method Prepare(f: Frame) returns (df: Frame)
    ensures Unpreparable(f) ==> df == EmptyFrame
    ensures !Unpreparable(f) ==>
      && "text" in df.columns
      && (forall row :: row in df.rows ==> Usable(row))
      && (forall row :: row in df.rows <==> ScriptKeeps(f, row))
      && df.rows == Seqs.Filter(TextRows(ScriptTextRule(f.columns).value, f.rows), Usable)
  {
    var rule := ScriptTextRule(f.columns);
    if rule.None? {
      return EmptyFrame;
    }
    var source := rule.value;
    df := Derive(f, "text", row => TextCell(source, row));
    var withText := df;
    assert forall i :: 0 <= i < |f.rows| ==> withText.rows[i] == WithText(source, f.rows[i]);
    assert "text" in df.columns;
    assert forall c :: c != "text" ==> (c in df.columns <==> c in f.columns);
    LabelledColumns(df);
    var dropped := DropNa(df, Labelled);
    if dropped.Failure? {
      return EmptyFrame;
    }
    df := DropBlank(dropped.value, "text");
    CleanedRows(f, source, withText, df);
    forall row | row in df.rows ensures Usable(row) {
      assert ScriptKeeps(f, row);
    }
  }

  /**
   * The script and the classifier keep the same rows from any frame, in the
   * same order: they fail on the same frames, and where the classifier
   * keeps an existing `text` column as it is, the script's filling of NaNs
   * with '' only changes rows that the blank-text filter drops anyway.
   */
  lemma {:induction false} SameRowsAsClassifier(f: Frame)
    ensures Preprocess(f).Failure? <==> Unpreparable(f)
    ensures Preprocess(f).Success? ==>
      Preprocess(f).value.rows == Seqs.Filter(TextRows(ScriptTextRule(f.columns).value, f.rows), Usable)
    ensures Preprocess(f).Success? ==>
      forall row :: row in Preprocess(f).value.rows <==> ScriptKeeps(f, row)
  {
    if Preprocess(f).Success? {
      var source := TextRule(f.columns).value;
      var script := ScriptTextRule(f.columns).value;
      if source == AsIs {
        var a, b := TextRows(source, f.rows), TextRows(script, f.rows);
        forall i | 0 <= i < |a| && (Usable(a[i]) || Usable(b[i])) ensures a[i] == b[i] {
          FilledTextSameWhenUsable(f.rows[i]);
        }
        Seqs.FilterAgreeing(a, b, Usable);
      }
      forall row ensures row in Preprocess(f).value.rows <==> ScriptKeeps(f, row) {
        if source == AsIs {
          forall i | 0 <= i < |f.rows|
            ensures WithText(source, f.rows[i]) == row && Usable(row) <==>
                    WithText(script, f.rows[i]) == row && Usable(row)
          {
            FilledTextSameWhenUsable(f.rows[i]);
          }
        }
      }
    }
  }

  /** Filling the NaNs of `text` changes no row that keeps non-blank text. */
  lemma FilledTextSameWhenUsable(row: Row)
    ensures Usable(row) ==> WithText(Filled("text"), row) == row
    ensures Usable(WithText(Filled("text"), row)) ==> WithText(Filled("text"), row) == row
  {
    var filled := WithText(Filled("text"), row);
    if At(row, "text").Some? {
      assert "text" in row.cells;
      assert filled.cells == row.cells;
    } else {
      assert At(filled, "text") == Some("");
    }
  }
}
