/**
 * train_models.py: the stand-alone training script. It reads the ticket
 * CSV, builds the text from title and body, drops unusable rows, maps the
 * urgency and category labels onto the service's fixed sets, chooses a
 * train/test split and saves the fitted components under `models/`.
 */
module TrainModels {
  import opened Wrappers
  import opened PyText
  import opened Frames
  import Classifier
  import Seqs

  /* ---------------- label normalisation ---------------- */

  /**
   * `df['urgency'].map({'Low': 'low', 'Medium': 'medium', 'High': 'high',
   * 'Critical': 'high'}).fillna('medium')`: the lookup is case-sensitive,
   * and every value outside the table (NaN included) becomes "medium".
   */
  function NormalizeUrgency(c: Cell): (r: string)
    ensures r == "low" || r == "medium" || r == "high"
    ensures r == "low" <==> c == Some("Low")
    ensures r == "high" <==> c == Some("High") || c == Some("Critical")
  {
    match c
    case Some("Low") => "low"
    case Some("Medium") => "medium"
    case Some("High") => "high"
    case Some("Critical") => "high"
    case _ => "medium"
  }

  /** The five departments the service routes to. */
  predicate Department(s: string) {
    s == "network" || s == "hardware" || s == "software" || s == "account" || s == "other"
  }

  /**
   * `df['category'].map({...}).fillna('other')`: the four known categories
   * are kept exactly as written; anything else (another spelling, another
   * case, NaN) becomes "other".
   */
  function NormalizeCategory(c: Cell): (r: string)
    ensures Department(r)
    ensures r != "other" <==> c.Some? && Department(c.value) && c.value != "other"
    ensures r != "other" ==> c == Some(r)
  {
    match c
    case Some("network") => "network"
    case Some("hardware") => "hardware"
    case Some("software") => "software"
    case Some("account") => "account"
    case _ => "other"
  }

  /** A category already normalised is left as it is. */
  lemma CategoryIdempotent(c: Cell)
    ensures NormalizeCategory(Some(NormalizeCategory(c))) == NormalizeCategory(c)
  {
  }

  /**
   * The urgency table is keyed on capitalised names, so running the mapping
   * over its own output turns every label into "medium".
   */
  lemma UrgencyNotIdempotent(c: Cell)
    ensures NormalizeUrgency(Some(NormalizeUrgency(c))) == "medium"
  {
  }

  /* ---------------- data preparation ---------------- */

  /** `(df['title'].fillna('') + ' ' + df['body'].fillna('')).str.strip()` for one row. */
  function CombinedText(row: Row): string {
    Strip(FillNa(At(row, "title")) + " " + FillNa(At(row, "body")))
  }

  /** A CSV row survives cleaning: category and urgency present and some non-whitespace text. */
  predicate Kept(row: Row) {
    At(row, "category").Some? && At(row, "urgency").Some? && CombinedText(row) != ""
  }

  /** The row with its `text` cell built from title and body. */
  function WithCombinedText(row: Row): Row {
    Set(row, "text", Some(CombinedText(row)))
  }

  /** The row with both labels normalised. */
  function Normalized(row: Row): Row {
    var withUrgency := Set(row, "urgency", Some(NormalizeUrgency(At(row, "urgency"))));
    Set(withUrgency, "category", Some(NormalizeCategory(At(withUrgency, "category"))))
  }

  /** A kept row as the script leaves it: text built, both labels normalised. */
  function Prepared(row: Row): Row {
    Normalized(WithCombinedText(row))
  }

  /** A row of the prepared frame: non-blank text, labels in the service's sets. */
  predicate Clean(row: Row) {
    && At(row, "text").Some? && !AllSpace(At(row, "text").value)
    && At(row, "category").Some? && Department(At(row, "category").value)
    && At(row, "urgency").Some? && At(row, "urgency").value in {"low", "medium", "high"}
  }

  /** The columns `load_and_prepare_data` reads; without any of them it raises `KeyError`. */
  predicate HasInputColumns(f: Frame) {
    "title" in f.columns && "body" in f.columns && "category" in f.columns && "urgency" in f.columns
  }

  const Labelled: seq<string> := ["text", "category", "urgency"]

  /**
   * `load_and_prepare_data`, after the file has been read (`csv` is `None`
   * when the file does not exist). Every exception is caught and gives
   * `None`.
   */
  method LoadAndPrepareData(csv: Option<Frame>) returns (r: Option<Frame>)
    ensures r.None? <==> csv.None? || !HasInputColumns(csv.value)
    ensures r.Some? ==>
      && "text" in r.value.columns
      && (forall row :: row in r.value.rows ==> Clean(row))
      && (forall row :: row in r.value.rows <==>
            exists i :: 0 <= i < |csv.value.rows| && Kept(csv.value.rows[i]) &&
                        row == Prepared(csv.value.rows[i]))
      && r.value.rows == Seqs.Map(Seqs.Filter(csv.value.rows, Kept), Prepared)
  {
    if csv.None? {
      return None;
    }
    var df := csv.value;
    if "title" !in df.columns || "body" !in df.columns {
      return None;
    }
    var original := df;
    df := Derive(df, "text", TextOf);
    var withText := df;
    assert "text" in df.columns;
    assert forall c :: c != "text" ==> (c in df.columns <==> c in original.columns);
    if "category" !in df.columns || "urgency" !in df.columns {
      LabelsRequired(df);
      return None;
    }
    LabelsRequired(df);
    var dropped := DropNa(df, Labelled);
    df := DropBlank(dropped.value, "text");
    var cleaned := df;
    df := Derive(df, "urgency", UrgencyOf);
    var withUrgency := df;
    df := Derive(df, "category", CategoryOf);
    CleanedKept(original, withText, cleaned);
    NormalizedRows(cleaned, withUrgency, df);
    PreparedRows(original, cleaned, df);
    return Some(df);
  }

  /** `dropna` on the three label columns raises exactly when category or urgency is missing. */
  lemma LabelsRequired(f: Frame)
    requires "text" in f.columns
    ensures DropNa(f, Labelled).Failure? <==> "category" !in f.columns || "urgency" !in f.columns
  {
    assert Labelled[0] == "text" && Labelled[1] == "category" && Labelled[2] == "urgency";
  }

  /** The per-row values of the three derived columns. */
  function TextOf(row: Row): Cell {
    Some(CombinedText(row))
  }

  function UrgencyOf(row: Row): Cell {
    Some(NormalizeUrgency(At(row, "urgency")))
  }

  function CategoryOf(row: Row): Cell {
    Some(NormalizeCategory(At(row, "category")))
  }

  /**
   * The rows left after cleaning and normalising are the prepared kept
   * rows, in CSV order, each once for each time it was kept.
   */
  lemma PreparedRows(original: Frame, cleaned: Frame, result: Frame)
    requires cleaned.rows == Seqs.Map(Seqs.Filter(original.rows, Kept), WithCombinedText)
    requires forall x :: x in cleaned.rows <==>
      exists i :: 0 <= i < |original.rows| && Kept(original.rows[i]) && x == WithCombinedText(original.rows[i])
    requires result.rows == Seqs.Map(cleaned.rows, Normalized)
    requires forall row :: row in result.rows <==> exists x :: x in cleaned.rows && row == Normalized(x)
    ensures result.rows == Seqs.Map(Seqs.Filter(original.rows, Kept), Prepared)
    ensures forall row :: row in result.rows <==>
      exists i :: 0 <= i < |original.rows| && Kept(original.rows[i]) && row == Prepared(original.rows[i])
  {
    forall row ensures row in result.rows <==>
      exists i :: 0 <= i < |original.rows| && Kept(original.rows[i]) && row == Prepared(original.rows[i])
    {
      if row in result.rows {
        var x :| x in cleaned.rows && row == Normalized(x);
        var i :| 0 <= i < |original.rows| && Kept(original.rows[i]) && x == WithCombinedText(original.rows[i]);
        assert row == Prepared(original.rows[i]);
      }
      if exists i :: 0 <= i < |original.rows| && Kept(original.rows[i]) && row == Prepared(original.rows[i]) {
        var i :| 0 <= i < |original.rows| && Kept(original.rows[i]) && row == Prepared(original.rows[i]);
        assert WithCombinedText(original.rows[i]) in cleaned.rows;
      }
    }
    PreparedInOrder(original.rows, cleaned.rows, result.rows);
  }

  /** Building the text, then normalising, is preparing, row by row. */
  lemma PreparedInOrder(original: seq<Row>, cleaned: seq<Row>, result: seq<Row>)
    requires cleaned == Seqs.Map(Seqs.Filter(original, Kept), WithCombinedText)
    requires result == Seqs.Map(cleaned, Normalized)
    ensures result == Seqs.Map(Seqs.Filter(original, Kept), Prepared)
  {
    var kept := Seqs.Filter(original, Kept);
    assert forall k :: 0 <= k < |kept| ==> result[k] == Prepared(kept[k]);
  }

  /** Cleaning keeps exactly the text-derived rows of the kept original rows. */
  lemma CleanedKept(original: Frame, withText: Frame, cleaned: Frame)
    requires withText == Derive(original, "text", TextOf)
    requires DropNa(withText, Labelled).Success?
    requires cleaned == DropBlank(DropNa(withText, Labelled).value, "text")
    ensures forall x :: x in cleaned.rows ==> At(x, "text").Some? && !AllSpace(At(x, "text").value)
    ensures forall x :: x in cleaned.rows <==>
      exists i :: 0 <= i < |original.rows| && Kept(original.rows[i]) && x == WithCombinedText(original.rows[i])
    ensures cleaned.rows == Seqs.Map(Seqs.Filter(original.rows, Kept), WithCombinedText)
  {
    CleanedInOrder(original, withText, cleaned);
    forall x ensures x in cleaned.rows <==>
      exists i :: 0 <= i < |original.rows| && Kept(original.rows[i]) && x == WithCombinedText(original.rows[i])
    {
      CleanedMember(original, withText, cleaned, x);
    }
    forall x | x in cleaned.rows ensures At(x, "text").Some? && !AllSpace(At(x, "text").value) {
      NotBlankMeans(x, "text");
      LabelsComplete(x);
    }
  }

  /** The rows that pass both cleaning steps of `load_and_prepare_data`. */
  predicate PassesCleaning(row: Row) {
    Complete(row, Labelled) && NotBlank(row, "text")
  }

  /** Cleaning keeps the text-derived kept rows in CSV order, each as often as it occurs. */
  lemma CleanedInOrder(original: Frame, withText: Frame, cleaned: Frame)
    requires withText == Derive(original, "text", TextOf)
    requires DropNa(withText, Labelled).Success?
    requires cleaned == DropBlank(DropNa(withText, Labelled).value, "text")
    ensures cleaned.rows == Seqs.Map(Seqs.Filter(original.rows, Kept), WithCombinedText)
  {
    assert withText.rows == Seqs.Map(original.rows, WithCombinedText);
    DropNaThenBlank(withText, Labelled, PassesCleaning);
    forall x | x in original.rows ensures PassesCleaning(WithCombinedText(x)) <==> Kept(x) {
      KeptMeans(x);
    }
    Seqs.FilterMap(original.rows, WithCombinedText, Kept, PassesCleaning);
  }

  lemma CleanedMember(original: Frame, withText: Frame, cleaned: Frame, x: Row)
    requires withText == Derive(original, "text", TextOf)
    requires DropNa(withText, Labelled).Success?
    requires cleaned == DropBlank(DropNa(withText, Labelled).value, "text")
    ensures x in cleaned.rows <==>
      exists i :: 0 <= i < |original.rows| && Kept(original.rows[i]) && x == WithCombinedText(original.rows[i])
  {
    assert x in cleaned.rows <==> x in withText.rows && Complete(x, Labelled) && NotBlank(x, "text");
    if x in cleaned.rows {
      var i :| 0 <= i < |withText.rows| && withText.rows[i] == x;
      assert x == WithCombinedText(original.rows[i]);
      KeptMeans(original.rows[i]);
    }
    if exists i :: 0 <= i < |original.rows| && Kept(original.rows[i]) && x == WithCombinedText(original.rows[i]) {
      var i :| 0 <= i < |original.rows| && Kept(original.rows[i]) && x == WithCombinedText(original.rows[i]);
      assert withText.rows[i] == x;
      KeptMeans(original.rows[i]);
    }
  }

  /** A row is kept exactly when its text-derived form passes both cleaning steps. */
  lemma KeptMeans(row: Row)
    ensures var x := WithCombinedText(row);
      Kept(row) <==> Complete(x, Labelled) && NotBlank(x, "text")
  {
    var x := WithCombinedText(row);
    var s := FillNa(At(row, "title")) + " " + FillNa(At(row, "body"));
    assert At(x, "text") == Some(Strip(s));
    assert At(x, "category") == At(row, "category") && At(x, "urgency") == At(row, "urgency");
    LabelsComplete(x);
    NotBlankMeans(x, "text");
    StripBlankMeans(s);
  }

  /** Normalising the labels maps the cleaned rows one by one onto clean rows. */
  lemma NormalizedRows(cleaned: Frame, withUrgency: Frame, result: Frame)
    requires forall x :: x in cleaned.rows ==> At(x, "text").Some? && !AllSpace(At(x, "text").value)
    requires withUrgency == Derive(cleaned, "urgency", UrgencyOf)
    requires result == Derive(withUrgency, "category", CategoryOf)
    ensures forall row :: row in result.rows ==> Clean(row)
    ensures forall row :: row in result.rows <==> exists x :: x in cleaned.rows && row == Normalized(x)
    ensures result.rows == Seqs.Map(cleaned.rows, Normalized)
  {
    NormalizedInOrder(cleaned, withUrgency, result);
    forall row | row in result.rows ensures Clean(row) && exists x :: x in cleaned.rows && row == Normalized(x) {
      var i :| 0 <= i < |result.rows| && result.rows[i] == row;
      assert cleaned.rows[i] in cleaned.rows;
      NormalizedClean(cleaned.rows[i]);
    }
    forall x | x in cleaned.rows ensures Normalized(x) in result.rows {
      var i :| 0 <= i < |cleaned.rows| && cleaned.rows[i] == x;
      assert result.rows[i] == Normalized(x);
    }
  }

  /** A row with non-blank text is clean once its labels are normalised. */
  lemma NormalizedClean(x: Row)
    requires At(x, "text").Some? && !AllSpace(At(x, "text").value)
    ensures Clean(Normalized(x))
  {
    var withUrgency := Set(x, "urgency", Some(NormalizeUrgency(At(x, "urgency"))));
    assert At(withUrgency, "text") == At(x, "text");
  }

  /** The two label mappings normalise the cleaned rows position by position. */
  lemma NormalizedInOrder(cleaned: Frame, withUrgency: Frame, result: Frame)
    requires withUrgency == Derive(cleaned, "urgency", UrgencyOf)
    requires result == Derive(withUrgency, "category", CategoryOf)
    ensures result.rows == Seqs.Map(cleaned.rows, Normalized)
  {
    var normalized := Seqs.Map(cleaned.rows, Normalized);
    forall i | 0 <= i < |cleaned.rows| ensures result.rows[i] == normalized[i] {
      assert withUrgency.rows[i] == Set(cleaned.rows[i], "urgency", UrgencyOf(cleaned.rows[i]));
    }
  }

  lemma LabelsComplete(row: Row)
    ensures Complete(row, Labelled) <==>
      At(row, "text").Some? && At(row, "category").Some? && At(row, "urgency").Some?
  {
    assert Labelled[0] == "text" && Labelled[1] == "category" && Labelled[2] == "urgency";
  }

  /** A stripped text is blank exactly when it is empty. */
  lemma StripBlankMeans(s: string)
    ensures AllSpace(Strip(s)) <==> Strip(s) == ""
  {
    if Strip(s) != "" {
      assert !IsSpace(Strip(s)[0]);
    }
  }

  /* ---------------- split choice ---------------- */

  /**
   * `train_models`' split: at least four rows give a split stratified on
   * both labels, or an unstratified one when that raises `ValueError`;
   * fewer rows serve as both training and test set.
   */
  function ChooseSplit(df: Frame, raises: bool): (r: Split)
    ensures r == WholeAsBoth <==> |df.rows| < 4
    ensures r == Stratified(OnBoth) <==> |df.rows| >= 4 && !raises
    ensures r == Plain <==> |df.rows| >= 4 && raises
  {
    if |df.rows| >= 4 then (if raises then Plain else Stratified(OnBoth)) else WholeAsBoth
  }

  /* ---------------- saved files ---------------- */

  /** The directory the script saves into. */
  const Dir: string := "models"

  /** The joblib files `train_models` writes, as written. */
  function SavedFilesAsWritten(): seq<string> {
    [Dir + "/tfidf_vectorizer.joblib", Dir + "/type_classifier.joblib",
     Dir + "/urgency_classifier.joblib", Dir + "/type_label_encoder.joblib",
     Dir + "/urgency_label_encoder.joblib"]
  }

  /**
   * With the files as written, a classifier started afterwards (in a
   * directory that did not already hold its own files) loads the
   * vectorizer, fails on `type_clf_lr.joblib` and is not ready.
   */
  lemma {:induction false} AsWrittenNotLoadable(fs: set<string>)
    requires Classifier.ModelFiles(Dir)[1] !in fs
    ensures var after := fs + {Dir} + set f | f in SavedFilesAsWritten();
      && Classifier.PresentPrefix(Classifier.ModelFiles(Dir), after) == 1
      && !(forall f :: f in Classifier.ModelFiles(Dir) ==> f in after)
  {
    var after := fs + {Dir} + set f | f in SavedFilesAsWritten();
    var files := Classifier.ModelFiles(Dir);
    assert files[0] == SavedFilesAsWritten()[0] && files[0] in after;
    assert forall f :: f in SavedFilesAsWritten() ==> |f| != |files[1]|;
    assert files[1] !in after;
    assert Classifier.PresentPrefix(files[1..], after) == 0;
  }

  /**
   * The files written under the names `TicketClassifier` reads: each one
   * of them is saved.
   */
  function SavedFiles(): (r: seq<string>)
    ensures |r| == 5
    ensures forall f :: f in Classifier.ModelFiles(Dir) ==> f in r
  {
    [Dir + "/tfidf_vectorizer.joblib", Dir + "/type_clf_lr.joblib",
     Dir + "/urgency_clf_lr.joblib", Dir + "/type_label_encoder.joblib",
     Dir + "/urgency_label_encoder.joblib"]
  }

  /** After the corrected script, a classifier started in the same directory loads all five components. */
  lemma SavedFilesLoad(fs: set<string>)
    ensures var after := fs + {Dir} + set f | f in SavedFiles();
      Classifier.PresentPrefix(Classifier.ModelFiles(Dir), after) == 5
  {
    var after := fs + {Dir} + set f | f in SavedFiles();
    Classifier.AllPresentLoadsAll(Classifier.ModelFiles(Dir), after);
  }
}
