/**
 * ticket_classifier.py: the `TicketClassifier` the classifier service keeps
 * in memory. It holds five fitted components (a TF-IDF vectorizer, two
 * logistic-regression classifiers and two label encoders), loads them from
 * a models directory, or trains them from the first training data it finds.
 *
 * The numerics of fitting and predicting are not modelled: a fitted
 * component is an opaque value, and what a prediction computes is a
 * parameter.
 */
module Classifier {
  import opened Wrappers
  import opened PyText
  import opened Frames
  import Seqs

  /** A scikit-learn object held by the classifier. */
  datatype Component = Loaded(path: string) | Unfitted | Fitted

  /** What `predict` returns: the two decoded labels and their confidences. */
  datatype Prediction = Prediction(
    typeLabel: string, urgencyLabel: string, typeConfidence: real, urgencyConfidence: real)

  /** The prediction numerics (vectorize, `predict_proba`, decode). */
  type Model = string -> Prediction

  const NotTrained: string := "Models not trained. Call train() first."
  const NotFitted: string := "NotFittedError"

  /** The joblib files `_load_models` reads, in the order it reads them. */
  function ModelFiles(dir: string): seq<string> {
    [dir + "/tfidf_vectorizer.joblib", dir + "/type_clf_lr.joblib", dir + "/urgency_clf_lr.joblib",
     dir + "/type_label_encoder.joblib", dir + "/urgency_label_encoder.joblib"]
  }

  /**
   * How many of `files`, counted from the first, load: `joblib.load` raises
   * on the first file that is missing (or unreadable), and the loads after
   * it never happen.
   */
  function PresentPrefix(files: seq<string>, fs: set<string>): (n: nat)
    ensures n <= |files|
    ensures forall k :: 0 <= k < n ==> files[k] in fs
    ensures n < |files| ==> files[n] !in fs
  {
    if files == [] || files[0] !in fs then 0 else 1 + PresentPrefix(files[1..], fs)
  }

  /** The components as loaded from `files`. */
  function LoadedFrom(files: seq<string>): (r: seq<Option<Component>>)
    ensures |r| == |files|
    ensures forall k :: 0 <= k < |files| ==> r[k] == Some(Loaded(files[k]))
  {
    seq(|files|, k requires 0 <= k < |files| => Some(Loaded(files[k])))
  }

  /** A directory holding every model file loads completely. */
  lemma {:induction false} AllPresentLoadsAll(files: seq<string>, fs: set<string>)
    requires forall f :: f in files ==> f in fs
    ensures PresentPrefix(files, fs) == |files|
  {
    if files != [] {
      AllPresentLoadsAll(files[1..], fs);
    }
  }

  /* ---------------- training data ---------------- */

  /** The outcome of `os.path.exists` plus `pd.read_csv` on one path. */
  datatype ReadOutcome = Absent | Unreadable | Read(frame: Frame)

  datatype Source = Downloads | LocalFile | BuiltInSample

  /**
   * `_load_training_data`: the file in the Downloads folder if it reads,
   * otherwise the local CSV if it reads, otherwise the built-in sample.
   */
  function TrainingData(downloads: ReadOutcome, local: ReadOutcome): (r: (Frame, Source))
    ensures r.1 == Downloads <==> downloads.Read?
    ensures r.1 == LocalFile <==> !downloads.Read? && local.Read?
    ensures r.1 == BuiltInSample <==> !downloads.Read? && !local.Read?
    ensures r.0 == match r.1
      case Downloads => downloads.frame
      case LocalFile => local.frame
      case BuiltInSample => SampleData()
  {
    if downloads.Read? then (downloads.frame, Downloads)
    else if local.Read? then (local.frame, LocalFile)
    else (SampleData(), BuiltInSample)
  }

  /** `_get_sample_data`: twenty labelled tickets (text, category, urgency). */
  const SampleTickets: seq<(string, string, string)> := [
    ("Laptop won't boot, black screen, fans spin", "hardware", "high"),
    ("Cannot login to email, password not accepted", "account", "high"),
    ("VPN connection drops intermittently", "network", "medium"),
    ("Application crashes on save with stacktrace error", "software", "high"),
    ("Mouse not recognized after Windows update", "hardware", "medium"),
    ("Request to install Photoshop for designer", "software", "low"),
    ("Disk health warning, SMART reported failing sectors", "hardware", "high"),
    ("Slow internet speed on floor 3", "network", "medium"),
    ("Printer not responding to print jobs", "hardware", "medium"),
    ("Database connection timeout errors", "software", "high"),
    ("WiFi keeps disconnecting from network", "network", "medium"),
    ("Software license expired notification", "software", "low"),
    ("Hard drive making clicking noises", "hardware", "high"),
    ("Cannot access shared network drive", "network", "medium"),
    ("Application freezes when opening large files", "software", "medium"),
    ("Monitor display flickering intermittently", "hardware", "medium"),
    ("Email server not responding", "network", "high"),
    ("Router needs firmware update", "network", "low"),
    ("Software installation failed with error code", "software", "medium"),
    ("Keyboard keys not responding properly", "hardware", "low")]

  function SampleRow(text: string, category: string, urgency: string): Row {
    Row(map["text" := Some(text), "category" := Some(category), "urgency" := Some(urgency)])
  }

  /** The `i`-th sample ticket as a row. */
  function SampleRowAt(i: nat): Row {
    if i < |SampleTickets| then SampleRow(SampleTickets[i].0, SampleTickets[i].1, SampleTickets[i].2)
    else Row(map[])
  }

  /**
   * The first `n` sample tickets as a frame; the scripts' own samples are
   * the first eight.
   */
  function SampleFrame(n: nat): Frame {
    Frame(["text", "category", "urgency"], seq(n, i requires 0 <= i => SampleRowAt(i)))
  }

  /** The frame `_get_sample_data` returns. */
  function SampleData(): Frame {
    SampleFrame(20)
  }

  /* ---------------- preprocessing ---------------- */

  const TextKeywords: seq<string> := ["text", "description", "message", "content"]

  /** Where `_preprocess_data` takes the ticket text from. */
  datatype TextSource =
    | TitleAndBody          // `title + ' ' + body`, NaN read as ''
    | Filled(column: string) // one column, NaN read as ''
    | AsIs                  // the frame's own `text` column, untouched

  /**
   * The text column rule: `title` and `body` together, else `description`,
   * else an existing `text` column, else the first column whose name
   * mentions a text keyword; with none of these there is no text.
   */
  function TextRule(columns: seq<string>): (r: Option<TextSource>)
    ensures r == Some(TitleAndBody) <==> "title" in columns && "body" in columns
    ensures r == Some(Filled("description")) <==>
      !("title" in columns && "body" in columns) && "description" in columns
    ensures r == Some(AsIs) <==>
      !("title" in columns && "body" in columns) && "description" !in columns && "text" in columns
    ensures r.None? <==>
      && !("title" in columns && "body" in columns)
      && "description" !in columns && "text" !in columns
      && (forall c :: c in columns ==> !MentionsAny(c, TextKeywords))
    ensures r.Some? && r.value.Filled? && r.value.column != "description" ==>
      exists i :: 0 <= i < |columns| && columns[i] == r.value.column &&
        MentionsAny(columns[i], TextKeywords) &&
        (forall j :: 0 <= j < i ==> !MentionsAny(columns[j], TextKeywords))
  {
    if "title" in columns && "body" in columns then Some(TitleAndBody)
    else if "description" in columns then Some(Filled("description"))
    else if "text" !in columns then
      var candidates := KeywordColumns(columns, TextKeywords);
      if candidates != [] then Some(Filled(candidates[0])) else None
    else Some(AsIs)
  }

  /** The text a row gets under `source`. */
  function TextCell(source: TextSource, row: Row): Cell {
    match source
    case TitleAndBody => Some(FillNa(At(row, "title")) + " " + FillNa(At(row, "body")))
    case Filled(c) => Some(FillNa(At(row, c)))
    case AsIs => At(row, "text")
  }

  /** A row with its text in place. */
  function WithText(source: TextSource, row: Row): Row {
    if source == AsIs then row else Set(row, "text", TextCell(source, row))
  }

  /** Every row with its text in place, in order. */
  function TextRows(source: TextSource, rows: seq<Row>): (r: seq<Row>)
    ensures |r| == |rows|
    ensures forall i :: 0 <= i < |rows| ==> r[i] == WithText(source, rows[i])
  {
    seq(|rows|, i requires 0 <= i < |rows| => WithText(source, rows[i]))
  }

  /** The row survives cleaning: text, category and urgency present, text not blank. */
  predicate Usable(row: Row) {
    && At(row, "text").Some? && At(row, "category").Some? && At(row, "urgency").Some?
    && !AllSpace(At(row, "text").value)
  }

  const Labelled: seq<string> := ["text", "category", "urgency"]

  /**
   * `_preprocess_data`: build the text column, then drop the rows missing
   * text, category or urgency and the rows whose text is blank. Raises
   * `ValueError` without a text source, and `KeyError` (from `dropna`) when
   * the frame has no `category` or `urgency` column.
   */
  function Preprocess(df: Frame): (r: Result<Frame, string>)
    ensures r.Failure? <==>
      TextRule(df.columns).None? || "category" !in df.columns || "urgency" !in df.columns
    ensures TextRule(df.columns).None? ==> r == Failure("No suitable text column found")
    ensures r.Success? ==>
      var source := TextRule(df.columns).value;
      && "text" in r.value.columns
      && (forall row :: row in r.value.rows ==> Usable(row))
      && (forall row :: row in r.value.rows <==>
            exists i :: 0 <= i < |df.rows| && row == WithText(source, df.rows[i]) && Usable(row))
      && r.value.rows == Seqs.Filter(TextRows(source, df.rows), Usable)
  {
    match TextRule(df.columns)
    case None => Failure("No suitable text column found")
    case Some(source) =>
      var withText := if source == AsIs then df else Derive(df, "text", row => TextCell(source, row));
      assert |withText.rows| == |df.rows|;
      assert forall i :: 0 <= i < |df.rows| ==> withText.rows[i] == WithText(source, df.rows[i]);
      assert "text" in withText.columns;
      assert forall c :: c != "text" ==> (c in withText.columns <==> c in df.columns);
      LabelledColumns(withText);
      var dropped := DropNa(withText, Labelled);
      if dropped.Failure? then Failure("KeyError")
      else
        var cleaned := DropBlank(dropped.value, "text");
        CleanedRows(df, source, withText, cleaned);
        Success(cleaned)
  }

  /**
   * The two cleaning steps keep exactly the usable rows, in their order and
   * with their multiplicity.
   */
  lemma CleanedRows(df: Frame, source: TextSource, withText: Frame, cleaned: Frame)
    requires |withText.rows| == |df.rows|
    requires forall i :: 0 <= i < |df.rows| ==> withText.rows[i] == WithText(source, df.rows[i])
    requires DropNa(withText, Labelled).Success?
    requires cleaned == DropBlank(DropNa(withText, Labelled).value, "text")
    ensures cleaned.rows == Seqs.Filter(TextRows(source, df.rows), Usable)
    ensures forall row :: row in cleaned.rows <==>
      exists i :: 0 <= i < |df.rows| && row == WithText(source, df.rows[i]) && Usable(row)
  {
    assert withText.rows == TextRows(source, df.rows);
    UsableIsCleaned(withText.rows);
    DropNaThenBlank(withText, Labelled, Usable);
    KeptTextRows(source, df.rows);
  }

  /** On every row, `Usable` is the test the two cleaning steps apply together. */
  lemma UsableIsCleaned(rows: seq<Row>)
    ensures forall row :: row in rows ==> (Usable(row) <==> Complete(row, Labelled) && NotBlank(row, "text"))
  {
    forall row | row in rows
      ensures Usable(row) <==> Complete(row, Labelled) && NotBlank(row, "text")
    {
      NotBlankMeans(row, "text");
      LabelledComplete(row);
    }
  }

  /** The usable text rows are the usable rows built from some input row. */
  lemma KeptTextRows(source: TextSource, rows: seq<Row>)
    ensures forall row :: row in Seqs.Filter(TextRows(source, rows), Usable) <==>
      exists i :: 0 <= i < |rows| && row == WithText(source, rows[i]) && Usable(row)
  {
    var built := TextRows(source, rows);
    Seqs.FilterExactly(built, Usable);
    forall row ensures row in built <==> exists i :: 0 <= i < |rows| && row == WithText(source, rows[i]) {
      if row in built {
        var i :| 0 <= i < |built| && built[i] == row;
      }
    }
  }

  lemma LabelledColumns(f: Frame)
    requires "text" in f.columns
    ensures DropNa(f, Labelled).Failure? <==> "category" !in f.columns || "urgency" !in f.columns
  {
    assert Labelled[0] == "text" && Labelled[1] == "category" && Labelled[2] == "urgency";
  }

  lemma LabelledComplete(row: Row)
    ensures Complete(row, Labelled) <==>
      At(row, "text").Some? && At(row, "category").Some? && At(row, "urgency").Some?
  {
    assert Labelled[0] == "text" && Labelled[1] == "category" && Labelled[2] == "urgency";
  }

  /* ---------------- split choice ---------------- */

  /**
   * `train`'s split: with fewer than two rows the whole frame is used for
   * both sets; with at least four rows and both label columns holding two
   * values or more, a split stratified on both; otherwise, and when that
   * split raises `ValueError`, an unstratified split.
   */
  function ChooseSplit(df: Frame, raises: Stratify -> bool): (r: Split)
    ensures r == WholeAsBoth <==> |df.rows| < 2
    ensures r.Stratified? ==> r.on == OnBoth && |df.rows| >= 4 && Diverse(df, OnBoth) && !raises(OnBoth)
    ensures r == Plain <==>
      |df.rows| >= 2 && !(|df.rows| >= 4 && Diverse(df, OnBoth) && !raises(OnBoth))
  {
    if |df.rows| < 2 then WholeAsBoth
    else if TwoDistinct(Types(df)) && TwoDistinct(Urgencies(df)) && |df.rows| >= 4 then
      if raises(OnBoth) then Plain else Stratified(OnBoth)
    else Plain
  }

  /**
   * The step of `train` that raises `ValueError`, if one does: one of the
   * three fits, or the classification report on the test set, which raises
   * when the test labels and predictions together miss one of the
   * encoder's classes.
   */
  datatype FitStep = VectorizerFit | TypeFit | UrgencyFit | Report

  class TicketClassifier {
    const modelsDir: string
    var tfidf: Option<Component>
    var typeClf: Option<Component>
    var urgencyClf: Option<Component>
    var typeLe: Option<Component>
    var urgencyLe: Option<Component>

    /** The five components in load order. */
    function Components(): seq<Option<Component>>
      reads this
    {
      [tfidf, typeClf, urgencyClf, typeLe, urgencyLe]
    }

    /** `is_ready`: every component is present. */
    predicate IsReady()
      reads this
    {
      tfidf.Some? && typeClf.Some? && urgencyClf.Some? && typeLe.Some? && urgencyLe.Some?
    }

    /** A component was stored but its fit raised; using it raises `NotFittedError`. */
    predicate HasUnfitted()
      reads this
    {
      Some(Unfitted) in Components()
    }

    /** `__init__`: every component absent, then `_load_models`. */
    constructor(modelsDir: string, fs: set<string>)
      ensures this.modelsDir == modelsDir
      ensures var n := if modelsDir in fs then PresentPrefix(ModelFiles(modelsDir), fs) else 0;
        Components() == LoadedFrom(ModelFiles(modelsDir))[..n] + [None, None, None, None, None][n..]
      ensures IsReady() <==> modelsDir in fs && forall f :: f in ModelFiles(modelsDir) ==> f in fs
    {
      this.modelsDir := modelsDir;
      tfidf, typeClf, urgencyClf, typeLe, urgencyLe := None, None, None, None, None;
      new;
      var _ := LoadModels(fs);
    }

    /**
     * `_load_models`: when the directory exists, load the five files in
     * order; the first that fails ends the loading (the exception is
     * caught) and leaves the components loaded so far in place.
     */
    method LoadModels(fs: set<string>) returns (ok: bool)
      modifies this
      ensures var n := if modelsDir in fs then PresentPrefix(ModelFiles(modelsDir), fs) else 0;
        Components() == LoadedFrom(ModelFiles(modelsDir))[..n] + old(Components())[n..]
      ensures ok <==> modelsDir in fs && forall f :: f in ModelFiles(modelsDir) ==> f in fs
      ensures ok ==> IsReady()
      ensures !ok && old(Components()) == [None, None, None, None, None] ==> !IsReady()
    {
      var files := ModelFiles(modelsDir);
      if modelsDir !in fs {
        return false;
      }
      if files[0] !in fs { return false; }
      tfidf := Some(Loaded(files[0]));
      if files[1] !in fs { return false; }
      typeClf := Some(Loaded(files[1]));
      if files[2] !in fs { return false; }
      urgencyClf := Some(Loaded(files[2]));
      if files[3] !in fs { return false; }
      typeLe := Some(Loaded(files[3]));
      if files[4] !in fs { return false; }
      urgencyLe := Some(Loaded(files[4]));
      return true;
    }

    /**
     * `train`: load and preprocess the training data (their exceptions
     * propagate), then fit. Saving the models is left out.
     */
    method Train(downloads: ReadOutcome, local: ReadOutcome, raises: Stratify -> bool,
                 fitFault: Option<FitStep>)
      returns (r: Result<Split, string>)
      modifies this
      ensures Preprocess(TrainingData(downloads, local).0).Failure? ==>
        && r == Failure(Preprocess(TrainingData(downloads, local).0).error)
        && Components() == old(Components())
      ensures Preprocess(TrainingData(downloads, local).0).Success? ==>
        Fitting(Preprocess(TrainingData(downloads, local).0).value, raises, fitFault,
                old(typeClf), old(urgencyClf), r)
      ensures r.Success? ==> IsReady() && !HasUnfitted()
    {
      var data := TrainingData(downloads, local);
      var pre := Preprocess(data.0);
      if pre.Failure? {
        return Failure(pre.error);
      }
      r := Fit(pre.value, raises, fitFault);
    }

    /**
     * The state `train` leaves after preprocessing succeeded: both label
     * encoders fitted, then the vectorizer and the two classifiers in turn,
     * each stored before it is fitted, so a fit that raises `ValueError`
     * leaves the ones before it replaced and the ones after it as they were.
     * A report that raises comes after all three fits.
     */
    ghost predicate Fitting(df: Frame, raises: Stratify -> bool, fitFault: Option<FitStep>,
                            oldTypeClf: Option<Component>, oldUrgencyClf: Option<Component>,
                            r: Result<Split, string>)
      reads this
    {
      && typeLe == Some(Fitted) && urgencyLe == Some(Fitted)
      && match fitFault
         case None =>
           r == Success(ChooseSplit(df, raises)) && tfidf == typeClf == urgencyClf == Some(Fitted)
         case Some(VectorizerFit) =>
           r == Failure("ValueError") && tfidf == Some(Unfitted) &&
           typeClf == oldTypeClf && urgencyClf == oldUrgencyClf
         case Some(TypeFit) =>
           r == Failure("ValueError") && tfidf == Some(Fitted) && typeClf == Some(Unfitted) &&
           urgencyClf == oldUrgencyClf
         case Some(UrgencyFit) =>
           r == Failure("ValueError") && tfidf == typeClf == Some(Fitted) && urgencyClf == Some(Unfitted)
         case Some(Report) =>
           r == Failure("ValueError") && tfidf == typeClf == urgencyClf == Some(Fitted)
    }

    /** The fitting half of `train`, on the preprocessed frame. */
    method Fit(df: Frame, raises: Stratify -> bool, fitFault: Option<FitStep>)
      returns (r: Result<Split, string>)
      modifies this
      ensures Fitting(df, raises, fitFault, old(typeClf), old(urgencyClf), r)
      ensures r.Success? ==> IsReady() && !HasUnfitted()
    {
      typeLe := Some(Fitted);
      urgencyLe := Some(Fitted);
      var split := ChooseSplit(df, raises);
      tfidf := Some(Unfitted);
      if fitFault == Some(VectorizerFit) { return Failure("ValueError"); }
      tfidf := Some(Fitted);
      typeClf := Some(Unfitted);
      if fitFault == Some(TypeFit) { return Failure("ValueError"); }
      typeClf := Some(Fitted);
      urgencyClf := Some(Unfitted);
      if fitFault == Some(UrgencyFit) { return Failure("ValueError"); }
      urgencyClf := Some(Fitted);
      if fitFault == Some(Report) { return Failure("ValueError"); }
      return Success(split);
    }

    /**
     * `predict`: refused with `ValueError` unless every component is
     * present; a present component whose fit raised makes the vectorizing
     * or `predict_proba` raise `NotFittedError`.
     */
    function Predict(text: string, model: Model): (r: Result<Prediction, string>)
      reads this
      ensures r.Failure? <==> !IsReady() || HasUnfitted()
      ensures !IsReady() ==> r == Failure(NotTrained)
      ensures IsReady() && HasUnfitted() ==> r == Failure(NotFitted)
      ensures r.Success? ==> r.value == model(text)
    {
      if !IsReady() then Failure(NotTrained)
      else if HasUnfitted() then Failure(NotFitted)
      else Success(model(text))
    }

    /** A `train` whose every step succeeded leaves a classifier that predicts. */
    lemma FittedPredicts(df: Frame, raises: Stratify -> bool, oldTypeClf: Option<Component>,
                         oldUrgencyClf: Option<Component>, r: Result<Split, string>,
                         text: string, model: Model)
      requires Fitting(df, raises, None, oldTypeClf, oldUrgencyClf, r)
      ensures r.Success? && Predict(text, model) == Success(model(text))
    {
      assert Components() == [Some(Fitted), Some(Fitted), Some(Fitted), Some(Fitted), Some(Fitted)];
    }

    /**
     * A fit that raised leaves a classifier that cannot predict, even when
     * the loaded components it kept make it look ready.
     */
    lemma FailedFitCannotPredict(df: Frame, raises: Stratify -> bool, step: FitStep,
                                 oldTypeClf: Option<Component>, oldUrgencyClf: Option<Component>,
                                 r: Result<Split, string>, text: string, model: Model)
      requires step != Report
      requires Fitting(df, raises, Some(step), oldTypeClf, oldUrgencyClf, r)
      ensures r.Failure? && Predict(text, model).Failure?
    {
      match step
      case VectorizerFit => assert Components()[0] == Some(Unfitted);
      case TypeFit => assert Components()[1] == Some(Unfitted);
      case UrgencyFit => assert Components()[2] == Some(Unfitted);
    }

    /**
     * A classification report that raises makes `train` raise, yet every
     * component was already fitted, so the classifier still predicts.
     */
    lemma FailedReportStillPredicts(df: Frame, raises: Stratify -> bool, oldTypeClf: Option<Component>,
                                    oldUrgencyClf: Option<Component>, r: Result<Split, string>,
                                    text: string, model: Model)
      requires Fitting(df, raises, Some(Report), oldTypeClf, oldUrgencyClf, r)
      ensures r.Failure? && Predict(text, model) == Success(model(text))
    {
      assert Components() == [Some(Fitted), Some(Fitted), Some(Fitted), Some(Fitted), Some(Fitted)];
    }
  }
}
