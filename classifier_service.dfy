/**
 * python/main.py: the HTTP service in front of the classifier. At start-up
 * it loads the models (training them when they are missing); `POST
 * /classify` checks the shared key, joins title and message, and answers
 * with the lower-cased labels and their confidences.
 */
module ClassifierService {
  import opened Wrappers
  import opened PyText
  import opened Frames
  import opened Classifier

  /** The request body; `title` may be absent. */
  datatype ClassifyIn = ClassifyIn(title: Option<string>, message: string)

  datatype ClassifyOut = ClassifyOut(
    department: string, priority: string, confidenceType: real, confidenceUrgency: real)

  /** The answer for a request without any text. */
  const Unclassified: ClassifyOut := ClassifyOut("other", "medium", 0.0, 0.0)

  /** The classifier key is configured and the request's header does not match it. */
  predicate Refused(key: Option<string>, header: Option<string>) {
    Given(key) && header != key
  }

  /** `((title or "") + " " + (message or "")).strip()`. */
  function RequestText(body: ClassifyIn): (text: string)
    ensures text == [] <==> AllSpace(body.title.GetOr("")) && AllSpace(body.message)
    ensures text == [] || (!IsSpace(text[0]) && !IsSpace(text[|text| - 1]))
  {
    StripJoinedBlank(body.title.GetOr(""), " ", body.message);
    Strip(body.title.GetOr("") + " " + body.message)
  }

  /**
   * `classify`: 401 when the key is set and the header differs; the fixed
   * "other"/"medium" answer for a request with no text, whatever state the
   * classifier is in; otherwise the prediction, refused (FastAPI's 500)
   * while the classifier is not ready or holds a component whose fit
   * raised, with both labels lower-cased.
   */
  function Classify(key: Option<string>, header: Option<string>, body: ClassifyIn,
                    clf: TicketClassifier, model: Model): (r: Response<ClassifyOut>)
    reads clf
    ensures Refused(key, header) ==> r == Fail(401, "Unauthorized classifier key")
    ensures !Refused(key, header) && AllSpace(body.title.GetOr("")) && AllSpace(body.message) ==>
      r == Ok(Unclassified)
    ensures !Refused(key, header) && !(AllSpace(body.title.GetOr("")) && AllSpace(body.message)) ==>
      (r.Ok? <==> clf.IsReady() && !clf.HasUnfitted()) && (r.Fail? ==> r.status == 500)
    ensures r.Ok? ==>
      && (forall i :: 0 <= i < |r.body.department| ==> !IsUpper(r.body.department[i]))
      && (forall i :: 0 <= i < |r.body.priority| ==> !IsUpper(r.body.priority[i]))
    ensures r.Ok? && !(AllSpace(body.title.GetOr("")) && AllSpace(body.message)) ==>
      var p := model(RequestText(body));
      && |r.body.department| == |p.typeLabel| && |r.body.priority| == |p.urgencyLabel|
      && r.body.confidenceType == p.typeConfidence
      && r.body.confidenceUrgency == p.urgencyConfidence
  {
    if Refused(key, header) then Fail(401, "Unauthorized classifier key")
    else
      var text := RequestText(body);
      if text == [] then Ok(Unclassified)
      else
        match clf.Predict(text, model)
        case Failure(_) => Fail(500, "Internal Server Error")
        case Success(p) =>
          Ok(ClassifyOut(Lower(p.typeLabel), Lower(p.urgencyLabel), p.typeConfidence, p.urgencyConfidence))
  }

  /** A label the model already gives in lower case reaches the caller unchanged. */
  lemma {:induction false} LowerLabelsPassThrough(key: Option<string>, header: Option<string>,
                                                  body: ClassifyIn, clf: TicketClassifier, model: Model)
    requires !Refused(key, header) && clf.IsReady() && !clf.HasUnfitted()
    requires RequestText(body) != []
    requires var p := model(RequestText(body));
      && (forall i :: 0 <= i < |p.typeLabel| ==> !IsUpper(p.typeLabel[i]))
      && (forall i :: 0 <= i < |p.urgencyLabel| ==> !IsUpper(p.urgencyLabel[i]))
    ensures var p := model(RequestText(body));
      Classify(key, header, body, clf, model) ==
        Ok(ClassifyOut(p.typeLabel, p.urgencyLabel, p.typeConfidence, p.urgencyConfidence))
  {
    var p := model(RequestText(body));
    LowerFixes(p.typeLabel);
    LowerFixes(p.urgencyLabel);
  }

  /**
   * Module start-up: build the classifier (which loads what it can from
   * `models`), and train it when it is not ready. A training that raises
   * stops the service from starting (`up` is false).
   */
  method Startup(fs: set<string>, downloads: ReadOutcome, local: ReadOutcome,
                 raises: Stratify -> bool, fitFault: Option<FitStep>)
    returns (clf: TicketClassifier, up: bool)
    ensures fresh(clf)
    ensures clf.modelsDir == "models"
    ensures up ==> clf.IsReady() && !clf.HasUnfitted()
    ensures "models" in fs && (forall f :: f in ModelFiles("models") ==> f in fs) ==>
      up && clf.Components() == LoadedFrom(ModelFiles("models"))
  {
    clf := new TicketClassifier("models", fs);
    if clf.IsReady() {
      AllPresentLoadsAll(ModelFiles("models"), fs);
      return clf, true;
    }
    var r := clf.Train(downloads, local, raises, fitFault);
    up := r.Success?;
  }
}
