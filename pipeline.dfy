/** The server's reply as the client reads it: the JSON body of a `Response` of
    the classification endpoint becomes the `Reply` that `classifyObject`
    receives, and the result view is rendered from the session it leaves. */
module Pipeline {
  import opened Wrappers
  import opened Taxonomy
  import Classifier
  import opened WasteContext
  import ClassificationResult
  import ResultsPanel

  /** The client's view of a server response: `ok` is a 2xx status; an error body
      carries `success: false` and nothing the client reads; a result body
      carries no `components`. */
  function ToReply(r: Classifier.Response): Reply {
    match r.body
    case ErrorBody(_) => Received(200 <= r.status < 300, ReplyData(false, "", 0, None, None))
    case ResultBody(c, objectName, _, confidence) =>
      Received(200 <= r.status < 300, ReplyData(true, objectName, confidence, Some(c), None))
  }

  /** Every category the server can publish is one the client offers for correction. */
  lemma ServerCategoriesOffered(c: Category)
    requires c in Classifier.WasteCategories || c == Classifier.Unclassified
    ensures c in WasteCategories
  {
  }

  /** A rejected or failed request (status 400 or 500) leaves the session as it
      was and `classifyObject` returns nothing. */
  lemma ErrorsLeaveSession(s: SessionState, url: string, imageUrl: Option<string>, outcome: Classifier.Outcome, draw: nat)
    requires draw < 20
    ensures var r := Classifier.Respond(imageUrl, outcome, draw);
      r.status != 200 ==> Classified(s, Some(url), ToReply(r)) == (s, None)
  {
  }

  /** A successful response stores the server's classification, object name and
      confidence; since it carries no components, the stored list is empty and
      the detected object's reason is "": the server's `reason` never reaches the
      session, and the view falls back to the fixed sentence. */
  lemma ServerReasonDropped(s: SessionState, url: string, imageUrl: Option<string>, outcome: Classifier.Outcome, draw: nat)
    requires draw < 20
    ensures var r := Classifier.Respond(imageUrl, outcome, draw);
      var (t, returned) := Classified(s, Some(url), ToReply(r));
      r.status == 200 ==>
        && returned == Some(r.body.classification)
        && t.classification == Some(r.body.classification)
        && t.detectedObject == Some(DetectedObject(url, r.body.objectName, r.body.confidence, ""))
        && t.components == []
        && ClassificationResult.Render(t).Some?
        && ClassificationResult.Render(t).value.details == ClassificationResult.Summary(ClassificationResult.NoDetails)
  {
    var r := Classifier.Respond(imageUrl, outcome, draw);
    if r.status == 200 {
      ResultStored(s, url, r);
    }
  }

  lemma ResultStored(s: SessionState, url: string, r: Classifier.Response)
    requires r.status == 200 && r.body.ResultBody?
    ensures var (t, returned) := Classified(s, Some(url), ToReply(r));
      && returned == Some(r.body.classification)
      && t.classification == Some(r.body.classification)
      && t.detectedObject == Some(DetectedObject(url, r.body.objectName, r.body.confidence, ""))
      && t.components == []
      && ClassificationResult.Render(t).Some?
      && ClassificationResult.Render(t).value.details == ClassificationResult.Summary(ClassificationResult.NoDetails)
  {
  }

  /** Whatever the server publishes, the view shows the published category's
      name and a non-empty disposal instruction. */
  lemma PublishedHasInstruction(s: SessionState, url: string, imageUrl: Option<string>, outcome: Classifier.Outcome, draw: nat)
    requires draw < 20
    ensures var r := Classifier.Respond(imageUrl, outcome, draw);
      var t := Classified(s, Some(url), ToReply(r)).0;
      r.status == 200 ==>
        && ClassificationResult.Render(t).Some?
        && ClassificationResult.Render(t).value.categoryName == r.body.classification.name
        && ClassificationResult.Render(t).value.instruction != ""
  {
    var r := Classifier.Respond(imageUrl, outcome, draw);
    if r.status == 200 {
      Classifier.PublishedClassification(imageUrl, outcome, draw);
      ResultShown(s, url, r);
    }
  }

  lemma ResultShown(s: SessionState, url: string, r: Classifier.Response)
    requires r.status == 200 && r.body.ResultBody?
    requires r.body.classification in Classifier.WasteCategories || r.body.classification == Classifier.Unclassified
    ensures var t := Classified(s, Some(url), ToReply(r)).0;
      && ClassificationResult.Render(t).Some?
      && ClassificationResult.Render(t).value.categoryName == r.body.classification.name
      && ClassificationResult.Render(t).value.instruction != ""
  {
    ServerCategoriesOffered(r.body.classification);
    ClassificationResult.EveryCategoryHasInstruction(r.body.classification);
  }

  /** The two components that read the session agree on when to show
      themselves: the panel is hidden exactly when no result is rendered. */
  lemma SharedGuard(s: SessionState, p: ResultsPanel.Panel)
    ensures ResultsPanel.Render(s, p) == ResultsPanel.Hidden <==> ClassificationResult.Render(s) == None
  {
  }
}
