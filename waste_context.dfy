/** The shared client session of the waste classifier (src/context/WasteContext.jsx):
    the detected object, its classification, the component breakdown and the
    confetti flag, together with the operations that update them. The upload and
    the call to the classification endpoint are not modelled as I/O: their
    outcomes are inputs of `ClassifyObject`. */
module WasteContext {
  import opened Wrappers
  import opened Taxonomy

  /** The categories the client offers, in display order. */
  const WasteCategories: seq<Category> := [
    Category("recyclable", "Recyclable Waste"),
    Category("organic", "Organic Waste"),
    Category("hazardous", "Hazardous Waste"),
    Category("landfill", "Landfill Waste"),
    Category("solid", "Solid Waste"),
    Category("unknown", "Unclassified Waste")
  ]

  /** The client's categories have distinct ids (they key the choice buttons). */
  lemma ClientIdsDistinct()
    ensures DistinctIds(WasteCategories)
  {
  }

  /** One element of a reply's `components`; an absent name or reason reads as "". */
  datatype Component = Component(name: string, reason: string, classification: Option<Category>)

  datatype DetectedObject = DetectedObject(imageSrc: string, name: string, confidence: int, reason: string)

  /** The JSON body of a classification reply, as far as the client reads it. */
  datatype ReplyData = ReplyData(
    success: bool,
    objectName: string,
    confidence: int,
    classification: Option<Category>,
    components: Option<seq<Component>>)

  /** What the request to the classification endpoint produced: a thrown error
      (network failure, unreadable body), or an HTTP reply with its `ok` flag. */
  datatype Reply = Thrown | Received(ok: bool, data: ReplyData)

  /** A snapshot of the session. */
  datatype SessionState = SessionState(
    detectedObject: Option<DetectedObject>,
    classification: Option<Category>,
    components: seq<Component>,
    showConfetti: bool)

  const Initial := SessionState(None, None, [], false)

  // ---------------------------------------------------------------------------
  // Components.

  /** The filter test: a component is kept when its name or its reason is non-empty. */
  predicate Informative(c: Component) {
    c.name != "" || c.reason != ""
  }

  /** `r` is obtained from `s` by deleting elements (order kept). */
  predicate Subsequence(r: seq<Component>, s: seq<Component>) {
    if r == [] then true
    else if s == [] then false
    else (r[0] == s[0] && Subsequence(r[1..], s[1..])) || Subsequence(r, s[1..])
  }

  /** The informative components, in their original order. */
  function Filtered(cs: seq<Component>): (r: seq<Component>)
    ensures |r| <= |cs|
    ensures forall c :: c in r <==> c in cs && Informative(c)
  {
    if cs == [] then []
    else if Informative(cs[0]) then [cs[0]] + Filtered(cs[1..])
    else Filtered(cs[1..])
  }

  /** Filtering keeps the order of what it keeps: the result is a subsequence of the input. */
  lemma {:induction false} FilteredSubsequence(cs: seq<Component>)
    ensures Subsequence(Filtered(cs), cs)
  {
    if cs != [] {
      FilteredSubsequence(cs[1..]);
      if !Informative(cs[0]) && Filtered(cs[1..]) != [] {
        assert Subsequence(Filtered(cs), cs[1..]);
      }
    }
  }

  /** Each component is kept as many times as it occurs, if informative, and never otherwise. */
  lemma {:induction false} FilteredCounts(cs: seq<Component>, c: Component)
    ensures multiset(Filtered(cs))[c] == if Informative(c) then multiset(cs)[c] else 0
  {
    if cs != [] {
      FilteredCounts(cs[1..], c);
      assert cs == [cs[0]] + cs[1..];
    }
  }

  /** Filtering a filtered list changes nothing. */
  lemma {:induction false} FilteredIdempotent(cs: seq<Component>)
    ensures Filtered(Filtered(cs)) == Filtered(cs)
  {
    if cs != [] {
      FilteredIdempotent(cs[1..]);
      if Informative(cs[0]) {
        assert ([cs[0]] + Filtered(cs[1..]))[1..] == Filtered(cs[1..]);
      }
    }
  }

  /** The first informative component of the list heads the filtered list. */
  lemma FilteredHead(cs: seq<Component>)
    requires cs != [] && Informative(cs[0])
    ensures Filtered(cs) != [] && Filtered(cs)[0] == cs[0]
  {
  }

  // ---------------------------------------------------------------------------
  // The session operations as transitions.

  /** The reason of the first component of the reply (before filtering), or "". */
  function FirstReason(components: Option<seq<Component>>): (r: string)
    ensures components.Some? && components.value != [] ==> r == components.value[0].reason
    ensures components.None? || components.value == [] ==> r == ""
  {
    match components
    case Some(cs) => if |cs| > 0 then cs[0].reason else ""
    case None => ""
  }

  /** The components the session keeps from a reply: the informative ones, or none. */
  function KeptComponents(components: Option<seq<Component>>): (r: seq<Component>)
    ensures components == None ==> r == []
    ensures components.Some? ==> r == Filtered(components.value)
  {
    if components.Some? && |components.value| > 0 then Filtered(components.value) else []
  }

  /** Whether a classification attempt ends in the success path: the upload
      produced a URL, the request did not throw, the reply is `ok` and reports success. */
  predicate Succeeded(upload: Option<string>, reply: Reply) {
    upload.Some? && reply.Received? && reply.ok && reply.data.success
  }

  /** The session after a classification attempt, and the value the attempt returns. */
  function Classified(s: SessionState, upload: Option<string>, reply: Reply): (SessionState, Option<Category>)
  {
    if Succeeded(upload, reply) then
      var data := reply.data;
      (SessionState(
         Some(DetectedObject(upload.value, data.objectName, data.confidence, FirstReason(data.components))),
         data.classification,
         KeptComponents(data.components),
         s.showConfetti),
       data.classification)
    else (s, None)
  }

  /** The session after a detection is cleared. */
  function Reset(s: SessionState): SessionState {
    s.(detectedObject := None, classification := None, components := [])
  }

  /** The session after the user confirms the classification. */
  function Confirmed(s: SessionState): SessionState {
    s.(showConfetti := true)
  }

  // ---------------------------------------------------------------------------
  // What the transitions guarantee.

  /** A failed attempt (upload error, thrown request, non-ok reply, or
      `success` false) returns nothing and changes nothing. */
  lemma ClassifyFailureUnchanged(s: SessionState, upload: Option<string>, reply: Reply)
    ensures !Succeeded(upload, reply) ==> Classified(s, upload, reply) == (s, None)
  {
  }

  /** A successful attempt records the uploaded image, the reply's name,
      confidence and classification, and the reason of the reply's first
      component (before filtering); returns that classification; keeps exactly
      the informative components, in order; and does not touch the confetti flag. */
  lemma ClassifySuccess(s: SessionState, url: string, data: ReplyData)
    requires data.success
    ensures var (t, r) := Classified(s, Some(url), Received(true, data));
      && t.detectedObject.Some?
      && t.detectedObject.value.imageSrc == url
      && t.detectedObject.value.name == data.objectName
      && t.detectedObject.value.confidence == data.confidence
      && t.detectedObject.value.reason
         == (if data.components.Some? && data.components.value != [] then data.components.value[0].reason else "")
      && t.classification == data.classification == r
      && t.components == KeptComponents(data.components)
      && Subsequence(t.components, if data.components.Some? then data.components.value else [])
      && (forall c :: c in t.components ==> Informative(c))
      && t.showConfetti == s.showConfetti
  {
    if data.components.Some? {
      FilteredSubsequence(data.components.value);
    }
  }

  /** The detected object's reason is read from the first component before
      filtering; when it is non-empty, that component survived the filter and
      heads the stored list, so the reason is the first card's. */
  lemma DetectedReasonIsFirstCard(s: SessionState, upload: Option<string>, reply: Reply)
    requires Succeeded(upload, reply)
    ensures var t := Classified(s, upload, reply).0;
      t.detectedObject.value.reason != "" ==> t.components != [] && t.components[0].reason == t.detectedObject.value.reason
  {
    var cs := reply.data.components;
    if FirstReason(cs) != "" {
      FilteredHead(cs.value);
    }
  }

  /** A reply without components leaves an empty component list and an empty reason. */
  lemma NoComponentsNoReason(s: SessionState, upload: Option<string>, reply: Reply)
    requires Succeeded(upload, reply) && reply.data.components == None
    ensures var t := Classified(s, upload, reply).0;
      t.components == [] && t.detectedObject.value.reason == ""
  {
  }

  /** Clearing gives the initial detection fields, keeps the confetti flag, and
      clearing twice is clearing once. */
  lemma ResetProperties(s: SessionState)
    ensures Reset(s) == Initial.(showConfetti := s.showConfetti)
    ensures Reset(Reset(s)) == Reset(s)
  {
  }

  /** Confirming only raises the confetti flag: the detection fields are unchanged
      and a later clearing does not lower the flag. */
  lemma ConfirmedProperties(s: SessionState)
    ensures Confirmed(s).showConfetti
    ensures Reset(Confirmed(s)) == Confirmed(Reset(s))
    ensures Confirmed(s).(showConfetti := s.showConfetti) == s
  {
  }

  // ---------------------------------------------------------------------------
  // The provider's state, updated in place.

  class Session {
    var detectedObject: Option<DetectedObject>
    var classification: Option<Category>
    var components: seq<Component>
    var showConfetti: bool

    function State(): SessionState
      reads this
    {
      SessionState(detectedObject, classification, components, showConfetti)
    }

    /** A fresh provider: nothing detected, no components, no confetti. */
    constructor ()
      ensures State() == Initial
    {
      detectedObject := None;
      classification := None;
      components := [];
      showConfetti := false;
    }

    /** `classifyObject`, after the upload (`upload`, `None` when it threw) and the
        request (`reply`). */
    method ClassifyObject(upload: Option<string>, reply: Reply) returns (r: Option<Category>)
      modifies this
      ensures (State(), r) == Classified(old(State()), upload, reply)
    {
      if upload.None? {
        return None;
      }
      if reply.Thrown? || !reply.ok || !reply.data.success {
        return None;
      }
      var data := reply.data;
      detectedObject := Some(DetectedObject(upload.value, data.objectName, data.confidence, FirstReason(data.components)));
      classification := data.classification;
      if data.components.Some? && |data.components.value| > 0 {
        components := Filtered(data.components.value);
      } else {
        components := [];
      }
      r := data.classification;
    }

    /** `handleCorrectClassification`: raises the confetti flag. */
    method HandleCorrectClassification()
      modifies this
      ensures State() == Confirmed(old(State()))
    {
      showConfetti := true;
    }

    /** `resetDetection`: clears the detection, keeps the confetti flag. */
    method ResetDetection()
      modifies this
      ensures State() == Reset(old(State()))
    {
      detectedObject := None;
      classification := None;
      components := [];
    }
  }
}
