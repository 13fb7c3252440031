/** The result view (src/components/ClassificationResult.jsx): a pure rendering
    of the session into a header, a details section (one card per component, or
    a summary line) and a disposal instruction chosen by category id. Layout,
    icons, colours and animation are not modelled. */
module ClassificationResult {
  import opened Wrappers
  import opened Taxonomy
  import opened WasteContext

  const NoDetails := "No detailed classification information available."

  /** What a component card shows: the name header, the reason paragraph and the
      category badge, each present or not. */
  datatype Card = Card(header: Option<string>, reason: Option<string>, badge: Option<string>)

  datatype Details = Cards(cards: seq<Card>) | Summary(text: string)

  datatype ResultView = ResultView(
    title: string,
    confidence: int,
    imageSrc: string,
    categoryName: string,
    details: Details,
    instruction: string)

  /** `categoryInfo`: the first component's classification when there is one,
      otherwise the session's classification. */
  function CategoryInfo(classification: Category, components: seq<Component>): Category {
    if components != [] && components[0].classification.Some? then components[0].classification.value
    else classification
  }

  /** One of the six instruction conditionals: the text when the id is `key`, nothing otherwise. */
  function When(id: string, key: string, text: string): string {
    if id == key then text else ""
  }

  /** The instruction paragraph: the six conditionals rendered one after the other. */
  function Instructions(id: string): string {
    When(id, "recyclable", "Place in the recycling bin after cleaning.")
    + When(id, "organic", "Place in compost or green waste bin.")
    + When(id, "hazardous", "Take to a hazardous waste collection center.")
    + When(id, "landfill", "Place in general waste bin.")
    + When(id, "solid", "For electronics, take to an e-waste recycling center.")
    + When(id, "unknown", "Check with local waste management for proper disposal.")
  }

  /** The disposal guide as a table from category id to instruction. */
  const DisposalGuide: map<string, string> := map[
    "recyclable" := "Place in the recycling bin after cleaning.",
    "organic" := "Place in compost or green waste bin.",
    "hazardous" := "Take to a hazardous waste collection center.",
    "landfill" := "Place in general waste bin.",
    "solid" := "For electronics, take to an e-waste recycling center.",
    "unknown" := "Check with local waste management for proper disposal."
  ]

  function CardOf(c: Component): Card {
    Card(
      if c.name != "" then Some(c.name) else None,
      if c.reason != "" then Some(c.reason) else None,
      if c.classification.Some? && c.classification.value.id != "unknown" then Some(c.classification.value.name) else None)
  }

  /** One card per component, in list order. */
  function CardsOf(cs: seq<Component>): (r: seq<Card>)
    ensures |r| == |cs|
    ensures forall k :: 0 <= k < |cs| ==> r[k] == CardOf(cs[k])
  {
    seq(|cs|, k requires 0 <= k < |cs| => CardOf(cs[k]))
  }

  function DetailsOf(d: DetectedObject, components: seq<Component>): Details {
    if |components| > 0 then Cards(CardsOf(components))
    else Summary(if d.reason != "" then d.reason else NoDetails)
  }

  function Render(s: SessionState): Option<ResultView> {
    if s.detectedObject.None? || s.classification.None? then None
    else
      var d := s.detectedObject.value;
      var info := CategoryInfo(s.classification.value, s.components);
      Some(ResultView(d.name, d.confidence, d.imageSrc, info.name, DetailsOf(d, s.components), Instructions(info.id)))
  }

  // ---------------------------------------------------------------------------
  // Properties.

  /** What a classification attempt does to the view: a failed attempt leaves it
      as it was; a successful one shows a result exactly when the reply carries a
      classification, headed by the reply's object name and confidence and the
      uploaded image. Clearing the detection hides the view; confirming does not
      change it. */
  lemma RenderAfterTransitions(s: SessionState, upload: Option<string>, reply: Reply)
    ensures !Succeeded(upload, reply) ==> Render(Classified(s, upload, reply).0) == Render(s)
    ensures Succeeded(upload, reply) ==>
      (Render(Classified(s, upload, reply).0).Some? <==> reply.data.classification.Some?)
    ensures Succeeded(upload, reply) && reply.data.classification.Some? ==>
      var v := Render(Classified(s, upload, reply).0).value;
      && v.title == reply.data.objectName
      && v.confidence == reply.data.confidence
      && v.imageSrc == upload.value
    ensures Render(Reset(s)) == None
    ensures Render(Confirmed(s)) == Render(s)
  {
  }

  /** The view after a successful classification, in terms of the reply alone. */
  lemma RenderedReply(s: SessionState, upload: Option<string>, reply: Reply)
    requires Succeeded(upload, reply) && reply.data.classification.Some?
    ensures var t := Classified(s, upload, reply).0;
      var kept := Filtered(ReplyComponents(reply.data));
      var info := CategoryInfo(reply.data.classification.value, kept);
      && t.components == kept
      && Render(t).Some?
      && Render(t).value.categoryName == info.name
      && Render(t).value.instruction == Instructions(info.id)
      && Render(t).value.details == DetailsOf(t.detectedObject.value, kept)
  {
  }

  /** The components of a reply, an absent list read as empty. */
  function ReplyComponents(data: ReplyData): seq<Component> {
    data.components.GetOr([])
  }

  /** `cs[k]` is the first component that survives the filter. */
  predicate FirstInformative(cs: seq<Component>, k: int) {
    0 <= k < |cs| && Informative(cs[k]) && forall j :: 0 <= j < k ==> !Informative(cs[j])
  }

  lemma {:induction false} FilteredStartsAtFirstInformative(cs: seq<Component>, k: int)
    requires FirstInformative(cs, k)
    ensures Filtered(cs) != [] && Filtered(cs)[0] == cs[k]
    decreases k
  {
    if k > 0 {
      assert !Informative(cs[0]);
      assert FirstInformative(cs[1..], k - 1);
      FilteredStartsAtFirstInformative(cs[1..], k - 1);
    }
  }

  lemma FilteredEmptyWhenNoneInformative(cs: seq<Component>)
    requires forall k :: 0 <= k < |cs| ==> !Informative(cs[k])
    ensures Filtered(cs) == []
  {
  }

  /** After a successful classification the category shown, and the instruction
      chosen by its id, come from the first informative component of the reply
      when it carries a classification, and from the reply's classification
      otherwise (in particular when no component is informative: an uninformative
      first component never decides the category). */
  lemma ShownCategory(s: SessionState, upload: Option<string>, reply: Reply, k: int)
    requires Succeeded(upload, reply) && reply.data.classification.Some?
    ensures var v := Render(Classified(s, upload, reply).0).value;
      var cs := ReplyComponents(reply.data);
      FirstInformative(cs, k) ==>
        var shown := if cs[k].classification.Some? then cs[k].classification.value else reply.data.classification.value;
        v.categoryName == shown.name && v.instruction == Instructions(shown.id)
    ensures var v := Render(Classified(s, upload, reply).0).value;
      var cs := ReplyComponents(reply.data);
      (forall j :: 0 <= j < |cs| ==> !Informative(cs[j])) ==>
        && v.categoryName == reply.data.classification.value.name
        && v.instruction == Instructions(reply.data.classification.value.id)
  {
    var cs := ReplyComponents(reply.data);
    RenderedReply(s, upload, reply);
    if FirstInformative(cs, k) {
      FilteredStartsAtFirstInformative(cs, k);
    }
    if forall j :: 0 <= j < |cs| ==> !Informative(cs[j]) {
      FilteredEmptyWhenNoneInformative(cs);
    }
  }

  /** After a successful classification the details are one card per informative
      component of the reply, in order; when no component is informative they are
      the fallback sentence, never the detected object's reason (a non-empty
      reason makes the first component informative). */
  lemma DetailsAfterClassify(s: SessionState, upload: Option<string>, reply: Reply)
    requires Succeeded(upload, reply) && reply.data.classification.Some?
    ensures var v := Render(Classified(s, upload, reply).0).value;
      var cs := ReplyComponents(reply.data);
      (exists k :: 0 <= k < |cs| && Informative(cs[k])) ==> v.details == Cards(CardsOf(Filtered(cs)))
    ensures var v := Render(Classified(s, upload, reply).0).value;
      var cs := ReplyComponents(reply.data);
      (forall k :: 0 <= k < |cs| ==> !Informative(cs[k])) ==> v.details == Summary(NoDetails)
  {
    var cs := ReplyComponents(reply.data);
    RenderedReply(s, upload, reply);
    if exists k :: 0 <= k < |cs| && Informative(cs[k]) {
      var k :| 0 <= k < |cs| && Informative(cs[k]);
      assert cs[k] in Filtered(cs);
    }
    if forall k :: 0 <= k < |cs| ==> !Informative(cs[k]) {
      FilteredEmptyWhenNoneInformative(cs);
    }
  }

  /** The six conditionals print at most one instruction: exactly the guide's
      entry for a known id, and nothing for any other id. */
  lemma InstructionsFollowGuide(id: string)
    ensures Instructions(id) == if id in DisposalGuide then DisposalGuide[id] else ""
  {
    if id !in DisposalGuide {
      assert Instructions(id) == "" + "" + "" + "" + "" + "";
    }
  }

  /** Every category the client offers has a disposal instruction. */
  lemma EveryCategoryHasInstruction(c: Category)
    requires c in WasteCategories
    ensures Instructions(c.id) != ""
  {
    InstructionsFollowGuide(c.id);
  }

  /** For a component classified into one of the client's categories, the card
      shows that category's name as a badge for every category except
      "Unclassified Waste". */
  lemma BadgeHidesOnlyUnclassified(c: Component)
    requires c.classification.Some? && c.classification.value in WasteCategories
    ensures CardOf(c).badge.Some? <==> c.classification.value != Category("unknown", "Unclassified Waste")
    ensures CardOf(c).badge.Some? ==> CardOf(c).badge.value == c.classification.value.name
  {
  }

  /** After a successful classification no card is blank: each shows its name or its reason. */
  lemma NoBlankCards(s: SessionState, upload: Option<string>, reply: Reply)
    requires Succeeded(upload, reply) && reply.data.classification.Some?
    ensures var v := Render(Classified(s, upload, reply).0);
      && v.Some?
      && (v.value.details.Cards? ==>
            forall card :: card in v.value.details.cards ==> card.header.Some? || card.reason.Some?)
  {
    var kept := Filtered(ReplyComponents(reply.data));
    RenderedReply(s, upload, reply);
    var details := Render(Classified(s, upload, reply).0).value.details;
    if details.Cards? {
      forall card | card in details.cards
        ensures card.header.Some? || card.reason.Some?
      {
        var k :| 0 <= k < |kept| && details.cards[k] == card;
        assert kept[k] in kept;
      }
    }
  }
}
