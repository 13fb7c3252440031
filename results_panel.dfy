/** The result panel (src/components/ResultsPanel.jsx): it asks whether the
    classification is right and, when the user says no, offers the categories
    and submits the chosen one as a correction. The panel's own state is
    `showCorrection` and `selectedCategory`; confirming calls the session's
    `HandleCorrectClassification`, submitting calls the incorrect-classification
    callback of the session. */
module ResultsPanel {
  import opened Wrappers
  import opened Taxonomy
  import opened WasteContext

  datatype Panel = Panel(showCorrection: bool, selectedCategory: Option<Category>)

  /** A freshly mounted panel. */
  const Start := Panel(false, None)

  /** The user's actions: the "Yes!" and "No" buttons, a click on a category, "Submit Correction". */
  datatype Event = Confirm | Wrong | Select(category: Category) | Submit

  /** What a handler does outside the panel. `CallFailed` is the call of a
      callback the session does not provide (a thrown `TypeError`). */
  datatype Effect = Quiet | ConfirmCalled | CorrectionCalled(category: Category) | CallFailed

  /** What the panel shows: nothing, the yes/no question about the
      classification, or the category choices with the submit button enabled or not. */
  datatype View = Hidden | Question(classification: Category) | Choices(options: seq<Category>, submitEnabled: bool)

  predicate Visible(s: SessionState) {
    s.detectedObject.Some? && s.classification.Some?
  }

  function Render(s: SessionState, p: Panel): View {
    if !Visible(s) then Hidden
    else if !p.showCorrection then Question(s.classification.value)
    else Choices(WasteCategories, p.selectedCategory.Some?)
  }

  /** The events the rendered view lets the user trigger: a disabled button and
      a hidden button fire nothing. */
  predicate Enabled(v: View, e: Event) {
    match e
    case Confirm => v.Question?
    case Wrong => v.Question?
    case Select(c) => v.Choices? && c in v.options
    case Submit => v.Choices? && v.submitEnabled
  }

  /** The handlers. `provided` says whether the session supplies the
      incorrect-classification callback. */
  function Step(p: Panel, e: Event, provided: bool): (Panel, Effect) {
    match e
    case Confirm => (p, ConfirmCalled)
    case Wrong => (p.(showCorrection := true), Quiet)
    case Select(c) => (p.(selectedCategory := Some(c)), Quiet)
    case Submit =>
      if p.selectedCategory.None? then (p, Quiet)
      else if provided then (p.(showCorrection := false), CorrectionCalled(p.selectedCategory.value))
      else (p, CallFailed)
  }

  // ---------------------------------------------------------------------------
  // One step.

  /** Which buttons fire: none while the panel is hidden; only "Yes!" and "No"
      while it asks about the session's classification; in correction mode
      exactly the client's categories, and "Submit Correction" exactly when
      submitting would pass a category to the callback. */
  lemma EnabledEvents(s: SessionState, p: Panel, e: Event)
    ensures !Visible(s) ==> !Enabled(Render(s, p), e)
    ensures Visible(s) && !p.showCorrection ==>
      && Render(s, p).classification == s.classification.value
      && (Enabled(Render(s, p), e) <==> e == Confirm || e == Wrong)
    ensures Visible(s) && p.showCorrection ==>
      (Enabled(Render(s, p), e) <==>
         (e.Select? && e.category in WasteCategories) || (e == Submit && Step(p, Submit, true).1.CorrectionCalled?))
  {
  }

  /** Each handler on its own: "No" only opens the choices; a selection only
      replaces the selected category; submitting without a selection does
      nothing; submitting a selection calls the callback once with it, closes
      the choices and keeps the selection; confirming changes nothing locally. */
  lemma StepEffects(p: Panel, c: Category)
    ensures Step(p, Wrong, true) == (Panel(true, p.selectedCategory), Quiet)
    ensures Step(p, Select(c), true) == (Panel(p.showCorrection, Some(c)), Quiet)
    ensures p.selectedCategory == None ==> Step(p, Submit, true) == (p, Quiet)
    ensures p.selectedCategory == Some(c) ==> Step(p, Submit, true) == (Panel(false, Some(c)), CorrectionCalled(c))
    ensures Step(p, Confirm, true) == (p, ConfirmCalled)
  {
  }

  // ---------------------------------------------------------------------------
  // Sequences of user actions.

  /** Every event of `es` is enabled in the view current when it fires. */
  predicate EnabledTrace(s: SessionState, p: Panel, es: seq<Event>, provided: bool)
    decreases |es|
  {
    es == [] || (Enabled(Render(s, p), es[0]) && EnabledTrace(s, Step(p, es[0], provided).0, es[1..], provided))
  }

  /** The panel after the events, and the effects they had, in order. */
  function Run(p: Panel, es: seq<Event>, provided: bool): (Panel, seq<Effect>)
    decreases |es|
  {
    if es == [] then (p, [])
    else
      var (q, e) := Step(p, es[0], provided);
      var (r, effects) := Run(q, es[1..], provided);
      (r, [e] + effects)
  }

  function Wrongs(es: seq<Event>): nat {
    if es == [] then 0 else (if es[0] == Wrong then 1 else 0) + Wrongs(es[1..])
  }

  function Corrections(effects: seq<Effect>): nat {
    if effects == [] then 0 else (if effects[0].CorrectionCalled? then 1 else 0) + Corrections(effects[1..])
  }

  function Flag(b: bool): nat {
    if b then 1 else 0
  }

  /** Each submitted correction answers one "No": along any sequence of enabled
      actions, the corrections sent plus the open choice list (if any) equal the
      "No" clicks plus the choice list open at the start. */
  lemma {:induction false} CorrectionsFollowWrongs(s: SessionState, p: Panel, es: seq<Event>)
    requires Visible(s) && EnabledTrace(s, p, es, true)
    ensures Corrections(Run(p, es, true).1) + Flag(Run(p, es, true).0.showCorrection)
         == Wrongs(es) + Flag(p.showCorrection)
    decreases |es|
  {
    if es != [] {
      var q := Step(p, es[0], true).0;
      CorrectionsFollowWrongs(s, q, es[1..]);
    }
  }

  predicate Offered(p: Panel) {
    p.selectedCategory == None || p.selectedCategory.value in WasteCategories
  }

  predicate Offers(effects: seq<Effect>) {
    forall k :: 0 <= k < |effects| && effects[k].CorrectionCalled? ==> effects[k].category in WasteCategories
  }

  /** Every correction sent is one of the client's categories. */
  lemma {:induction false} CorrectionsAreOffered(s: SessionState, p: Panel, es: seq<Event>)
    requires Visible(s) && Offered(p) && EnabledTrace(s, p, es, true)
    ensures Offers(Run(p, es, true).1)
    decreases |es|
  {
    if es != [] {
      var (q, e) := Step(p, es[0], true);
      CorrectionsAreOffered(s, q, es[1..]);
      var effects := Run(q, es[1..], true).1;
      assert Run(p, es, true).1 == [e] + effects;
      forall k | 0 <= k < |[e] + effects| && ([e] + effects)[k].CorrectionCalled?
        ensures ([e] + effects)[k].category in WasteCategories
      {
        if k > 0 {
          assert ([e] + effects)[k] == effects[k - 1];
        }
      }
    }
  }

  // ---------------------------------------------------------------------------
  // The submit handler as written: the session provides no incorrect-classification
  // callback (src/context/WasteContext.jsx:148-159), so the call throws before
  // the choice list is closed.

  /** As written, once the choices are open no sequence of enabled actions closes
      them, and no correction is ever delivered. */
  lemma {:induction false} StuckInCorrection(s: SessionState, p: Panel, es: seq<Event>)
    requires Visible(s) && p.showCorrection && EnabledTrace(s, p, es, false)
    ensures Run(p, es, false).0.showCorrection
    ensures Corrections(Run(p, es, false).1) == 0
    decreases |es|
  {
    if es != [] {
      StuckInCorrection(s, Step(p, es[0], false).0, es[1..]);
    }
  }

  /** "No", a category, "Submit Correction": as written the panel stays on the
      choices and the call fails; with the callback provided it returns to the
      question and sends the correction once. */
  lemma SubmitWithoutCallback(s: SessionState)
    requires Visible(s)
    ensures var es := [Wrong, Select(WasteCategories[0]), Submit];
      && EnabledTrace(s, Start, es, false)
      && Run(Start, es, false) == (Panel(true, Some(WasteCategories[0])), [Quiet, Quiet, CallFailed])
      && EnabledTrace(s, Start, es, true)
      && Run(Start, es, true) == (Panel(false, Some(WasteCategories[0])), [Quiet, Quiet, CorrectionCalled(WasteCategories[0])])
  {
    var c := WasteCategories[0];
    var p1, p2 := Panel(true, None), Panel(true, Some(c));
    assert Render(s, Start).Question? && Render(s, p1) == Choices(WasteCategories, false);
    assert Render(s, p2) == Choices(WasteCategories, true);
    assert Enabled(Render(s, p1), Select(c));
    assert [Submit] + [] == [Submit] && [Select(c)] + [Submit] == [Select(c), Submit];
    assert [Wrong] + [Select(c), Submit] == [Wrong, Select(c), Submit];
    assert [Quiet] + ([Quiet] + ([CallFailed] + [])) == [Quiet, Quiet, CallFailed];
    assert [Quiet] + ([Quiet] + ([CorrectionCalled(c)] + [])) == [Quiet, Quiet, CorrectionCalled(c)];
    RunCons(p2, Submit, [], false);
    RunCons(p1, Select(c), [Submit], false);
    RunCons(Start, Wrong, [Select(c), Submit], false);
    RunCons(p2, Submit, [], true);
    RunCons(p1, Select(c), [Submit], true);
    RunCons(Start, Wrong, [Select(c), Submit], true);
    TraceCons(s, p2, Submit, [], false);
    TraceCons(s, p1, Select(c), [Submit], false);
    TraceCons(s, Start, Wrong, [Select(c), Submit], false);
    TraceCons(s, p2, Submit, [], true);
    TraceCons(s, p1, Select(c), [Submit], true);
    TraceCons(s, Start, Wrong, [Select(c), Submit], true);
  }

  lemma RunCons(p: Panel, e: Event, rest: seq<Event>, provided: bool)
    ensures var (q, effect) := Step(p, e, provided);
      Run(p, [e] + rest, provided) == (Run(q, rest, provided).0, [effect] + Run(q, rest, provided).1)
  {
    assert ([e] + rest)[1..] == rest;
  }

  lemma TraceCons(s: SessionState, p: Panel, e: Event, rest: seq<Event>, provided: bool)
    ensures EnabledTrace(s, p, [e] + rest, provided)
        <==> Enabled(Render(s, p), e) && EnabledTrace(s, Step(p, e, provided).0, rest, provided)
  {
    assert ([e] + rest)[1..] == rest;
  }

  // ---------------------------------------------------------------------------
  // The panel, updated in place, with the incorrect-classification callback
  // supplied; `corrections` records the categories passed to it.

  class CorrectionPanel {
    const session: Session
    var showCorrection: bool
    var selectedCategory: Option<Category>
    var corrections: seq<Category>

    function State(): Panel
      reads this
    {
      Panel(showCorrection, selectedCategory)
    }

    constructor (session: Session)
      ensures this.session == session && State() == Start && corrections == []
    {
      this.session := session;
      showCorrection := false;
      selectedCategory := None;
      corrections := [];
    }

    /** "Yes!": the session raises its confetti flag; the panel is unchanged. */
    method HandleConfirm()
      modifies session
      ensures session.State() == Confirmed(old(session.State()))
      ensures State() == old(State()) && corrections == old(corrections)
    {
      session.HandleCorrectClassification();
    }

    /** "No": opens the category choices. */
    method HandleWrong()
      modifies this
      ensures (State(), Quiet) == Step(old(State()), Wrong, true)
      ensures corrections == old(corrections)
    {
      showCorrection := true;
    }

    method HandleCategorySelect(category: Category)
      modifies this
      ensures (State(), Quiet) == Step(old(State()), Select(category), true)
      ensures corrections == old(corrections)
    {
      selectedCategory := Some(category);
    }

    /** "Submit Correction": with a category selected, passes it to the callback
        and closes the choices; otherwise does nothing. */
    method HandleSubmitCorrection()
      modifies this
      ensures State() == Step(old(State()), Submit, true).0
      ensures corrections == old(corrections)
        + (if old(selectedCategory).Some? then [old(selectedCategory).value] else [])
    {
      if selectedCategory.Some? {
        corrections := corrections + [selectedCategory.value];
        showCorrection := false;
      }
    }
  }
}
