# Sort_ai waste classifier — a Dafny model

Sort_ai photographs a waste item and tells the user which bin it goes in. The
browser uploads the photo to Cloudinary and posts the image URL to an Express
endpoint (`POST /api/classify`). The endpoint has a vision model describe the
image in four labelled lines:

```
Object: …
Category: …
Reason: …
Confidence: …
```

It extracts the four fields, resolves the category phrase onto its table of
four categories, and answers with a classification. The browser keeps the
result in a shared session (`WasteProvider`). A results panel asks whether the
classification is right and offers a correction. A result view shows the
category, a card per component and a disposal instruction.

The model consists of these modules:

| module | file | models |
|---|---|---|
| `Wrappers` | `wrappers.dfy` | `Option`, for JavaScript's `null`/`undefined` and failed matches |
| `Text` | `text.dfy` | the string operations the code relies on: `includes`, `trim`, `toLowerCase`, the regular-expression classes `.` and `\d`, the `i` flag's case-insensitive comparison, `parseInt` on a digit run |
| `Taxonomy` | `taxonomy.dfy` | a category as id and name |
| `Classifier` | `classifier.dfy` | `server/index.js`: the category table, the field extraction of `classifyWaste`, the `find` resolution, and every decision of the handler. This part is pure functions and lemmas. |
| `WasteContext` | `waste_context.dfy` | `src/context/WasteContext.jsx`: the session. Its transitions are pure functions (`Classified`, `Reset`, `Confirmed`). The class `Session` has the four state fields and methods that update them in place. Each method is proved to perform its transition. |
| `ResultsPanel` | `results_panel.dfy` | `src/components/ResultsPanel.jsx`, as pure functions and a class: `Render`, the enabled actions and the handlers as `Step`, traces of user actions, and the class `CorrectionPanel` with the panel state and a log of submitted corrections |
| `ClassificationResult` | `classification_result.dfy` | `src/components/ClassificationResult.jsx`: the rendering as a pure function of the session |
| `Pipeline` | `pipeline.dfy` | how the server's responses reach the client session and the view |

Regular-expression and string semantics are stated as JavaScript defines them:

- `text.match(/Object: (.*)/i)` finds the leftmost case-insensitive occurrence
  of the label anywhere in the text. The match is not anchored to a line.
- `.` stops at `\n`, `\r`, U+2028 and U+2029.
- `/Confidence: (\d+)/i` takes the leftmost occurrence of the label that is
  followed by a digit, so an earlier `Confidence: high` is skipped.
- `trim` removes the ECMAScript WhiteSpace and LineTerminator characters.

`Math.floor(Math.random() * 20)` is a parameter `draw` with `draw < 20`. The
outcome of the image download and the vision-model call is an input
(`Outcome`), and so are the outcomes of the upload and of the request on the
client (`upload`, `Reply`).

On the unmatched branch `server/index.js:144` publishes the constant 50.
`Classifier.ParsedConfidenceNeverPublished` proves that the parsed confidence
never reaches the response.

## Model

| member | source | states |
|---|---|---|
| `Text.RestOfLine` | server/index.js:94-96 | what `(.*)` captures: a prefix of the rest of the text, on one line, ended by a line terminator or the end |
| `Text.DigitRun` | server/index.js:97 | what greedy `(\d+)` captures: a prefix made of digits, followed by a non-digit or the end |
| `Text.Trim` | server/index.js:100-102 | `trim` yields an infix of its input with no whitespace at either end, and everything it drops before and after that infix is whitespace |
| `Text.Lowered` | server/index.js:101 | `toLowerCase` keeps the length and lower-cases each character (ASCII letters) |
| `Text.RestOfLineIs` | server/index.js:94-96 | the capture stops at the first line terminator: it is exactly the one-line prefix before it |
| `Text.DigitRunIs` | server/index.js:97 | the digit capture is exactly the maximal digit prefix |
| `Classifier.ServerIdsDistinct` | server/index.js:18-55 | the four table ids, plus `unknown`, are pairwise distinct |
| `Classifier.FirstMatch` | server/index.js:94-97 | the position found is a match, and no earlier position matches (leftmost match) |
| `Classifier.Capture` | server/index.js:94-97 | the capture is absent exactly when the pattern matches nowhere; a confidence capture is a non-empty digit string |
| `Classifier.LineField` | server/index.js:94-102 | `match[1].trim()` is absent exactly when the label occurs nowhere; otherwise one-line and trimmed |
| `Classifier.ObjectLabelOf` | server/index.js:100 | "Unknown object" when no `Object: ` label occurs; always one-line and trimmed |
| `Classifier.CategoryOf` | server/index.js:101 | "unknown" when no `Category: ` label occurs; always one-line with no upper-case letter |
| `Classifier.ReasonOf` | server/index.js:102 | "" when no `Reason: ` label occurs; always one-line and trimmed |
| `Classifier.ConfidenceOf` | server/index.js:97-103 | 50 when no `Confidence: ` label is followed by a digit |
| `Classifier.Parse` | server/index.js:94-104 | parsing never fails: each missing field takes its default; the strings are one-line; object and reason are trimmed; the category has no upper-case letter |
| `Classifier.FirstMatchIsFirstAt` | server/index.js:94-97 | the search returns the leftmost match position |
| `Classifier.LineFieldAt` | server/index.js:94-102 | a line field is the trimmed text between its first label and the next line terminator |
| `Classifier.ConfidenceAt` | server/index.js:97-103 | the confidence is the value of the whole digit run after the first label followed by a digit |
| `Classifier.ParseReport` | server/index.js:74-104 | for an answer in the requested four-line format (values with no colon and no line break), each field is its line's trimmed value, the category is lower-cased, and the confidence is the number on the last line |
| `Classifier.BottleReportParsed` | server/index.js:74-104 | the requested format filled in for a plastic bottle parses to ("plastic bottle", "recyclable waste", "PET plastic", 91) |
| `Classifier.FindIndex` | server/index.js:134-136 | `find`: the index found satisfies the test, and no earlier entry does |
| `Classifier.Resolve` | server/index.js:134-136 | absent exactly when no entry satisfies the `find` test `Matches` (its id or lower-cased name occurs in the phrase); otherwise the first such entry in table order |
| `Classifier.FindIndexAgrees` | server/index.js:134-136 | two tests that agree on every entry make `find` pick the same entry |
| `Classifier.NameStartsWithId` | server/index.js:18-55 | each lower-cased table name begins with its id |
| `Classifier.ResolveIsIdMatch` | server/index.js:134-136 | resolution equals the reference rule "first entry whose id occurs in the phrase"; the name test adds nothing |
| `Classifier.ResolveParaphrase` | server/index.js:134-136 | "recyclable waste - paper" resolves to the recyclable entry |
| `Classifier.RecyclableNameResolved` | server/index.js:134-136 | "recyclable waste" resolves to the recyclable entry |
| `Classifier.ResolveNothing` | server/index.js:134-139 | a phrase with neither `r` nor `s` matches no entry |
| `Classifier.DefaultCategoryUnresolved` | server/index.js:101-139 | the default category "unknown" resolves to no entry |
| `Classifier.Respond` | server/index.js:107-159 | branch by branch: 400 "No image URL provided" for a missing or empty URL, checked first; 400 "Invalid image URL…" for a URL without "cloudinary.com"; 500 "Failed to classify image" when download or classification fails, with no partial result; otherwise 200 with the parsed object and reason, and either Unclassified with confidence 50, or the resolved entry with confidence 80..99; status 200 exactly when `success` |
| `Classifier.PublishedClassification` | server/index.js:111-158 | the status is 200, 400 or 500; a published classification is a table entry or Unclassified, with confidence 50 or 80..99 |
| `Classifier.ParsedConfidenceNeverPublished` | server/index.js:138-154 | two answers that differ only in their confidence get the same response |
| `Classifier.NoCategoryLineIsUnclassified` | server/index.js:95-145 | an answer with no `Category: ` line is a 200 Unclassified result with confidence 50, not an error |
| `Classifier.PlasticBottle` | server/index.js:107-154 | the plastic-bottle answer yields 200 with the recyclable entry, "plastic bottle", "PET plastic" and confidence 80 + draw; the stated 91 is discarded |
| `WasteContext.ClientIdsDistinct` | src/context/WasteContext.jsx:17-67 | the six client category ids are pairwise distinct |
| `WasteContext.Filtered` | src/context/WasteContext.jsx:124 | the kept components are exactly the input's components with a non-empty name or reason; never more than the input |
| `WasteContext.FilteredSubsequence` | src/context/WasteContext.jsx:124 | filtering keeps the original order: the result is a subsequence of the input |
| `WasteContext.FilteredCounts` | src/context/WasteContext.jsx:124 | each informative component is kept as often as it occurs; an uninformative one is never kept |
| `WasteContext.FilteredIdempotent` | src/context/WasteContext.jsx:124 | filtering twice is filtering once |
| `WasteContext.FilteredHead` | src/context/WasteContext.jsx:117-124 | an informative first component heads the filtered list |
| `WasteContext.FirstReason` | src/context/WasteContext.jsx:117 | the reason of the first component before filtering when the list is present and non-empty, and '' when it is absent or empty |
| `WasteContext.KeptComponents` | src/context/WasteContext.jsx:123-127 | no components give []; a list gives its filtered list |
| `WasteContext.ClassifyFailureUnchanged` | src/context/WasteContext.jsx:101-133 | the `Classified` transition on failure: an upload error, a thrown request, a non-ok reply or `success: false` returns null and leaves the session unchanged |
| `WasteContext.ClassifySuccess` | src/context/WasteContext.jsx:113-129 | the `Classified` transition on success: the detected object has the uploaded URL, the reply's name and confidence, and the reason of the reply's first component before filtering ('' if none); the classification is the reply's and is returned; the components are exactly the reply's informative components, in order (a subsequence of the reply's list); the confetti flag is untouched |
| `WasteContext.DetectedReasonIsFirstCard` | src/context/WasteContext.jsx:113-127 | a non-empty detected reason is the reason of the first stored component |
| `WasteContext.NoComponentsNoReason` | src/context/WasteContext.jsx:113-127 | a reply without components leaves no components and an empty reason |
| `WasteContext.ResetProperties` | src/context/WasteContext.jsx:141-145 | the `Reset` transition: clearing from any state gives null, null and [] while keeping the confetti flag; it is idempotent |
| `WasteContext.ConfirmedProperties` | src/context/WasteContext.jsx:136-145 | the `Confirmed` transition: confirming raises the confetti flag and changes nothing else; clearing does not lower it |
| `WasteContext.Session.constructor` | src/context/WasteContext.jsx:12-15 | the initial state is null, null, [] and no confetti |
| `WasteContext.Session.ClassifyObject` | src/context/WasteContext.jsx:87-134 | the new state and the returned value are the `Classified` transition of the old state |
| `WasteContext.Session.HandleCorrectClassification` | src/context/WasteContext.jsx:136-139 | the new state is the `Confirmed` transition of the old one |
| `WasteContext.Session.ResetDetection` | src/context/WasteContext.jsx:141-145 | the new state is the `Reset` transition of the old one |
| `ResultsPanel.EnabledEvents` | src/components/ResultsPanel.jsx:19-173 | what `Render` and `Enabled` let the user do: no button fires while the panel is hidden; while it asks about the session's classification only "Yes!" and "No" fire; in correction mode exactly the client's categories can be chosen, and "Submit Correction" fires exactly when the `Step` it triggers would pass a category to the callback |
| `ResultsPanel.StepEffects` | src/components/ResultsPanel.jsx:23-40 | the handlers as `Step`: "No" only opens the choices. A selection only replaces the selected category. Submit without a selection does nothing. Submit with one calls the callback once with it, closes the choices and keeps the selection. Confirm calls its callback and leaves the panel unchanged. |
| `ResultsPanel.CorrectionsFollowWrongs` | src/components/ResultsPanel.jsx:27-40 | along any sequence of enabled actions: corrections sent + open choice list = "No" clicks + choice list open at the start |
| `ResultsPanel.CorrectionsAreOffered` | src/components/ResultsPanel.jsx:31-168 | every correction sent is one of the client's categories |
| `ResultsPanel.StuckInCorrection` | src/components/ResultsPanel.jsx:35-40 | as written, once the choices are open no enabled action closes them, and no correction is ever delivered |
| `ResultsPanel.SubmitWithoutCallback` | src/components/ResultsPanel.jsx:35-40 | "No", a category, "Submit Correction": as written the panel stays on the choices and the call fails; with the callback it returns to the question and sends the correction once |
| `ResultsPanel.CorrectionPanel.constructor` | src/components/ResultsPanel.jsx:16-17 | the choices start closed, with nothing selected and no correction sent |
| `ResultsPanel.CorrectionPanel.HandleConfirm` | src/components/ResultsPanel.jsx:23-25 | the session takes its `Confirmed` transition; the panel is unchanged |
| `ResultsPanel.CorrectionPanel.HandleWrong` | src/components/ResultsPanel.jsx:27-29 | the panel takes the "No" step: the choices open, and nothing else changes |
| `ResultsPanel.CorrectionPanel.HandleCategorySelect` | src/components/ResultsPanel.jsx:31-33 | the panel takes the selection step; no correction is sent |
| `ResultsPanel.CorrectionPanel.HandleSubmitCorrection` | src/components/ResultsPanel.jsx:35-40 | the panel takes the submit step. With a selection, exactly that category is appended to the corrections sent. Without one, nothing changes. |
| `ClassificationResult.RenderAfterTransitions` | src/components/ClassificationResult.jsx:5-45 | `Render` across the session's transitions: a failed classification leaves the view as it was; a successful one shows a result exactly when the reply has a classification, titled with the reply's name and confidence and showing the uploaded image; clearing hides the view; confirming leaves it unchanged |
| `ClassificationResult.ShownCategory` | src/components/ClassificationResult.jsx:13-109 | `CategoryInfo` and `Instructions` after a successful classification: the shown category and its instruction come from the reply's first informative component when it has a classification, and from the reply's classification otherwise (also when no component is informative) |
| `ClassificationResult.InstructionsFollowGuide` | src/components/ClassificationResult.jsx:104-109 | `Instructions`: the six conditionals print exactly the disposal guide's entry for a known id and nothing otherwise, so at most one instruction appears |
| `ClassificationResult.EveryCategoryHasInstruction` | src/components/ClassificationResult.jsx:104-109 | each of the client's categories has a non-empty instruction |
| `ClassificationResult.CardsOf` | src/components/ClassificationResult.jsx:57-90 | one card per component, in list order |
| `ClassificationResult.BadgeHidesOnlyUnclassified` | src/components/ClassificationResult.jsx:82-88 | `CardOf` against the client's table: a component classified into one of the client's categories gets that category's name as a badge for every category except "Unclassified Waste" |
| `ClassificationResult.DetailsAfterClassify` | src/components/ClassificationResult.jsx:55-97 | `DetailsOf` after a successful classification: one card per informative reply component, in order; with none, "No detailed classification information available.", never the detected reason |
| `ClassificationResult.NoBlankCards` | src/components/ClassificationResult.jsx:57-90 | `CardOf` over the stored components: after a successful classification every card shows a name or a reason |
| `Pipeline.ServerCategoriesOffered` | server/index.js:18-55 | every category the server can publish, Unclassified included, is among the client's categories |
| `Pipeline.ErrorsLeaveSession` | src/context/WasteContext.jsx:101-133 | through `ToReply`, a 400 or 500 response leaves the session unchanged and returns null |
| `Pipeline.ServerReasonDropped` | src/context/WasteContext.jsx:113-127 | a 200 response stores the server's classification, name and confidence. Because it has no components, the stored reason is "" and the view shows the fallback sentence: the server's `reason` is never displayed. |
| `Pipeline.PublishedHasInstruction` | src/components/ClassificationResult.jsx:13-109 | for every 200 response the view shows the published category's name and a non-empty disposal instruction |
| `Pipeline.SharedGuard` | src/components/ResultsPanel.jsx:19-21 | the panel is hidden exactly when the result view renders nothing (src/components/ClassificationResult.jsx:8-10) |
| `Pipeline.ResultShown` | src/components/ClassificationResult.jsx:13-109 | a published table entry or Unclassified is shown with its name and a non-empty instruction |

## Left out

- I/O is not modelled. Its outcomes are inputs:
  - the Cloudinary upload, every `fetch`, and the JSON decoding of replies (`upload`, `Reply`);
  - the vision-model client and its call (`Outcome`);
  - the Express and CORS setup and `listen`;
  - `console` logging.
- `Math.random`: the model takes the drawn integer `draw` (0..19) as a parameter.
- The `setTimeout` that lowers the confetti flag after two seconds: it is timer-driven; only the raising of the flag is modelled.
- Presentation is not modelled:
  - icons, colours, gradients, descriptions and examples of the categories;
  - framer-motion animation and the CSS classes;
  - `WasteBins.jsx`, `Header.jsx`, `BackgroundVideo.jsx` and `App.jsx` (animation, scrolling, a load timer, composition).
- The exported raw setters `setDetectedObject` and `setClassification`: neither ResultsPanel.jsx nor ClassificationResult.jsx calls them.
- `Classifier.Respond`: a request body whose `imageUrl` is not a string, and a request without a JSON body, are not modelled. The URL is an optional string.
- `Text.Lowered`: maps only the ASCII letters. `toLowerCase` also lower-cases non-ASCII letters; the category table and every lemma use ASCII text only.
- `Text.DecimalValue`: `parseInt` loses precision beyond 2^53; the model's value is exact.
- `Classifier.ParseReport`: covers values that hold no colon and no line break. Other texts are covered by `Classifier.LineFieldAt` and `Classifier.ConfidenceAt`.
- `ResultsPanel.CorrectionsFollowWrongs`: the session is held fixed along the action sequence. A new classification or a reset between actions is not modelled. Confirming changes only the confetti flag, which the panel does not display.
- `ResultsPanel.CorrectionPanel.HandleSubmitCorrection`: models the corrected submit described under Findings. The callback's own effect is not modelled, because the session context (src/context/WasteContext.jsx:148-159) provides no such callback. The model records each call in `corrections`.
- `WasteContext.ClassifyFailureUnchanged`: a reply whose `components` is not an array or holds `null` is not modelled. The code would throw at src/context/WasteContext.jsx:124, after it has already set the detected object and the classification, and `classifyObject` would return null with the session partly updated. The server never sends `components`, so a response of `server/index.js` cannot reach this path.
- Absent versus empty strings: a component's missing `name` or `reason` is modelled as "", because both are falsy in the tests the code makes.

## Findings

| source | as written | input that shows it | evidently intended | confidence | as-written member | corrected member |
|---|---|---|---|---|---|---|
| src/components/ResultsPanel.jsx:35-40 | Submitting calls `handleIncorrectClassification`, which the session context never provides (src/context/WasteContext.jsx:148-159). The call throws a `TypeError` before `setShowCorrection(false)`, so the correction is lost and the choices never close. | "No", then any category, then "Submit Correction" | the selected category is passed to the callback once and the panel returns to the question | not executed | `ResultsPanel.StuckInCorrection` | `ResultsPanel.CorrectionsFollowWrongs` |
