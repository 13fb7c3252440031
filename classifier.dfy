/** The backend of server/index.js: the category table, the extraction of four
    fields from the classifier's free text (`classifyWaste`), the resolution of
    the category phrase onto the table, and the decisions of the
    `POST /api/classify` handler. The image download and the call to the
    vision model are one abstract `Outcome`; `Math.random` is a parameter. */
module Classifier {
  import opened Wrappers
  import opened Text
  import opened Taxonomy

  // ---------------------------------------------------------------------------
  // The category table (server/index.js:18-55), in table order.

  const Recyclable := Category("recyclable", "Recyclable Waste")
  const Hazardous := Category("hazardous", "Hazardous Waste")
  const Solid := Category("solid", "Solid Waste")
  const Organic := Category("organic", "Organic Waste")

  const WasteCategories: seq<Category> := [Recyclable, Hazardous, Solid, Organic]

  /** What the handler publishes when no table entry resolves. */
  const Unclassified := Category("unknown", "Unclassified Waste")

  /** The table's ids are distinct, and none is the id of the unclassified result. */
  lemma ServerIdsDistinct()
    ensures DistinctIds(WasteCategories + [Unclassified])
  {
  }

  // ---------------------------------------------------------------------------
  // Field extraction: `text.match(/Label: (.*)/i)` and `text.match(/Confidence: (\d+)/i)`.

  datatype Field = ObjectField | CategoryField | ReasonField | ConfidenceField

  function Label(f: Field): (l: string)
    ensures |l| >= 2 && l[|l| - 2] == ':' && l[|l| - 1] == ' '
  {
    match f
    case ObjectField => "Object: "
    case CategoryField => "Category: "
    case ReasonField => "Reason: "
    case ConfidenceField => "Confidence: "
  }

  lemma LabelTexts()
    ensures Label(ObjectField) == "Object: " && Label(CategoryField) == "Category: "
    ensures Label(ReasonField) == "Reason: " && Label(ConfidenceField) == "Confidence: "
  {
  }

  /** `tag` occurs at position `p` of `text`, letters compared as under the `i` flag. */
  predicate LabelAt(text: string, tag: string, p: nat) {
    p + |tag| <= |text| && EqualIgnoringCase(text[p..p + |tag|], tag)
  }

  /** A label copied verbatim into the text occurs there. */
  lemma LabelAtSlice(text: string, tag: string, p: nat)
    requires p + |tag| <= |text| && text[p..p + |tag|] == tag
    ensures LabelAt(text, tag, p)
  {
    EqualIgnoringCaseRefl(tag);
  }

  /** The regular expression of field `f` can match at position `p`: the label,
      and for the confidence at least one decimal digit right after it. */
  predicate MatchAt(text: string, f: Field, p: nat) {
    && LabelAt(text, Label(f), p)
    && (f == ConfidenceField ==> p + |Label(f)| < |text| && IsDigit(text[p + |Label(f)|]))
  }

  /** The leftmost match, which is where the regular expression engine reports its match. */
  predicate FirstAt(text: string, f: Field, p: nat) {
    MatchAt(text, f, p) && forall q: nat :: q < p ==> !MatchAt(text, f, q)
  }

  /** The leftmost position at or after `from` where field `f` matches. */
  function FirstMatch(text: string, f: Field, from: nat): (r: Option<nat>)
    decreases |text| - from
    ensures r.Some? ==> from <= r.value && MatchAt(text, f, r.value)
    ensures forall q: nat :: from <= q && (r.None? || q < r.value) ==> !MatchAt(text, f, q)
  {
    if |text| < from + |Label(f)| then None
    else if MatchAt(text, f, from) then Some(from)
    else FirstMatch(text, f, from + 1)
  }

  /** The first capture group of field `f`'s regular expression on `text`;
      absent exactly when the pattern matches nowhere. */
  function Capture(text: string, f: Field): (r: Option<string>)
    ensures r.None? <==> forall p: nat :: !MatchAt(text, f, p)
    ensures r.Some? && f == ConfidenceField ==> |r.value| > 0 && AllDigits(r.value)
  {
    match FirstMatch(text, f, 0)
    case None => None
    case Some(p) =>
      var rest := text[p + |Label(f)|..];
      Some(if f == ConfidenceField then DigitRun(rest) else RestOfLine(rest))
  }

  /** A line field (object, category or reason) as `match[1].trim()`. */
  function LineField(text: string, f: Field): (r: Option<string>)
    requires f != ConfidenceField
    ensures r.None? <==> forall p: nat :: !MatchAt(text, f, p)
    ensures r.Some? ==> SingleLine(r.value) && Trimmed(r.value)
  {
    match Capture(text, f)
    case None => None
    case Some(v) => TrimSingleLine(v); Some(Trim(v))
  }

  datatype Parsed = Parsed(objectLabel: string, category: string, reason: string, confidence: nat)

  const DefaultObject := "Unknown object"
  const DefaultCategory := "unknown"
  const DefaultReason := ""
  const DefaultConfidence := 50

  /** `object`: the trimmed rest of the first `Object: ` line, or "Unknown object". */
  function ObjectLabelOf(text: string): (r: string)
    ensures (forall p: nat :: !MatchAt(text, ObjectField, p)) ==> r == DefaultObject
    ensures SingleLine(r) && Trimmed(r)
  {
    LineField(text, ObjectField).GetOr(DefaultObject)
  }

  /** `category`: the trimmed, lower-cased rest of the first `Category: ` line, or "unknown". */
  function CategoryOf(text: string): (r: string)
    ensures (forall p: nat :: !MatchAt(text, CategoryField, p)) ==> r == DefaultCategory
    ensures SingleLine(r) && NoUpperCase(r)
  {
    match LineField(text, CategoryField)
    case Some(v) => LoweredLine(v); Lowered(v)
    case None => DefaultCategory
  }

  /** `reason`: the trimmed rest of the first `Reason: ` line, or the empty string. */
  function ReasonOf(text: string): (r: string)
    ensures (forall p: nat :: !MatchAt(text, ReasonField, p)) ==> r == DefaultReason
    ensures SingleLine(r) && Trimmed(r)
  {
    LineField(text, ReasonField).GetOr(DefaultReason)
  }

  /** `confidence`: the value of the digits after the first `Confidence: ` that
      is followed by a digit, or 50. */
  function ConfidenceOf(text: string): (r: nat)
    ensures (forall p: nat :: !MatchAt(text, ConfidenceField, p)) ==> r == DefaultConfidence
  {
    match Capture(text, ConfidenceField)
    case Some(ds) => DecimalValue(ds)
    case None => DefaultConfidence
  }

  /** The fields `classifyWaste` returns for the classifier's text
      (server/index.js:94-104). Parsing never fails: a missing field takes its default. */
  function Parse(text: string): (r: Parsed)
    ensures (forall p: nat :: !MatchAt(text, ObjectField, p)) ==> r.objectLabel == DefaultObject
    ensures (forall p: nat :: !MatchAt(text, CategoryField, p)) ==> r.category == DefaultCategory
    ensures (forall p: nat :: !MatchAt(text, ReasonField, p)) ==> r.reason == DefaultReason
    ensures (forall p: nat :: !MatchAt(text, ConfidenceField, p)) ==> r.confidence == DefaultConfidence
    ensures SingleLine(r.objectLabel) && SingleLine(r.category) && SingleLine(r.reason)
    ensures Trimmed(r.objectLabel) && Trimmed(r.reason)
    ensures NoUpperCase(r.category)
  {
    Parsed(ObjectLabelOf(text), CategoryOf(text), ReasonOf(text), ConfidenceOf(text))
  }

  // ---------------------------------------------------------------------------
  // Parsing lemmas.

  lemma FirstMatchIsFirstAt(text: string, f: Field, p: nat)
    requires FirstAt(text, f, p)
    ensures FirstMatch(text, f, 0) == Some(p)
  {
  }

  /** A line field whose pattern first matches at `p` is the trimmed text from the
      end of the label up to the next line terminator (or the end of the text). */
  lemma LineFieldAt(text: string, f: Field, p: nat, v: string)
    requires f != ConfidenceField && FirstAt(text, f, p)
    requires p + |Label(f)| + |v| <= |text| && text[p + |Label(f)|..p + |Label(f)| + |v|] == v
    requires SingleLine(v)
    requires p + |Label(f)| + |v| == |text| || IsLineTerminator(text[p + |Label(f)| + |v|])
    ensures LineField(text, f) == Some(Trim(v))
  {
    var start := p + |Label(f)|;
    FirstMatchIsFirstAt(text, f, p);
    assert text[start..][..|v|] == v;
    RestOfLineIs(text[start..], |v|);
    assert Capture(text, f) == Some(v);
  }

  /** The confidence is the value of the whole digit run after the first
      `Confidence: ` that is followed by a digit. */
  lemma ConfidenceAt(text: string, p: nat, n: nat)
    requires FirstAt(text, ConfidenceField, p)
    requires var start := p + |Label(ConfidenceField)|;
      start + n <= |text| && AllDigits(text[start..start + n])
    requires var start := p + |Label(ConfidenceField)|;
      start + n == |text| || !IsDigit(text[start + n])
    ensures n > 0
    ensures var start := p + |Label(ConfidenceField)|;
      ConfidenceOf(text) == DecimalValue(text[start..start + n])
  {
    var start := p + |Label(ConfidenceField)|;
    FirstMatchIsFirstAt(text, ConfidenceField, p);
    assert text[start..][..n] == text[start..start + n];
    DigitRunIs(text[start..], n);
  }

  // ---------------------------------------------------------------------------
  // Category resolution: `wasteCategories.find(...)` (server/index.js:134-136).

  /** The index of the first entry of `table` that satisfies `test`, scanning in table order. */
  function FindIndex(table: seq<Category>, test: Category -> bool): (r: Option<nat>)
    ensures r.Some? ==> r.value < |table| && test(table[r.value])
    ensures forall i :: 0 <= i < |table| && (r.None? || i < r.value) ==> !test(table[i])
  {
    if table == [] then None
    else if test(table[0]) then Some(0)
    else match FindIndex(table[1..], test)
      case None => None
      case Some(i) => assert table[1..][i] == table[i + 1]; Some(i + 1)
  }

  /** The test of the `find`: the phrase contains the entry's id or its lower-cased name. */
  predicate Matches(phrase: string, c: Category) {
    Contains(phrase, c.id) || Contains(phrase, Lowered(c.name))
  }

  /** The table entry for a (lower-cased) category phrase: the first entry, in
      table order, that the phrase matches; absent when it matches none. */
  function Resolve(phrase: string): (r: Option<Category>)
    ensures r.None? <==> forall c :: c in WasteCategories ==> !Matches(phrase, c)
    ensures r.Some? ==> exists i :: && 0 <= i < |WasteCategories|
                                    && r.value == WasteCategories[i]
                                    && Matches(phrase, WasteCategories[i])
                                    && forall j :: 0 <= j < i ==> !Matches(phrase, WasteCategories[j])
  {
    match FindIndex(WasteCategories, c => Matches(phrase, c))
    case None => None
    case Some(i) => Some(WasteCategories[i])
  }

  /** The reference rule: the first entry, in table order, whose id occurs in the phrase. */
  function ResolveById(phrase: string): Option<Category> {
    match FindIndex(WasteCategories, (c: Category) => Contains(phrase, c.id))
    case None => None
    case Some(i) => Some(WasteCategories[i])
  }

  /** Two tests that agree on every entry find the same index. */
  lemma {:induction false} FindIndexAgrees(table: seq<Category>, t1: Category -> bool, t2: Category -> bool)
    requires forall i :: 0 <= i < |table| ==> t1(table[i]) == t2(table[i])
    ensures FindIndex(table, t1) == FindIndex(table, t2)
  {
    if table != [] {
      FindIndexAgrees(table[1..], t1, t2);
    }
  }

  /** Every lower-cased table name begins with the entry's id. */
  lemma NameStartsWithId(c: Category)
    requires c in WasteCategories
    ensures c.id <= Lowered(c.name)
  {
  }

  /** Matching on the name adds nothing: resolution is the first entry whose id
      occurs in the phrase. */
  lemma ResolveIsIdMatch(phrase: string)
    ensures Resolve(phrase) == ResolveById(phrase)
  {
    forall i | 0 <= i < |WasteCategories|
      ensures Matches(phrase, WasteCategories[i]) == Contains(phrase, WasteCategories[i].id)
    {
      var c := WasteCategories[i];
      NameStartsWithId(c);
      ContainsPrefix(Lowered(c.name), c.id);
      if Contains(phrase, Lowered(c.name)) {
        ContainsTransitive(phrase, Lowered(c.name), c.id);
      }
    }
    FindIndexAgrees(WasteCategories, c => Matches(phrase, c), (c: Category) => Contains(phrase, c.id));
  }

  // ---------------------------------------------------------------------------
  // The `POST /api/classify` handler (server/index.js:107-159).

  /** What the image download and the vision-model call produced: their text, or
      any failure (a non-ok download, a thrown error). */
  datatype Outcome = Failed | Answered(text: string)

  datatype Body =
    | ErrorBody(error: string)
    | ResultBody(classification: Category, objectName: string, reason: string, confidence: int)
  {
    /** The `success` field of the JSON body. */
    predicate Success() { ResultBody? }
  }

  datatype Response = Response(status: nat, body: Body)

  const NoUrlError := "No image URL provided"
  const InvalidUrlError := "Invalid image URL. Must be a Cloudinary URL"
  const ClassifyError := "Failed to classify image"
  const ImageHost := "cloudinary.com"
  const UnresolvedConfidence := 50

  /** `!imageUrl`: the request carries no URL, or an empty one. */
  predicate MissingUrl(imageUrl: Option<string>) {
    imageUrl.None? || imageUrl.value == ""
  }

  /** The URL passes both checks of the handler. */
  predicate AcceptedUrl(imageUrl: Option<string>) {
    !MissingUrl(imageUrl) && Contains(imageUrl.value, ImageHost)
  }

  /** The response to `POST /api/classify` with body `{imageUrl}`. `outcome` is
      what the download and classification produced, consulted only once the
      URL has passed both checks; `draw` is `Math.floor(Math.random() * 20)`. */
  function Respond(imageUrl: Option<string>, outcome: Outcome, draw: nat): (r: Response)
    requires draw < 20
    ensures r.status == 200 <==> r.body.Success()
    ensures MissingUrl(imageUrl) ==> r == Response(400, ErrorBody(NoUrlError))
    ensures !MissingUrl(imageUrl) && !AcceptedUrl(imageUrl) ==> r == Response(400, ErrorBody(InvalidUrlError))
    ensures AcceptedUrl(imageUrl) && outcome.Failed? ==> r == Response(500, ErrorBody(ClassifyError))
    ensures r.body.Success() <==> AcceptedUrl(imageUrl) && outcome.Answered?
    ensures r.body.Success() ==>
      var parsed := Parse(outcome.text);
      && r.body.objectName == parsed.objectLabel
      && r.body.reason == parsed.reason
      && match Resolve(parsed.category)
         case None => r.body.classification == Unclassified && r.body.confidence == UnresolvedConfidence
         case Some(c) => r.body.classification == c && 80 <= r.body.confidence <= 99
  {
    if MissingUrl(imageUrl) then Response(400, ErrorBody(NoUrlError))
    else if !Contains(imageUrl.value, ImageHost) then Response(400, ErrorBody(InvalidUrlError))
    else match outcome
      case Failed => Response(500, ErrorBody(ClassifyError))
      case Answered(text) =>
        var parsed := Parse(text);
        match Resolve(parsed.category)
        case None => Response(200, ResultBody(Unclassified, parsed.objectLabel, parsed.reason, UnresolvedConfidence))
        case Some(c) => Response(200, ResultBody(c, parsed.objectLabel, parsed.reason, draw + 80))
  }

  /** A successful response always publishes a table entry or the unclassified
      sentinel, with a confidence of 50 or in 80..99; the status is one of 200, 400, 500. */
  lemma PublishedClassification(imageUrl: Option<string>, outcome: Outcome, draw: nat)
    requires draw < 20
    ensures var r := Respond(imageUrl, outcome, draw);
      && r.status in {200, 400, 500}
      && (r.body.Success() ==>
            && (r.body.classification in WasteCategories || r.body.classification == Unclassified)
            && (r.body.confidence == 50 || 80 <= r.body.confidence <= 99))
  {
    var r := Respond(imageUrl, outcome, draw);
    if r.body.Success() {
      var phrase := Parse(outcome.text).category;
      if Resolve(phrase).Some? {
        var i :| 0 <= i < |WasteCategories| && Resolve(phrase).value == WasteCategories[i];
      }
    }
  }

  /** The classifier's own confidence never reaches the response: two answers
      that differ only in it get the same response. */
  lemma ParsedConfidenceNeverPublished(imageUrl: Option<string>, t1: string, t2: string, draw: nat)
    requires draw < 20
    requires Parse(t1).objectLabel == Parse(t2).objectLabel
    requires Parse(t1).category == Parse(t2).category
    requires Parse(t1).reason == Parse(t2).reason
    ensures Respond(imageUrl, Answered(t1), draw) == Respond(imageUrl, Answered(t2), draw)
  {
  }

  // ---------------------------------------------------------------------------
  // The four-line answer the prompt asks for (server/index.js:74-78).

  /** A field value that holds neither a colon nor a line terminator. */
  predicate Plain(v: string) {
    forall k :: 0 <= k < |v| ==> v[k] != ':' && !IsLineTerminator(v[k])
  }

  /** The answer in the format the prompt requests. */
  function Report(o: string, c: string, why: string, ds: string): string {
    "Object: " + o + "\n" + "Category: " + c + "\n" + "Reason: " + why + "\n" + "Confidence: " + ds
  }

  /** Where the `Category: `, `Reason: ` and `Confidence: ` lines of a report begin. */
  function CategoryLine(o: string): nat { 9 + |o| }
  function ReasonLine(o: string, c: string): nat { CategoryLine(o) + 11 + |c| }
  function ConfidenceLine(o: string, c: string, why: string): nat { ReasonLine(o, c) + 9 + |why| }

  /** The pieces of a report followed by any `tail`, by position. */
  lemma ReportLayout(o: string, c: string, why: string, ds: string, tail: string)
    ensures var text := Report(o, c, why, ds) + tail;
      var p2, p3, p4 := CategoryLine(o), ReasonLine(o, c), ConfidenceLine(o, c, why);
      && |text| == p4 + 12 + |ds| + |tail|
      && text[..8] == "Object: " && text[8..8 + |o|] == o && text[p2 - 1] == '\n'
      && text[p2..p2 + 10] == "Category: " && text[p2 + 10..p2 + 10 + |c|] == c && text[p3 - 1] == '\n'
      && text[p3..p3 + 8] == "Reason: " && text[p3 + 8..p3 + 8 + |why|] == why && text[p4 - 1] == '\n'
      && text[p4..p4 + 12] == "Confidence: " && text[p4 + 12..p4 + 12 + |ds|] == ds
      && text[p4 + 12 + |ds|..] == tail
  {
  }

  /** Outside the four label colons, a report of plain values has no colon. */
  lemma ReportColons(o: string, c: string, why: string, ds: string, tail: string, i: nat)
    requires Plain(o) && Plain(c) && Plain(why) && AllDigits(ds)
    requires i < ConfidenceLine(o, c, why) + 12 + |ds|
    requires i != 6 && i != CategoryLine(o) + 8 && i != ReasonLine(o, c) + 6 && i != ConfidenceLine(o, c, why) + 10
    ensures (Report(o, c, why, ds) + tail)[i] != ':'
  {
    if i < ReasonLine(o, c) {
      ReportColonsBefore(o, c, why, ds, tail, i);
    } else {
      ReportColonsAfter(o, c, why, ds, tail, i);
    }
  }

  /** The first two lines of a report of plain values. */
  lemma ReportColonsBefore(o: string, c: string, why: string, ds: string, tail: string, i: nat)
    requires Plain(o) && Plain(c)
    requires i < ReasonLine(o, c) && i != 6 && i != CategoryLine(o) + 8
    ensures (Report(o, c, why, ds) + tail)[i] != ':'
  {
    var text := Report(o, c, why, ds) + tail;
    var p2, p3 := CategoryLine(o), ReasonLine(o, c);
    ReportLayout(o, c, why, ds, tail);
    LabelTexts();
    if i < 8 {
      assert text[i] == text[..8][i];
      LabelColon(ObjectField, i);
    } else if i < p2 - 1 {
      assert text[i] == text[8..8 + |o|][i - 8];
    } else if i < p2 {
      assert i == p2 - 1;
    } else if i < p2 + 10 {
      assert text[i] == text[p2..p2 + 10][i - p2];
      LabelColon(CategoryField, i - p2);
    } else if i < p3 - 1 {
      assert text[i] == text[p2 + 10..p2 + 10 + |c|][i - p2 - 10];
    } else {
      assert i == p3 - 1;
    }
  }

  /** The last two lines of a report of plain values. */
  lemma ReportColonsAfter(o: string, c: string, why: string, ds: string, tail: string, i: nat)
    requires Plain(why) && AllDigits(ds)
    requires ReasonLine(o, c) <= i < ConfidenceLine(o, c, why) + 12 + |ds|
    requires i != ReasonLine(o, c) + 6 && i != ConfidenceLine(o, c, why) + 10
    ensures (Report(o, c, why, ds) + tail)[i] != ':'
  {
    var text := Report(o, c, why, ds) + tail;
    var p3, p4 := ReasonLine(o, c), ConfidenceLine(o, c, why);
    ReportLayout(o, c, why, ds, tail);
    LabelTexts();
    if i < p3 + 8 {
      assert text[i] == text[p3..p3 + 8][i - p3];
      LabelColon(ReasonField, i - p3);
    } else if i < p4 - 1 {
      assert text[i] == text[p3 + 8..p3 + 8 + |why|][i - p3 - 8];
    } else if i < p4 {
      assert i == p4 - 1;
    } else if i < p4 + 12 {
      assert text[i] == text[p4..p4 + 12][i - p4];
      LabelColon(ConfidenceField, i - p4);
    } else {
      assert text[i] == text[p4 + 12..p4 + 12 + |ds|][i - p4 - 12];
    }
  }

  /** The only colon of a label is its second-to-last character. */
  lemma LabelColon(f: Field, k: nat)
    requires k < |Label(f)| && k != |Label(f)| - 2
    ensures Label(f)[k] != ':'
  {
  }

  /** A label can only match where its colon meets a colon of the text. */
  lemma LabelNeedsColon(text: string, f: Field, q: nat)
    requires q + |Label(f)| <= |text| && text[q + |Label(f)| - 2] != ':'
    ensures !MatchAt(text, f, q)
  {
    var k := |Label(f)| - 2;
    assert text[q..q + |Label(f)|][k] == text[q + k];
    DifferAt(text[q..q + |Label(f)|], Label(f), k);
  }

  /** A label cannot match where one of its characters differs, letter case aside. */
  lemma LabelMismatch(text: string, f: Field, q: nat, k: nat)
    requires k < |Label(f)| && q + k < |text| && Upper(text[q + k]) != Upper(Label(f)[k])
    ensures !MatchAt(text, f, q)
  {
    if q + |Label(f)| <= |text| {
      assert text[q..q + |Label(f)|][k] == text[q + k];
      DifferAt(text[q..q + |Label(f)|], Label(f), k);
    }
  }

  /** In a report, `Object: ` matches at the very start. */
  lemma ReportObjectFirst(o: string, c: string, why: string, ds: string, tail: string)
    ensures FirstAt(Report(o, c, why, ds) + tail, ObjectField, 0)
  {
    var text := Report(o, c, why, ds) + tail;
    ReportLayout(o, c, why, ds, tail);
    LabelTexts();
    assert text[0..8] == Label(ObjectField);
    LabelAtSlice(text, Label(ObjectField), 0);
  }

  /** In a report of plain values, `Category: ` first matches at the start of the second line. */
  lemma ReportCategoryFirst(o: string, c: string, why: string, ds: string, tail: string)
    requires Plain(o) && Plain(c) && Plain(why) && AllDigits(ds)
    ensures FirstAt(Report(o, c, why, ds) + tail, CategoryField, CategoryLine(o))
  {
    var text := Report(o, c, why, ds) + tail;
    var p2 := CategoryLine(o);
    ReportLayout(o, c, why, ds, tail);
    LabelTexts();
    LabelAtSlice(text, Label(CategoryField), p2);
    forall q: nat | q < p2 ensures !MatchAt(text, CategoryField, q) {
      ReportColons(o, c, why, ds, tail, q + 8);
      LabelNeedsColon(text, CategoryField, q);
    }
  }

  /** In a report of plain values, `Reason: ` first matches at the start of the third line. */
  lemma ReportReasonFirst(o: string, c: string, why: string, ds: string, tail: string)
    requires Plain(o) && Plain(c) && Plain(why) && AllDigits(ds)
    ensures FirstAt(Report(o, c, why, ds) + tail, ReasonField, ReasonLine(o, c))
  {
    var text := Report(o, c, why, ds) + tail;
    var p2, p3 := CategoryLine(o), ReasonLine(o, c);
    ReportLayout(o, c, why, ds, tail);
    LabelTexts();
    LabelAtSlice(text, Label(ReasonField), p3);
    forall q: nat | q < p3 ensures !MatchAt(text, ReasonField, q) {
      ReportReasonNotAt(o, c, why, ds, tail, q);
    }
  }

  lemma ReportReasonNotAt(o: string, c: string, why: string, ds: string, tail: string, q: nat)
    requires Plain(o) && Plain(c) && Plain(why) && AllDigits(ds)
    requires q < ReasonLine(o, c)
    ensures !MatchAt(Report(o, c, why, ds) + tail, ReasonField, q)
  {
    var text := Report(o, c, why, ds) + tail;
    var p2 := CategoryLine(o);
    ReportLayout(o, c, why, ds, tail);
    LabelTexts();
    if q == 0 {
      assert text[0] == text[..8][0];
      LabelMismatch(text, ReasonField, q, 0);
    } else if q == p2 + 2 {
      assert text[q] == text[p2..p2 + 10][2];
      LabelMismatch(text, ReasonField, q, 0);
    } else {
      ReportColons(o, c, why, ds, tail, q + 6);
      LabelNeedsColon(text, ReasonField, q);
    }
  }

  /** In a report of plain values, `Confidence: ` followed by a digit first
      matches at the start of the fourth line. */
  lemma ReportConfidenceFirst(o: string, c: string, why: string, ds: string, tail: string)
    requires Plain(o) && Plain(c) && Plain(why) && |ds| > 0 && AllDigits(ds)
    ensures FirstAt(Report(o, c, why, ds) + tail, ConfidenceField, ConfidenceLine(o, c, why))
  {
    var text := Report(o, c, why, ds) + tail;
    var p2, p3, p4 := CategoryLine(o), ReasonLine(o, c), ConfidenceLine(o, c, why);
    ReportLayout(o, c, why, ds, tail);
    LabelTexts();
    LabelAtSlice(text, Label(ConfidenceField), p4);
    assert IsDigit(text[p4 + 12]) by { assert text[p4 + 12] == text[p4 + 12..p4 + 12 + |ds|][0]; }
    assert MatchAt(text, ConfidenceField, p4);
    forall q: nat | q < p4 ensures !MatchAt(text, ConfidenceField, q) {
      ReportConfidenceNotAt(o, c, why, ds, tail, q);
    }
  }

  lemma ReportConfidenceNotAt(o: string, c: string, why: string, ds: string, tail: string, q: nat)
    requires Plain(o) && Plain(c) && Plain(why) && AllDigits(ds)
    requires q < ConfidenceLine(o, c, why)
    ensures !MatchAt(Report(o, c, why, ds) + tail, ConfidenceField, q)
  {
    var text := Report(o, c, why, ds) + tail;
    var p2, p3 := CategoryLine(o), ReasonLine(o, c);
    ReportLayout(o, c, why, ds, tail);
    if q + 1 == p2 - 1 {
      LabelMismatch(text, ConfidenceField, q, 1);
    } else if q + 3 == p3 - 1 {
      LabelMismatch(text, ConfidenceField, q, 3);
    } else {
      ReportColons(o, c, why, ds, tail, q + 10);
      LabelNeedsColon(text, ConfidenceField, q);
    }
  }

  lemma ReportObjectLabel(o: string, c: string, why: string, ds: string, tail: string)
    requires Plain(o)
    ensures ObjectLabelOf(Report(o, c, why, ds) + tail) == Trim(o)
  {
    var text := Report(o, c, why, ds) + tail;
    ReportLayout(o, c, why, ds, tail);
    ReportObjectFirst(o, c, why, ds, tail);
    LineFieldAt(text, ObjectField, 0, o);
  }

  lemma ReportCategory(o: string, c: string, why: string, ds: string, tail: string)
    requires Plain(o) && Plain(c) && Plain(why) && AllDigits(ds)
    ensures CategoryOf(Report(o, c, why, ds) + tail) == Lowered(Trim(c))
  {
    var text := Report(o, c, why, ds) + tail;
    ReportLayout(o, c, why, ds, tail);
    ReportCategoryFirst(o, c, why, ds, tail);
    LineFieldAt(text, CategoryField, CategoryLine(o), c);
  }

  lemma ReportReason(o: string, c: string, why: string, ds: string, tail: string)
    requires Plain(o) && Plain(c) && Plain(why) && AllDigits(ds)
    ensures ReasonOf(Report(o, c, why, ds) + tail) == Trim(why)
  {
    var text := Report(o, c, why, ds) + tail;
    var p3 := ReasonLine(o, c);
    assert text[p3 + 8..p3 + 8 + |why|] == why && text[p3 + 8 + |why|] == '\n' by {
      ReportLayout(o, c, why, ds, tail);
    }
    ReportReasonFirst(o, c, why, ds, tail);
    LineFieldAt(text, ReasonField, p3, why);
  }

  lemma ReportConfidence(o: string, c: string, why: string, ds: string, tail: string)
    requires Plain(o) && Plain(c) && Plain(why)
    requires |ds| > 0 && AllDigits(ds) && (tail == [] || !IsDigit(tail[0]))
    ensures ConfidenceOf(Report(o, c, why, ds) + tail) == DecimalValue(ds)
  {
    var text := Report(o, c, why, ds) + tail;
    var p4 := ConfidenceLine(o, c, why);
    ReportLayout(o, c, why, ds, tail);
    ReportConfidenceFirst(o, c, why, ds, tail);
    assert |Label(ConfidenceField)| == 12;
    if tail != [] {
      assert text[p4 + 12 + |ds|] == text[p4 + 12 + |ds|..][0];
    }
    ConfidenceAt(text, p4, |ds|);
  }

  /** For a report in the requested format whose values hold no colon and no line
      break, each field is the trimmed value of its line, the category also
      lower-cased, and the confidence is the number on the last line, whatever
      follows it (as long as it is not another digit). */
  lemma ParseReport(o: string, c: string, why: string, ds: string, tail: string)
    requires Plain(o) && Plain(c) && Plain(why)
    requires |ds| > 0 && AllDigits(ds) && (tail == [] || !IsDigit(tail[0]))
    ensures Parse(Report(o, c, why, ds) + tail) == Parsed(Trim(o), Lowered(Trim(c)), Trim(why), DecimalValue(ds))
  {
    ReportObjectLabel(o, c, why, ds, tail);
    ReportCategory(o, c, why, ds, tail);
    ReportReason(o, c, why, ds, tail);
    ReportConfidence(o, c, why, ds, tail);
  }

  // ---------------------------------------------------------------------------
  // Scenarios.

  /** A paraphrased category still resolves to the entry it names. */
  lemma ResolveParaphrase()
    ensures Resolve("recyclable waste - paper") == Some(Recyclable)
  {
    var phrase := "recyclable waste - paper";
    assert OccursAt(phrase, Recyclable.id, 0);
    ResolveIsIdMatch(phrase);
  }

  /** A phrase lacking one letter of every id resolves to nothing: "unknown"
      (the default category) and "unidentifiable goo" among them. */
  lemma ResolveNothing(phrase: string)
    requires 'r' !in phrase && 's' !in phrase
    ensures Resolve(phrase) == None
  {
    ResolveIsIdMatch(phrase);
    MissingCharNotContained(phrase, Recyclable.id, 0);
    MissingCharNotContained(phrase, Hazardous.id, 4);
    MissingCharNotContained(phrase, Solid.id, 0);
    MissingCharNotContained(phrase, Organic.id, 1);
  }

  /** An answer without a `Category: ` line is a successful, unclassified
      result with confidence 50 (status 200, not an error). */
  lemma NoCategoryLineIsUnclassified(imageUrl: Option<string>, text: string, draw: nat)
    requires draw < 20 && AcceptedUrl(imageUrl)
    requires forall p: nat :: !MatchAt(text, CategoryField, p)
    ensures Respond(imageUrl, Answered(text), draw)
         == Response(200, ResultBody(Unclassified, Parse(text).objectLabel, Parse(text).reason, 50))
  {
    assert Parse(text).category == DefaultCategory;
    DefaultCategoryUnresolved();
  }

  /** The default category phrase "unknown" resolves to no entry. */
  lemma DefaultCategoryUnresolved()
    ensures Resolve(DefaultCategory) == None
  {
    ResolveNothing(DefaultCategory);
  }

  /** The reply Gemini is asked for, for a plastic bottle. */
  const BottleReport := Report("plastic bottle", "Recyclable Waste", "PET plastic", "91")

  lemma BottleReportParsed()
    ensures Parse(BottleReport) == Parsed("plastic bottle", "recyclable waste", "PET plastic", 91)
  {
    assert BottleReport + [] == BottleReport;
    BottleLiterals();
    ParseReport("plastic bottle", "Recyclable Waste", "PET plastic", "91", []);
    LetterEndsTrimmed("plastic bottle");
    LetterEndsTrimmed("Recyclable Waste");
    LetterEndsTrimmed("PET plastic");
  }

  /** The bottle report's values hold no colon and no line break, its
      confidence is the digits of 91, and its category lower-cases to the
      table's name. */
  lemma BottleLiterals()
    ensures Plain("plastic bottle") && Plain("Recyclable Waste") && Plain("PET plastic")
    ensures AllDigits("91") && DecimalValue("91") == 91
    ensures Lowered("Recyclable Waste") == "recyclable waste"
  {
  }

  /** A value that begins and ends with a letter is its own trimmed value. */
  lemma LetterEndsTrimmed(v: string)
    requires |v| > 0
    requires 'a' <= v[0] <= 'z' || 'A' <= v[0] <= 'Z'
    requires 'a' <= v[|v| - 1] <= 'z' || 'A' <= v[|v| - 1] <= 'Z'
    ensures Trim(v) == v
  {
    TrimmedTrim(v);
  }

  /** A lower-cased display name resolves to its own entry. */
  lemma RecyclableNameResolved()
    ensures Resolve("recyclable waste") == Some(Recyclable)
  {
    assert OccursAt("recyclable waste", Recyclable.id, 0);
    ResolveIsIdMatch("recyclable waste");
  }

  /** The answer for a plastic bottle, end to end through the handler: the
      confidence Gemini states (91) is replaced by 80 plus the draw. */
  lemma PlasticBottle(imageUrl: Option<string>, draw: nat)
    requires draw < 20 && AcceptedUrl(imageUrl)
    ensures Respond(imageUrl, Answered(BottleReport), draw)
         == Response(200, ResultBody(Recyclable, "plastic bottle", "PET plastic", 80 + draw))
  {
    BottleReportParsed();
    RecyclableNameResolved();
  }
}
