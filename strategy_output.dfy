/** The strategy detail page of StrategyOutput.tsx: it looks up the idea named by the route,
    parses string content the same way the generator page does (but without its completeness
    heuristic, and with `null` on failure), and lays out the heading, the title card and the
    six bullet sections of the strategy. */
module StrategyOutput {

  import opened Text
  import opened Seqs
  import opened Json
  import opened Fence
  import opened Ideas
  import opened IdeaParser

  /** `ideas.find(i => i.id === id)`: the position of the first stored idea with that id. */
  function FindIdea(ideas: seq<Idea>, id: string): (r: Option<nat>)
    ensures r.Some? ==> r.value < |ideas| && ideas[r.value].id == id
    ensures r.Some? ==> forall k :: 0 <= k < r.value ==> ideas[k].id != id
    ensures r.None? <==> forall k :: 0 <= k < |ideas| ==> ideas[k].id != id
  {
    FindFirst(ideas, (i: Idea) => i.id == id)
  }

  /** The `idea` state after the loading effect runs: the found idea replaces it, and when no
      idea has the id the previous state is kept. */
  function Loaded(current: Option<Idea>, ideas: seq<Idea>, id: string): (r: Option<Idea>)
    ensures FindIdea(ideas, id).None? ==> r == current
    ensures FindIdea(ideas, id).Some? ==> r == Some(ideas[FindIdea(ideas, id).value])
  {
    match FindIdea(ideas, id)
    case Some(k) => Some(ideas[k])
    case None => current
  }

  /** On the first load (the state starts as `null`) the page shows the first stored idea with
      the route's id, and the not-found view exactly when no stored idea has that id. */
  lemma FirstLoadShowsFirstMatch(ideas: seq<Idea>, id: string)
    ensures Loaded(None, ideas, id).None? <==> forall k :: 0 <= k < |ideas| ==> ideas[k].id != id
    ensures Loaded(None, ideas, id).Some? ==>
      exists k :: 0 <= k < |ideas| && ideas[k] == Loaded(None, ideas, id).value && ideas[k].id == id
        && forall j :: 0 <= j < k ==> ideas[j].id != id
  {
    if FindIdea(ideas, id).Some? {
      var k := FindIdea(ideas, id).value;
      assert ideas[k] == Loaded(None, ideas, id).value;
    }
  }

  /** `parsedContent`: string content is fence-stripped, trimmed and parsed, with `null` when
      the parse throws; any other content is used as it is. */
  function ParsedContent(content: Json, parse: string -> ParseOutcome): (r: Json)
    ensures !content.JString? ==> r == content
    ensures content.JString? && parse(Trim(StripFence(content.s))).SyntaxError? ==> r == JNull
    ensures content.JString? && parse(Trim(StripFence(content.s))).Parsed? ==>
      r == parse(Trim(StripFence(content.s))).value
  {
    if !content.JString? then content
    else match parse(Trim(StripFence(content.s)))
      case Parsed(v) => v
      case SyntaxError(_) => JNull
  }

  /** Saved text is read back the way the generator page read it once its stream had ended
      (here as written; the next lemma says the same of the corrected parser): a value that page parsed is the same value here, and text
      it rejected becomes `null`. Text that page would still be waiting for is parsed here all
      the same. */
  lemma StringContentAgreesWithParser(s: string, parse: string -> ParseOutcome)
    ensures ParseIdeaData(Text(s), false, parse).Ready? ==>
      ParsedContent(JString(s), parse) == ParseIdeaData(Text(s), false, parse).value
    ensures ParseIdeaData(Text(s), false, parse).Failed? ==> ParsedContent(JString(s), parse) == JNull
    ensures ParseIdeaData(Text(s), false, parse).NotYet? ==> LooksIncomplete(StripFence(s))
  {
    ReadyContentAgrees(s, parse);
    FailedContentIsNull(s, parse);
    WaitingMeansIncomplete(s, parse);
  }

  lemma ReadyContentAgrees(s: string, parse: string -> ParseOutcome)
    ensures ParseIdeaData(Text(s), false, parse).Ready? ==>
      ParsedContent(JString(s), parse) == ParseIdeaData(Text(s), false, parse).value
  {
  }

  lemma FailedContentIsNull(s: string, parse: string -> ParseOutcome)
    ensures ParseIdeaData(Text(s), false, parse).Failed? ==> ParsedContent(JString(s), parse) == JNull
  {
  }

  lemma WaitingMeansIncomplete(s: string, parse: string -> ParseOutcome)
    ensures ParseIdeaData(Text(s), false, parse).NotYet? ==> LooksIncomplete(StripFence(s))
  {
  }

  lemma StringContentAgreesWithIntendedParser(s: string, parse: string -> ParseOutcome)
    ensures ParseIdeaDataIntended(Text(s), false, parse).Ready? ==>
      ParsedContent(JString(s), parse) == ParseIdeaDataIntended(Text(s), false, parse).value
    ensures ParseIdeaDataIntended(Text(s), false, parse).Failed? ==> ParsedContent(JString(s), parse) == JNull
  {
    IntendedReadyContentAgrees(s, parse);
    IntendedFailedContentIsNull(s, parse);
  }

  lemma IntendedReadyContentAgrees(s: string, parse: string -> ParseOutcome)
    ensures ParseIdeaDataIntended(Text(s), false, parse).Ready? ==>
      ParsedContent(JString(s), parse) == ParseIdeaDataIntended(Text(s), false, parse).value
  {
  }

  lemma IntendedFailedContentIsNull(s: string, parse: string -> ParseOutcome)
    ensures ParseIdeaDataIntended(Text(s), false, parse).Failed? ==> ParsedContent(JString(s), parse) == JNull
  {
  }

  /** A fenced object answer saved as text shows the object its payload parses to. */
  lemma FencedContentParses(a: string, lang: string, w1: string, j: string, w2: string, b: string,
                            parse: string -> ParseOutcome)
    requires AllSpace(a) && AllSpace(w1) && AllSpace(w2) && AllSpace(b)
    requires lang == "json" || lang == ""
    requires ObjectText(j)
    requires parse(j).Parsed?
    ensures ParsedContent(JString(Fenced(a, lang, w1, j, w2, b)), parse) == parse(j).value
  {
    StripFencedAnswer(a, lang, w1, j, w2, b);
    ChompKeepsSpace(w2);
    ContentOfStripped(Fenced(a, lang, w1, j, w2, b), j, Chomp(w2), parse);
  }

  /** Saved text that cleans to an object text followed by white space shows what
      `JSON.parse` gives for the object text. */
  lemma ContentOfStripped(s: string, j: string, w: string, parse: string -> ParseOutcome)
    requires StripFence(s) == j + w && AllSpace(w) && ObjectText(j) && parse(j).Parsed?
    ensures ParsedContent(JString(s), parse) == parse(j).value
  {
    assert Trimmed(j) by { assert j[0] == '{' && j[|j| - 1] == '}'; }
    TrimDropsTrailingSpace(j, w);
  }

  /** What a `Section` renders for the value found under its key. */
  datatype SectionView =
    | Hidden
    | Bullets(items: seq<Json>)
    /** `items.map` is not a function on this value: rendering throws a TypeError. */
    | RenderFailure

  /** `if (!items || items.length === 0) return null`, then `items.map(...)`. A missing or falsy
      value and an empty array render nothing; so does an object whose "length" is 0. */
  function SectionFor(items: Option<Json>): (r: SectionView)
    ensures items.None? || !Truthy(items.value) ==> r == Hidden
    ensures items.Some? && items.value.JArray? ==>
      (r == Hidden <==> items.value.items == []) && (r != Hidden ==> r == Bullets(items.value.items))
    ensures r.Bullets? ==> items == Some(JArray(r.items)) && r.items != []
    ensures r.RenderFailure? <==>
      items.Some? && Truthy(items.value) && !items.value.JArray? && Field(items.value, "length") != Some(JNumber(0.0))
  {
    match items
    case None => Hidden
    case Some(v) =>
      if !Truthy(v) then Hidden
      else match v
        case JArray(xs) => if xs == [] then Hidden else Bullets(xs)
        case _ => if Field(v, "length") == Some(JNumber(0.0)) then Hidden else RenderFailure
  }

  /** The six sections, in page order: heading and key of the strategy field. */
  const Sections: seq<(string, string)> := [
    ("Problem Statement", "problem"),
    ("Proposed Solution", "solution"),
    ("Minimum Viable Product (MVP)", "mvp"),
    ("Go-to-Market Strategy", "goToMarket"),
    ("Monetization Strategy", "monetization"),
    ("Risks & Validation", "risksValidation")
  ]

  /** The page heading `parsedContent?.title || idea.title || 'Untitled Idea'`. */
  function Heading(parsed: Json, ideaTitle: string): (r: Json)
    ensures Truthy(r)
    ensures Field(parsed, "title").Some? && Truthy(Field(parsed, "title").value) ==> r == Field(parsed, "title").value
    ensures (Field(parsed, "title").None? || !Truthy(Field(parsed, "title").value)) ==>
      r == JString(if ideaTitle != "" then ideaTitle else "Untitled Idea")
  {
    var t := Field(parsed, "title");
    if t.Some? && Truthy(t.value) then t.value
    else if ideaTitle != "" then JString(ideaTitle) else JString("Untitled Idea")
  }

  /** What `{parsedContent.title && (<card/>)}` puts on the page: the gradient title card for a
      truthy title; for the falsy number 0, React prints the text "0"; otherwise nothing. */
  datatype TitleSlot = NoCard | Card(title: Json) | ZeroText

  function TitleSlotFor(parsed: Json): (r: TitleSlot)
    ensures r.Card? <==> Field(parsed, "title").Some? && Truthy(Field(parsed, "title").value)
    ensures r.Card? ==> r.title == Field(parsed, "title").value
    ensures r.ZeroText? <==> Field(parsed, "title") == Some(JNumber(0.0))
  {
    match Field(parsed, "title")
    case Some(t) => if Truthy(t) then Card(t) else if t == JNumber(0.0) then ZeroText else NoCard
    case None => NoCard
  }

  /** The strategy area: "No strategy content available" when the parsed content is falsy;
      otherwise the title slot and the six sections, in page order. */
  datatype StrategyArea = NoStrategy | Strategy(titleSlot: TitleSlot, sections: seq<(string, SectionView)>)

  function StrategyAreaFor(parsed: Json): (r: StrategyArea)
    ensures r.NoStrategy? <==> !Truthy(parsed)
    ensures r.Strategy? ==> r.titleSlot == TitleSlotFor(parsed) && |r.sections| == |Sections|
    ensures r.Strategy? ==> forall k :: 0 <= k < |Sections| ==>
      r.sections[k] == (Sections[k].0, SectionFor(Field(parsed, Sections[k].1)))
  {
    if !Truthy(parsed) then NoStrategy
    else Strategy(TitleSlotFor(parsed),
                  seq(|Sections|, k requires 0 <= k < |Sections| => (Sections[k].0, SectionFor(Field(parsed, Sections[k].1)))))
  }

  /** The whole page for a route id: "Idea not found", or the header (heading, the description
      when non-empty, the tags when there are some, the creation time) and the strategy area. */
  datatype Page =
    | NotFound
    | Detail(heading: Json, description: Option<string>, tags: seq<string>, createdAt: string,
             area: StrategyArea)

  function PageFor(idea: Option<Idea>, parse: string -> ParseOutcome): (r: Page)
    ensures r.NotFound? <==> idea.None?
    ensures r.Detail? ==> r.heading == Heading(ParsedContent(idea.value.content, parse), idea.value.title)
    ensures r.Detail? ==> (r.description.Some? <==> idea.value.description != "")
    ensures r.Detail? && r.description.Some? ==> r.description.value == idea.value.description
    ensures r.Detail? ==> r.tags == idea.value.tags && r.createdAt == idea.value.createdAt
    ensures r.Detail? ==> r.area == StrategyAreaFor(ParsedContent(idea.value.content, parse))
  {
    match idea
    case None => NotFound
    case Some(i) =>
      var parsed := ParsedContent(i.content, parse);
      Detail(Heading(parsed, i.title), if i.description != "" then Some(i.description) else None,
             i.tags, i.createdAt, StrategyAreaFor(parsed))
  }

  /** A strategy object whose "problem" holds the single bullet "p1" and which has no other
      section field shows a "Problem Statement" section with that one bullet and no other section. */
  lemma SingleProblemBullet(title: Json)
    ensures StrategyAreaFor(JObject(map["title" := title, "problem" := JArray([JString("p1")])])) ==
      Strategy(TitleSlotFor(JObject(map["title" := title, "problem" := JArray([JString("p1")])])),
               [("Problem Statement", Bullets([JString("p1")])),
                ("Proposed Solution", Hidden),
                ("Minimum Viable Product (MVP)", Hidden),
                ("Go-to-Market Strategy", Hidden),
                ("Monetization Strategy", Hidden),
                ("Risks & Validation", Hidden)])
  {
  }

  /** The stream of two deltas `{"title":"X",` and `"problem":["p1"]}`, saved as text, shows the
      title card "X" and one "Problem Statement" bullet "p1", given that `JSON.parse` reads their
      concatenation as that object. */
  lemma TwoDeltaAnswer(parse: string -> ParseOutcome)
    requires parse("{\"title\":\"X\"," + "\"problem\":[\"p1\"]}") ==
      Parsed(JObject(map["title" := JString("X"), "problem" := JArray([JString("p1")])]))
    ensures StrategyAreaFor(ParsedContent(JString(Concat(["{\"title\":\"X\",", "\"problem\":[\"p1\"]}"])), parse)) ==
      Strategy(Card(JString("X")),
               [("Problem Statement", Bullets([JString("p1")])),
                ("Proposed Solution", Hidden),
                ("Minimum Viable Product (MVP)", Hidden),
                ("Go-to-Market Strategy", Hidden),
                ("Monetization Strategy", Hidden),
                ("Risks & Validation", Hidden)])
  {
    var j := "{\"title\":\"X\"," + "\"problem\":[\"p1\"]}";
    TwoDeltaText();
    ObjectContentParses(j, parse);
    TitledProblemBullet();
  }

  lemma TitledProblemBullet()
    ensures StrategyAreaFor(JObject(map["title" := JString("X"), "problem" := JArray([JString("p1")])])) ==
      Strategy(Card(JString("X")),
               [("Problem Statement", Bullets([JString("p1")])),
                ("Proposed Solution", Hidden),
                ("Minimum Viable Product (MVP)", Hidden),
                ("Go-to-Market Strategy", Hidden),
                ("Monetization Strategy", Hidden),
                ("Risks & Validation", Hidden)])
  {
    var obj := JObject(map["title" := JString("X"), "problem" := JArray([JString("p1")])]);
    SingleProblemBullet(JString("X"));
    assert Field(obj, "title") == Some(JString("X"));
  }

  lemma TwoDeltaText()
    ensures Concat(["{\"title\":\"X\",", "\"problem\":[\"p1\"]}"]) == "{\"title\":\"X\"," + "\"problem\":[\"p1\"]}"
    ensures ObjectText("{\"title\":\"X\"," + "\"problem\":[\"p1\"]}")
  {
    var d1 := "{\"title\":\"X\",";
    var d2 := "\"problem\":[\"p1\"]}";
    ConcatPair(d1, d2);
    BracedPair(d1, d2);
  }

  /** A piece that opens with a brace followed by one that closes with a brace make an object text. */
  lemma BracedPair(d1: string, d2: string)
    requires d1 != [] && d1[0] == '{' && d2 != [] && d2[|d2| - 1] == '}'
    ensures ObjectText(d1 + d2)
  {
    var j := d1 + d2;
    assert j[0] == d1[0];
    assert j[|j| - 1] == d2[|d2| - 1];
  }

  /** Saved text that is exactly an object text shows what `JSON.parse` makes of it. */
  lemma ObjectContentParses(j: string, parse: string -> ParseOutcome)
    requires ObjectText(j) && parse(j).Parsed?
    ensures ParsedContent(JString(j), parse) == parse(j).value
  {
    assert [] + j + [] == j;
    StripBareAnswer([], j, []);
    assert j + [] == j;
    ContentOfStripped(j, j, [], parse);
  }
}
