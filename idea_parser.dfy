/** `parseIdeaData` of NewIdea.tsx: the tolerant parser that turns the text streamed so far into
    the strategy object, "not yet" while the text is visibly incomplete or the stream is still
    running, and an error record once the stream has ended on text that does not parse. */
module IdeaParser {

  import opened Text
  import opened Json
  import opened Fence

  /** What the display hands to the parser: the text received so far, or a value that is
      already an object (`typeof rawOutput === "object"`). Only `null`, arrays and objects pass
      that test; a `Structured` string, number or boolean cannot arise in the source, and the
      lemmas about `Structured` hold for those values as well. */
  datatype Raw = Text(text: string) | Structured(value: Json)

  /** `null` (keep showing the loading state), a parsed value, or the error record
      `{ error: true, rawOutput, message }`. The source returns `null` both for "not yet" and
      for a parsed or structured `null`, and the page cannot tell `NotYet` from `Ready(JNull)`;
      the model keeps them apart only to name the two paths. */
  datatype IdeaData = NotYet | Ready(value: Json) | Failed(rawOutput: string, message: string)

  /** The completeness heuristic: an opening brace somewhere, but no closing brace at the end. */
  predicate LooksIncomplete(cleaned: string) {
    '{' in cleaned && !EndsWith(cleaned, "}")
  }

  /** `parseIdeaData(rawOutput)` with `isStreaming` and `JSON.parse` as parameters, as written:
      the heuristic looks at the cleaned text before its final trim. */
  function ParseIdeaData(raw: Raw, isStreaming: bool, parse: string -> ParseOutcome): IdeaData {
    match raw
    case Structured(v) => Ready(v)
    case Text(s) =>
      var cleaned := StripFence(s);
      if LooksIncomplete(cleaned) then NotYet
      else match parse(Trim(cleaned))
        case Parsed(v) => Ready(v)
        case SyntaxError(m) => if isStreaming then NotYet else Failed(s, m)
  }

  /** A value that is already an object is handed back unchanged, and nothing is parsed. */
  lemma StructuredPassesThrough(v: Json, isStreaming: bool, parse: string -> ParseOutcome)
    ensures ParseIdeaData(Structured(v), isStreaming, parse) == Ready(v)
  {
  }

  /** Visibly truncated text gives "not yet", whether or not the stream has ended: an answer cut
      off inside the object keeps the loading state for good and never yields an error record. */
  lemma IncompleteIsNotYet(s: string, isStreaming: bool, parse: string -> ParseOutcome)
    requires LooksIncomplete(StripFence(s))
    ensures ParseIdeaData(Text(s), isStreaming, parse) == NotYet
  {
  }

  /** The streaming flag matters only for a failed parse: while streaming, the failure is
      swallowed as "not yet"; in every other case both flags give the same answer. */
  lemma StreamingOnlyDefersFailures(raw: Raw, parse: string -> ParseOutcome)
    ensures ParseIdeaData(raw, true, parse) ==
      if ParseIdeaData(raw, false, parse).Failed? then NotYet else ParseIdeaData(raw, false, parse)
  {
  }

  /** An error record only appears once the stream has ended, carries the raw text exactly as
      received, and carries the parser's own message. */
  lemma FailureCarriesRawOutput(s: string, isStreaming: bool, parse: string -> ParseOutcome)
    requires ParseIdeaData(Text(s), isStreaming, parse).Failed?
    ensures !isStreaming
    ensures ParseIdeaData(Text(s), isStreaming, parse).rawOutput == s
    ensures parse(Trim(StripFence(s))) == SyntaxError(ParseIdeaData(Text(s), isStreaming, parse).message)
  {
  }

  /** Once the stream has ended, text that passes the completeness heuristic but that
      `JSON.parse` rejects gives the error record with the raw text and the parser's message.
      The heuristic comes first: text cut off inside an object (a '{' and no final '}') gets
      "not yet" instead, as `IncompleteIsNotYet` states, and never reaches this record. */
  lemma FinishedFailureIsReported(s: string, parse: string -> ParseOutcome)
    requires !LooksIncomplete(StripFence(s)) && parse(Trim(StripFence(s))).SyntaxError?
    ensures ParseIdeaData(Text(s), false, parse) == Failed(s, parse(Trim(StripFence(s))).message)
  {
  }

  /** A finished answer that is an object text, bare or inside a fence whose closing marker
      directly follows the object or its newline, gives exactly what `JSON.parse` gives. */
  lemma FencedAnswerParses(a: string, lang: string, w1: string, j: string, w2: string, b: string,
                           parse: string -> ParseOutcome)
    requires AllSpace(a) && AllSpace(w1) && AllSpace(b)
    requires lang == "json" || lang == ""
    requires w2 == "" || w2 == "\n"
    requires ObjectText(j) && parse(j).Parsed?
    ensures ParseIdeaData(Text(Fenced(a, lang, w1, j, w2, b)), false, parse) == Ready(parse(j).value)
  {
    StripFencedAnswer(a, lang, w1, j, w2, b);
    assert Chomp(w2) == "";
    assert j + "" == j;
    ParsesCleaned(Fenced(a, lang, w1, j, w2, b), j, parse);
  }

  lemma BareAnswerParses(a: string, j: string, b: string, parse: string -> ParseOutcome)
    requires AllSpace(a) && AllSpace(b)
    requires ObjectText(j) && parse(j).Parsed?
    ensures ParseIdeaData(Text(a + j + b), false, parse) == Ready(parse(j).value)
  {
    StripBareAnswer(a, j, b);
    ParsesCleaned(a + j + b, j, parse);
  }

  /** Once the stream has ended, text that cleans to an object text gives what `JSON.parse`
      gives for that object text. */
  lemma ParsesCleaned(s: string, j: string, parse: string -> ParseOutcome)
    requires StripFence(s) == j && ObjectText(j) && parse(j).Parsed?
    ensures ParseIdeaData(Text(s), false, parse) == Ready(parse(j).value)
  {
    ObjectTextIsTrimmed(j);
  }

  lemma ObjectTextIsTrimmed(j: string)
    requires ObjectText(j)
    ensures Trim(j) == j && !LooksIncomplete(j)
  {
    assert Trimmed(j) by { assert j[0] == '{' && j[|j| - 1] == '}'; }
    TrimKeepsTrimmed(j);
    ObjectTextEndsWithBrace(j);
  }

  lemma ObjectTextEndsWithBrace(j: string)
    requires ObjectText(j)
    ensures EndsWith(j, "}")
  {
    assert j[|j| - 1..] == [j[|j| - 1]];
  }

  /** As written, a fenced answer with a blank line before its closing marker never parses:
      stripping leaves "{}\n", which does not end with a brace, so the result is "not yet"
      even after the stream has ended, whatever `JSON.parse` would have said. */
  lemma BlankLineBeforeFenceNeverParses(parse: string -> ParseOutcome)
    ensures StripFence("```json\n{}\n\n```") == "{}\n"
    ensures ParseIdeaData(Text("```json\n{}\n\n```"), false, parse) == NotYet
  {
    BlankLineStrip();
    BlankLineLooksIncomplete();
    IncompleteIsNotYet("```json\n{}\n\n```", false, parse);
  }

  lemma BlankLineLooksIncomplete()
    ensures LooksIncomplete("{}\n")
  {
    assert "{}\n"[0] == '{';
    assert "{}\n"[2..] == "\n";
  }

  lemma BlankLineStrip()
    ensures StripFence("```json\n{}\n\n```") == "{}\n"
  {
    BlankLineLayout();
    StripFencedAnswer("", "json", "\n", "{}", "\n\n", "");
  }

  lemma BlankLineLayout()
    ensures Fenced("", "json", "\n", "{}", "\n\n", "") == "```json\n{}\n\n```"
    ensures "{}" + Chomp("\n\n") == "{}\n"
  {
  }

  /** The evidently intended parser: the completeness heuristic looks at the trimmed cleaned
      text, the same text that is handed to `JSON.parse`. */
  function ParseIdeaDataIntended(raw: Raw, isStreaming: bool, parse: string -> ParseOutcome): IdeaData {
    match raw
    case Structured(v) => Ready(v)
    case Text(s) =>
      var cleaned := Trim(StripFence(s));
      if LooksIncomplete(cleaned) then NotYet
      else match parse(cleaned)
        case Parsed(v) => Ready(v)
        case SyntaxError(m) => if isStreaming then NotYet else Failed(s, m)
  }

  /** With the intended heuristic, any fenced or bare object answer, whatever white space
      surrounds the payload inside the fence, gives exactly what `JSON.parse` gives once the
      stream has ended. */
  lemma IntendedFencedAnswerParses(a: string, lang: string, w1: string, j: string, w2: string, b: string,
                                   parse: string -> ParseOutcome)
    requires AllSpace(a) && AllSpace(w1) && AllSpace(w2) && AllSpace(b)
    requires lang == "json" || lang == ""
    requires ObjectText(j) && parse(j).Parsed?
    ensures ParseIdeaDataIntended(Text(Fenced(a, lang, w1, j, w2, b)), false, parse) == Ready(parse(j).value)
  {
    StripFencedAnswer(a, lang, w1, j, w2, b);
    ChompKeepsSpace(w2);
    IntendedParsesStripped(Fenced(a, lang, w1, j, w2, b), j, Chomp(w2), parse);
  }

  /** With the intended heuristic, text that cleans to an object text followed by white space
      gives what `JSON.parse` gives for the object text, once the stream has ended. */
  lemma IntendedParsesStripped(s: string, j: string, w: string, parse: string -> ParseOutcome)
    requires StripFence(s) == j + w && AllSpace(w) && ObjectText(j) && parse(j).Parsed?
    ensures ParseIdeaDataIntended(Text(s), false, parse) == Ready(parse(j).value)
  {
    assert Trimmed(j) by { assert j[0] == '{' && j[|j| - 1] == '}'; }
    TrimDropsTrailingSpace(j, w);
    ObjectTextEndsWithBrace(j);
  }

  /** The correction changes nothing where the cleaned text has no trailing white space. */
  lemma IntendedAgreesWithoutTrailingSpace(raw: Raw, isStreaming: bool, parse: string -> ParseOutcome)
    requires raw.Text? ==> Trim(StripFence(raw.text)) == StripFence(raw.text)
    ensures ParseIdeaDataIntended(raw, isStreaming, parse) == ParseIdeaData(raw, isStreaming, parse)
  {
  }
}
