# idea-generator: a verified model of its core rules

The idea-generator is a small Next.js application. A user describes a business idea (a title, a
description and tags). The server endpoint asks a chat model for a strategy document in JSON. The
client streams the answer in, shows it while it grows, and can save it in the browser's local
storage. Saved ideas are listed on a dashboard, and each one has a detail page.

This Dafny project models the rules that decide what the user sees and what gets stored:

- **`Text`**: the JavaScript string built-ins the application uses. `trim` and `\s` use
  ECMAScript white space; `toLowerCase` is restricted to ASCII. Also `startsWith`, `endsWith`,
  `includes`, `join`, and repeated `+=`.
- **`Seqs`**: the list built-ins: `filter`, `find`, and `Array.from(new Set(...))`, with their
  ordering facts.
- **`Json`**: parsed JSON values and JavaScript truthiness. `JSON.parse` is an input of the
  model: a function from text to a value or a syntax error.
- **`Fence`**: the Markdown code-fence stripping shared by the generator page and the detail page.
- **`IdeaParser`**: `parseIdeaData` of the generator page. It has a completeness heuristic and
  treats errors differently while streaming. A corrected variant comes with it; see
  "## Findings".
- **`Ideas`**: the saved idea record, and the store that holds the list in local storage.
- **`Generator`**: the `useIdeaGenerator` hook. Its state machine is idle → generating →
  completed | error, and it accumulates the streamed chunks. The network reply is an input:
  - the fetch outcome;
  - the byte chunks the body reader yields;
  - how reading ended;
  - the text decoder.
- **`NewIdea`**: the new-idea form. It covers the tag editing and the save, which prepends the
  new idea to the stored list.
- **`IdeaCard`**: a card's description snippet, and its confirm-guarded delete.
- **`Dashboard`**: deleting an idea, the tag bar, the search and tag filter, and the empty-state
  message.
- **`StrategyOutput`**: the detail page. It covers:
  - finding the idea by id;
  - parsing string content;
  - the heading and the title card;
  - the six bullet sections.
- **`ChatRoute`**: the POST handler. It covers:
  - the missing-key guard;
  - the two messages sent to the model, with defaults for missing fields;
  - relaying the model's deltas into the response body.

Stateful parts are classes whose methods update fields:

- the generator hook;
- the form;
- the dashboard's list;
- the response stream's controller.

The browser's saved idea list is a class with one field, `Ideas.Store.ideas`. It has no methods of its own: the form's save and the dashboard's delete assign that field.

Pure rules are functions, with lemmas relating them.

## Model

| member | source | states |
|---|---|---|
| IdeaParser.ParseIdeaData | src/components/NewIdea.tsx:22-66 | An object input is handed back as it is. Text is cleaned; text that looks incomplete gives "not yet"; otherwise JSON.parse of the trimmed cleaned text gives the value, or on a throw "not yet" while streaming and the error record with the raw text and message after. |
| Fence.StripFence | src/components/NewIdea.tsx:28-39 | The cleaned text: trim, then drop an opening "```json" (else "```") with the white space after it, then drop a closing "```" with at most one newline before it. |
| IdeaParser.StructuredPassesThrough | src/components/NewIdea.tsx:25 | A value that is already an object is returned unchanged and nothing is parsed. |
| Fence.StripOpeningMarker | src/components/NewIdea.tsx:31-35 | When the text after the marker and its white space starts with '{', an opening "```json" or bare "```" marker is removed together with all the white space after it. |
| Fence.OpeningJson | src/components/NewIdea.tsx:31-32 | For any text after it, an opening "```json" goes together with all the white space that follows. |
| Fence.OpeningBare | src/components/NewIdea.tsx:33-35 | For any non-empty text after it that does not start with 'j', an opening bare "```" goes together with all the white space that follows. |
| Fence.StripClosingMarker | src/components/NewIdea.tsx:37-39 | A closing "```" is removed together with at most one newline before it. |
| Fence.StripFencedAnswer | src/components/NewIdea.tsx:28-39 | Stripping a fenced object answer, whatever white space surrounds it, leaves the object text followed by the white space before the closing marker, less one final newline if there is one. |
| Fence.UnfencedIsOnlyTrimmed | src/components/NewIdea.tsx:28-39 | Text that neither starts nor ends with a fence marker is only trimmed. |
| Fence.StripBareAnswer | src/components/NewIdea.tsx:28-39 | A bare object answer padded with white space comes out as exactly the object text. |
| IdeaParser.IncompleteIsNotYet | src/components/NewIdea.tsx:41-48 | Cleaned text that has a '{' but does not end with '}' gives "not yet", whether or not streaming has ended. |
| IdeaParser.StreamingOnlyDefersFailures | src/components/NewIdea.tsx:54-65 | The streaming flag changes only a failed parse: while streaming it becomes "not yet"; every other result is the same for both flag values. |
| IdeaParser.FailureCarriesRawOutput | src/components/NewIdea.tsx:54-61 | An error record appears only after streaming. It carries the raw input unmodified and the parser's own message. |
| IdeaParser.FinishedFailureIsReported | src/components/NewIdea.tsx:41-61 | Once the stream has ended, text that passes the completeness heuristic but fails to parse gives the error record carrying the raw text and the parser's message. |
| IdeaParser.FencedAnswerParses | src/components/NewIdea.tsx:28-53 | A finished answer whose object sits right before the closing fence (or its newline) gives exactly what JSON.parse gives for the object. |
| IdeaParser.BareAnswerParses | src/components/NewIdea.tsx:28-53 | A finished unfenced object answer gives exactly what JSON.parse gives for it. |
| IdeaParser.ObjectTextIsTrimmed | src/components/NewIdea.tsx:42-51 | An object text is left as it is by trim and never looks incomplete. |
| IdeaParser.BlankLineBeforeFenceNeverParses | src/components/NewIdea.tsx:37-48 | As written, "```json\n{}\n\n```" strips to "{}\n" and stays "not yet" after streaming, whatever JSON.parse says. |
| IdeaParser.ParseIdeaDataIntended | src/components/NewIdea.tsx:41-53 | The same parser with the completeness heuristic applied to the trimmed cleaned text, the text that JSON.parse receives. |
| IdeaParser.IntendedFencedAnswerParses | src/components/NewIdea.tsx:41-53 | With the heuristic applied to the trimmed text, every fenced or bare object answer parses once streaming ends, with any white space inside the fence. |
| IdeaParser.IntendedAgreesWithoutTrailingSpace | src/components/NewIdea.tsx:41-53 | The correction changes no result where the cleaned text has no trailing white space. |
| NewIdea.WithTag | src/components/NewIdea.tsx:231-237 | The tag list after addTag: the trimmed input is appended when it is non-empty and not already a tag; otherwise the list is unchanged. |
| NewIdea.WithoutTag | src/components/NewIdea.tsx:239-240 | The tag list after removeTag: the tags different from the removed one, in order. |
| NewIdea.WithTagAddsTrimmedInput | src/components/NewIdea.tsx:231-237 | addTag appends the trimmed input exactly when it is non-empty and not present, and adds nothing else. |
| NewIdea.WithTagMembers | src/components/NewIdea.tsx:231-237 | After addTag a string is a tag exactly when it was one before or it is the non-empty trimmed input. |
| NewIdea.WithTagKeepsWellFormed | src/components/NewIdea.tsx:231-237 | addTag keeps the list duplicate-free, with no empty and no untrimmed tag. |
| NewIdea.WithoutTagRemovesOnlyThatTag | src/components/NewIdea.tsx:239-240 | removeTag removes every occurrence of the tag and keeps every other tag, with its count and in order. |
| NewIdea.WithoutTagKeepsWellFormed | src/components/NewIdea.tsx:239-240 | removeTag keeps the tag list well formed. |
| NewIdea.NewIdeaForm.constructor | src/components/NewIdea.tsx:224-227 | The form starts with an empty title, description, tag list and tag input. |
| NewIdea.NewIdeaForm.SetTitle | src/components/NewIdea.tsx:298 | Typing in the title box changes only the title. |
| NewIdea.NewIdeaForm.SetDescription | src/components/NewIdea.tsx:311 | Typing in the description box changes only the description. |
| NewIdea.NewIdeaForm.SetTagInput | src/components/NewIdea.tsx:326 | Typing in the tag box changes only the tag input. |
| NewIdea.NewIdeaForm.AddTag | src/components/NewIdea.tsx:231-237 | The tags become the addTag result, staying well formed. The input box is cleared exactly when a tag was added. |
| NewIdea.NewIdeaForm.KeyPress | src/components/NewIdea.tsx:242-247 | Enter acts as addTag; any other key changes nothing. |
| NewIdea.NewIdeaForm.RemoveTag | src/components/NewIdea.tsx:239-240 | The tags become the removeTag result, still well formed, and nothing else changes. |
| NewIdea.NewIdeaForm.HandleSave | src/components/NewIdea.tsx:253-266 | With an empty output nothing is stored. Otherwise the stored list becomes the new record (the form's fields and the output as content) followed by all previous records, unchanged and in order. |
| Generator.Pieces | src/hooks/useIdeaGenerator.ts:24-36 | A readable body yields one piece per chunk, piece i being chunk i decoded, in arrival order; a refused or failed reply yields none. |
| Generator.Final | src/hooks/useIdeaGenerator.ts:17-42 | The settled state: a fetch failure gives its message; a refused reply gives "Failed to generate idea" with empty output; otherwise the decoded chunks concatenated, completed after done or an error with the read failure's message. |
| Generator.Trace | src/hooks/useIdeaGenerator.ts:13-41 | The published states in order: the reset, one generating state per chunk holding all text so far, then the settled state. |
| Generator.RefusedResponseFails | src/hooks/useIdeaGenerator.ts:13-41 | A non-OK response or a missing body publishes the reset, then the error state "Failed to generate idea" with an empty output. |
| Generator.ThrownFailureMessage | src/hooks/useIdeaGenerator.ts:39-41 | Any thrown failure ends in status error. The error is its message, or "Something went wrong" when it has none. |
| Generator.CompletedExactlyAtDone | src/hooks/useIdeaGenerator.ts:31-38 | The status is completed exactly when the reader reported done. The output is then all decoded chunks concatenated in order, and there is no error. |
| Generator.OnlyTheLastStateSettles | src/hooks/useIdeaGenerator.ts:13-42 | Every published state before the last is generating with no error; the last is not generating. |
| Generator.PublishedOutputsGrow | src/hooks/useIdeaGenerator.ts:29-36 | Each published output is a prefix of every later one. |
| Generator.IdeaGenerator.IsGenerating | src/hooks/useIdeaGenerator.ts:50 | isGenerating holds exactly when the status is "generating". |
| Generator.IdeaGenerator.constructor | src/hooks/useIdeaGenerator.ts:8-10 | The hook starts idle with an empty output and no error. |
| Generator.IdeaGenerator.Generate | src/hooks/useIdeaGenerator.ts:12-43 | From any prior state, generate publishes the reset state. Then, after the k-th chunk, it publishes the concatenation of the first k decoded chunks. Finally it settles in the state Final describes, and isGenerating is then false. |
| IdeaCard.Snippet | src/components/IdeaCard.tsx:16-18 | A description of at most 120 characters is shown unchanged. A longer one shows its first 120 characters followed by "...". The snippet is at most 123 long and starts with the first min(length, 120) characters. |
| IdeaCard.HandleDelete | src/components/IdeaCard.tsx:9-14 | onDelete is called, with this idea's id, exactly when the user confirmed. |
| Dashboard.WithoutId | src/components/Dashboard.tsx:22-23 | The list after deleteIdea: the ideas whose id differs from the deleted one, in order. |
| Dashboard.DeleteRemovesExactlyThatId | src/components/Dashboard.tsx:22-26 | deleteIdea removes every idea with the id and keeps every other idea, with its count and in order. |
| Dashboard.DeleteAbsentIdChangesNothing | src/components/Dashboard.tsx:23 | Deleting an id no idea has leaves the list unchanged. |
| Dashboard.FlatTagsMembers | src/components/Dashboard.tsx:28 | A tag is in the flattened tag list exactly when some idea has it. |
| Dashboard.AllTags | src/components/Dashboard.tsx:28 | The tag bar: the ideas' tags in order, each kept at its first appearance only. |
| Dashboard.AllTagsOncePerTag | src/components/Dashboard.tsx:28 | The tag bar holds every tag of every idea, nothing else, each once, in order of first appearance. |
| Dashboard.Matches | src/components/Dashboard.tsx:30-35 | An idea matches when its lower-cased title or description contains the lower-cased query and the selected tag is "all" or one of its tags. |
| Dashboard.FilteredIdeas | src/components/Dashboard.tsx:30-36 | An idea is shown exactly when its lower-cased title or description contains the lower-cased query and the tag is "all" or one of its tags. The shown ideas are a subsequence of the list, and each matching idea is kept as many times as it occurs. |
| Dashboard.EmptySearchShowsEverything | src/components/Dashboard.tsx:30-36 | An empty query with the tag "all" shows every idea. |
| Dashboard.EmptyState | src/components/Dashboard.tsx:112-136 | The empty state appears exactly when no idea is shown. The heading is "No ideas found" exactly when a query or tag is active, and "No ideas yet" otherwise; only the latter offers to create one. |
| Dashboard.NoIdeasYetMeansNoIdeas | src/components/Dashboard.tsx:112-121 | "No ideas yet" is only shown when there are no ideas at all. |
| Dashboard.DashboardView.Mount | src/components/Dashboard.tsx:11-20 | The dashboard loads the stored list, with an empty query and the tag "all". |
| Dashboard.DashboardView.SetSearchQuery | src/components/Dashboard.tsx:78 | Typing in the search box changes only the query. |
| Dashboard.DashboardView.SelectTag | src/components/Dashboard.tsx:86-98 | A tag button changes only the selected tag. |
| Dashboard.DashboardView.DeleteIdea | src/components/Dashboard.tsx:22-26 | The in-memory list loses the ideas with the id; the store then holds exactly the new list. |
| Dashboard.DashboardView.DeleteFromCard | src/components/Dashboard.tsx:142 | A card's delete applies deleteIdea to the card's id when confirmed, and changes nothing otherwise. |
| StrategyOutput.FindIdea | src/components/StrategyOutput.tsx:16 | The lookup finds the first stored idea whose id matches, or none when no id matches. |
| StrategyOutput.Loaded | src/components/StrategyOutput.tsx:12-21 | The loading effect replaces the idea state with the found idea, and keeps the previous state when none matches. |
| StrategyOutput.FirstLoadShowsFirstMatch | src/components/StrategyOutput.tsx:12-34 | On first load the page shows the first idea with the route id, and "Idea not found" exactly when no idea has it. |
| StrategyOutput.ParsedContent | src/components/StrategyOutput.tsx:36-55 | Non-string content is used as-is. String content is fence-stripped, trimmed and parsed, and becomes null when the parse fails. |
| StrategyOutput.StringContentAgreesWithParser | src/components/StrategyOutput.tsx:37-55 | Saved text reads as the value the generator page parsed, and as null where it reported an error. No completeness heuristic applies here. |
| StrategyOutput.StringContentAgreesWithIntendedParser | src/components/StrategyOutput.tsx:37-55 | The same agreement holds with the corrected generator-page parser. |
| StrategyOutput.FencedContentParses | src/components/StrategyOutput.tsx:37-55 | A fenced object answer saved as text shows what JSON.parse gives for the object, with any white space inside the fence. |
| StrategyOutput.ObjectContentParses | src/components/StrategyOutput.tsx:37-55 | Saved text that is exactly an object text shows what JSON.parse gives for it. |
| StrategyOutput.SectionFor | src/components/StrategyOutput.tsx:65-98 | A section is hidden when its items are missing, falsy, an empty array, or have length 0. A non-empty array shows one bullet per item. Any other truthy value makes rendering throw. |
| StrategyOutput.Heading | src/components/StrategyOutput.tsx:114 | The heading is the parsed title if truthy, else the idea title if non-empty, else "Untitled Idea"; it is always truthy. |
| StrategyOutput.TitleSlotFor | src/components/StrategyOutput.tsx:148-156 | The title card shows exactly when the parsed title is truthy; a title of 0 prints "0". |
| StrategyOutput.StrategyAreaFor | src/components/StrategyOutput.tsx:145-217 | "No strategy content" shows exactly when the parsed content is falsy. Otherwise the title slot and the six sections appear in page order, each from its own key. |
| StrategyOutput.PageFor | src/components/StrategyOutput.tsx:23-141 | With no idea the page says "Idea not found". Otherwise it shows the heading, the description only when non-empty, the tags, the creation time and the strategy area. |
| StrategyOutput.SingleProblemBullet | src/components/StrategyOutput.tsx:158-204 | An object with one "problem" bullet and no other section key shows one Problem Statement bullet and hides the other five sections. |
| StrategyOutput.TwoDeltaAnswer | src/components/StrategyOutput.tsx:145-204 | The deltas `{"title":"X",` and `"problem":["p1"]}`, saved as text, show the title card "X" and one Problem Statement bullet "p1". |
| ChatRoute.UserContent | src/app/api/chat/route.ts:80-84 | The user message: the template with the title (or "Generate one"), the description (or empty) and the tags joined with ", " (or empty), trimmed. |
| ChatRoute.UserContentLines | src/app/api/chat/route.ts:80-84 | The trimmed user message is the title line, the description line, and "Tags:" followed by the tags line with only its trailing white space removed. |
| ChatRoute.TitleLine | src/app/api/chat/route.ts:81 | The message starts with the title line. The title is "Generate one" when it is missing or empty, and as given otherwise. |
| ChatRoute.TagsLine | src/app/api/chat/route.ts:83 | Tags joined with ", " end the message after "Tags: " when the joined text has no trailing white space. |
| ChatRoute.NoTagsEndsWithLabel | src/app/api/chat/route.ts:80-84 | With missing or empty tags, the message ends with the bare "Tags:" label. |
| ChatRoute.EmptyRequestMessage | src/app/api/chat/route.ts:80-84 | A request with no fields gives the title "Generate one", an empty description and the bare "Tags:" label. |
| ChatRoute.ComposeMessages | src/app/api/chat/route.ts:54-86 | Exactly two messages are sent: the system instructions, then the user's idea. |
| ChatRoute.Post | src/app/api/chat/route.ts:43-109 | A missing or empty key gives 500 "API key is missing", and nothing is composed. Otherwise the messages stream from "gpt-4o" with the event-stream headers. |
| ChatRoute.StreamController.constructor | src/app/api/chat/route.ts:94 | The response stream starts open and empty. |
| ChatRoute.StreamController.Enqueue | src/app/api/chat/route.ts:97 | Enqueueing appends one chunk to an open stream. |
| ChatRoute.StreamController.Close | src/app/api/chat/route.ts:99 | Closing keeps the chunks and closes the stream. |
| ChatRoute.Relay | src/app/api/chat/route.ts:94-101 | Every upstream delta is enqueued, in order, and then the stream closes. The body is the deltas concatenated. |
| ChatRoute.RelayedTextGrows | src/app/api/chat/route.ts:95-100 | What a client has read so far is a prefix of the final body. |

## Left out

- Rendering: JSX markup, styling, icons, links and navigation (`router.push`) are not modelled. Neither is React's rendering of the individual bullet items; a bullet holds the JSON value it was given.
- The display component of the generator page (its loading, error and plan views) is not modelled beyond `parseIdeaData`. The same goes for `handleGenerate` and the condition that disables the generate button.
- `JSON.parse` is an input of the model, not a grammar. The JSON text of the model's answer is not parsed.
- Local storage: `JSON.stringify` and `JSON.parse` of the ideas list are taken to round-trip. The store is a class with the list as its field; a missing entry reads as the empty list.
- `fetch`, the chat provider's SDK, `ReadableStream` internals, `async`/`await` and cancellation are left out. The reply to `fetch` and the upstream deltas are inputs.
- `ChatRoute.Relay`: an upstream failure part-way through the deltas is not modelled. Only a finite, completed stream of deltas is.
- `TextEncoder`/`TextDecoder`: decoding is an input function. It is applied to each chunk on its own, which is what the hook does when it calls `decode` without streaming mode. The relay passes strings, and the UTF-8 encoding of each delta is not modelled.
- `Text.Lower`: lower-casing covers ASCII letters only, not Unicode `toLowerCase`.
- `IdeaCard.Snippet`: lengths count characters, whereas JavaScript counts UTF-16 code units, so a description with characters outside the Basic Multilingual Plane truncates at a different place.
- The clock (`Date.now`, `toISOString`, `toLocaleDateString`), `window.confirm` and the API key environment variable are inputs. The formatted creation date is the stored string.
- `console` logging.
- src/lib/prompt.ts: its prompt is used only by code that is commented out.
- src/lib/types.ts: it declares a `strategy` field that saving never writes. The card's "Strategy Ready" badge is therefore not modelled.
- `parseIdeaData` on a value that is neither a string nor an object: the page only ever passes the streamed text.
- The request body is taken as already parsed. A body that is not JSON makes `req.json()` throw before the key check, and that case is not modelled.
- React's batching of state updates: the hook's published states are the states after each step of `generate`.
- Deleting removes every idea with the given id, as the code does. Ids are save times in milliseconds and are not proved unique.

## Findings

| source | as written | input that shows it | evidently intended | confidence | as-written member | corrected member |
|---|---|---|---|---|---|---|
| src/components/NewIdea.tsx:41-51 | The completeness heuristic tests the cleaned text before its final trim. A closing fence that follows a blank line, or a space after the closing brace, leaves white space after the '}' and the text counts as incomplete, even after streaming has ended. | "```json\n{}\n\n```" with streaming finished: the result is "not yet", so the page keeps showing its loading state. | Test the same trimmed text that is handed to `JSON.parse`, so that any finished fenced object answer parses. | not executed | IdeaParser.BlankLineBeforeFenceNeverParses | IdeaParser.IntendedFencedAnswerParses |
