/** The POST handler of the chat endpoint (route.ts): it refuses to start without an API key,
    composes the two chat messages (the fixed system instructions and the user's idea, with
    defaults for missing fields), and relays the model's text deltas into the response body in
    the order they arrive. The provider call itself is an input: the deltas it yields. */
module ChatRoute {

  import opened Text
  import opened Seqs

  /** The JSON request body `{ title, description, tags }`; a missing field is `None`. */
  datatype ChatRequest = ChatRequest(title: Option<string>, description: Option<string>,
                                     tags: Option<seq<string>>)

  datatype Role = System | User

  datatype Message = Message(role: Role, content: string)

  /** The handler's answer: the plain-text refusal, or a streamed response from the named model
      to the composed messages, with the given headers. */
  datatype Outcome =
    | Refused(status: nat, body: string)
    | Streaming(model: string, messages: seq<Message>, headers: seq<(string, string)>)

  const Model: string := "gpt-4o"

  const StreamHeaders: seq<(string, string)> :=
    [("Content-Type", "text/event-stream"), ("Cache-Control", "no-cache"), ("Connection", "keep-alive")]

  /** The lines of the system instructions as `.trim()` leaves the template literal: the outer
      blank lines and the indentation of the first line go, the inner lines keep their eight
      spaces of indentation (ten inside the braces). */
  const SystemPromptLines: seq<string> := [
    "You are a concise, practical startup strategist.",
    "        ",
    "        ONLY output JSON.",
    "        Use double quotes.",
    "        Format:",
    "        ",
    "        {",
    "          \"title\": \"Idea Title\",",
    "          \"problem\": [\"bullet1\", \"bullet2\"],",
    "          \"solution\": [\"bullet1\", \"bullet2\"],",
    "          \"mvp\": [\"bullet1\", \"bullet2\"],",
    "          \"goToMarket\": [\"bullet1\", \"bullet2\"],",
    "          \"monetization\": [\"bullet1\", \"bullet2\"],",
    "          \"risksValidation\": [\"bullet1\", \"bullet2\"]",
    "        }",
    "        ",
    "        Do not include any extra commentary.",
    "        Keep it compact and actionable."
  ]

  /** The system instructions: the lines above, joined by newlines. */
  const SystemPrompt: string := Join(SystemPromptLines, "\n")

  /** `title || 'Generate one'`. */
  function TitleText(title: Option<string>): string {
    if title.Some? && title.value != "" then title.value else "Generate one"
  }

  /** `description || ''`. */
  function DescriptionText(description: Option<string>): string {
    if description.Some? then description.value else ""
  }

  /** `tags?.join(', ') || ''`. */
  function TagsText(tags: Option<seq<string>>): string {
    if tags.Some? then Join(tags.value, ", ") else ""
  }

  /** The first two lines of the user message and the label of the third. */
  function Lines(title: string, description: string): string {
    "Idea Title: " + title + "\n" + "Description / Context: " + description + "\n" + "Tags:"
  }

  /** The user message: the template literal (a newline, the three labelled lines, a newline
      and the closing indentation), then `.trim()`. */
  function UserContent(req: ChatRequest): string {
    Trim("\n" + Lines(TitleText(req.title), DescriptionText(req.description)) + " " + TagsText(req.tags)
         + "\n      ")
  }

  lemma LinesBounds(title: string, description: string)
    ensures Lines(title, description) != []
    ensures Lines(title, description)[0] == 'I'
    ensures Lines(title, description)[|Lines(title, description)| - 1] == ':'
  {
    var l := Lines(title, description);
    var x := "Idea Title: " + title + "\n" + "Description / Context: " + description + "\n";
    assert l == x + "Tags:";
    assert l[|l| - 1] == "Tags:"[4];
    assert l[0] == x[0] == "Idea Title: "[0];
  }

  /** `trim` of a template whose text starts and ends with a non-space character, padded with
      white space outside and followed by `w + g`: only the white space after `g` and the
      trailing white space of `w + g` go. */
  lemma {:induction false} TrimTemplate(nl: string, h: string, w: string, g: string, e: string)
    requires AllSpace(nl) && AllSpace(e)
    requires h != [] && !IsSpace(h[0]) && !IsSpace(h[|h| - 1])
    ensures Trim(nl + h + w + g + e) == h + TrimEnd(w + g)
  {
    assert nl + h + w + g + e == nl + (h + (w + g + e));
    TrimStartSkips(nl, h + (w + g + e));
    TrimEndKeepsHead(h, w + g + e);
    TrimEndAbsorbs(w + g, e);
  }

  /** The three labelled lines of the user message: `trim` removes the newline in front and
      the white space at the end, so the title and description lines are kept whole and the
      tags line loses only its trailing white space. */
  lemma UserContentLines(req: ChatRequest)
    ensures UserContent(req) ==
      Lines(TitleText(req.title), DescriptionText(req.description)) + TrimEnd(" " + TagsText(req.tags))
  {
    var h := Lines(TitleText(req.title), DescriptionText(req.description));
    LinesBounds(TitleText(req.title), DescriptionText(req.description));
    assert IsSpace("\n"[0]) && AllSpace("\n");
    assert AllSpace("\n      ");
    TrimTemplate("\n", h, " ", TagsText(req.tags), "\n      ");
  }

  /** With no tags (missing or an empty list) the user message ends with the bare "Tags:" label. */
  lemma NoTagsEndsWithLabel(req: ChatRequest)
    requires req.tags.None? || req.tags.value == []
    ensures UserContent(req) == Lines(TitleText(req.title), DescriptionText(req.description))
    ensures EndsWith(UserContent(req), "Tags:")
  {
    UserContentLines(req);
    assert TagsText(req.tags) == "";
    assert " " + "" == " ";
    assert TrimEnd(" ") == "" by { assert IsSpace(" "[0]); }
    var x := "Idea Title: " + TitleText(req.title) + "\n" + "Description / Context: " + DescriptionText(req.description) + "\n";
    assert Lines(TitleText(req.title), DescriptionText(req.description)) == x + "Tags:";
  }

  /** A missing or empty title is replaced by "Generate one"; otherwise the message starts with
      the title as given. */
  lemma TitleLine(req: ChatRequest)
    ensures StartsWith(UserContent(req), "Idea Title: " + TitleText(req.title) + "\n")
    ensures req.title.None? || req.title.value == "" ==> TitleText(req.title) == "Generate one"
    ensures req.title.Some? && req.title.value != "" ==> TitleText(req.title) == req.title.value
  {
    UserContentLines(req);
    var t := "Idea Title: " + TitleText(req.title) + "\n";
    var rest := "Description / Context: " + DescriptionText(req.description) + "\n" + "Tags:";
    LinesSplit(TitleText(req.title), DescriptionText(req.description));
    PrefixOfAppend(t, rest, TrimEnd(" " + TagsText(req.tags)));
  }

  lemma LinesSplit(title: string, description: string)
    ensures Lines(title, description) ==
      ("Idea Title: " + title + "\n") + ("Description / Context: " + description + "\n" + "Tags:")
  {
  }

  lemma PrefixOfAppend(t: string, rest: string, tail: string)
    ensures t <= t + rest + tail
  {
    assert (t + rest + tail)[..|t|] == t;
  }

  /** The tags line holds the tags joined with ", " when the joined text does not end in white space. */
  lemma TagsLine(req: ChatRequest)
    requires TagsText(req.tags) != [] && !IsSpace(TagsText(req.tags)[|TagsText(req.tags)| - 1])
    ensures UserContent(req) == Lines(TitleText(req.title), DescriptionText(req.description)) + " " + TagsText(req.tags)
  {
    UserContentLines(req);
    SpacedTextKept(TagsText(req.tags));
  }

  lemma SpacedTextKept(g: string)
    requires g != [] && !IsSpace(g[|g| - 1])
    ensures TrimEnd(" " + g) == " " + g
  {
    var x := " " + g;
    assert x[|x| - 1] == g[|g| - 1];
    TrimEndSkips(x, []);
    assert x + [] == x;
  }

  /** The messages sent: the system instructions, then the user's idea. */
  function ComposeMessages(req: ChatRequest): (r: seq<Message>)
    ensures |r| == 2
    ensures r[0].role == System && r[1].role == User
    ensures r[0].content == SystemPrompt && r[1].content == UserContent(req)
  {
    [Message(System, SystemPrompt), Message(User, UserContent(req))]
  }

  /** `POST`: without a key (missing or empty) the answer is a 500 "API key is missing" and no
      message is composed; otherwise the composed messages go to "gpt-4o" as a stream. */
  function Post(apiKey: Option<string>, req: ChatRequest): (r: Outcome)
    ensures r.Refused? <==> apiKey.None? || apiKey.value == ""
    ensures r.Refused? ==> r.status == 500 && r.body == "API key is missing"
    ensures r.Streaming? ==> r.model == "gpt-4o" && r.messages == ComposeMessages(req)
    ensures r.Streaming? ==> r.headers == StreamHeaders
  {
    if apiKey.None? || apiKey.value == "" then Refused(500, "API key is missing")
    else Streaming(Model, ComposeMessages(req), StreamHeaders)
  }

  /** A request with no fields at all asks the model to make up a title. */
  lemma EmptyRequestMessage()
    ensures UserContent(ChatRequest(None, None, None)) == Lines("Generate one", "")
  {
    NoTagsEndsWithLabel(ChatRequest(None, None, None));
  }

  datatype StreamState = Open | Closed

  /** The response body's `ReadableStreamDefaultController`: the chunks enqueued so far and
      whether the stream has been closed. */
  class StreamController {
    var queue: seq<string>
    var state: StreamState

    constructor ()
      ensures queue == [] && state == Open
    {
      queue, state := [], Open;
    }

    /** The text a client reading the whole body receives. */
    function Body(): string
      reads this
    {
      Concat(queue)
    }

    method Enqueue(chunk: string)
      requires state == Open
      modifies this
      ensures queue == old(queue) + [chunk] && state == Open
    {
      queue := queue + [chunk];
    }

    method Close()
      requires state == Open
      modifies this
      ensures queue == old(queue) && state == Closed
    {
      state := Closed;
    }
  }

  /** The stream's `start`: every upstream delta is enqueued, in order, and then the stream is
      closed, so the body is the deltas concatenated in arrival order. */
  method Relay(deltas: seq<string>) returns (controller: StreamController)
    ensures fresh(controller)
    ensures controller.queue == deltas && controller.state == Closed
    ensures controller.Body() == Concat(deltas)
  {
    controller := new StreamController();
    var i := 0;
    while i < |deltas|
      invariant 0 <= i <= |deltas|
      invariant controller.queue == deltas[..i] && controller.state == Open
    {
      controller.Enqueue(deltas[i]);
      i := i + 1;
    }
    assert deltas[..i] == deltas;
    controller.Close();
  }

  /** Whatever a client has read so far is a prefix of the final body. */
  lemma {:induction false} RelayedTextGrows(deltas: seq<string>, i: nat)
    requires i <= |deltas|
    ensures Concat(deltas[..i]) <= Concat(deltas)
  {
    ConcatPrefix(deltas, i, |deltas|);
    assert deltas[..|deltas|] == deltas;
  }
}
