/** Removal of the Markdown code fence that the model sometimes wraps around its JSON answer.
    Both `parseIdeaData` in NewIdea.tsx and the content parsing in StrategyOutput.tsx clean the
    text the same way: trim it, drop an opening "```json" (or else a bare "```") together with
    the white space after it, then drop a closing "```" together with at most one newline before it.
    Only these exact markers count; this is a loose imitation of the fenced code blocks of
    section 4.5 of the CommonMark specification. */
module Fence {

  import opened Text

  /** `cleaned.replace(/^```json\s*\n?/, "")` and `cleaned.replace(/^```\s*\n?/, "")`:
      since `\s` already matches a newline, the greedy `\s*` takes all the white space after
      the marker and `\n?` matches nothing. */
  function StripOpening(t: string): string {
    if StartsWith(t, "```json") then TrimStart(t[7..])
    else if StartsWith(t, "```") then TrimStart(t[3..])
    else t
  }

  /** Drops one trailing newline, if there is one. */
  function Chomp(u: string): string {
    if u != [] && u[|u| - 1] == '\n' then u[..|u| - 1] else u
  }

  /** `cleaned.replace(/\n?```\s*$/, "")` on a text that ends with "```": the leftmost match
      is the final "```", preceded by its newline when there is one. */
  function StripClosing(t: string): string {
    if EndsWith(t, "```") then Chomp(t[..|t| - 3]) else t
  }

  /** The cleaned text both parsers hand on. */
  function StripFence(raw: string): string {
    StripClosing(StripOpening(Trim(raw)))
  }

  /** The payload of a fenced answer: an object text, first and last character braces. */
  predicate ObjectText(j: string) {
    |j| >= 2 && j[0] == '{' && j[|j| - 1] == '}'
  }

  /** A payload `j` inside a fence with the language tag `lang` ("json" or none), white space
      `w1` after the opening marker, `w2` before the closing one, and `a`, `b` around it all. */
  function Fenced(a: string, lang: string, w1: string, j: string, w2: string, b: string): string {
    a + "```" + lang + w1 + j + w2 + "```" + b
  }

  /** The opening marker goes, with the white space after it, up to the payload's brace. */
  lemma StripOpeningMarker(lang: string, w1: string, rest: string)
    requires lang == "json" || lang == ""
    requires AllSpace(w1) && rest != [] && rest[0] == '{'
    ensures StripOpening("```" + lang + w1 + rest) == rest
  {
    TrimStartSkips(w1, rest);
    var body := w1 + rest;
    assert body[0] != 'j' by {
      if w1 == [] { assert body[0] == rest[0]; } else { assert body[0] == w1[0]; }
    }
    Regroup("```", lang, w1, rest);
    if lang == "json" {
      assert "```" + lang == "```json";
      OpeningJson(body);
    } else {
      assert "```" + lang == "```";
      OpeningBare(body);
    }
  }

  lemma Regroup(x: string, y: string, z: string, w: string)
    ensures x + y + z + w == (x + y) + (z + w)
  {
  }

  lemma OpeningJson(body: string)
    ensures StripOpening("```json" + body) == TrimStart(body)
  {
    var t := "```json" + body;
    assert t[..7] == "```json";
    assert t[7..] == body;
  }

  lemma OpeningBare(body: string)
    requires body != [] && body[0] != 'j'
    ensures StripOpening("```" + body) == TrimStart(body)
  {
    var t := "```" + body;
    assert !StartsWith(t, "```json") by {
      if |t| >= 7 { assert t[..7][3] == body[0]; }
    }
    assert t[..3] == "```";
    assert t[3..] == body;
  }

  /** The closing marker goes, with at most one newline before it. */
  lemma StripClosingMarker(u: string)
    ensures StripClosing(u + "```") == Chomp(u)
  {
    assert (u + "```")[..|u + "```"| - 3] == u;
  }

  lemma ChompAfter(j: string, w2: string)
    requires j != [] && j[|j| - 1] != '\n'
    ensures Chomp(j + w2) == j + Chomp(w2)
  {
    if w2 != [] && w2[|w2| - 1] == '\n' {
      assert (j + w2)[..|j + w2| - 1] == j + w2[..|w2| - 1];
    }
  }

  lemma ChompKeepsSpace(w: string)
    requires AllSpace(w)
    ensures AllSpace(Chomp(w))
  {
  }

  /** Stripping a fenced object answer gives back the payload followed by the white space that
      preceded the closing marker, less at most one newline. */
  lemma StripFencedAnswer(a: string, lang: string, w1: string, j: string, w2: string, b: string)
    requires AllSpace(a) && AllSpace(w1) && AllSpace(w2) && AllSpace(b)
    requires lang == "json" || lang == ""
    requires ObjectText(j)
    ensures StripFence(Fenced(a, lang, w1, j, w2, b)) == j + Chomp(w2)
  {
    var u := j + w2;
    var rest := u + "```";
    var t := "```" + lang + w1 + rest;
    assert Fenced(a, lang, w1, j, w2, b) == a + t + b;
    assert Trimmed(t) by { assert t[0] == '`' && t[|t| - 1] == '`'; }
    TrimOfPadded(a, t, b);
    StripOpeningMarker(lang, w1, rest);
    StripClosingMarker(u);
    ChompAfter(j, w2);
  }

  /** Text without fence markers is only trimmed. */
  lemma UnfencedIsOnlyTrimmed(raw: string)
    requires !StartsWith(Trim(raw), "```") && !EndsWith(Trim(raw), "```")
    ensures StripFence(raw) == Trim(raw)
  {
    JsonMarkerIsFence(Trim(raw));
  }

  /** Whatever opens with "```json" opens with "```". */
  lemma JsonMarkerIsFence(t: string)
    ensures StartsWith(t, "```json") ==> StartsWith(t, "```")
  {
    if StartsWith(t, "```json") {
      assert t[..3] == t[..7][..3];
    }
  }

  /** A bare object answer, with no fence at all, comes out as the object text. */
  lemma StripBareAnswer(a: string, j: string, b: string)
    requires AllSpace(a) && AllSpace(b) && ObjectText(j)
    ensures StripFence(a + j + b) == j
  {
    assert Trimmed(j) by { assert j[0] == '{' && j[|j| - 1] == '}'; }
    TrimOfPadded(a, j, b);
    ObjectTextIsUnfenced(j);
  }

  /** An object text carries neither an opening nor a closing marker. */
  lemma ObjectTextIsUnfenced(j: string)
    requires ObjectText(j)
    ensures StripOpening(j) == j && StripClosing(j) == j
  {
    assert !StartsWith(j, "```json") by { assert j[0] == '{' && "```json"[0] == '`'; }
    assert !StartsWith(j, "```") by { assert j[0] == '{' && "```"[0] == '`'; }
    assert !EndsWith(j, "```") by {
      if |j| >= 3 { assert j[|j| - 3..][2] == j[|j| - 1] == '}'; }
    }
  }
}
