/** IdeaCard: the description snippet shown on a dashboard card, and the confirm-guarded delete. */
module IdeaCard {

  import opened Seqs
  import opened Ideas

  const SnippetLength: nat := 120
  const Ellipsis: string := "..."

  /** `description.length > 120 ? description.substring(0, 120) + '...' : description`. */
  function Snippet(description: string): (r: string)
    ensures |description| <= 120 ==> r == description
    ensures |description| > 120 ==> r == description[..120] + "..."
    ensures |r| <= 123
    ensures (if |description| <= 120 then description else description[..120]) <= r
  {
    if |description| > SnippetLength then description[..SnippetLength] + Ellipsis else description
  }

  /** `handleDelete`: the id handed to `onDelete`, which is called only when the user
      confirmed (`window.confirm` is the `confirmed` input). */
  function HandleDelete(idea: Idea, confirmed: bool): (r: Option<string>)
    ensures r.Some? <==> confirmed
    ensures r.Some? ==> r.value == idea.id
  {
    if confirmed then Some(idea.id) else None
  }
}
