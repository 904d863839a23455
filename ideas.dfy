/** The saved idea record and the browser-local store that holds the list of them. */
module Ideas {

  import opened Json

  /** One saved idea. `id` is the save time in milliseconds as a decimal string, `createdAt` the
      save time as an ISO-8601 string, and `content` the generated strategy: the streamed text
      (`JString`) as saved, or any other JSON value found in storage. */
  datatype Idea = Idea(
    id: string,
    title: string,
    description: string,
    tags: seq<string>,
    createdAt: string,
    content: Json)

  /** The local-storage entry "ideas": the whole list, rewritten on every save and delete.
      A missing entry reads as the empty list. Serialisation with `JSON.stringify` and
      `JSON.parse` is taken to round-trip. */
  class Store {
    var ideas: seq<Idea>

    constructor (saved: seq<Idea>)
      ensures ideas == saved
    {
      ideas := saved;
    }
  }
}
