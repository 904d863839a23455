/** The `useIdeaGenerator` hook: a state machine idle -> generating -> completed | error whose
    `generate` resets the state, posts the idea, and republishes the whole text received so far
    after every chunk of the streamed response. The network reply is an input: what `fetch`
    returned, the chunks its body reader yields, and how the reading ended. */
module Generator {

  import opened Text
  import opened Seqs

  datatype Status = Idle | Generating | Completed | Error

  /** One published state of the hook: `status`, `output` and `error` together. */
  datatype Snapshot = Snapshot(status: Status, output: string, error: Option<string>)

  /** A thrown value; `message` is `None` when `err?.message` is `null` or `undefined`. */
  datatype Thrown = Thrown(message: Option<string>)

  /** How reading the body ended: the reader reported `done`, or `read()` threw. */
  datatype StreamEnd = Done | Broken(failure: Thrown)

  datatype Body = Body(chunks: seq<seq<bv8>>, end: StreamEnd)

  /** What `fetch` produced: it threw, or it returned a response whose body may be missing. */
  datatype Reply = FetchFailed(failure: Thrown) | Response(ok: bool, body: Option<Body>)

  const FailedToGenerate: string := "Failed to generate idea"
  const SomethingWentWrong: string := "Something went wrong"

  /** `err?.message ?? 'Something went wrong'`: an empty message is kept, a missing one replaced. */
  function MessageOf(t: Thrown): string {
    match t.message
    case Some(m) => m
    case None => SomethingWentWrong
  }

  /** Whether the response gets past `if (!res.ok || !res.body) throw ...`. */
  predicate Readable(reply: Reply) {
    reply.Response? && reply.ok && reply.body.Some?
  }

  /** The decoded text of each chunk, in arrival order; nothing when the body is never read. */
  function Pieces(reply: Reply, decode: seq<bv8> -> string): (p: seq<string>)
    ensures Readable(reply) ==> |p| == |reply.body.value.chunks|
    ensures Readable(reply) ==> forall i :: 0 <= i < |p| ==> p[i] == decode(reply.body.value.chunks[i])
    ensures !Readable(reply) ==> p == []
  {
    if Readable(reply) then
      var chunks := reply.body.value.chunks;
      seq(|chunks|, i requires 0 <= i < |chunks| => decode(chunks[i]))
    else []
  }

  /** The state `generate` settles in. */
  function Final(reply: Reply, decode: seq<bv8> -> string): Snapshot {
    match reply
    case FetchFailed(t) => Snapshot(Error, "", Some(MessageOf(t)))
    case Response(ok, body) =>
      if !ok || body.None? then Snapshot(Error, "", Some(FailedToGenerate))
      else
        var text := Concat(Pieces(reply, decode));
        match body.value.end
        case Done => Snapshot(Completed, text, None)
        case Broken(t) => Snapshot(Error, text, Some(MessageOf(t)))
  }

  /** The state while streaming, after the first `k` chunks. */
  function AfterChunks(p: seq<string>, k: nat): Snapshot
    requires k <= |p|
  {
    Snapshot(Generating, Concat(p[..k]), None)
  }

  /** The states published while streaming, once the first `i` chunks have arrived: the reset,
      then one state per chunk. */
  function Streaming(p: seq<string>, i: nat): (r: seq<Snapshot>)
    requires i <= |p|
    ensures |r| == i + 1
  {
    seq(i + 1, k requires 0 <= k <= i => AfterChunks(p, k))
  }

  lemma StreamingStep(p: seq<string>, i: nat)
    requires i < |p|
    ensures Streaming(p, i + 1) == Streaming(p, i) + [AfterChunks(p, i + 1)]
  {
  }

  /** Every state `generate` publishes, in order: the reset, one state per chunk, the settled state. */
  function Trace(reply: Reply, decode: seq<bv8> -> string): seq<Snapshot> {
    var p := Pieces(reply, decode);
    Streaming(p, |p|) + [Final(reply, decode)]
  }

  /** A refused response (not OK, or OK without a body) ends in the error state with the fixed
      message and an empty output, right after the reset. */
  lemma RefusedResponseFails(ok: bool, body: Option<Body>, decode: seq<bv8> -> string)
    requires !ok || body.None?
    ensures Final(Response(ok, body), decode) == Snapshot(Error, "", Some("Failed to generate idea"))
    ensures Trace(Response(ok, body), decode) ==
      [Snapshot(Generating, "", None), Snapshot(Error, "", Some("Failed to generate idea"))]
  {
  }

  /** A thrown failure sets the error to its message, or to "Something went wrong" without one,
      and the status to error; the output keeps what had been received. */
  lemma ThrownFailureMessage(reply: Reply, decode: seq<bv8> -> string, t: Thrown)
    requires reply == FetchFailed(t) || (Readable(reply) && reply.body.value.end == Broken(t))
    ensures Final(reply, decode).status == Error
    ensures Final(reply, decode).error == Some(if t.message.Some? then t.message.value else "Something went wrong")
    ensures Final(reply, decode).output == Concat(Pieces(reply, decode))
  {
  }

  /** The hook completes exactly when the body was read to its end, and its output is then
      the decoded chunks concatenated in arrival order. */
  lemma CompletedExactlyAtDone(reply: Reply, decode: seq<bv8> -> string)
    ensures Final(reply, decode).status == Completed <==> Readable(reply) && reply.body.value.end == Done
    ensures Final(reply, decode).status == Completed ==>
      Final(reply, decode).output == Concat(Pieces(reply, decode)) && Final(reply, decode).error == None
  {
  }

  /** Every published state but the last is "generating" with no error, and the last is not:
      the status leaves "generating" only once the reading is over. */
  lemma OnlyTheLastStateSettles(reply: Reply, decode: seq<bv8> -> string)
    ensures |Trace(reply, decode)| >= 2
    ensures forall k :: 0 <= k < |Trace(reply, decode)| - 1 ==>
      Trace(reply, decode)[k].status == Generating && Trace(reply, decode)[k].error == None
    ensures Trace(reply, decode)[|Trace(reply, decode)| - 1].status != Generating
  {
  }

  /** Each published output extends every earlier one: consumers only ever see the text grow,
      from the reset to the settled state. */
  lemma {:induction false} PublishedOutputsGrow(reply: Reply, decode: seq<bv8> -> string, i: nat, j: nat)
    requires i <= j < |Trace(reply, decode)|
    ensures Trace(reply, decode)[i].output <= Trace(reply, decode)[j].output
  {
    var p := Pieces(reply, decode);
    var t := Trace(reply, decode);
    var n := |p|;
    if j <= n {
      ConcatPrefix(p, i, j);
    } else if i <= n {
      ConcatPrefix(p, i, n);
      assert p[..n] == p;
      if Readable(reply) {
        assert t[j] == Final(reply, decode);
        assert t[j].output == Concat(p);
      } else {
        assert i == 0 && p == [];
      }
    }
  }

  class IdeaGenerator {
    var status: Status
    var output: string
    var error: Option<string>
    /** The states published during the latest `generate`, oldest first. */
    ghost var published: seq<Snapshot>

    constructor ()
      ensures status == Idle && output == "" && error == None && published == []
    {
      status, output, error := Idle, "", None;
      published := [];
    }

    function State(): Snapshot
      reads this
    {
      Snapshot(status, output, error)
    }

    /** `isGenerating`: the status is "generating". */
    predicate IsGenerating()
      reads this
    {
      status == Generating
    }

    /** `generate`: from any prior state, reset, read the reply to its end, and settle. */
    method Generate(reply: Reply, decode: seq<bv8> -> string)
      modifies this
      ensures State() == Final(reply, decode)
      ensures published == Trace(reply, decode)
      ensures !IsGenerating()
    {
      status, output, error := Generating, "", None;
      published := [State()];
      ghost var p := Pieces(reply, decode);
      match reply {
        case FetchFailed(t) =>
          error := Some(MessageOf(t));
          status := Error;
        case Response(ok, body) =>
          if !ok || body.None? {
            error := Some(FailedToGenerate);
            status := Error;
          } else {
            var chunks := body.value.chunks;
            var raw := "";
            var i := 0;
            while i < |chunks|
              invariant 0 <= i <= |chunks| == |p|
              invariant raw == Concat(p[..i])
              invariant State() == Snapshot(Generating, raw, None)
              invariant published == Streaming(p, i)
            {
              ConcatStep(p, i);
              StreamingStep(p, i);
              raw := raw + decode(chunks[i]);
              output := raw;
              published := published + [State()];
              i := i + 1;
            }
            assert p[..i] == p;
            match body.value.end {
              case Done =>
                status := Completed;
              case Broken(t) =>
                error := Some(MessageOf(t));
                status := Error;
            }
          }
      }
      published := published + [State()];
    }
  }
}
