/** A streamed model answer, and what the ReAct loop collects from it: its text, its stop reason and
    the tool calls it asks for. */
module ReactStream {

  datatype Chunk =
    | TextDelta(text: string)
    | ToolCallStart(id: string, name: string)
    | ToolCallDelta(id: string, args: string)
    | ToolCallEnd(id: string)
    | Usage(inputTokens: nat, outputTokens: nat)
    | Done(stopReason: string)

  datatype Call = Call(id: string, name: string, argsRaw: string)

  /** What a chunk shows to the consumer, if anything. */
  datatype Shown = Delta(text: string) | Tokens(input: nat, output: nat)

  // ----- What a stream says -----

  function TextOf(chunks: seq<Chunk>): string {
    if chunks == [] then ""
    else TextOf(chunks[..|chunks| - 1]) + match chunks[|chunks| - 1] case TextDelta(t) => t case _ => ""
  }

  /** The reason of the last `Done`, or the empty string. */
  function StopOf(chunks: seq<Chunk>): string {
    if chunks == [] then ""
    else match chunks[|chunks| - 1] case Done(r) => r case _ => StopOf(chunks[..|chunks| - 1])
  }

  function ShownOf(chunks: seq<Chunk>): seq<Shown> {
    if chunks == [] then []
    else ShownOf(chunks[..|chunks| - 1]) + ShownChunk(chunks[|chunks| - 1])
  }

  function ShownChunk(chunk: Chunk): seq<Shown> {
    match chunk
    case TextDelta(t) => [Delta(t)]
    case Usage(i, o) => [Tokens(i, o)]
    case _ => []
  }

  /** The ids of the calls started, each once, in the order of their first start. */
  function StartedIds(chunks: seq<Chunk>): seq<string> {
    if chunks == [] then []
    else
      var before := StartedIds(chunks[..|chunks| - 1]);
      match chunks[|chunks| - 1]
      case ToolCallStart(id, _) => if id in before then before else before + [id]
      case _ => before
  }

  /** The name given by the latest start of `id`. */
  function NameOf(chunks: seq<Chunk>, id: string): string {
    if chunks == [] then ""
    else
      var n := |chunks| - 1;
      if chunks[n].ToolCallStart? && chunks[n].id == id then chunks[n].name else NameOf(chunks[..n], id)
  }

  /** The argument fragments of `id` since its latest start, joined. */
  function ArgsOf(chunks: seq<Chunk>, id: string): string {
    if chunks == [] then ""
    else
      var n := |chunks| - 1;
      if chunks[n].ToolCallStart? && chunks[n].id == id then ""
      else if chunks[n].ToolCallDelta? && chunks[n].id == id && id in StartedIds(chunks[..n])
      then ArgsOf(chunks[..n], id) + chunks[n].args
      else ArgsOf(chunks[..n], id)
  }

  function CallAt(chunks: seq<Chunk>, id: string): Call {
    Call(id, NameOf(chunks, id), ArgsOf(chunks, id))
  }

  /** The tool calls a stream asks for. */
  function CallsOf(chunks: seq<Chunk>): seq<Call> {
    var ids := StartedIds(chunks);
    seq(|ids|, i requires 0 <= i < |ids| => CallAt(chunks, ids[i]))
  }

  ghost predicate DistinctIds(calls: seq<Call>) {
    forall i, j {:trigger calls[i], calls[j]} | 0 <= i < j < |calls| :: calls[i].id != calls[j].id
  }

  lemma {:induction false} StartedOnce(chunks: seq<Chunk>)
    ensures forall i, j | 0 <= i < j < |StartedIds(chunks)| :: StartedIds(chunks)[i] != StartedIds(chunks)[j]
  {
    if chunks != [] {
      StartedOnce(chunks[..|chunks| - 1]);
    }
  }

  /** No two calls of an answer share an id, whatever the adapter streams. */
  lemma CallsDistinct(chunks: seq<Chunk>)
    ensures DistinctIds(CallsOf(chunks))
  {
    StartedOnce(chunks);
  }

  // ----- The map of pending calls -----

  /** Index of the pending call with an id; the length of the list if there is none. */
  method Find(pending: seq<Call>, id: string) returns (k: nat)
    ensures k <= |pending| && (k < |pending| ==> pending[k].id == id)
    ensures forall i | 0 <= i < k :: pending[i].id != id
  {
    k := 0;
    while k < |pending| && pending[k].id != id
      invariant k <= |pending| && forall i | 0 <= i < k :: pending[i].id != id
    {
      k := k + 1;
    }
  }

  ghost predicate Collected(pending: seq<Call>, chunks: seq<Chunk>) {
    && |pending| == |StartedIds(chunks)|
    && forall i {:trigger pending[i]} | 0 <= i < |pending| :: pending[i] == CallAt(chunks, StartedIds(chunks)[i])
  }

  /** A restarted call keeps its place and loses its arguments; a new one goes last; a fragment for
      a call that was never started is dropped. */
  method HandleChunk(ghost before: seq<Chunk>, chunk: Chunk, pending: seq<Call>)
    returns (after: seq<Call>, shown: seq<Shown>)
    requires Collected(pending, before)
    ensures Collected(after, before + [chunk]) && shown == ShownChunk(chunk)
  {
    after, shown := pending, ShownChunk(chunk);
    ghost var chunks := before + [chunk];
    assert chunks[..|before|] == before;
    StartedOnce(before);
    match chunk
    case ToolCallStart(id, name) =>
      var k := Find(pending, id);
      PlaceOf(pending, before, id, k);
      after := if k < |pending| then pending[k := Call(id, name, "")] else pending + [Call(id, name, "")];
    case ToolCallDelta(id, args) =>
      var k := Find(pending, id);
      PlaceOf(pending, before, id, k);
      if k < |pending| {
        after := pending[k := pending[k].(argsRaw := pending[k].argsRaw + args)];
      }
    case _ =>
  }

  lemma {:induction false} PlaceOf(pending: seq<Call>, chunks: seq<Chunk>, id: string, k: nat)
    requires Collected(pending, chunks) && k <= |pending|
    requires k < |pending| ==> pending[k].id == id
    requires forall i | 0 <= i < k :: pending[i].id != id
    ensures k < |pending| ==> StartedIds(chunks)[k] == id
    ensures id in StartedIds(chunks) <==> k < |pending|
  {
    if id in StartedIds(chunks) {
      var i :| 0 <= i < |StartedIds(chunks)| && StartedIds(chunks)[i] == id;
      assert pending[i].id == id;
    }
  }

  // ----- Reading an answer, watching the abort signal -----

  lemma Snoc(chunks: seq<Chunk>, i: nat)
    requires i < |chunks|
    ensures chunks[..i + 1] == chunks[..i] + [chunks[i]] && chunks[..i + 1][..i] == chunks[..i]
  {
  }

  datatype Answer = Answer(text: string, stopReason: string, calls: seq<Call>, shown: seq<Shown>, aborted: bool)

  ghost predicate NoAbort(aborted: int -> bool, lo: nat, hi: nat) {
    forall k: nat {:trigger aborted(k)} | lo <= k < hi :: !aborted(k)
  }

  /** The signal is looked at before each chunk. Unless it stops the reading, the answer is exactly
      what the stream says; if it does, only what was shown before matters. */
  method ReadAnswer(chunks: seq<Chunk>, aborted: int -> bool, poll: nat) returns (answer: Answer, next: nat)
    ensures poll <= next
    ensures answer.aborted <==> !NoAbort(aborted, poll, poll + |chunks|)
    ensures !answer.aborted ==>
      && next == poll + |chunks|
      && answer.text == TextOf(chunks) && answer.stopReason == StopOf(chunks)
      && answer.calls == CallsOf(chunks) && answer.shown == ShownOf(chunks)
    ensures answer.aborted ==>
      exists n: nat :: n < |chunks| && aborted(poll + n) && NoAbort(aborted, poll, poll + n)
                       && next == poll + n + 1 && answer.shown == ShownOf(chunks[..n])
  {
    var text, stopReason, pending, shown := "", "", [], [];
    for i := 0 to |chunks|
      invariant text == TextOf(chunks[..i]) && stopReason == StopOf(chunks[..i])
      invariant Collected(pending, chunks[..i]) && shown == ShownOf(chunks[..i])
      invariant NoAbort(aborted, poll, poll + i)
    {
      if aborted(poll + i) {
        return Answer(text, stopReason, pending, shown, true), poll + i + 1;
      }
      ghost var before := chunks[..i];
      Snoc(chunks, i);
      var event;
      pending, event := HandleChunk(before, chunks[i], pending);
      shown := shown + event;
      if chunks[i].TextDelta? {
        text := text + chunks[i].text;
      }
      if chunks[i].Done? {
        stopReason := chunks[i].stopReason;
      }
    }
    assert chunks[..|chunks|] == chunks;
    assert pending == CallsOf(chunks);
    return Answer(text, stopReason, pending, shown, false), poll + |chunks|;
  }

  /** Reading a summary: no calls are collected and the signal is not looked at. */
  method ReadSummary(chunks: seq<Chunk>) returns (text: string, shown: seq<Shown>)
    ensures text == TextOf(chunks) && shown == ShownOf(chunks)
  {
    text, shown := "", [];
    for i := 0 to |chunks|
      invariant text == TextOf(chunks[..i]) && shown == ShownOf(chunks[..i])
    {
      assert chunks[..i + 1][..i] == chunks[..i];
      match chunks[i]
      case TextDelta(t) => text, shown := text + t, shown + [Delta(t)];
      case Usage(n, m) => shown := shown + [Tokens(n, m)];
      case _ =>
    }
    assert chunks[..|chunks|] == chunks;
  }
}
