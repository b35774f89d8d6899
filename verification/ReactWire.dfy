/** Calls that a model streams in pieces arrive whole. */
module ReactWire {
  import opened ReactStream

  function Joined(parts: seq<string>): string {
    if parts == [] then "" else Joined(parts[..|parts| - 1]) + parts[|parts| - 1]
  }

  function Fragments(id: string, parts: seq<string>): seq<Chunk> {
    if parts == [] then []
    else Fragments(id, parts[..|parts| - 1]) + [ToolCallDelta(id, parts[|parts| - 1])]
  }

  /** A call as it is streamed, its arguments cut into any parts. */
  function Written(call: Call, parts: seq<string>): seq<Chunk> {
    [ToolCallStart(call.id, call.name)] + Fragments(call.id, parts) + [ToolCallEnd(call.id)]
  }

  /** Some text, then one call after the other. */
  function Answer(text: seq<string>, calls: seq<Call>, parts: seq<seq<string>>): seq<Chunk>
    requires |calls| == |parts|
  {
    if calls == [] then Spoken(text)
    else
      var n := |calls| - 1;
      Answer(text, calls[..n], parts[..n]) + Written(calls[n], parts[n])
  }

  function Spoken(text: seq<string>): seq<Chunk> {
    if text == [] then [] else Spoken(text[..|text| - 1]) + [TextDelta(text[|text| - 1])]
  }

  /** A chunk that starts or continues a call. */
  predicate Concerns(chunk: Chunk, id: string) {
    (chunk.ToolCallStart? || chunk.ToolCallDelta?) && chunk.id == id
  }

  lemma {:induction false} OneChunk(before: seq<Chunk>, chunk: Chunk)
    ensures var after := before + [chunk];
            && StartedIds(after) == (if chunk.ToolCallStart? && chunk.id !in StartedIds(before)
                                     then StartedIds(before) + [chunk.id] else StartedIds(before))
            && TextOf(after) == TextOf(before) + (if chunk.TextDelta? then chunk.text else "")
  {
    assert (before + [chunk])[..|before|] == before;
  }

  lemma {:induction false} NotConcerned(before: seq<Chunk>, chunk: Chunk, id: string)
    requires !Concerns(chunk, id)
    ensures CallAt(before + [chunk], id) == CallAt(before, id)
  {
    assert (before + [chunk])[..|before|] == before;
  }

  lemma {:induction false} Started(before: seq<Chunk>, id: string, name: string)
    ensures CallAt(before + [ToolCallStart(id, name)], id) == Call(id, name, "")
  {
    assert (before + [ToolCallStart(id, name)])[..|before|] == before;
  }

  lemma {:induction false} Continued(before: seq<Chunk>, id: string, args: string)
    requires id in StartedIds(before)
    ensures CallAt(before + [ToolCallDelta(id, args)], id) == Call(id, NameOf(before, id), ArgsOf(before, id) + args)
  {
    assert (before + [ToolCallDelta(id, args)])[..|before|] == before;
  }

  lemma Regroup<T>(a: seq<T>, b: seq<T>, c: seq<T>)
    ensures a + (b + c) == a + b + c
  {
  }

  /** While the fragments of a started call arrive, no call is added and no text. */
  lemma {:induction false} FragmentsAddNothing(before: seq<Chunk>, id: string, parts: seq<string>)
    ensures var after := before + Fragments(id, parts);
            StartedIds(after) == StartedIds(before) && TextOf(after) == TextOf(before)
  {
    if parts == [] {
      assert before + Fragments(id, parts) == before;
    } else {
      var init, chunk := parts[..|parts| - 1], ToolCallDelta(id, parts[|parts| - 1]);
      FragmentsAddNothing(before, id, init);
      Regroup(before, Fragments(id, init), [chunk]);
      OneChunk(before + Fragments(id, init), chunk);
    }
  }

  /** The call's arguments grow. */
  lemma {:induction false} FragmentsArrive(before: seq<Chunk>, id: string, parts: seq<string>)
    requires id in StartedIds(before)
    ensures CallAt(before + Fragments(id, parts), id)
         == Call(id, NameOf(before, id), ArgsOf(before, id) + Joined(parts))
  {
    if parts == [] {
      assert before + Fragments(id, parts) == before;
      assert ArgsOf(before, id) + "" == ArgsOf(before, id);
    } else {
      var init, args := parts[..|parts| - 1], parts[|parts| - 1];
      FragmentsArrive(before, id, init);
      FragmentsAddNothing(before, id, init);
      Regroup(before, Fragments(id, init), [ToolCallDelta(id, args)]);
      Continued(before + Fragments(id, init), id, args);
      Regroup(ArgsOf(before, id), Joined(init), args);
    }
  }

  /** Other calls stay as they are. */
  lemma {:induction false} FragmentsPassBy(before: seq<Chunk>, id: string, parts: seq<string>, other: string)
    requires other != id
    ensures CallAt(before + Fragments(id, parts), other) == CallAt(before, other)
  {
    if parts == [] {
      assert before + Fragments(id, parts) == before;
    } else {
      var init, chunk := parts[..|parts| - 1], ToolCallDelta(id, parts[|parts| - 1]);
      FragmentsPassBy(before, id, init, other);
      Regroup(before, Fragments(id, init), [chunk]);
      NotConcerned(before + Fragments(id, init), chunk, other);
    }
  }

  lemma {:induction false} WrittenInSteps(before: seq<Chunk>, call: Call, parts: seq<string>)
    ensures before + Written(call, parts)
         == before + [ToolCallStart(call.id, call.name)] + Fragments(call.id, parts) + [ToolCallEnd(call.id)]
  {
  }

  /** A new call that is written out is pending last. */
  lemma {:induction false} WrittenArrives(before: seq<Chunk>, call: Call, parts: seq<string>)
    requires call.id !in StartedIds(before) && call.argsRaw == Joined(parts)
    ensures var after := before + Written(call, parts);
            && StartedIds(after) == StartedIds(before) + [call.id] && TextOf(after) == TextOf(before)
            && CallAt(after, call.id) == call
  {
    var start, end := ToolCallStart(call.id, call.name), ToolCallEnd(call.id);
    var started := before + [start];
    OneChunk(before, start);
    Started(before, call.id, call.name);
    FragmentsAddNothing(started, call.id, parts);
    FragmentsArrive(started, call.id, parts);
    OneChunk(started + Fragments(call.id, parts), end);
    NotConcerned(started + Fragments(call.id, parts), end, call.id);
    WrittenInSteps(before, call, parts);
  }

  lemma {:induction false} WrittenPassesBy(before: seq<Chunk>, call: Call, parts: seq<string>, other: string)
    requires other != call.id
    ensures CallAt(before + Written(call, parts), other) == CallAt(before, other)
  {
    var start, end := ToolCallStart(call.id, call.name), ToolCallEnd(call.id);
    NotConcerned(before, start, other);
    FragmentsPassBy(before + [start], call.id, parts, other);
    NotConcerned(before + [start] + Fragments(call.id, parts), end, other);
    WrittenInSteps(before, call, parts);
  }

  function IdsOf(calls: seq<Call>): (ids: seq<string>)
    ensures |ids| == |calls|
  {
    seq(|calls|, i requires 0 <= i < |calls| => calls[i].id)
  }

  lemma {:induction false} SpokenArrives(text: seq<string>)
    ensures StartedIds(Spoken(text)) == [] && TextOf(Spoken(text)) == Joined(text)
  {
    if text != [] {
      SpokenArrives(text[..|text| - 1]);
      OneChunk(Spoken(text[..|text| - 1]), TextDelta(text[|text| - 1]));
    }
  }

  lemma {:induction false} LastIsNew(calls: seq<Call>)
    requires calls != [] && DistinctIds(calls)
    ensures var n := |calls| - 1;
            && DistinctIds(calls[..n]) && calls[n].id !in IdsOf(calls[..n])
            && IdsOf(calls) == IdsOf(calls[..n]) + [calls[n].id]
  {
    var n := |calls| - 1;
    forall i | 0 <= i < n ensures IdsOf(calls[..n])[i] != calls[n].id {
      assert calls[i].id != calls[n].id;
    }
  }

  ghost predicate CutUp(calls: seq<Call>, parts: seq<seq<string>>) {
    |calls| == |parts| && forall i | 0 <= i < |calls| :: calls[i].argsRaw == Joined(parts[i])
  }

  lemma {:induction false} AnswerStarts(text: seq<string>, calls: seq<Call>, parts: seq<seq<string>>)
    requires CutUp(calls, parts) && DistinctIds(calls)
    ensures StartedIds(Answer(text, calls, parts)) == IdsOf(calls)
    ensures TextOf(Answer(text, calls, parts)) == Joined(text)
  {
    if calls == [] {
      SpokenArrives(text);
    } else {
      var n := |calls| - 1;
      LastIsNew(calls);
      AnswerStarts(text, calls[..n], parts[..n]);
      WrittenArrives(Answer(text, calls[..n], parts[..n]), calls[n], parts[n]);
    }
  }

  lemma {:induction false} CallArrives(text: seq<string>, calls: seq<Call>, parts: seq<seq<string>>, i: nat)
    requires CutUp(calls, parts) && DistinctIds(calls) && i < |calls|
    ensures CallAt(Answer(text, calls, parts), calls[i].id) == calls[i]
  {
    var n := |calls| - 1;
    LastIsNew(calls);
    var before := Answer(text, calls[..n], parts[..n]);
    AnswerStarts(text, calls[..n], parts[..n]);
    if i == n {
      WrittenArrives(before, calls[n], parts[n]);
    } else {
      CallArrives(text, calls[..n], parts[..n], i);
      assert calls[i].id != calls[n].id;
      WrittenPassesBy(before, calls[n], parts[n], calls[i].id);
    }
  }

  /** Whatever text and calls a model has to say, however it cuts them up, the loop collects exactly these. */
  lemma {:induction false} StreamRoundTrip(text: seq<string>, calls: seq<Call>, parts: seq<seq<string>>)
    requires CutUp(calls, parts) && DistinctIds(calls)
    ensures CallsOf(Answer(text, calls, parts)) == calls && TextOf(Answer(text, calls, parts)) == Joined(text)
  {
    AnswerStarts(text, calls, parts);
    forall i | 0 <= i < |calls| ensures CallsOf(Answer(text, calls, parts))[i] == calls[i] {
      CallArrives(text, calls, parts, i);
      assert IdsOf(calls)[i] == calls[i].id;
    }
  }
}
