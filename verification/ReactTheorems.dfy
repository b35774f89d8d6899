/** What every run of the ReAct loop guarantees about its conversation and its trace. */
module ReactTheorems {
  import opened ReactStream
  import opened ReactExecutor
  import opened ReactRun

  // ----- Whole blocks -----

  predicate AnswersTo(m: Message, call: Call) {
    m.Tool? && m.callId == call.id && m.name == call.name
  }

  /** Blocks of one assistant message with at least one call, no two with the same id, followed by
      exactly the results of its calls, in order. */
  ghost predicate Blocks(messages: seq<Message>)
    decreases |messages|
  {
    messages != [] ==>
    && messages[0].Assistant?
    && var calls := messages[0].calls;
    && calls != [] && DistinctIds(calls) && |calls| < |messages|
    && (forall i {:trigger calls[i]} | 0 <= i < |calls| :: AnswersTo(messages[i + 1], calls[i]))
    && Blocks(messages[|calls| + 1..])
  }

  lemma {:induction false} BlocksAppend(a: seq<Message>, b: seq<Message>)
    requires Blocks(a) && Blocks(b)
    ensures Blocks(a + b)
    decreases |a|
  {
    if a == [] {
      assert a + b == b;
    } else {
      var n := |a[0].calls| + 1;
      BlocksAppend(a[n..], b);
      BlockFirst(a, b, n);
    }
  }

  lemma {:induction false} BlockFirst(a: seq<Message>, b: seq<Message>, n: nat)
    requires a != [] && Blocks(a) && n == |a[0].calls| + 1 && Blocks(a[n..] + b)
    ensures Blocks(a + b)
  {
    var m := a + b;
    assert m[0] == a[0] && m[n..] == a[n..] + b;
    assert forall i | 0 <= i < n :: m[i] == a[i];
  }

  lemma {:induction false} BlocksGrow(start: seq<Message>, messages: seq<Message>, more: seq<Message>)
    requires start <= messages && Blocks(messages[|start|..]) && Blocks(more)
    ensures start <= messages + more && Blocks((messages + more)[|start|..])
  {
    BlocksAppend(messages[|start|..], more);
    assert (messages + more)[|start|..] == messages[|start|..] + more;
  }

  lemma RoundIsBlock(r: Round)
    requires Calls(r.executed) <= CallsOf(r.chunks)
    ensures Blocks(MessagesOf(r))
  {
    if r.executed != [] {
      CallsDistinct(r.chunks);
      var messages, calls := MessagesOf(r), Calls(r.executed);
      assert messages[|calls| + 1..] == [];
      forall i, j | 0 <= i < j < |calls| ensures calls[i].id != calls[j].id {
        assert calls[i] == CallsOf(r.chunks)[i] && calls[j] == CallsOf(r.chunks)[j];
      }
    }
  }

  lemma Earlier(w: World, start: seq<Message>, rounds: seq<Round>)
    requires rounds != [] && AllFit(w, start, rounds)
    ensures AllFit(w, start, rounds[..|rounds| - 1])
  {
    var before := rounds[..|rounds| - 1];
    forall k | 0 <= k < |before| ensures RoundFits(w, start, before, k) {
      assert before[..k] == rounds[..k];
      assert RoundFits(w, start, rounds, k);
    }
  }

  /** What a run appends after the user turn is whole blocks, and the history before it is untouched. */
  lemma {:induction false} ConversationIsBlocks(w: World, start: seq<Message>, rounds: seq<Round>)
    requires AllFit(w, start, rounds)
    ensures start <= Conversation(start, rounds)
    ensures Blocks(Conversation(start, rounds)[|start|..])
  {
    if rounds != [] {
      var before, last := rounds[..|rounds| - 1], rounds[|rounds| - 1];
      Earlier(w, start, rounds);
      ConversationIsBlocks(w, start, before);
      assert RoundFits(w, start, rounds, |rounds| - 1);
      RoundIsBlock(last);
      BlocksGrow(start, Conversation(start, before), MessagesOf(last));
    }
  }

  // ----- Calls and observations in the trace -----

  /** Every tool call is followed at once by its observation, and every observation follows a call. */
  ghost predicate Paired(trace: seq<Step>) {
    && (forall i {:trigger trace[i]} | 0 <= i < |trace| && trace[i].ToolCall? ::
          i + 1 < |trace| && trace[i + 1].Observed?)
    && (forall i {:trigger trace[i]} | 0 <= i < |trace| && trace[i].Observed? :: i > 0 && trace[i - 1].ToolCall?)
  }

  lemma PairedAppend(a: seq<Step>, b: seq<Step>)
    requires Paired(a) && Paired(b)
    ensures Paired(a + b)
  {
    var t := a + b;
    forall i | 0 <= i < |t| && t[i].ToolCall? ensures i + 1 < |t| && t[i + 1].Observed? {
      if i < |a| {
        assert t[i] == a[i] && t[i + 1] == a[i + 1];
      } else {
        assert t[i] == b[i - |a|] && t[i + 1] == b[i - |a| + 1];
      }
    }
    forall i | 0 <= i < |t| && t[i].Observed? ensures i > 0 && t[i - 1].ToolCall? {
      if i < |a| {
        assert t[i] == a[i] && t[i - 1] == a[i - 1];
      } else {
        assert t[i] == b[i - |a|] && t[i - 1] == b[i - |a| - 1];
      }
    }
  }

  lemma {:induction false} EntriesPaired(executed: seq<Execution>)
    ensures Paired(Entries(executed))
  {
    if executed != [] {
      var n := |executed| - 1;
      EntriesPaired(executed[..n]);
      PairedAppend(Entries(executed[..n]), [ToolCall(executed[n].call), Observed(executed[n].observation)]);
    }
  }

  lemma {:induction false} TraceIsPaired(rounds: seq<Round>)
    ensures Paired(TraceAfter(rounds))
  {
    if rounds != [] {
      var before, last := rounds[..|rounds| - 1], rounds[|rounds| - 1];
      TraceIsPaired(before);
      EntriesPaired(last.executed);
      var thought := if TextOf(last.chunks) == "" then [] else [Thought(TextOf(last.chunks))];
      PairedAppend(thought, Entries(last.executed));
      PairedAppend(TraceAfter(before), TraceOf(last));
    }
  }

  // ----- Conversation and trace agree -----

  /** The results the model is told, in order. */
  function Told(messages: seq<Message>): seq<Observation> {
    if messages == [] then []
    else
      var last := messages[|messages| - 1];
      Told(messages[..|messages| - 1]) + if last.Tool? then [last.observation] else []
  }

  /** The observations a trace records, in order. */
  function Seen(trace: seq<Step>): seq<Observation> {
    if trace == [] then []
    else
      var last := trace[|trace| - 1];
      Seen(trace[..|trace| - 1]) + if last.Observed? then [last.observation] else []
  }

  lemma {:induction false} ToldAppend(a: seq<Message>, b: seq<Message>)
    ensures Told(a + b) == Told(a) + Told(b)
  {
    if b == [] {
      assert a + b == a;
    } else {
      var n := |b| - 1;
      ToldAppend(a, b[..n]);
      assert (a + b)[..|a| + n] == a + b[..n];
    }
  }

  lemma {:induction false} SeenAppend(a: seq<Step>, b: seq<Step>)
    ensures Seen(a + b) == Seen(a) + Seen(b)
  {
    if b == [] {
      assert a + b == a;
    } else {
      var n := |b| - 1;
      SeenAppend(a, b[..n]);
      assert (a + b)[..|a| + n] == a + b[..n];
    }
  }

  lemma {:induction false} RoundAgrees(executed: seq<Execution>)
    ensures Told(Results(executed)) == Seen(Entries(executed))
  {
    if executed != [] {
      var n := |executed| - 1;
      RoundAgrees(executed[..n]);
      assert Results(executed)[..n] == Results(executed[..n]);
      var pair := [ToolCall(executed[n].call), Observed(executed[n].observation)];
      SeenAppend(Entries(executed[..n]), pair);
      assert pair[..1] == [pair[0]] && Seen([pair[0]]) == [];
    }
  }

  /** A round tells the model what it records. */
  lemma RoundTells(r: Round)
    ensures Told(MessagesOf(r)) == Seen(TraceOf(r))
  {
    RoundAgrees(r.executed);
    var thought := if TextOf(r.chunks) == "" then [] else [Thought(TextOf(r.chunks))];
    SeenAppend(thought, Entries(r.executed));
    assert Seen(thought) == [];
    if r.executed != [] {
      var head := Assistant(TextOf(r.chunks), Calls(r.executed));
      ToldAppend([head], Results(r.executed));
      assert Told([head]) == [];
    }
  }

  /** The model is told exactly the observations the trace records, in the same order. */
  lemma {:induction false} NothingUntold(start: seq<Message>, rounds: seq<Round>)
    ensures Told(Conversation(start, rounds)) == Told(start) + Seen(TraceAfter(rounds))
  {
    if rounds != [] {
      var before, last := rounds[..|rounds| - 1], rounds[|rounds| - 1];
      NothingUntold(start, before);
      RoundTells(last);
      ToldAppend(Conversation(start, before), MessagesOf(last));
      SeenAppend(TraceAfter(before), TraceOf(last));
    }
  }

  // ----- A reported run -----

  lemma {:induction false} OneEntryPerCall(executed: seq<Execution>)
    ensures |Seen(Entries(executed))| == |executed|
  {
    if executed != [] {
      var n := |executed| - 1;
      OneEntryPerCall(executed[..n]);
      var pair := [ToolCall(executed[n].call), Observed(executed[n].observation)];
      SeenAppend(Entries(executed[..n]), pair);
      assert pair[..1] == [pair[0]] && Seen([pair[0]]) == [];
    }
  }

  lemma {:induction false} OneObservationPerCall(rounds: seq<Round>)
    ensures |Seen(TraceAfter(rounds))| == |DoneAfter(rounds)|
  {
    if rounds != [] {
      var before, last := rounds[..|rounds| - 1], rounds[|rounds| - 1];
      OneObservationPerCall(before);
      OneEntryPerCall(last.executed);
      var thought := if TextOf(last.chunks) == "" then [] else [Thought(TextOf(last.chunks))];
      SeenAppend(thought, Entries(last.executed));
      SeenAppend(TraceAfter(before), TraceOf(last));
      assert Seen(thought) == [];
    }
  }

  /** Every round but an incomplete last one carries out at least one call. */
  lemma {:induction false} EveryRoundActs(w: World, start: seq<Message>, rounds: seq<Round>)
    requires AllFit(w, start, rounds)
    ensures |DoneAfter(rounds)| + 1 >= |rounds|
    ensures Complete(rounds) ==> |DoneAfter(rounds)| >= |rounds|
  {
    if rounds != [] {
      var before := rounds[..|rounds| - 1];
      Earlier(w, start, rounds);
      EveryRoundActs(w, start, before);
      assert RoundFits(w, start, rounds, |rounds| - 1);
      if before != [] {
        assert RoundFits(w, start, rounds, |rounds| - 2);
      }
    }
  }

  /** The messages a run appends are whole blocks. */
  lemma RunKeepsBlocks(w: World, limit: nat, start: seq<Message>, budget: Budget, r: Report, rounds: seq<Round>)
    requires Reported(w, limit, start, budget, r, rounds)
    ensures start <= r.messages && Blocks(r.messages[|start|..])
  {
    ConversationIsBlocks(w, start, rounds);
  }

  lemma {:induction false} LastWordIsQuiet(trace: seq<Step>, tail: seq<Step>)
    requires Paired(trace) && (tail == [] || (|tail| == 1 && tail[0].Final?))
    ensures Paired(trace + tail) && Seen(trace + tail) == Seen(trace)
  {
    PairedAppend(trace, tail);
    SeenAppend(trace, tail);
    assert Seen(tail) == [];
  }

  /** In the trace of a run calls and observations alternate, and the model was told every one. */
  lemma {:induction false} RunIsPaired(w: World, limit: nat, start: seq<Message>, budget: Budget, r: Report,
                                       rounds: seq<Round>)
    requires Reported(w, limit, start, budget, r, rounds)
    ensures Paired(r.trace)
    ensures Told(r.messages) == Told(start) + Seen(r.trace)
  {
    TraceIsPaired(rounds);
    NothingUntold(start, rounds);
    LastWordIsQuiet(TraceAfter(rounds), LastWord(rounds, r.reason, r.text));
  }

  /** A run spends one tool call per observation, at least one per completed round, and neither
      budget is overrun by what the run itself spends. */
  lemma {:induction false} RunSpends(w: World, limit: nat, start: seq<Message>, budget: Budget, r: Report,
                                     rounds: seq<Round>)
    requires Reported(w, limit, start, budget, r, rounds)
    ensures r.toolCalls - budget.toolCalls == |Told(r.messages)| - |Told(start)|
    ensures r.steps - budget.steps <= r.toolCalls - budget.toolCalls + 1
    ensures r.steps == budget.steps || r.steps <= budget.maxSteps
    ensures r.toolCalls == budget.toolCalls || r.toolCalls <= budget.maxToolCalls
  {
    RunIsPaired(w, limit, start, budget, r, rounds);
    NothingUntold(start, rounds);
    OneObservationPerCall(rounds);
    EveryRoundActs(w, start, rounds);
  }
}
