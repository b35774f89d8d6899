/** The ReAct loop: model answers alternate with tool calls until there is a final answer, a budget
    runs out or the user aborts. */
module ReactExecutor {
  import opened Prelude
  import opened ReactStream

  datatype Observation =
    | Succeeded(output: string)
    | NotWired
    | InvalidArgs
    | Denied(reason: string)
    | NoPolicy
    | Transient(retry: nat, limit: nat, error: string)
    | Exhausted(error: string)

  datatype ToolResult = ToolSuccess(output: string) | ToolFailure(error: string)

  /** A tool call that was carried out, what came back, and whether the sandbox was asked to run it. */
  datatype Execution = Execution(call: Call, observation: Observation, asked: bool)

  datatype Message =
    | Other(role: string, content: string)
    | User(content: string)
    | Assistant(content: string, calls: seq<Call>)
    | Tool(callId: string, name: string, observation: Observation)

  datatype Step =
    | Thought(text: string)
    | ToolCall(call: Call)
    | Observed(observation: Observation)
    | Final(text: string, synthesized: bool)

  datatype Reason = UserAbort | FinalAnswer | ToolExhaustion | MaxSteps | HardError

  /** What the loop yields, the closing event apart. */
  datatype Event = Streamed(shown: Shown) | Yielded(step: Step)

  datatype Budget = Budget(maxSteps: int, maxToolCalls: int, steps: int, toolCalls: int)

  /** The outside: the model's answer to the `n`th request, the abort signal at its `k`th reading, the
      guard and the sandbox at the `n`th tool call, and what is wired. */
  datatype World = World(
    stream: (int, seq<Message>) -> seq<Chunk>,
    summary: (Reason, seq<Step>) -> seq<Chunk>,
    aborted: int -> bool,
    wired: bool,
    hasPolicy: bool,
    parses: string -> bool,
    denies: (int, Call) -> Option<string>,
    execute: (int, Call) -> ToolResult)

  // ----- One tool call -----

  /** What `n`th tool call comes back with, after `prior` failures of the same call. */
  function ToolOutcome(w: World, n: nat, call: Call, prior: nat, limit: nat): Execution {
    if !w.wired then Execution(call, NotWired, false)
    else if call.argsRaw != "" && !w.parses(call.argsRaw) then Execution(call, InvalidArgs, false)
    else if w.denies(n, call).Some? then Execution(call, Denied(w.denies(n, call).value), false)
    else if !w.hasPolicy then Execution(call, NoPolicy, false)
    else
      var observation :=
        match w.execute(n, call)
        case ToolSuccess(output) => Succeeded(output)
        case ToolFailure(error) => if prior < limit then Transient(prior + 1, limit, error) else Exhausted(error);
      Execution(call, observation, true)
  }

  /** Checks wiring, arguments, guard and policy, in this order, before the sandbox is asked. */
  method ExecuteTool(w: World, n: nat, call: Call, prior: nat, limit: nat) returns (e: Execution)
    ensures e == ToolOutcome(w, n, call, prior, limit)
  {
    if !w.wired {
      return Execution(call, NotWired, false);
    }
    if |call.argsRaw| > 0 && !w.parses(call.argsRaw) {
      return Execution(call, InvalidArgs, false);
    }
    var denied := w.denies(n, call);
    if denied.Some? {
      return Execution(call, Denied(denied.value), false);
    }
    if !w.hasPolicy {
      return Execution(call, NoPolicy, false);
    }
    var result := w.execute(n, call);
    if result.ToolSuccess? {
      return Execution(call, Succeeded(result.output), true);
    }
    if prior < limit {
      return Execution(call, Transient(prior + 1, limit, result.error), true);
    }
    return Execution(call, Exhausted(result.error), true);
  }

  function RetryKey(call: Call): string {
    call.name + ":" + call.argsRaw
  }

  /** Failures among some executions of the calls with one retry key. */
  function Failures(done: seq<Execution>, key: string): nat {
    if done == [] then 0
    else
      var last := done[|done| - 1];
      Failures(done[..|done| - 1], key)
      + if RetryKey(last.call) == key && !last.observation.Succeeded? then 1 else 0
  }

  /** Execution `i` is what the tool gave, told how often the same call had failed before. */
  ghost predicate HonestAt(w: World, limit: nat, done: seq<Execution>, i: nat)
    requires i < |done|
  {
    done[i] == ToolOutcome(w, i, done[i].call, Failures(done[..i], RetryKey(done[i].call)), limit)
  }

  ghost predicate Honest(w: World, limit: nat, done: seq<Execution>) {
    forall i: nat {:trigger HonestAt(w, limit, done, i)} | i < |done| :: HonestAt(w, limit, done, i)
  }

  lemma {:induction false} HonestStep(w: World, limit: nat, done: seq<Execution>, e: Execution)
    requires Honest(w, limit, done)
    requires e == ToolOutcome(w, |done|, e.call, Failures(done, RetryKey(e.call)), limit)
    ensures Honest(w, limit, done + [e])
  {
    var after := done + [e];
    forall i: nat | i < |after| ensures HonestAt(w, limit, after, i) {
      assert after[..i] == done[..i];
      if i < |done| {
        assert HonestAt(w, limit, done, i);
      } else {
        assert done[..i] == done;
      }
    }
  }

  /** Reports of the kind "may be retried" among the executions of one call. */
  function Retries(done: seq<Execution>, key: string): nat {
    if done == [] then 0
    else
      var last := done[|done| - 1];
      Retries(done[..|done| - 1], key)
      + if RetryKey(last.call) == key && last.observation.Transient? then 1 else 0
  }

  /** The same call is reported as retryable at most `limit` times in a run, and is never reported as
      exhausted before it has failed `limit` times. */
  lemma {:induction false} RetriesAreBounded(w: World, limit: nat, done: seq<Execution>, key: string)
    requires Honest(w, limit, done)
    ensures Retries(done, key) <= Failures(done, key) && Retries(done, key) <= limit
    ensures forall i | 0 <= i < |done| && done[i].observation.Exhausted? ::
              Failures(done[..i], RetryKey(done[i].call)) >= limit
  {
    if done != [] {
      var before := done[..|done| - 1];
      HonestBefore(w, limit, done);
      RetriesAreBounded(w, limit, before, key);
      RetriesBelowFailures(w, limit, before, key);
      assert HonestAt(w, limit, done, |before|);
      forall i | 0 <= i < |before| ensures before[..i] == done[..i] {
      }
    }
  }

  lemma HonestBefore(w: World, limit: nat, done: seq<Execution>)
    requires done != [] && Honest(w, limit, done)
    ensures Honest(w, limit, done[..|done| - 1])
  {
    var before := done[..|done| - 1];
    forall i: nat | i < |before| ensures HonestAt(w, limit, before, i) {
      assert HonestAt(w, limit, done, i);
      assert before[..i] == done[..i];
    }
  }

  /** As long as a call has failed fewer than `limit` times nothing stops it from being retryable. */
  lemma {:induction false} RetriesBelowFailures(w: World, limit: nat, done: seq<Execution>, key: string)
    ensures Retries(done, key) <= Failures(done, key)
  {
    if done != [] {
      RetriesBelowFailures(w, limit, done[..|done| - 1], key);
    }
  }

  // ----- Rounds -----

  /** One turn of the loop that asked for tools: the answer, and the calls carried out. */
  datatype Round = Round(chunks: seq<Chunk>, executed: seq<Execution>)

  function Calls(executed: seq<Execution>): (calls: seq<Call>)
    ensures |calls| == |executed|
  {
    seq(|executed|, i requires 0 <= i < |executed| => executed[i].call)
  }

  function Results(executed: seq<Execution>): (messages: seq<Message>)
    ensures |messages| == |executed|
  {
    seq(|executed|, i requires 0 <= i < |executed| =>
      Tool(executed[i].call.id, executed[i].call.name, executed[i].observation))
  }

  /** The trace entries of some executions: call, observation, call, observation, ... */
  function Entries(executed: seq<Execution>): seq<Step> {
    if executed == [] then []
    else
      var n := |executed| - 1;
      Entries(executed[..n]) + [ToolCall(executed[n].call), Observed(executed[n].observation)]
  }

  function MessagesOf(r: Round): seq<Message> {
    if r.executed == [] then []
    else [Assistant(TextOf(r.chunks), Calls(r.executed))] + Results(r.executed)
  }

  function TraceOf(r: Round): seq<Step> {
    (if TextOf(r.chunks) == "" then [] else [Thought(TextOf(r.chunks))]) + Entries(r.executed)
  }

  /** The messages after some rounds; `start` is the history up to and including the user turn. */
  function Conversation(start: seq<Message>, rounds: seq<Round>): seq<Message> {
    if rounds == [] then start
    else Conversation(start, rounds[..|rounds| - 1]) + MessagesOf(rounds[|rounds| - 1])
  }

  /** The model's answer to the conversation after some rounds. */
  function NextAnswer(w: World, start: seq<Message>, rounds: seq<Round>): seq<Chunk> {
    w.stream(|rounds|, Conversation(start, rounds))
  }

  function TraceAfter(rounds: seq<Round>): seq<Step> {
    if rounds == [] then [] else TraceAfter(rounds[..|rounds| - 1]) + TraceOf(rounds[|rounds| - 1])
  }

  function DoneAfter(rounds: seq<Round>): seq<Execution> {
    if rounds == [] then [] else DoneAfter(rounds[..|rounds| - 1]) + rounds[|rounds| - 1].executed
  }

  /** Round `k` answers the conversation so far, and carries out the calls asked for from the first
      on: all of them, unless it is the last round. */
  ghost predicate RoundFits(w: World, start: seq<Message>, rounds: seq<Round>, k: nat)
    requires k < |rounds|
  {
    var r := rounds[k];
    var asked := CallsOf(r.chunks);
    && r.chunks == NextAnswer(w, start, rounds[..k])
    && asked != [] && Calls(r.executed) <= asked
    && (k + 1 < |rounds| ==> |r.executed| == |asked|)
  }

  ghost predicate Legit(w: World, limit: nat, start: seq<Message>, rounds: seq<Round>) {
    Honest(w, limit, DoneAfter(rounds)) && AllFit(w, start, rounds)
  }

  ghost predicate AllFit(w: World, start: seq<Message>, rounds: seq<Round>) {
    forall k {:trigger RoundFits(w, start, rounds, k)} | 0 <= k < |rounds| :: RoundFits(w, start, rounds, k)
  }

  /** The last round carried out everything it was asked for. */
  ghost predicate Complete(rounds: seq<Round>) {
    rounds != [] ==> var r := rounds[|rounds| - 1]; |r.executed| == |CallsOf(r.chunks)|
  }

  lemma FitsBefore(w: World, start: seq<Message>, rounds: seq<Round>, r: Round, k: nat)
    requires k < |rounds| && RoundFits(w, start, rounds, k) && Complete(rounds)
    ensures RoundFits(w, start, rounds + [r], k)
  {
    assert (rounds + [r])[..k] == rounds[..k];
    assert (rounds + [r])[k] == rounds[k];
  }

  lemma {:induction false} RoundAdded(w: World, limit: nat, start: seq<Message>, rounds: seq<Round>, r: Round)
    requires Legit(w, limit, start, rounds) && Complete(rounds)
    requires r.chunks == NextAnswer(w, start, rounds)
    requires CallsOf(r.chunks) != [] && Calls(r.executed) <= CallsOf(r.chunks)
    requires Honest(w, limit, DoneAfter(rounds) + r.executed)
    ensures Legit(w, limit, start, rounds + [r])
    ensures Conversation(start, rounds + [r]) == Conversation(start, rounds) + MessagesOf(r)
    ensures TraceAfter(rounds + [r]) == TraceAfter(rounds) + TraceOf(r)
    ensures DoneAfter(rounds + [r]) == DoneAfter(rounds) + r.executed
  {
    var after := rounds + [r];
    assert after[..|rounds|] == rounds;
    forall k | 0 <= k < |after| ensures RoundFits(w, start, after, k) {
      if k < |rounds| {
        FitsBefore(w, start, rounds, r, k);
      } else {
        assert after[..k] == rounds;
      }
    }
  }

  // ----- What the consumer sees -----

  /** The trace steps that are yielded: thoughts and synthesized answers are not. */
  function Announced(trace: seq<Step>): seq<Step> {
    if trace == [] then []
    else
      var last := trace[|trace| - 1];
      Announced(trace[..|trace| - 1]) + if last.Thought? || (last.Final? && last.synthesized) then [] else [last]
  }

  function StepsIn(events: seq<Event>): seq<Step> {
    if events == [] then []
    else
      var last := events[|events| - 1];
      StepsIn(events[..|events| - 1]) + if last.Yielded? then [last.step] else []
  }

  function Stream(shown: seq<Shown>): (events: seq<Event>)
    ensures |events| == |shown|
  {
    seq(|shown|, i requires 0 <= i < |shown| => Streamed(shown[i]))
  }

  lemma {:induction false} AnnouncedAppend(a: seq<Step>, b: seq<Step>)
    ensures Announced(a + b) == Announced(a) + Announced(b)
  {
    if b == [] {
      assert a + b == a;
    } else {
      var n := |b| - 1;
      AnnouncedAppend(a, b[..n]);
      assert (a + b)[..|a| + n] == a + b[..n];
    }
  }

  lemma {:induction false} StepsInAppend(a: seq<Event>, b: seq<Event>)
    ensures StepsIn(a + b) == StepsIn(a) + StepsIn(b)
  {
    if b == [] {
      assert a + b == a;
    } else {
      var n := |b| - 1;
      StepsInAppend(a, b[..n]);
      assert (a + b)[..|a| + n] == a + b[..n];
    }
  }

  lemma {:induction false} StreamHasNoSteps(shown: seq<Shown>)
    ensures StepsIn(Stream(shown)) == []
  {
    if shown != [] {
      var n := |shown| - 1;
      StreamHasNoSteps(shown[..n]);
      assert Stream(shown)[..n] == Stream(shown[..n]);
    }
  }

  // ----- Carrying out the calls of one answer -----

  ghost predicate Counts(retries: map<string, nat>, done: seq<Execution>) {
    forall key {:trigger Failures(done, key)} ::
      Failures(done, key) == if key in retries then retries[key] else 0
  }

  lemma {:induction false} CountsStep(retries: map<string, nat>, done: seq<Execution>, e: Execution)
    requires Counts(retries, done)
    ensures Counts(if e.observation.Succeeded? then retries
                   else retries[RetryKey(e.call) := Failures(done, RetryKey(e.call)) + 1], done + [e])
  {
    assert (done + [e])[..|done|] == done;
  }

  lemma {:induction false} EntriesStep(executed: seq<Execution>, e: Execution)
    ensures Entries(executed + [e]) == Entries(executed) + [ToolCall(e.call)] + [Observed(e.observation)]
  {
    assert (executed + [e])[..|executed|] == executed;
  }

  lemma CallsStep(executed: seq<Execution>, e: Execution, calls: seq<Call>)
    requires |executed| < |calls| && e.call == calls[|executed|] && Calls(executed) == calls[..|executed|]
    ensures Calls(executed + [e]) == calls[..|executed| + 1]
  {
  }

  function Events(steps: seq<Step>): (events: seq<Event>)
    ensures |events| == |steps|
  {
    seq(|steps|, i requires 0 <= i < |steps| => Yielded(steps[i]))
  }

  datatype Batch = Batch(executed: seq<Execution>, steps: seq<Step>, retries: map<string, nat>, budgetHit: bool)

  /** The first calls of an answer have been carried out; `all` are the executions of the run so far. */
  ghost predicate Carried(w: World, limit: nat, calls: seq<Call>, all: seq<Execution>, b: Batch) {
    && |b.executed| <= |calls| && Calls(b.executed) == calls[..|b.executed|]
    && b.steps == Entries(b.executed)
    && Honest(w, limit, all) && Counts(b.retries, all)
  }

  lemma {:induction false} CarriedStep(w: World, limit: nat, calls: seq<Call>, all: seq<Execution>, b: Batch,
                                       e: Execution, next: Batch)
    requires Carried(w, limit, calls, all, b) && |b.executed| < |calls| && e.call == calls[|b.executed|]
    requires e == ToolOutcome(w, |all|, e.call, Failures(all, RetryKey(e.call)), limit)
    requires next.executed == b.executed + [e]
    requires next.steps == b.steps + [ToolCall(e.call)] + [Observed(e.observation)]
    requires next.retries == if e.observation.Succeeded? then b.retries
             else b.retries[RetryKey(e.call) := Failures(all, RetryKey(e.call)) + 1]
    ensures Carried(w, limit, calls, all + [e], next)
  {
    HonestStep(w, limit, all, e);
    CountsStep(b.retries, all, e);
    EntriesStep(b.executed, e);
    CallsStep(b.executed, e, calls);
  }

  /** The calls are carried out in order until the tool budget is used up. */
  method ExecuteCalls(w: World, limit: nat, calls: seq<Call>, ghost done: seq<Execution>, number: nat,
                      spent: int, maxToolCalls: int, retries: map<string, nat>) returns (b: Batch)
    requires number == |done| && Honest(w, limit, done) && Counts(retries, done)
    ensures Carried(w, limit, calls, done + b.executed, b)
    ensures b.budgetHit <==> |b.executed| < |calls|
    ensures b.budgetHit ==> spent + |b.executed| >= maxToolCalls
    ensures b.executed != [] ==> spent + |b.executed| <= maxToolCalls
  {
    var toolCalls := spent;
    b := Batch([], [], retries, false);
    ghost var all := done;
    for i := 0 to |calls|
      invariant |b.executed| == i && toolCalls == spent + i && (i > 0 ==> toolCalls <= maxToolCalls)
      invariant all == done + b.executed && Carried(w, limit, calls, all, b) && !b.budgetHit
    {
      if toolCalls >= maxToolCalls {
        return b.(budgetHit := true);
      }
      toolCalls := toolCalls + 1;
      ghost var before := b.executed;
      var e;
      b, e := ExecuteCall(w, limit, calls, all, number + i, calls[i], b);
      assert all + [e] == done + (before + [e]);
      all := all + [e];
    }
  }

  /** One call: its failures so far decide what a further failure is reported as. */
  method ExecuteCall(w: World, limit: nat, ghost calls: seq<Call>, ghost all: seq<Execution>, number: nat, call: Call,
                     b: Batch) returns (next: Batch, e: Execution)
    requires Carried(w, limit, calls, all, b) && |b.executed| < |calls| && call == calls[|b.executed|]
    requires number == |all|
    ensures Carried(w, limit, calls, all + [e], next)
    ensures next.executed == b.executed + [e] && next.budgetHit == b.budgetHit
  {
    var key := RetryKey(call);
    var prior := if key in b.retries then b.retries[key] else 0;
    assert prior == Failures(all, key);
    e := ExecuteTool(w, number, call, prior, limit);
    var counts := b.retries;
    if !e.observation.Succeeded? {
      counts := counts[key := prior + 1];
    }
    next := Batch(b.executed + [e], b.steps + [ToolCall(call)] + [Observed(e.observation)], counts, b.budgetHit);
    CarriedStep(w, limit, calls, all, b, e, next);
  }

  /** The messages of a round: one assistant message with every call carried out, then the results. */
  method RoundMessages(text: string, executed: seq<Execution>) returns (messages: seq<Message>)
    ensures forall chunks | TextOf(chunks) == text :: messages == MessagesOf(Round(chunks, executed))
  {
    messages := [];
    if executed != [] {
      messages := [Assistant(text, Calls(executed))];
      for i := 0 to |executed|
        invariant messages == [Assistant(text, Calls(executed))] + Results(executed)[..i]
      {
        messages := messages + [Tool(executed[i].call.id, executed[i].call.name, executed[i].observation)];
      }
    }
  }
}
