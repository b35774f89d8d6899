/** Whole runs of the ReAct loop: the loop itself, and what its messages, trace and budget look like
    when it ends. */
module ReactRun {
  import opened Prelude
  import opened ReactStream
  import opened ReactExecutor

  /** The variables of the loop. */
  datatype Progress = Progress(
    messages: seq<Message>,
    trace: seq<Step>,
    events: seq<Event>,
    retries: map<string, nat>,
    steps: int,
    toolCalls: int,
    polls: nat)

  /** The abort signal was down at all polls made, or was up at the last of them only. */
  ghost predicate Signalled(w: World, polls: nat, up: bool) {
    if up then polls > 0 && w.aborted(polls - 1) && NoAbort(w.aborted, 0, polls - 1)
    else NoAbort(w.aborted, 0, polls)
  }

  /** The loop's variables after some rounds. */
  ghost predicate Tracks(w: World, limit: nat, start: seq<Message>, budget: Budget, p: Progress, rounds: seq<Round>) {
    && Legit(w, limit, start, rounds)
    && p.messages == Conversation(start, rounds)
    && p.trace == TraceAfter(rounds)
    && StepsIn(p.events) == Announced(p.trace) && Signalled(w, p.polls, false)
    && Counts(p.retries, DoneAfter(rounds))
    && p.steps == budget.steps + |rounds|
    && p.toolCalls == budget.toolCalls + |DoneAfter(rounds)|
    && (rounds != [] ==> p.steps <= budget.maxSteps)
    && (DoneAfter(rounds) != [] ==> p.toolCalls <= budget.maxToolCalls)
  }

  // ----- One turn of the loop -----

  lemma {:induction false} ShownAddsNoSteps(events: seq<Event>, shown: seq<Shown>)
    ensures StepsIn(events + Stream(shown)) == StepsIn(events)
  {
    StepsInAppend(events, Stream(shown));
    StreamHasNoSteps(shown);
  }

  /** The steps of executed calls are announced one by one. */
  lemma {:induction false} EntriesAnnounced(executed: seq<Execution>)
    ensures Announced(Entries(executed)) == Entries(executed)
  {
    if executed != [] {
      var n := |executed| - 1;
      EntriesAnnounced(executed[..n]);
      var pair := [ToolCall(executed[n].call), Observed(executed[n].observation)];
      AnnouncedAppend(Entries(executed[..n]), pair);
      assert pair[..1] == [pair[0]];
      assert Announced([pair[0]]) == [pair[0]];
    }
  }

  lemma {:induction false} EventsSteps(steps: seq<Step>)
    ensures StepsIn(Events(steps)) == steps
  {
    if steps != [] {
      var n := |steps| - 1;
      EventsSteps(steps[..n]);
      assert Events(steps)[..n] == Events(steps[..n]);
    }
  }

  lemma OneStep(step: Step)
    ensures StepsIn([Yielded(step)]) == [step]
    ensures !step.Thought? && !(step.Final? && step.synthesized) ==> Announced([step]) == [step]
    ensures step.Thought? || (step.Final? && step.synthesized) ==> Announced([step]) == []
  {
  }

  /** Events that announce exactly the new trace entries keep the two in step. */
  lemma {:induction false} StillAnnounced(events: seq<Event>, trace: seq<Step>, more: seq<Event>, steps: seq<Step>)
    requires StepsIn(events) == Announced(trace) && StepsIn(more) == Announced(steps)
    ensures StepsIn(events + more) == Announced(trace + steps)
  {
    StepsInAppend(events, more);
    AnnouncedAppend(trace, steps);
  }

  lemma {:induction false} FinalAnnounced(events: seq<Event>, trace: seq<Step>, shown: seq<Shown>, text: string)
    requires StepsIn(events) == Announced(trace)
    ensures StepsIn(events + (Stream(shown) + [Yielded(Final(text, false))])) == Announced(trace + [Final(text, false)])
  {
    var last := Final(text, false);
    StreamHasNoSteps(shown);
    OneStep(last);
    StepsInAppend(Stream(shown), [Yielded(last)]);
    StillAnnounced(events, trace, Stream(shown) + [Yielded(last)], [last]);
  }

  function RoundEvents(shown: seq<Shown>, steps: seq<Step>): seq<Event> {
    Stream(shown) + Events(steps)
  }

  /** A round shows its answer, then announces its calls and observations; its thought stays silent. */
  lemma RoundAnnounced(r: Round, shown: seq<Shown>)
    ensures StepsIn(RoundEvents(shown, Entries(r.executed))) == Announced(TraceOf(r))
  {
    var thought := if TextOf(r.chunks) == "" then [] else [Thought(TextOf(r.chunks))];
    StreamHasNoSteps(shown);
    EventsSteps(Entries(r.executed));
    EntriesAnnounced(r.executed);
    OneStep(Thought(TextOf(r.chunks)));
    StepsInAppend(Stream(shown), Events(Entries(r.executed)));
    AnnouncedAppend(thought, Entries(r.executed));
  }

  lemma {:induction false} RoundTracked(w: World, limit: nat, start: seq<Message>, budget: Budget, p: Progress,
                                        rounds: seq<Round>, r: Round, q: Progress)
    requires Tracks(w, limit, start, budget, p, rounds) && Complete(rounds) && p.steps < budget.maxSteps
    requires r.chunks == NextAnswer(w, start, rounds)
    requires CallsOf(r.chunks) != [] && Calls(r.executed) <= CallsOf(r.chunks)
    requires Honest(w, limit, DoneAfter(rounds) + r.executed) && Counts(q.retries, DoneAfter(rounds) + r.executed)
    requires q.messages == p.messages + MessagesOf(r) && q.trace == p.trace + TraceOf(r)
    requires StepsIn(q.events) == Announced(q.trace)
    requires q.steps == p.steps + 1 && q.toolCalls == p.toolCalls + |r.executed| && q.polls == p.polls
    requires r.executed != [] ==> q.toolCalls <= budget.maxToolCalls
    ensures Tracks(w, limit, start, budget, q, rounds + [r])
  {
    RoundAdded(w, limit, start, rounds, r);
  }

  /** Carrying out the calls of an answer, and recording them in the trace and the messages. */
  method Act(w: World, limit: nat, ghost start: seq<Message>, budget: Budget, p: Progress, answer: Answer,
             ghost chunks: seq<Chunk>, ghost rounds: seq<Round>)
    returns (q: Progress, budgetHit: bool, ghost r: Round)
    requires Tracks(w, limit, start, budget, p, rounds) && Complete(rounds) && p.steps < budget.maxSteps
    requires chunks == NextAnswer(w, start, rounds)
    requires answer == Answer(TextOf(chunks), StopOf(chunks), CallsOf(chunks), ShownOf(chunks), false)
    requires answer.calls != []
    ensures Tracks(w, limit, start, budget, q, rounds + [r])
    ensures budgetHit <==> !Complete(rounds + [r])
    ensures budgetHit ==> q.toolCalls >= budget.maxToolCalls
    ensures q.steps == p.steps + 1 && q.polls == p.polls
  {
    var batch := ExecuteCalls(w, limit, answer.calls, DoneAfter(rounds), p.toolCalls - budget.toolCalls,
                              p.toolCalls, budget.maxToolCalls, p.retries);
    var messages := RoundMessages(answer.text, batch.executed);
    r := Round(chunks, batch.executed);
    var thought := if answer.text == "" then [] else [Thought(answer.text)];
    q := Progress(p.messages + messages, p.trace + (thought + batch.steps),
                  p.events + RoundEvents(answer.shown, batch.steps), batch.retries,
                  p.steps + 1, p.toolCalls + |batch.executed|, p.polls);
    RoundAnnounced(r, answer.shown);
    StillAnnounced(p.events, p.trace, RoundEvents(answer.shown, batch.steps), TraceOf(r));
    RoundTracked(w, limit, start, budget, p, rounds, r, q);
    budgetHit := batch.budgetHit;
  }

  // ----- The loop -----

  /** How the loop stops after some rounds: `p` is the state after the rounds, `q` the state at the end,
      `text` the model's own last word. */
  ghost predicate Stops(w: World, start: seq<Message>, budget: Budget, p: Progress, q: Progress,
                        rounds: seq<Round>, reason: Reason, text: string)
  {
    && q.messages == p.messages && q.toolCalls == p.toolCalls
    && (reason == ToolExhaustion <==> !Complete(rounds))
    && StepsIn(q.events) == Announced(q.trace) && Signalled(w, q.polls, reason == UserAbort)
    && match reason
      case FinalAnswer =>
        && CallsOf(NextAnswer(w, start, rounds)) == [] && text == TextOf(NextAnswer(w, start, rounds))
        && q.trace == p.trace + [Final(text, false)] && q.steps == p.steps + 1 <= budget.maxSteps
      case UserAbort =>
        && text == ""
        && q.trace == p.trace && (q.steps == p.steps || q.steps == p.steps + 1 <= budget.maxSteps)
      case ToolExhaustion =>
        text == "" && q.toolCalls >= budget.maxToolCalls && q.trace == p.trace && q.steps == p.steps
      case MaxSteps =>
        text == "" && q.steps >= budget.maxSteps && q.trace == p.trace && q.steps == p.steps
      case HardError => false
  }

  lemma AbortStops(w: World, start: seq<Message>, budget: Budget, p: Progress, q: Progress, rounds: seq<Round>,
                   shown: seq<Shown>)
    requires StepsIn(p.events) == Announced(p.trace) && Complete(rounds) && Signalled(w, q.polls, true)
    requires p.steps < budget.maxSteps
    requires q.messages == p.messages && q.trace == p.trace && q.toolCalls == p.toolCalls
    requires (q.steps == p.steps && q.events == p.events)
          || (q.steps == p.steps + 1 && q.events == p.events + Stream(shown))
    ensures Stops(w, start, budget, p, q, rounds, UserAbort, "")
  {
    ShownAddsNoSteps(p.events, shown);
  }

  lemma AnswerStops(w: World, start: seq<Message>, budget: Budget, p: Progress, q: Progress, rounds: seq<Round>,
                    shown: seq<Shown>, text: string)
    requires StepsIn(p.events) == Announced(p.trace) && Complete(rounds) && p.steps < budget.maxSteps
    requires Signalled(w, q.polls, false)
    requires CallsOf(NextAnswer(w, start, rounds)) == [] && text == TextOf(NextAnswer(w, start, rounds))
    requires q.messages == p.messages && q.toolCalls == p.toolCalls && q.steps == p.steps + 1
    requires q.trace == p.trace + [Final(text, false)]
    requires q.events == p.events + (Stream(shown) + [Yielded(Final(text, false))])
    ensures Stops(w, start, budget, p, q, rounds, FinalAnswer, text)
  {
    FinalAnnounced(p.events, p.trace, shown, text);
  }

  lemma ExhaustionStops(w: World, start: seq<Message>, budget: Budget, q: Progress, rounds: seq<Round>)
    requires StepsIn(q.events) == Announced(q.trace) && !Complete(rounds) && q.toolCalls >= budget.maxToolCalls
    requires Signalled(w, q.polls, false)
    ensures Stops(w, start, budget, q, q, rounds, ToolExhaustion, "")
  {
  }

  /** The model is asked to go on from the messages so far. */
  method Ask(w: World, limit: nat, ghost start: seq<Message>, budget: Budget, p: Progress, ghost rounds: seq<Round>)
    returns (answer: Answer, polls: nat)
    requires Tracks(w, limit, start, budget, p, rounds) && !w.aborted(p.polls)
    ensures Signalled(w, polls, answer.aborted)
    ensures !answer.aborted ==>
      var chunks := NextAnswer(w, start, rounds);
      answer == Answer(TextOf(chunks), StopOf(chunks), CallsOf(chunks), ShownOf(chunks), false)
  {
    var chunks := w.stream(p.steps - budget.steps, p.messages);
    assert chunks == NextAnswer(w, start, rounds);
    answer, polls := ReadAnswer(chunks, w.aborted, p.polls + 1);
  }

  /** One pass of the loop: either one more round, or a reason to stop. */
  method Turn(w: World, limit: nat, start: seq<Message>, budget: Budget, p: Progress, ghost rounds: seq<Round>)
    returns (q: Progress, why: Option<Reason>, text: string, ghost s: Progress, ghost after: seq<Round>)
    requires Tracks(w, limit, start, budget, p, rounds) && Complete(rounds) && p.steps < budget.maxSteps
    ensures why != Some(HardError) && why != Some(MaxSteps) && p.steps <= q.steps <= p.steps + 1 <= budget.maxSteps
    ensures why.None? ==> Tracks(w, limit, start, budget, q, after) && Complete(after) && |after| == |rounds| + 1
    ensures why.Some? ==>
      Tracks(w, limit, start, budget, s, after) && Stops(w, start, budget, s, q, after, why.value, text)
  {
    s, after, text := p, rounds, "";
    if w.aborted(p.polls) {
      q := p.(polls := p.polls + 1);
      AbortStops(w, start, budget, p, q, rounds, []);
      return q, Some(UserAbort), "", s, after;
    }
    var answer, polls := Ask(w, limit, start, budget, p, rounds);
    q := p.(polls := polls);
    if answer.aborted {
      q := q.(steps := p.steps + 1, events := p.events + Stream(answer.shown));
      AbortStops(w, start, budget, p, q, rounds, answer.shown);
      return q, Some(UserAbort), "", s, after;
    }
    if answer.calls == [] {
      text := answer.text;
      q := q.(steps := p.steps + 1, trace := p.trace + [Final(text, false)],
              events := p.events + (Stream(answer.shown) + [Yielded(Final(text, false))]));
      AnswerStops(w, start, budget, p, q, rounds, answer.shown, text);
      return q, Some(FinalAnswer), text, s, after;
    }
    var budgetHit;
    ghost var r;
    q, budgetHit, r := Act(w, limit, start, budget, q, answer, NextAnswer(w, start, rounds), rounds);
    s, after := q, rounds + [r];
    why := None;
    if budgetHit {
      ExhaustionStops(w, start, budget, q, after);
      why := Some(ToolExhaustion);
    }
  }

  /** The loop proper. A reason is set on every way out except the loop's own condition. */
  method Loop(w: World, limit: nat, start: seq<Message>, budget: Budget)
    returns (q: Progress, why: Option<Reason>, text: string, ghost p: Progress, ghost rounds: seq<Round>)
    ensures Tracks(w, limit, start, budget, p, rounds)
    ensures why != Some(HardError) && (why.None? ==> q.steps >= budget.maxSteps)
    ensures q.steps == budget.steps || q.steps <= budget.maxSteps
    ensures why.Some? ==> Stops(w, start, budget, p, q, rounds, why.value, text)
    ensures why.None? ==> Stops(w, start, budget, p, q, rounds, MaxSteps, text)
  {
    q := Progress(start, [], [], map[], budget.steps, budget.toolCalls, 0);
    rounds := [];
    while q.steps < budget.maxSteps
      invariant Tracks(w, limit, start, budget, q, rounds) && Complete(rounds)
      invariant q.steps == budget.steps || q.steps <= budget.maxSteps
      decreases budget.maxSteps - q.steps
    {
      q, why, text, p, rounds := Turn(w, limit, start, budget, q, rounds);
      if why.Some? {
        return;
      }
    }
    return q, None, "", q, rounds;
  }

  // ----- The run -----

  datatype Report = Report(
    messages: seq<Message>,
    trace: seq<Step>,
    events: seq<Event>,
    steps: int,
    toolCalls: int,
    reason: Reason,
    text: string,
    polls: nat)

  /** Whether the answer is made up from the trace: a budget ran out after at least one tool call. */
  predicate Summarized(rounds: seq<Round>, reason: Reason) {
    (reason == ToolExhaustion || reason == MaxSteps) && DoneAfter(rounds) != []
  }

  /** The last trace entry of a run, if its end leaves one. */
  function LastWord(rounds: seq<Round>, reason: Reason, text: string): seq<Step> {
    if reason == FinalAnswer then [Final(text, false)]
    else if Summarized(rounds, reason) then [Final(text, true)]
    else []
  }

  function TextAtEnd(w: World, start: seq<Message>, rounds: seq<Round>, reason: Reason): string {
    if reason == FinalAnswer then TextOf(NextAnswer(w, start, rounds))
    else if Summarized(rounds, reason) then TextOf(w.summary(reason, TraceAfter(rounds)))
    else ""
  }

  /** A run of the executor, told by its rounds. */
  ghost predicate Reported(w: World, limit: nat, start: seq<Message>, budget: Budget, r: Report, rounds: seq<Round>) {
    && Legit(w, limit, start, rounds)
    && r.messages == Conversation(start, rounds)
    && r.text == TextAtEnd(w, start, rounds, r.reason)
    && r.trace == TraceAfter(rounds) + LastWord(rounds, r.reason, r.text)
    && StepsIn(r.events) == Announced(r.trace)
    && r.toolCalls == budget.toolCalls + |DoneAfter(rounds)|
    && (r.toolCalls == budget.toolCalls || r.toolCalls <= budget.maxToolCalls)
    && budget.steps + |rounds| <= r.steps <= budget.steps + |rounds| + 1
    && (r.steps == budget.steps || r.steps <= budget.maxSteps)
    && (r.reason == ToolExhaustion <==> !Complete(rounds))
    && Signalled(w, r.polls, r.reason == UserAbort)
    && match r.reason
      case FinalAnswer => CallsOf(NextAnswer(w, start, rounds)) == [] && r.steps == budget.steps + |rounds| + 1
      case UserAbort => true
      case ToolExhaustion => r.toolCalls >= budget.maxToolCalls && r.steps == budget.steps + |rounds|
      case MaxSteps => r.steps >= budget.maxSteps && r.steps == budget.steps + |rounds|
      case HardError => false
  }

  predicate IsTool(s: Step) {
    s.ToolCall? || s.Observed?
  }

  lemma {:induction false} EntriesAreTools(executed: seq<Execution>)
    ensures forall s | s in Entries(executed) :: IsTool(s)
    ensures executed != [] ==> Entries(executed) != []
  {
    if executed != [] {
      EntriesAreTools(executed[..|executed| - 1]);
    }
  }

  /** A trace shows a tool step exactly if some call was carried out. */
  lemma {:induction false} CalledIff(rounds: seq<Round>)
    ensures (exists s | s in TraceAfter(rounds) :: IsTool(s)) <==> DoneAfter(rounds) != []
  {
    if rounds != [] {
      var before, last := rounds[..|rounds| - 1], rounds[|rounds| - 1];
      CalledIff(before);
      EntriesAreTools(last.executed);
      assert TraceAfter(rounds) == TraceAfter(before) + TraceOf(last);
      if last.executed != [] {
        assert Entries(last.executed)[0] in TraceAfter(rounds);
      }
    }
  }

  lemma {:induction false} SummaryReported(events: seq<Event>, trace: seq<Step>, shown: seq<Shown>, text: string)
    requires StepsIn(events) == Announced(trace)
    ensures StepsIn(events + Stream(shown)) == Announced(trace + [Final(text, true)])
  {
    StreamHasNoSteps(shown);
    OneStep(Final(text, true));
    StillAnnounced(events, trace, Stream(shown), [Final(text, true)]);
  }

  /** The answer of a run that ran out of budget after tool calls is made up from its trace. */
  method Conclude(w: World, q: Progress, reason: Reason, answer: string, ghost rounds: seq<Round>)
    returns (trace: seq<Step>, events: seq<Event>, text: string)
    requires StepsIn(q.events) == Announced(q.trace)
    requires reason != FinalAnswer ==> q.trace == TraceAfter(rounds) && answer == ""
    requires reason != HardError
    ensures StepsIn(events) == Announced(trace)
    ensures Summarized(rounds, reason) ==>
      text == TextOf(w.summary(reason, TraceAfter(rounds))) && trace == q.trace + [Final(text, true)]
    ensures !Summarized(rounds, reason) ==> text == answer && trace == q.trace
  {
    trace, events, text := q.trace, q.events, answer;
    CalledIff(rounds);
    if text == "" && reason != UserAbort && reason != FinalAnswer && exists s | s in trace :: IsTool(s) {
      var shown;
      text, shown := ReadSummary(w.summary(reason, trace));
      SummaryReported(events, trace, shown, text);
      trace, events := trace + [Final(text, true)], events + Stream(shown);
    }
  }

  lemma {:induction false} RunReported(w: World, limit: nat, start: seq<Message>, budget: Budget, p: Progress,
                                       q: Progress, rounds: seq<Round>, answer: string, r: Report)
    requires Tracks(w, limit, start, budget, p, rounds) && Stops(w, start, budget, p, q, rounds, r.reason, answer)
    requires r.messages == q.messages && r.steps == q.steps && r.toolCalls == q.toolCalls && r.polls == q.polls
    requires StepsIn(r.events) == Announced(r.trace)
    requires if Summarized(rounds, r.reason)
             then r.text == TextOf(w.summary(r.reason, TraceAfter(rounds)))
                  && r.trace == q.trace + [Final(r.text, true)]
             else r.text == answer && r.trace == q.trace
    ensures Reported(w, limit, start, budget, r, rounds)
  {
  }

  /** The reason assigned after the loop would be `HardError` only if steps were left, which never
      happens: the loop is left early only with a reason. */
  method Run(w: World, limit: nat, start: seq<Message>, budget: Budget)
    returns (r: Report, ghost rounds: seq<Round>)
    ensures r.reason != HardError
    ensures Reported(w, limit, start, budget, r, rounds)
  {
    var q, why, answer;
    ghost var p;
    q, why, answer, p, rounds := Loop(w, limit, start, budget);
    var reason := if why.Some? then why.value else if q.steps >= budget.maxSteps then MaxSteps else HardError;
    var trace, events, text := Conclude(w, q, reason, answer, rounds);
    r := Report(q.messages, trace, events, q.steps, q.toolCalls, reason, text, q.polls);
    RunReported(w, limit, start, budget, p, q, rounds, answer, r);
  }
}
