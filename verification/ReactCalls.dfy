/** What becomes of each tool call of a run, told by the outside world alone. */
module ReactCalls {
  import opened Prelude
  import opened ReactStream
  import opened ReactExecutor
  import opened ReactRun
  import opened ReactTheorems

  /** Nothing keeps the sandbox from being asked to run the `i`th call. */
  predicate MayRun(w: World, i: nat, call: Call) {
    w.wired && (call.argsRaw == "" || w.parses(call.argsRaw)) && w.denies(i, call) == None && w.hasPolicy
  }

  /** What the `i`th execution of a run shows is so in the world, and the other way round. */
  ghost predicate Earned(w: World, limit: nat, done: seq<Execution>, i: nat)
    requires i < |done|
  {
    && (done[i].asked <==> MayRun(w, i, done[i].call))
    && FromTool(w, limit, i, done[i], Failures(done[..i], RetryKey(done[i].call)))
    && FromChecks(w, i, done[i])
  }

  /** What the sandbox said, told how often the call had failed before. */
  ghost predicate FromTool(w: World, limit: nat, i: nat, e: Execution, failed: nat) {
    var Execution(call, observation, asked) := e;
    && (forall output :: observation == Succeeded(output) <==> asked && w.execute(i, call) == ToolSuccess(output))
    && (forall error :: observation == Transient(failed + 1, limit, error) <==>
          asked && w.execute(i, call) == ToolFailure(error) && failed < limit)
    && (forall error :: observation == Exhausted(error) <==>
          asked && w.execute(i, call) == ToolFailure(error) && failed >= limit)
  }

  /** What kept the sandbox from being asked. */
  ghost predicate FromChecks(w: World, i: nat, e: Execution) {
    var Execution(call, observation, asked) := e;
    && (observation == NotWired <==> !w.wired)
    && (observation == InvalidArgs <==> w.wired && call.argsRaw != "" && !w.parses(call.argsRaw))
    && (forall reason :: observation == Denied(reason) <==>
          w.wired && (call.argsRaw == "" || w.parses(call.argsRaw)) && w.denies(i, call) == Some(reason))
  }

  /** In every run the sandbox is asked exactly if everything is wired, the arguments parse, the guard allows the
      call and there is a policy; the call succeeds exactly if the sandbox was asked and says so; and a denied
      call is observed as denied, for the guard's reason. */
  lemma {:induction false} ObservationsAreEarned(w: World, limit: nat, start: seq<Message>, budget: Budget, r: Report,
                                                 rounds: seq<Round>, i: nat)
    requires Reported(w, limit, start, budget, r, rounds) && i < |DoneAfter(rounds)|
    ensures Earned(w, limit, DoneAfter(rounds), i)
  {
    var done := DoneAfter(rounds);
    assert HonestAt(w, limit, done, i);
    OutcomeFromTool(w, i, done[i].call, Failures(done[..i], RetryKey(done[i].call)), limit);
    OutcomeFromChecks(w, i, done[i].call, Failures(done[..i], RetryKey(done[i].call)), limit);
  }

  lemma {:induction false} OutcomeFromTool(w: World, i: nat, call: Call, failed: nat, limit: nat)
    ensures var e := ToolOutcome(w, i, call, failed, limit);
            FromTool(w, limit, i, e, failed) && (e.asked <==> MayRun(w, i, call))
  {
  }

  lemma {:induction false} OutcomeFromChecks(w: World, i: nat, call: Call, failed: nat, limit: nat)
    ensures FromChecks(w, i, ToolOutcome(w, i, call, failed, limit))
  {
  }

  /** The positions of the calls the sandbox was asked to run, in order. */
  function AskedFor(done: seq<Execution>): seq<nat> {
    if done == [] then []
    else
      var last := |done| - 1;
      AskedFor(done[..last]) + if done[last].asked then [last] else []
  }

  /** So the sandbox never sees a call that may not run, and sees all others in order. */
  lemma {:induction false} SandboxSeesOnlyAllowed(w: World, limit: nat, start: seq<Message>, budget: Budget, r: Report,
                                                  rounds: seq<Round>)
    requires Reported(w, limit, start, budget, r, rounds)
    ensures var done := DoneAfter(rounds);
            && Ascending(AskedFor(done))
            && forall i: nat :: i in AskedFor(done) <==> i < |done| && MayRun(w, i, done[i].call)
  {
    var done := DoneAfter(rounds);
    AskedForAscends(done);
    forall i: nat ensures i in AskedFor(done) <==> i < |done| && MayRun(w, i, done[i].call) {
      AskedForIff(done, i);
      if i < |done| {
        ObservationsAreEarned(w, limit, start, budget, r, rounds, i);
      }
    }
  }

  lemma {:induction false} AskedForIff(done: seq<Execution>, i: nat)
    ensures i in AskedFor(done) <==> i < |done| && done[i].asked
  {
    if done != [] {
      AskedForIff(done[..|done| - 1], i);
    }
  }

  lemma {:induction false} AskedForAscends(done: seq<Execution>)
    ensures Ascending(AskedFor(done))
  {
    if done != [] {
      var before := AskedFor(done[..|done| - 1]);
      AskedForAscends(done[..|done| - 1]);
      forall k | 0 <= k < |before| ensures before[k] < |done| - 1 {
        assert before[k] in before;
        AskedForIff(done[..|done| - 1], before[k]);
      }
    }
  }

  /** The observations of some executions. */
  function Observations(done: seq<Execution>): (r: seq<Observation>)
    ensures |r| == |done|
  {
    seq(|done|, i requires 0 <= i < |done| => done[i].observation)
  }

  lemma {:induction false} EntriesShow(executed: seq<Execution>)
    ensures Seen(Entries(executed)) == Observations(executed)
  {
    if executed != [] {
      var n := |executed| - 1;
      EntriesShow(executed[..n]);
      var pair := [ToolCall(executed[n].call), Observed(executed[n].observation)];
      SeenAppend(Entries(executed[..n]), pair);
      assert pair[..1] == [pair[0]] && Seen([pair[0]]) == [];
      assert Observations(executed) == Observations(executed[..n]) + [executed[n].observation];
    }
  }

  lemma {:induction false} TraceShows(rounds: seq<Round>)
    ensures Seen(TraceAfter(rounds)) == Observations(DoneAfter(rounds))
  {
    if rounds != [] {
      var before, last := rounds[..|rounds| - 1], rounds[|rounds| - 1];
      TraceShows(before);
      EntriesShow(last.executed);
      var thought := if TextOf(last.chunks) == "" then [] else [Thought(TextOf(last.chunks))];
      SeenAppend(thought, Entries(last.executed));
      SeenAppend(TraceAfter(before), TraceOf(last));
      assert Seen(thought) == [];
      assert Observations(DoneAfter(rounds)) == Observations(DoneAfter(before)) + Observations(last.executed);
    }
  }

  /** The model is told exactly these observations, call by call. */
  lemma {:induction false} ModelIsToldWhatHappened(w: World, limit: nat, start: seq<Message>, budget: Budget, r: Report,
                                                   rounds: seq<Round>)
    requires Reported(w, limit, start, budget, r, rounds)
    ensures Told(r.messages) == Told(start) + Observations(DoneAfter(rounds))
  {
    NothingUntold(start, rounds);
    TraceShows(rounds);
  }

  /** How a run ends: with the model's own last answer, or with one made up from the trace exactly if a budget ran
      out after at least one tool call, or else without any text. */
  lemma {:induction false} LastAnswer(w: World, limit: nat, start: seq<Message>, budget: Budget, r: Report,
                                      rounds: seq<Round>)
    requires Reported(w, limit, start, budget, r, rounds)
    ensures var (made, done) := (TraceAfter(rounds), DoneAfter(rounds));
            if r.reason == FinalAnswer then
              r.text == TextOf(w.stream(|rounds|, r.messages)) && r.trace == made + [Final(r.text, false)]
            else if r.reason != UserAbort && done != [] then
              r.text == TextOf(w.summary(r.reason, made)) && r.trace == made + [Final(r.text, true)]
            else r.text == "" && r.trace == made
    ensures r.reason == UserAbort <==> r.polls > 0 && w.aborted(r.polls - 1)
  {
    assert r.trace == TraceAfter(rounds) + LastWord(rounds, r.reason, r.text);
  }

  /** Two calls of one tool count as the same call exactly if their arguments are written alike. */
  lemma {:induction false} SameCallIff(a: Call, b: Call)
    requires a.name == b.name
    ensures RetryKey(a) == RetryKey(b) <==> a.argsRaw == b.argsRaw
  {
    var head := a.name + ":";
    assert RetryKey(a)[|head|..] == a.argsRaw && RetryKey(b)[|head|..] == b.argsRaw;
  }
}
