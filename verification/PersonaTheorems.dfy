/** What any sequence of feedback does to a persona: its log is a faithful journal of its numbers. */
module PersonaTheorems {
  import opened Prelude
  import opened PersonaModel

  ghost predicate InRange(p: Persona) {
    AllFields(p.numbers) && forall f: Field :: 0.0 <= p.numbers[f] <= 1.0
  }

  datatype Event = Event(feedback: Feedback, nowMs: real)

  /** The persona after some feedback. */
  function After(p: Persona, events: seq<Event>, rules: Rules): (q: Persona)
    requires AllFields(p.numbers)
    ensures AllFields(q.numbers)
  {
    if events == [] then p
    else
      var n := |events| - 1;
      PersonaModel.Evolve(After(p, events[..n], rules), events[n].feedback, rules, events[n].nowMs).0
  }

  /** What the last feedback of a sequence answers. */
  function Answer(p: Persona, events: seq<Event>, rules: Rules): Outcome
    requires AllFields(p.numbers) && events != []
  {
    var n := |events| - 1;
    PersonaModel.Evolve(After(p, events[..n], rules), events[n].feedback, rules, events[n].nowMs).1
  }

  // ----- One step -----

  /** Everything one feedback can do to the numbers, the log and the counters. */
  ghost predicate Stepped(p: Persona, q: Persona, o: Outcome, rules: Rules) {
    && AllFields(p.numbers) && AllFields(q.numbers)
    && q.evolutionCount == p.evolutionCount + (if o.changed then 1 else 0)
    && (Unmoved(p, q) || exists f: Field :: Moved(p, q, o, f, rules))
  }

  ghost predicate Unmoved(p: Persona, q: Persona) {
    q.numbers == p.numbers && q.log == p.log
  }

  /** The largest change of one event at some maturity. */
  function Limit(rules: Rules, m: Maturity): real {
    rules.maxDeltaPerEvent * Scale(m)
  }

  /** One number moved, by a change that was logged and is within the limit. */
  ghost predicate Moved(p: Persona, q: Persona, o: Outcome, f: Field, rules: Rules)
    requires AllFields(p.numbers)
  {
    o.changed && exists d :: MovedBy(p, q, f, rules, d)
  }

  ghost predicate MovedBy(p: Persona, q: Persona, f: Field, rules: Rules, d: real)
    requires AllFields(p.numbers)
  {
    && (rules.maxDeltaPerEvent >= 0.0 ==> Abs(d) <= Limit(rules, q.maturity))
    && var after := Clamp01(p.numbers[f] + d);
    && q.numbers == p.numbers[f := after]
    && q.log == p.log + [Entry(Numeric(f), p.numbers[f], after, Some(after - p.numbers[f]))]
  }

  lemma AimIsCapped(feedback: Feedback, rules: Rules)
    requires Aim(feedback, rules).Some? && rules.maxDeltaPerEvent >= 0.0
    ensures Abs(Aim(feedback, rules).value.1) <= rules.maxDeltaPerEvent
  {
  }

  lemma ScaledIsCapped(raw: real, reinforced: bool, rules: Rules, m: Maturity)
    requires Abs(raw) <= rules.maxDeltaPerEvent
    ensures Abs(Scaled(raw, reinforced, rules, m)) <= Limit(rules, m)
  {
    var cap := if reinforced then rules.maxDeltaPerEvent * 1.5 else rules.maxDeltaPerEvent;
    assert Min(Abs(raw), cap) == Abs(raw);
  }

  lemma DeltaSteps(p: Persona, feedback: Feedback, rules: Rules)
    requires AllFields(p.numbers) && Aim(feedback, rules).Some?
    ensures var (f, raw) := Aim(feedback, rules).value;
            var (q, o) := ApplyDelta(p, f, raw, rules);
            Stepped(p, q, o, rules) && q.maturity == p.maturity
  {
    var (f, raw) := Aim(feedback, rules).value;
    var (q, o) := ApplyDelta(p, f, raw, rules);
    if o.changed {
      var recent := Recent(p.log, f, rules.confirmWindowCount);
      var d := Scaled(raw, Reinforced(recent, raw, rules), rules, q.maturity);
      if rules.maxDeltaPerEvent >= 0.0 {
        AimIsCapped(feedback, rules);
        ScaledIsCapped(raw, Reinforced(recent, raw, rules), rules, q.maturity);
      }
      assert MovedBy(p, q, f, rules, d);
      assert Moved(p, q, o, f, rules);
    }
  }

  lemma Steps(p: Persona, feedback: Feedback, rules: Rules, nowMs: real)
    requires AllFields(p.numbers)
    ensures var (q, o) := PersonaModel.Evolve(p, feedback, rules, nowMs);
            Stepped(Interacted(p), q, o, rules) && q.maturity == Interacted(p).maturity
  {
    if Aim(feedback, rules).Some? {
      DeltaSteps(Interacted(p), feedback, rules);
    }
  }

  lemma {:induction false} AfterStep(p: Persona, events: seq<Event>, rules: Rules)
    requires AllFields(p.numbers) && events != []
    ensures var before := Interacted(After(p, events[..|events| - 1], rules));
            var q := After(p, events, rules);
            Stepped(before, q, Answer(p, events, rules), rules) && q.maturity == before.maturity
  {
    var n := |events| - 1;
    Steps(After(p, events[..n], rules), events[n].feedback, rules, events[n].nowMs);
  }

  // ----- Ranges and maturity -----

  /** The numbers stay between 0 and 1. */
  lemma {:induction false} NumbersStayInRange(p: Persona, events: seq<Event>, rules: Rules)
    requires InRange(p)
    ensures InRange(After(p, events, rules))
  {
    if events != [] {
      NumbersStayInRange(p, events[..|events| - 1], rules);
      AfterStep(p, events, rules);
    }
  }

  /** Maturity never goes down, and is never behind the number of interactions. */
  lemma {:induction false} MaturityGrows(p: Persona, events: seq<Event>, rules: Rules)
    requires AllFields(p.numbers)
    ensures var q := After(p, events, rules);
            && Rank(p.maturity) <= Rank(q.maturity)
            && q.totalInteractions == p.totalInteractions + |events|
            && (events != [] ==> Rank(ComputeMaturity(q.totalInteractions)) <= Rank(q.maturity))
  {
    if events != [] {
      var n := |events| - 1;
      MaturityGrows(p, events[..n], rules);
      AfterStep(p, events, rules);
      EvolveCounts(After(p, events[..n], rules), events[n].feedback, rules, events[n].nowMs);
    }
  }

  lemma EvolveCounts(p: Persona, feedback: Feedback, rules: Rules, nowMs: real)
    requires AllFields(p.numbers)
    ensures PersonaModel.Evolve(p, feedback, rules, nowMs).0.totalInteractions == p.totalInteractions + 1
  {
  }

  // ----- The journal -----

  /** The entries of one field lead, each from where the one before it ended, from `v0` to `v1`. */
  ghost predicate Replays(log: seq<Entry>, f: Field, v0: real, v1: real) {
    if log == [] then v0 == v1
    else
      var e, before := log[|log| - 1], log[..|log| - 1];
      if e.subject != Numeric(f) then Replays(before, f, v0, v1)
      else e.to == v1 && e.delta == Some(e.to - e.from) && Replays(before, f, v0, e.from)
  }

  /** All deltas logged for a field. */
  function Drift(log: seq<Entry>, f: Field): real {
    if log == [] then 0.0
    else
      var e := log[|log| - 1];
      Drift(log[..|log| - 1], f) + if Counted(e, f) then e.delta.value else 0.0
  }

  /** Entries that telescope add up to the difference. */
  lemma {:induction false} ReplaySums(log: seq<Entry>, f: Field, v0: real, v1: real)
    requires Replays(log, f, v0, v1)
    ensures Drift(log, f) == v1 - v0
  {
    if log != [] {
      var e := log[|log| - 1];
      ReplaySums(log[..|log| - 1], f, v0, if e.subject == Numeric(f) then e.from else v1);
    }
  }

  lemma {:induction false} ReplayOne(log: seq<Entry>, e: Entry, f: Field, v0: real, v1: real, v2: real)
    requires Replays(log, f, v0, v1)
    requires if e.subject == Numeric(f) then e.from == v1 && e.to == v2 && e.delta == Some(v2 - v1) else v2 == v1
    ensures Replays(log + [e], f, v0, v2)
  {
    assert (log + [e])[..|log|] == log;
  }

  /** The entries added by some feedback. */
  function Added(p: Persona, events: seq<Event>, rules: Rules): seq<Entry>
    requires AllFields(p.numbers)
  {
    var log := After(p, events, rules).log;
    if |p.log| <= |log| then log[|p.log|..] else []
  }

  /** One step keeps the journal of a field. */
  lemma {:induction false} JournalStep(log: seq<Entry>, p: Persona, q: Persona, o: Outcome, rules: Rules, f: Field,
                                       v0: real)
    requires Stepped(p, q, o, rules) && log <= p.log
    requires Replays(p.log[|log|..], f, v0, p.numbers[f])
    ensures log <= q.log && Replays(q.log[|log|..], f, v0, q.numbers[f])
  {
    if !Unmoved(p, q) {
      var g: Field :| Moved(p, q, o, g, rules);
      var e := q.log[|p.log|];
      assert q.log[|log|..] == p.log[|log|..] + [e];
      ReplayOne(p.log[|log|..], e, f, v0, p.numbers[f], q.numbers[f]);
    }
  }

  /** The log is a faithful journal: nothing is ever removed, and for each of the thirteen fields the
      added entries lead step by step from the initial value to the current one. */
  lemma {:induction false} LogIsJournal(p: Persona, events: seq<Event>, rules: Rules, f: Field)
    requires AllFields(p.numbers)
    ensures p.log <= After(p, events, rules).log
    ensures Replays(Added(p, events, rules), f, p.numbers[f], After(p, events, rules).numbers[f])
  {
    if events != [] {
      var before := After(p, events[..|events| - 1], rules);
      LogIsJournal(p, events[..|events| - 1], rules, f);
      AfterStep(p, events, rules);
      JournalStep(p.log, Interacted(before), After(p, events, rules), Answer(p, events, rules), rules, f, p.numbers[f]);
    }
  }

  /** So the deltas logged for a field add up to how far it has moved. */
  lemma {:induction false} DriftIsTheDifference(p: Persona, events: seq<Event>, rules: Rules, f: Field)
    requires AllFields(p.numbers)
    ensures Drift(Added(p, events, rules), f) == After(p, events, rules).numbers[f] - p.numbers[f]
  {
    LogIsJournal(p, events, rules, f);
    ReplaySums(Added(p, events, rules), f, p.numbers[f], After(p, events, rules).numbers[f]);
  }

  /** Feedback that changed something. */
  function Changes(p: Persona, events: seq<Event>, rules: Rules): nat
    requires AllFields(p.numbers)
  {
    if events == [] then 0
    else Changes(p, events[..|events| - 1], rules) + if Answer(p, events, rules).changed then 1 else 0
  }

  /** The evolution counter counts exactly the outcomes that say so, and each log entry is one. */
  lemma {:induction false} CounterCounts(p: Persona, events: seq<Event>, rules: Rules)
    requires AllFields(p.numbers)
    ensures After(p, events, rules).evolutionCount == p.evolutionCount + Changes(p, events, rules)
    ensures |After(p, events, rules).log| - |p.log| <= Changes(p, events, rules)
  {
    if events != [] {
      CounterCounts(p, events[..|events| - 1], rules);
      AfterStep(p, events, rules);
    }
  }

  // ----- How large a change can be -----

  /** Reinforcement enlarges the cap, but nothing feedback can ask for exceeds the cap to begin with:
      it makes no difference, unless the cap is negative. */
  lemma ReinforcementInertIff(raw: real, rules: Rules, m: Maturity)
    requires raw != 0.0 && Abs(raw) <= Abs(rules.maxDeltaPerEvent)
    ensures Scaled(raw, true, rules, m) == Scaled(raw, false, rules, m) <==> rules.maxDeltaPerEvent >= 0.0
  {
    var cap := rules.maxDeltaPerEvent;
    if cap < 0.0 {
      assert Min(Abs(raw), cap) == cap && Min(Abs(raw), cap * 1.5) == cap * 1.5;
    }
  }

  lemma SameChange(raw: real, r1: bool, r2: bool, rules: Rules, threshold: int, m: Maturity)
    requires Abs(raw) <= rules.maxDeltaPerEvent
    ensures Scaled(raw, r1, rules.(reinforcementThreshold := threshold), m) == Scaled(raw, r2, rules, m)
  {
    var cap := rules.maxDeltaPerEvent;
    assert Min(Abs(raw), cap) == Abs(raw) == Min(Abs(raw), cap * 1.5);
  }

  lemma SameDelta(p: Persona, f: Field, raw: real, rules: Rules, threshold: int)
    requires f in p.numbers && Abs(raw) <= rules.maxDeltaPerEvent
    ensures ApplyDelta(p, f, raw, rules.(reinforcementThreshold := threshold)) == ApplyDelta(p, f, raw, rules)
  {
    var other := rules.(reinforcementThreshold := threshold);
    var recent := Recent(p.log, f, rules.confirmWindowCount);
    SameChange(raw, Reinforced(recent, raw, other), Reinforced(recent, raw, rules), rules, threshold, p.maturity);
    assert NewValue(p, f, raw, other) == NewValue(p, f, raw, rules);
  }

  lemma {:induction false} ThresholdIsIdle(p: Persona, feedback: Feedback, rules: Rules, threshold: int, nowMs: real)
    requires AllFields(p.numbers) && rules.maxDeltaPerEvent >= 0.0
    ensures PersonaModel.Evolve(p, feedback, rules.(reinforcementThreshold := threshold), nowMs)
         == PersonaModel.Evolve(p, feedback, rules, nowMs)
  {
    var aim := Aim(feedback, rules);
    assert aim == Aim(feedback, rules.(reinforcementThreshold := threshold));
    if aim.Some? {
      AimIsCapped(feedback, rules);
      SameDelta(Interacted(p), aim.value.0, aim.value.1, rules, threshold);
    }
  }

  /** So the reinforcement threshold has no influence on any sequence of feedback. */
  lemma {:induction false} ReinforcementNeverMatters(p: Persona, events: seq<Event>, rules: Rules, threshold: int)
    requires AllFields(p.numbers) && rules.maxDeltaPerEvent >= 0.0
    ensures After(p, events, rules.(reinforcementThreshold := threshold)) == After(p, events, rules)
  {
    if events != [] {
      var n := |events| - 1;
      ReinforcementNeverMatters(p, events[..n], rules, threshold);
      ThresholdIsIdle(After(p, events[..n], rules), events[n].feedback, rules, threshold, events[n].nowMs);
    }
  }

  lemma ClampShrinks(v: real, d: real)
    requires 0.0 <= v <= 1.0
    ensures Abs(Clamp01(v + d) - v) <= Abs(d)
  {
  }

  /** The change of one step is within the cap scaled by the maturity, reinforced or not. */
  lemma MoveIsSmall(p: Persona, q: Persona, o: Outcome, f: Field, rules: Rules)
    requires InRange(p) && Moved(p, q, o, f, rules) && rules.maxDeltaPerEvent >= 0.0
    ensures Abs(q.numbers[f] - p.numbers[f]) <= Limit(rules, q.maturity)
  {
    var d :| MovedBy(p, q, f, rules, d);
    ClampShrinks(p.numbers[f], d);
  }

  lemma {:induction false} StepIsSmall(p: Persona, q: Persona, o: Outcome, rules: Rules)
    requires InRange(p) && Stepped(p, q, o, rules) && rules.maxDeltaPerEvent >= 0.0
    ensures p.log <= q.log && |q.log| <= |p.log| + 1
    ensures |q.log| > |p.log| ==>
              q.log[|p.log|].delta.Some? && Abs(q.log[|p.log|].delta.value) <= Limit(rules, q.maturity)
  {
    if !Unmoved(p, q) {
      var f: Field :| Moved(p, q, o, f, rules);
      MoveIsSmall(p, q, o, f, rules);
    }
  }

  lemma {:induction false} LastIsSmall(p: Persona, events: seq<Event>, rules: Rules)
    requires InRange(p) && rules.maxDeltaPerEvent >= 0.0 && events != []
    ensures var before, after := After(p, events[..|events| - 1], rules), After(p, events, rules);
            && before.log <= after.log && |after.log| <= |before.log| + 1
            && (|after.log| > |before.log| ==>
                  var e := after.log[|before.log|];
                  e.delta.Some? && Abs(e.delta.value) <= Limit(rules, after.maturity))
  {
    NumbersStayInRange(p, events[..|events| - 1], rules);
    AfterStep(p, events, rules);
    var before := Interacted(After(p, events[..|events| - 1], rules));
    StepIsSmall(before, After(p, events, rules), Answer(p, events, rules), rules);
  }

  lemma {:induction false} EarlierEvents(events: seq<Event>, n: nat, k: nat)
    requires k < n <= |events|
    ensures events[..n][..k] == events[..k] && events[..n][..k + 1] == events[..k + 1]
  {
  }

  /** Every entry of the log was added by one event, and the change it records is within the cap scaled by
      the maturity at that event. */
  lemma {:induction false} EveryChangeIsSmall(p: Persona, events: seq<Event>, rules: Rules, i: nat)
    returns (k: nat)
    requires InRange(p) && rules.maxDeltaPerEvent >= 0.0
    requires |p.log| <= i < |After(p, events, rules).log|
    ensures k < |events| && |After(p, events[..k], rules).log| == i < |After(p, events[..k + 1], rules).log|
    ensures var e := After(p, events, rules).log[i];
            && e.delta.Some?
            && Abs(e.delta.value) <= Limit(rules, After(p, events[..k + 1], rules).maturity)
  {
    var n := |events| - 1;
    LastIsSmall(p, events, rules);
    if i < |After(p, events[..n], rules).log| {
      k := EveryChangeIsSmall(p, events[..n], rules, i);
      EarlierEvents(events, n, k);
      assert After(p, events, rules).log[i] == After(p, events[..n], rules).log[i];
    } else {
      k := n;
      assert events[..n + 1] == events;
    }
  }

  // ----- The log read backwards -----

  /** The logged deltas of a field, oldest first. */
  function Deltas(log: seq<Entry>, f: Field): seq<real> {
    if log == [] then []
    else
      var e := log[|log| - 1];
      Deltas(log[..|log| - 1], f) + if Counted(e, f) then [e.delta.value] else []
  }

  /** The search from the end finds the latest deltas of the field and no others. */
  lemma {:induction false} RecentAreTheLatest(log: seq<Entry>, f: Field, window: int)
    ensures var recent, all := Recent(log, f, window), Deltas(log, f);
            && |recent| == (if window <= 0 then 0 else if window < |all| then window else |all|)
            && forall j | 0 <= j < |recent| :: recent[j] == all[|all| - 1 - j]
  {
    if log != [] && window > 0 {
      var before := log[..|log| - 1];
      RecentAreTheLatest(before, f, if Counted(log[|log| - 1], f) then window - 1 else window);
    }
  }

  /** A reversal that needs the user holds everything back but the interaction itself. */
  lemma {:induction false} HeldBackChangesNothing(p: Persona, feedback: Feedback, rules: Rules, nowMs: real)
    requires AllFields(p.numbers)
    requires PersonaModel.Evolve(p, feedback, rules, nowMs).1.recent.Some?
    ensures PersonaModel.Evolve(p, feedback, rules, nowMs).0 == Interacted(p)
  {
    var aim := Aim(feedback, rules);
    assert aim.Some?;
  }

  /** Entries about other things do not show when a field's deltas are looked up. */
  lemma {:induction false} RecentSkips(log: seq<Entry>, added: seq<Entry>, f: Field, window: int)
    requires forall e <- added :: e.subject != Numeric(f)
    ensures Recent(log + added, f, window) == Recent(log, f, window)
  {
    if added == [] {
      assert log + added == log;
    } else {
      var init := added[..|added| - 1];
      assert (log + added)[..|log + added| - 1] == log + init;
      RecentSkips(log, init, f, window);
    }
  }

  /** Whatever feedback comes in between, as long as it commits no change to the field, the same request is
      held back again, with the same recent deltas. */
  lemma {:induction false} HeldBack(p: Persona, feedback: Feedback, events: seq<Event>, again: Feedback, rules: Rules,
                                    nowMs: real, laterMs: real)
    requires AllFields(p.numbers)
    requires PersonaModel.Evolve(p, feedback, rules, nowMs).1.recent.Some?
    requires Aim(again, rules) == Aim(feedback, rules) && Aim(feedback, rules).Some?
    requires var q := PersonaModel.Evolve(p, feedback, rules, nowMs).0;
             forall e <- Added(q, events, rules) :: e.subject != Numeric(Aim(feedback, rules).value.0)
    ensures var (q, o) := PersonaModel.Evolve(p, feedback, rules, nowMs);
            PersonaModel.Evolve(After(q, events, rules), again, rules, laterMs).1 == o
  {
    var q := PersonaModel.Evolve(p, feedback, rules, nowMs).0;
    var f := Aim(feedback, rules).value.0;
    HeldBackChangesNothing(p, feedback, rules, nowMs);
    LogIsJournal(q, events, rules, f);
    var later := After(q, events, rules);
    assert later.log == q.log + Added(q, events, rules);
    RecentSkips(q.log, Added(q, events, rules), f, rules.confirmWindowCount);
  }

  /** The feedback asks for no other change of the field than this one. */
  predicate NoOtherRequest(feedback: Feedback, aim: (Field, real), rules: Rules) {
    var other := Aim(feedback, rules);
    other.Some? && other.value.0 == aim.0 ==> other.value == aim
  }

  /** So a request once held back stays held back until the field is asked to change in another way. */
  lemma {:induction false} HeldBackForGood(p: Persona, feedback: Feedback, events: seq<Event>, rules: Rules,
                                           nowMs: real)
    requires AllFields(p.numbers)
    requires PersonaModel.Evolve(p, feedback, rules, nowMs).1.recent.Some? && Aim(feedback, rules).Some?
    requires forall e <- events :: NoOtherRequest(e.feedback, Aim(feedback, rules).value, rules)
    ensures var q := PersonaModel.Evolve(p, feedback, rules, nowMs).0;
            && (forall e <- Added(q, events, rules) :: e.subject != Numeric(Aim(feedback, rules).value.0))
            && After(q, events, rules).numbers[Aim(feedback, rules).value.0] == q.numbers[Aim(feedback, rules).value.0]
  {
    var q := PersonaModel.Evolve(p, feedback, rules, nowMs).0;
    if events != [] {
      var n := |events| - 1;
      var before, e := After(q, events[..n], rules), events[n];
      HeldBackForGood(p, feedback, events[..n], rules, nowMs);
      LogIsJournal(q, events[..n], rules, Aim(feedback, rules).value.0);
      assert NoOtherRequest(e.feedback, Aim(feedback, rules).value, rules);
      if Aim(e.feedback, rules) == Aim(feedback, rules) {
        HeldBack(p, feedback, events[..n], e.feedback, rules, nowMs, e.nowMs);
        HeldBackChangesNothing(before, e.feedback, rules, e.nowMs);
      } else {
        OtherFieldsOnly(before, e.feedback, rules, e.nowMs, Aim(feedback, rules).value.0);
      }
    }
  }

  /** Feedback that does not ask to change a field adds no entry about it. */
  lemma {:induction false} OtherFieldsOnly(p: Persona, feedback: Feedback, rules: Rules, nowMs: real, f: Field)
    requires AllFields(p.numbers)
    requires Aim(feedback, rules).None? || Aim(feedback, rules).value.0 != f
    ensures var q := PersonaModel.Evolve(p, feedback, rules, nowMs).0;
            && q.numbers[f] == p.numbers[f]
            && (q.log == p.log || exists e: Entry :: e.subject != Numeric(f) && q.log == p.log + [e])
  {
    var aim := Aim(feedback, rules);
    if aim.Some? {
      var (field, raw) := aim.value;
      var r := ApplyDelta(Interacted(p), field, raw, rules).0;
      if r.log != p.log {
        assert r.log == p.log + [r.log[|p.log|]];
      }
    }
  }
}
