/** What each kind of feedback is for: which way it steers a number, and what it teaches. */
module PersonaMeaning {
  import opened Prelude
  import opened PersonaModel
  import opened PersonaTheorems

  // ----- Steering a number -----

  /** Kept between 0 and 1. */
  function Within01(v: real): real {
    if v < 0.0 then 0.0 else if v > 1.0 then 1.0 else v
  }

  /** A step of this size, at this maturity. */
  function Stride(raw: real, m: Maturity): real {
    raw * Scale(m)
  }

  /** A feedback that asks for `raw` moves the field by `raw` scaled by the maturity, unless it is held back, and
      no other field. */
  ghost predicate Steers(p: Persona, q: Persona, o: Outcome, f: Field, raw: real)
    requires AllFields(p.numbers) && AllFields(q.numbers)
  {
    && (forall g: Field :: g != f ==> q.numbers[g] == p.numbers[g])
    && q.numbers[f] == if o.recent.Some? then p.numbers[f] else Within01(p.numbers[f] + Stride(raw, q.maturity))
  }

  lemma {:induction false} ScaledIsProduct(raw: real, reinforced: bool, rules: Rules, m: Maturity)
    requires Abs(raw) <= rules.maxDeltaPerEvent
    ensures Scaled(raw, reinforced, rules, m) == Stride(raw, m)
  {
    var cap := if reinforced then rules.maxDeltaPerEvent * 1.5 else rules.maxDeltaPerEvent;
    assert Min(Abs(raw), cap) == Abs(raw);
    assert Sign(raw) * Abs(raw) == raw;
  }

  lemma {:induction false} AimSteers(p: Persona, feedback: Feedback, rules: Rules, nowMs: real)
    requires InRange(p) && rules.maxDeltaPerEvent >= 0.0 && Aim(feedback, rules).Some?
    ensures var ((q, o), (f, raw)) := (PersonaModel.Evolve(p, feedback, rules, nowMs), Aim(feedback, rules).value);
            Steers(p, q, o, f, raw)
  {
    var (f, raw) := Aim(feedback, rules).value;
    AimIsCapped(feedback, rules);
    EvolveIsDelta(p, feedback, rules, nowMs);
    DeltaSteers(Interacted(p), f, raw, rules);
    var (q, o) := PersonaModel.Evolve(p, feedback, rules, nowMs);
    assert Steers(Interacted(p), q, o, f, raw);
  }

  lemma {:induction false} EvolveIsDelta(p: Persona, feedback: Feedback, rules: Rules, nowMs: real)
    requires AllFields(p.numbers) && Aim(feedback, rules).Some?
    ensures var (f, raw) := Aim(feedback, rules).value;
            PersonaModel.Evolve(p, feedback, rules, nowMs) == ApplyDelta(Interacted(p), f, raw, rules)
  {
  }

  lemma {:induction false} DeltaSteers(p: Persona, f: Field, raw: real, rules: Rules)
    requires InRange(p) && Abs(raw) <= rules.maxDeltaPerEvent
    ensures var (q, o) := ApplyDelta(p, f, raw, rules);
            && AllFields(q.numbers) && q.maturity == p.maturity && Steers(p, q, o, f, raw)
  {
    var recent := Recent(p.log, f, rules.confirmWindowCount);
    ScaledIsProduct(raw, Reinforced(recent, raw, rules), rules, p.maturity);
    assert NewValue(p, f, raw, rules) == Within01(p.numbers[f] + Stride(raw, p.maturity));
  }

  /** An instruction that names a known field moves that field up or down by the cap, as it says, and nothing else;
      an "up" never lowers it, a "down" never raises it. Without a clear direction, or for an unknown name, no
      number moves. */
  lemma {:induction false} InstructionSteers(p: Persona, direction: Direction, name: string, rules: Rules, nowMs: real)
    requires InRange(p) && rules.maxDeltaPerEvent >= 0.0
    ensures var (q, o) := PersonaModel.Evolve(p, ExplicitInstruction(direction, name), rules, nowMs);
            if FieldNamed(name).None? || direction.Unclear? then q.numbers == p.numbers
            else
              var f := FieldNamed(name).value;
              && Steers(p, q, o, f, if direction.Up? then rules.maxDeltaPerEvent else -rules.maxDeltaPerEvent)
              && (if direction.Up? then q.numbers[f] >= p.numbers[f] else q.numbers[f] <= p.numbers[f])
  {
    var feedback := ExplicitInstruction(direction, name);
    if Aim(feedback, rules).Some? {
      AimSteers(p, feedback, rules, nowMs);
    }
  }

  /** Praise makes a persona more proactive, by half the cap. */
  lemma {:induction false} PraiseSteers(p: Persona, rules: Rules, nowMs: real)
    requires InRange(p) && rules.maxDeltaPerEvent >= 0.0
    ensures var (q, o) := PersonaModel.Evolve(p, PositiveFeedback, rules, nowMs);
            && Steers(p, q, o, Style(Proactivity), rules.maxDeltaPerEvent * 0.5)
            && q.numbers[Style(Proactivity)] >= p.numbers[Style(Proactivity)]
  {
    AimSteers(p, PositiveFeedback, rules, nowMs);
  }

  /** Blame makes it less proactive; strong blame by as much as praise does, other blame by half of that. */
  lemma {:induction false} BlameSteers(p: Persona, strong: bool, rules: Rules, nowMs: real)
    requires InRange(p) && rules.maxDeltaPerEvent >= 0.0
    ensures var (q, o) := PersonaModel.Evolve(p, NegativeFeedback(strong), rules, nowMs);
            && Steers(p, q, o, Style(Proactivity), -rules.maxDeltaPerEvent * if strong then 0.5 else 0.25)
            && q.numbers[Style(Proactivity)] <= p.numbers[Style(Proactivity)]
  {
    AimSteers(p, NegativeFeedback(strong), rules, nowMs);
  }

  /** Two names never mean the same field. */
  lemma {:induction false} NamesAreDistinct(a: string, b: string)
    requires FieldNamed(a).Some? && FieldNamed(a) == FieldNamed(b)
    ensures a == b
  {
  }

  /** What some deltas amount to. */
  function Total(deltas: seq<real>): real {
    if deltas == [] then 0.0 else deltas[0] + Total(deltas[1..])
  }

  /** The field's logged deltas that fall into the window, oldest first. */
  function Latest(p: Persona, f: Field, rules: Rules): (r: seq<real>) {
    var all, window := Deltas(p.log, f), rules.confirmWindowCount;
    all[|all| - (if window <= 0 then 0 else if window < |all| then window else |all|)..]
  }

  lemma {:induction false} SumIsTotal(recent: seq<real>, latest: seq<real>)
    requires |recent| == |latest| && forall j | 0 <= j < |recent| :: recent[j] == latest[|latest| - 1 - j]
    ensures Sum(recent) == Total(latest)
    ensures forall d :: d in recent <==> d in latest
  {
    if recent != [] {
      SumIsTotal(recent[..|recent| - 1], latest[1..]);
      assert recent == recent[..|recent| - 1] + [latest[0]] && latest == [latest[0]] + latest[1..];
    }
  }

  /** A request is held back for the user exactly if at least two changes of the field are in the window, one of
      them not in the direction asked for, and they amount, together with the request, to the threshold. */
  lemma {:induction false} HeldBackIff(p: Persona, feedback: Feedback, rules: Rules, nowMs: real)
    requires AllFields(p.numbers) && Aim(feedback, rules).Some?
    ensures var ((f, raw), o) := (Aim(feedback, rules).value, PersonaModel.Evolve(p, feedback, rules, nowMs).1);
            var latest := Latest(p, f, rules);
            o.recent.Some? <==>
              && |latest| >= 2 && (exists d :: d in latest && Sign(d) != Sign(raw))
              && Abs(Total(latest)) + Abs(raw) >= rules.confirmThreshold
  {
    var (f, raw) := Aim(feedback, rules).value;
    EvolveIsDelta(p, feedback, rules, nowMs);
    RecentAreTheLatest(p.log, f, rules.confirmWindowCount);
    var recent, latest := Recent(p.log, f, rules.confirmWindowCount), Latest(p, f, rules);
    SumIsTotal(recent, latest);
    FlipIff(recent, raw, rules);
  }

  lemma {:induction false} FlipIff(recent: seq<real>, raw: real, rules: Rules)
    ensures WouldFlip(recent, raw, rules) <==>
              && |recent| >= 2 && (exists d :: d in recent && Sign(d) != Sign(raw))
              && Abs(Sum(recent)) + Abs(raw) >= rules.confirmThreshold
  {
  }

  // ----- What is taught -----

  /** The behaviour a feedback teaches, if it teaches one. */
  function Lesson(e: Event): seq<Behavior> {
    match e.feedback
    case Correction(original, corrected, pattern) =>
      [Behavior(pattern, original + " → " + corrected, 0.6, e.nowMs)]
    case Implicit(observation, suggested) => [Behavior(observation, suggested, 0.3, e.nowMs)]
    case _ => []
  }

  function Lessons(events: seq<Event>): seq<Behavior> {
    if events == [] then [] else Lessons(events[..|events| - 1]) + Lesson(events[|events| - 1])
  }

  /** Behaviours are learned in order, one per correction and per implicit pattern, and none is lost. */
  lemma {:induction false} LearnedInOrder(p: Persona, events: seq<Event>, rules: Rules)
    requires AllFields(p.numbers)
    ensures After(p, events, rules).learned == p.learned + Lessons(events)
  {
    if events != [] {
      var n := |events| - 1;
      LearnedInOrder(p, events[..n], rules);
      OneLesson(After(p, events[..n], rules), events[n], rules);
    }
  }

  lemma {:induction false} OneLesson(p: Persona, e: Event, rules: Rules)
    requires AllFields(p.numbers)
    ensures PersonaModel.Evolve(p, e.feedback, rules, e.nowMs).0.learned == p.learned + Lesson(e)
  {
  }

  ghost predicate DistinctDomains(expertise: seq<Expertise>) {
    forall i, j | 0 <= i < j < |expertise| :: expertise[i].domain != expertise[j].domain
  }

  /** How often a domain has come up, according to its entries. */
  function LearnedFrom(expertise: seq<Expertise>, domain: string): int {
    if expertise == [] then 0
    else
      var last := expertise[|expertise| - 1];
      LearnedFrom(expertise[..|expertise| - 1], domain) + if last.domain == domain then last.learnedFrom else 0
  }

  /** How often it came up in some feedback. */
  function Exposures(events: seq<Event>, domain: string): nat {
    if events == [] then 0
    else
      var e := events[|events| - 1].feedback;
      Exposures(events[..|events| - 1], domain)
      + if e.DomainExposure? && e.domain == domain then e.interactionCount else 0
  }

  /** A subtopic that came up is on record for its domain. */
  ghost predicate Knows(expertise: seq<Expertise>, domain: string, subtopic: string) {
    exists k :: 0 <= k < |expertise| && expertise[k].domain == domain && subtopic in expertise[k].subTopics
  }

  lemma {:induction false} IndexOfFirst(expertise: seq<Expertise>, domain: string)
    ensures var k := IndexOf(expertise, domain);
            && k <= |expertise| && (k < |expertise| ==> expertise[k].domain == domain)
            && forall i | 0 <= i < k :: expertise[i].domain != domain
  {
    if expertise != [] && expertise[0].domain != domain {
      IndexOfFirst(expertise[1..], domain);
    }
  }

  lemma {:induction false} LearnedFromUpdate(expertise: seq<Expertise>, k: nat, e: Expertise, domain: string)
    requires k < |expertise| && e.domain == expertise[k].domain
    ensures LearnedFrom(expertise[k := e], domain)
         == LearnedFrom(expertise, domain) + if e.domain == domain then e.learnedFrom - expertise[k].learnedFrom else 0
  {
    var n := |expertise| - 1;
    if k == n {
      assert expertise[k := e][..n] == expertise[..n];
    } else {
      assert expertise[k := e][..n] == expertise[..n][k := e];
      LearnedFromUpdate(expertise[..n], k, e, domain);
    }
  }

  /** One exposure: its domain has one entry afterwards, that counts it and knows the subtopic. */
  lemma {:induction false} OneExposure(expertise: seq<Expertise>, domain: string, subtopic: string, count: nat,
                                       other: string)
    requires DistinctDomains(expertise)
    ensures var after := Exposed(expertise, domain, subtopic, count);
            && DistinctDomains(after) && Knows(after, domain, subtopic)
            && LearnedFrom(after, other) == LearnedFrom(expertise, other) + if other == domain then count else 0
  {
    IndexOfFirst(expertise, domain);
    var k := IndexOf(expertise, domain);
    var after := Exposed(expertise, domain, subtopic, count);
    if k < |expertise| {
      LearnedFromUpdate(expertise, k, after[k], other);
      assert after[k].domain == domain && subtopic in after[k].subTopics;
    } else {
      assert after[..|expertise|] == expertise;
      assert after[k].domain == domain && subtopic in after[k].subTopics;
    }
  }

  lemma {:induction false} ExpertiseStep(p: Persona, e: Event, rules: Rules)
    requires AllFields(p.numbers)
    ensures PersonaModel.Evolve(p, e.feedback, rules, e.nowMs).0.expertise ==
              match e.feedback
              case DomainExposure(domain, subtopic, count) => Exposed(p.expertise, domain, subtopic, count)
              case _ => p.expertise
  {
  }

  /** Over any feedback each domain keeps one entry, which counts exactly how often the domain came up. */
  lemma {:induction false} ExpertiseCounts(p: Persona, events: seq<Event>, rules: Rules, domain: string)
    requires AllFields(p.numbers) && DistinctDomains(p.expertise)
    ensures var q := After(p, events, rules);
            && DistinctDomains(q.expertise)
            && LearnedFrom(q.expertise, domain) == LearnedFrom(p.expertise, domain) + Exposures(events, domain)
  {
    if events != [] {
      var n := |events| - 1;
      ExpertiseCounts(p, events[..n], rules, domain);
      var before := After(p, events[..n], rules);
      ExpertiseStep(before, events[n], rules);
      if events[n].feedback.DomainExposure? {
        var DomainExposure(exposed, subtopic, count) := events[n].feedback;
        OneExposure(before.expertise, exposed, subtopic, count, domain);
      }
    }
  }

  // ----- Forgetting -----

  /** Ageing takes the rate off the confidence of what was learned before the cutoff, down to nothing at most, and
      leaves everything else alone. */
  lemma {:induction false} DecayForgets(b: Behavior, cutoffMs: real, rate: real)
    requires 0.0 <= b.confidence <= 1.0 && rate >= 0.0
    ensures var aged := Decayed(b, cutoffMs, rate);
            && aged.(confidence := b.confidence) == b
            && aged.confidence == if b.learnedMs >= cutoffMs then b.confidence
                                  else if b.confidence <= rate then 0.0 else b.confidence - rate
  {
  }

  // ----- Growing up -----

  /** A persona that starts from nothing is new for its first 29 interactions, developing up to the 99th, and
      established from then on. */
  lemma {:induction false} GrowsUp(p: Persona, events: seq<Event>, rules: Rules)
    requires AllFields(p.numbers) && p.totalInteractions == 0 && p.maturity == New
    ensures After(p, events, rules).maturity
         == if |events| < 30 then New else if |events| < 100 then Developing else Established
  {
    if events != [] {
      var n := |events| - 1;
      GrowsUp(p, events[..n], rules);
      MaturityGrows(p, events[..n], rules);
      AfterStep(p, events, rules);
    }
  }
}
