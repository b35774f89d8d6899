/** The persona object: feedback is applied to it in place. */
module PersonaEvolution {
  import opened Prelude
  import opened PersonaModel

  class PersonaRecord {
    var numbers: map<Field, real>
    var totalInteractions: int
    var evolutionCount: int
    var maturity: Maturity
    var learned: seq<Behavior>
    var expertise: seq<Expertise>
    var log: seq<Entry>

    ghost predicate Valid()
      reads this
    {
      AllFields(numbers)
    }

    ghost function State(): Persona
      reads this
    {
      Persona(numbers, totalInteractions, evolutionCount, maturity, learned, expertise, log)
    }

    constructor (p: Persona)
      requires AllFields(p.numbers)
      ensures Valid() && State() == p
    {
      numbers, maturity := p.numbers, p.maturity;
      totalInteractions, evolutionCount := p.totalInteractions, p.evolutionCount;
      learned, expertise, log := p.learned, p.expertise, p.log;
    }

    /** The log is searched from its end until the window is full. */
    method RecentSignals(field: Field, window: int) returns (deltas: seq<real>, total: real)
      ensures deltas == Recent(log, field, window) && total == Sum(deltas)
    {
      deltas := [];
      var i := |log|;
      assert log[..i] == log;
      while i > 0 && |deltas| < window
        invariant 0 <= i <= |log|
        invariant deltas + Recent(log[..i], field, window - |deltas|) == Recent(log, field, window)
      {
        i := i - 1;
        var e := log[i];
        assert log[..i + 1][..i] == log[..i];
        if e.subject == Numeric(field) && e.delta.Some? {
          ghost var rest := Recent(log[..i], field, window - |deltas| - 1);
          assert deltas + ([e.delta.value] + rest) == deltas + [e.delta.value] + rest;
          deltas := deltas + [e.delta.value];
        }
      }
      total := 0.0;
      for k := 0 to |deltas|
        invariant total == Sum(deltas[..k])
      {
        assert deltas[..k + 1][..k] == deltas[..k];
        total := total + deltas[k];
      }
      assert deltas[..|deltas|] == deltas;
    }

    method ApplyDelta(field: Field, raw: real, rules: Rules) returns (outcome: Outcome)
      requires Valid()
      modifies this
      ensures Valid()
      ensures (State(), outcome) == PersonaModel.ApplyDelta(old(State()), field, raw, rules)
    {
      var recent, total := RecentSignals(field, rules.confirmWindowCount);
      var flip := exists i | 0 <= i < |recent| :: Sign(recent[i]) != Sign(raw);
      if |recent| >= 2 && flip && Abs(total) + Abs(raw) >= rules.confirmThreshold {
        return Outcome(false, None, Some(recent));
      }
      var reinforced := |recent| >= rules.reinforcementThreshold && !flip;
      assert reinforced == Reinforced(recent, raw, rules);
      outcome := Commit(field, numbers[field] + Scaled(raw, reinforced, rules, maturity));
    }

    /** The setter clamps; what is logged is the difference it made. */
    method Commit(field: Field, next: real) returns (outcome: Outcome)
      requires Valid()
      modifies this`numbers, this`evolutionCount, this`log
      ensures Valid()
      ensures var before, after := old(numbers)[field], Clamp01(next);
              && numbers == old(numbers)[field := after]
              && (after == before ==> numbers == old(numbers) && outcome == UNCHANGED
                                      && evolutionCount == old(evolutionCount) && log == old(log))
              && (after != before ==> outcome == Outcome(true, Some(after - before), None)
                                      && evolutionCount == old(evolutionCount) + 1
                                      && log == old(log) + [Entry(Numeric(field), before, after, Some(after - before))])
    {
      var before := numbers[field];
      numbers := numbers[field := Clamp01(next)];
      var after := numbers[field];
      if after - before == 0.0 {
        assert numbers == old(numbers);
        return UNCHANGED;
      }
      evolutionCount := evolutionCount + 1;
      log := log + [Entry(Numeric(field), before, after, Some(after - before))];
      return Outcome(true, Some(after - before), None);
    }

    method FindDomain(domain: string) returns (k: nat)
      ensures k == IndexOf(expertise, domain) && k <= |expertise|
      ensures k < |expertise| ==> expertise[k].domain == domain
    {
      k := 0;
      while k < |expertise| && expertise[k].domain != domain
        invariant k <= |expertise| && IndexOf(expertise, domain) == k + IndexOf(expertise[k..], domain)
      {
        assert expertise[k..][1..] == expertise[k + 1..];
        k := k + 1;
      }
    }

    method ExposeDomain(domain: string, subtopic: string, count: nat)
      modifies this`expertise
      ensures expertise == Exposed(old(expertise), domain, subtopic, count)
    {
      var k := FindDomain(domain);
      if k == |expertise| {
        expertise := expertise + [Expertise(domain, 0.3, [subtopic], count)];
      } else {
        var e := expertise[k];
        e := e.(confidence := Clamp01(e.confidence + 0.05), learnedFrom := e.learnedFrom + count);
        if subtopic !in e.subTopics {
          e := e.(subTopics := e.subTopics + [subtopic]);
        }
        expertise := expertise[k := e];
      }
    }

    method Evolve(feedback: Feedback, rules: Rules, nowMs: real) returns (outcome: Outcome)
      requires Valid()
      modifies this
      ensures Valid()
      ensures (State(), outcome) == PersonaModel.Evolve(old(State()), feedback, rules, nowMs)
    {
      totalInteractions := totalInteractions + 1;
      var derived := ComputeMaturity(totalInteractions);
      if Rank(derived) > Rank(maturity) {
        maturity := derived;
      }
      assert State() == Interacted(old(State()));
      match feedback
      case ExplicitInstruction(direction, name) =>
        outcome := ApplyStyleHint(direction, name, rules);
      case PositiveFeedback =>
        outcome := ApplyDelta(Style(Proactivity), rules.maxDeltaPerEvent * 0.5, rules);
      case NegativeFeedback(strong) =>
        var scale := if strong then 1.0 else 0.5;
        outcome := ApplyDelta(Style(Proactivity), -scale * rules.maxDeltaPerEvent * 0.5, rules);
      case Correction(original, corrected, pattern) =>
        learned := learned + [Behavior(pattern, original + " → " + corrected, 0.6, nowMs)];
        evolutionCount := evolutionCount + 1;
        outcome := RECORDED;
      case Implicit(observation, suggested) =>
        learned := learned + [Behavior(observation, suggested, 0.3, nowMs)];
        evolutionCount := evolutionCount + 1;
        outcome := RECORDED;
      case DomainExposure(domain, subtopic, count) =>
        ExposeDomain(domain, subtopic, count);
        evolutionCount := evolutionCount + 1;
        outcome := RECORDED;
    }

    method ApplyStyleHint(direction: Direction, name: string, rules: Rules) returns (outcome: Outcome)
      requires Valid()
      modifies this
      ensures Valid()
      ensures var aim := Aim(ExplicitInstruction(direction, name), rules);
              (State(), outcome) == if aim.None? then (old(State()), UNCHANGED)
                                    else PersonaModel.ApplyDelta(old(State()), aim.value.0, aim.value.1, rules)
    {
      var field := FieldNamed(name);
      if field.None? || direction.Unclear? {
        return UNCHANGED;
      }
      var raw := if direction.Up? then rules.maxDeltaPerEvent else -rules.maxDeltaPerEvent;
      outcome := ApplyDelta(field.value, raw, rules);
    }

    /** Old behaviours lose confidence, never below zero; the result counts those that did lose some. */
    method ApplyDecay(cutoffMs: real, rate: real) returns (affected: nat)
      modifies this`learned
      ensures |learned| == |old(learned)|
      ensures forall k | 0 <= k < |learned| :: learned[k] == Decayed(old(learned)[k], cutoffMs, rate)
      ensures affected == |set k | 0 <= k < |learned| && learned[k] != old(learned)[k]|
    {
      affected := 0;
      ghost var touched: set<int> := {};
      for i := 0 to |learned|
        invariant |learned| == |old(learned)|
        invariant forall k | 0 <= k < i :: learned[k] == Decayed(old(learned)[k], cutoffMs, rate)
        invariant forall k | i <= k < |learned| :: learned[k] == old(learned)[k]
        invariant touched == set k | 0 <= k < i && learned[k] != old(learned)[k]
        invariant affected == |touched|
      {
        var b := learned[i];
        if b.learnedMs < cutoffMs {
          var aged := b.(confidence := Clamp01(b.confidence - rate));
          learned := learned[i := aged];
          if aged.confidence != b.confidence {
            affected := affected + 1;
            touched := touched + {i};
          }
        }
      }
    }
  }
}
