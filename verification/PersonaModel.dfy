/** What a persona holds, and what one piece of feedback makes of it. Numbers are reals. */
module PersonaModel {
  import opened Prelude

  datatype StyleKey = Formality | Verbosity | Humor | Empathy | Directness | Proactivity
  datatype ValueKey = Accuracy | Speed | Privacy | Creativity | CostEfficiency | Safety | Autonomy

  /** The thirteen numbers that evolve. */
  datatype Field = Style(style: StyleKey) | Value(value: ValueKey)

  /** The field an instruction names: styles are looked up first. */
  function FieldNamed(name: string): Option<Field> {
    match name
    case "formality" => Some(Style(Formality))
    case "verbosity" => Some(Style(Verbosity))
    case "humor" => Some(Style(Humor))
    case "empathy" => Some(Style(Empathy))
    case "directness" => Some(Style(Directness))
    case "proactivity" => Some(Style(Proactivity))
    case "accuracy" => Some(Value(Accuracy))
    case "speed" => Some(Value(Speed))
    case "privacy" => Some(Value(Privacy))
    case "creativity" => Some(Value(Creativity))
    case "costEfficiency" => Some(Value(CostEfficiency))
    case "safety" => Some(Value(Safety))
    case "autonomy" => Some(Value(Autonomy))
    case _ => None
  }

  datatype Maturity = New | Developing | Established

  function Rank(m: Maturity): nat {
    match m case New => 0 case Developing => 1 case Established => 2
  }

  function ComputeMaturity(interactions: int): Maturity {
    if interactions < 30 then New else if interactions < 100 then Developing else Established
  }

  function Scale(m: Maturity): real {
    match m case New => 0.5 case Developing => 0.8 case Established => 1.0
  }

  /** Entries written elsewhere may name something that is not one of the fields, or carry no delta. */
  datatype Subject = Numeric(field: Field) | Elsewhere(path: string)
  datatype Entry = Entry(subject: Subject, from: real, to: real, delta: Option<real>)

  datatype Behavior = Behavior(trigger: string, learned: string, confidence: real, learnedMs: real)
  datatype Expertise = Expertise(domain: string, confidence: real, subTopics: seq<string>, learnedFrom: int)

  datatype Direction = Down | Unclear | Up

  datatype Feedback =
    | ExplicitInstruction(direction: Direction, appliesTo: string)
    | PositiveFeedback
    | NegativeFeedback(strong: bool)
    | Correction(original: string, corrected: string, pattern: string)
    | Implicit(observation: string, suggested: string)
    | DomainExposure(domain: string, subtopic: string, interactionCount: nat)

  datatype Rules = Rules(
    maxDeltaPerEvent: real,
    reinforcementThreshold: int,
    confirmThreshold: real,
    confirmWindowCount: int)

  datatype Persona = Persona(
    numbers: map<Field, real>,
    totalInteractions: int,
    evolutionCount: int,
    maturity: Maturity,
    learned: seq<Behavior>,
    expertise: seq<Expertise>,
    log: seq<Entry>)

  /** `recent` is set when the user has to settle a change of direction. */
  datatype Outcome = Outcome(changed: bool, delta: Option<real>, recent: Option<seq<real>>)

  const UNCHANGED: Outcome := Outcome(false, None, None)
  const RECORDED: Outcome := Outcome(true, None, None)

  // ----- Arithmetic -----

  function Clamp01(v: real): real {
    if v < 0.0 then 0.0 else if v > 1.0 then 1.0 else v
  }

  function Sign(v: real): real {
    if v > 0.0 then 1.0 else if v < 0.0 then -1.0 else 0.0
  }

  function Abs(v: real): real {
    if v < 0.0 then -v else v
  }

  function Sum(deltas: seq<real>): real {
    if deltas == [] then 0.0 else Sum(deltas[..|deltas| - 1]) + deltas[|deltas| - 1]
  }

  // ----- The log read backwards -----

  predicate Counted(e: Entry, field: Field) {
    e.subject == Numeric(field) && e.delta.Some?
  }

  /** The latest deltas of a field, newest first, at most `window` of them. */
  function Recent(log: seq<Entry>, field: Field, window: int): seq<real> {
    if log == [] || window <= 0 then []
    else
      var last := log[|log| - 1];
      if Counted(last, field) then [last.delta.value] + Recent(log[..|log| - 1], field, window - 1)
      else Recent(log[..|log| - 1], field, window)
  }

  // ----- One numeric change -----

  /** A reversal that the user has to settle. */
  predicate WouldFlip(recent: seq<real>, raw: real, rules: Rules) {
    && |recent| >= 2
    && (exists i | 0 <= i < |recent| :: Sign(recent[i]) != Sign(raw))
    && Abs(Sum(recent)) + Abs(raw) >= rules.confirmThreshold
  }

  predicate Reinforced(recent: seq<real>, raw: real, rules: Rules) {
    |recent| >= rules.reinforcementThreshold && forall i | 0 <= i < |recent| :: Sign(recent[i]) == Sign(raw)
  }

  /** The change before clamping: capped, the cap being enlarged by half on reinforcement, and scaled. */
  function Scaled(raw: real, reinforced: bool, rules: Rules, m: Maturity): real {
    var cap := if reinforced then rules.maxDeltaPerEvent * 1.5 else rules.maxDeltaPerEvent;
    Sign(raw) * Min(Abs(raw), cap) * Scale(m)
  }

  ghost predicate AllFields(numbers: map<Field, real>) {
    forall f: Field :: f in numbers
  }

  /** The new value of a field, if the change is not held back. */
  function NewValue(p: Persona, field: Field, raw: real, rules: Rules): real
    requires field in p.numbers
  {
    var recent := Recent(p.log, field, rules.confirmWindowCount);
    Clamp01(p.numbers[field] + Scaled(raw, Reinforced(recent, raw, rules), rules, p.maturity))
  }

  function ApplyDelta(p: Persona, field: Field, raw: real, rules: Rules): (Persona, Outcome)
    requires field in p.numbers
  {
    var recent := Recent(p.log, field, rules.confirmWindowCount);
    if WouldFlip(recent, raw, rules) then (p, Outcome(false, None, Some(recent)))
    else
      var before, after := p.numbers[field], NewValue(p, field, raw, rules);
      if after == before then (p, UNCHANGED)
      else
        (p.(numbers := p.numbers[field := after],
            evolutionCount := p.evolutionCount + 1,
            log := p.log + [Entry(Numeric(field), before, after, Some(after - before))]),
         Outcome(true, Some(after - before), None))
  }

  // ----- One feedback -----

  /** Every feedback is an interaction; the maturity only ever goes up. */
  function Interacted(p: Persona): Persona {
    var derived := ComputeMaturity(p.totalInteractions + 1);
    p.(totalInteractions := p.totalInteractions + 1,
       maturity := if Rank(derived) > Rank(p.maturity) then derived else p.maturity)
  }

  /** The field a feedback moves and the change it asks for, if it is about a number at all. */
  function Aim(feedback: Feedback, rules: Rules): Option<(Field, real)> {
    match feedback
    case ExplicitInstruction(direction, name) =>
      if FieldNamed(name).None? || direction.Unclear? then None
      else Some((FieldNamed(name).value, if direction.Up? then rules.maxDeltaPerEvent else -rules.maxDeltaPerEvent))
    case PositiveFeedback => Some((Style(Proactivity), rules.maxDeltaPerEvent * 0.5))
    case NegativeFeedback(strong) =>
      Some((Style(Proactivity), -(if strong then 1.0 else 0.5) * rules.maxDeltaPerEvent * 0.5))
    case _ => None
  }

  /** Index of a domain among the expertise; the number of entries if it is not there. */
  function IndexOf(expertise: seq<Expertise>, domain: string): nat {
    if expertise == [] || expertise[0].domain == domain then 0 else 1 + IndexOf(expertise[1..], domain)
  }

  function Exposed(expertise: seq<Expertise>, domain: string, subtopic: string, count: nat): seq<Expertise> {
    var k := IndexOf(expertise, domain);
    if k >= |expertise| then expertise + [Expertise(domain, 0.3, [subtopic], count)]
    else
      var e := expertise[k];
      expertise[k := Expertise(domain, Clamp01(e.confidence + 0.05),
                               if subtopic in e.subTopics then e.subTopics else e.subTopics + [subtopic],
                               e.learnedFrom + count)]
  }

  function Evolve(before: Persona, feedback: Feedback, rules: Rules, nowMs: real): (Persona, Outcome)
    requires AllFields(before.numbers)
  {
    var p := Interacted(before);
    var counted := p.(evolutionCount := p.evolutionCount + 1);
    match feedback
    case Correction(original, corrected, pattern) =>
      (counted.(learned := p.learned + [Behavior(pattern, original + " → " + corrected, 0.6, nowMs)]), RECORDED)
    case Implicit(observation, suggested) =>
      (counted.(learned := p.learned + [Behavior(observation, suggested, 0.3, nowMs)]), RECORDED)
    case DomainExposure(domain, subtopic, count) =>
      (counted.(expertise := Exposed(p.expertise, domain, subtopic, count)), RECORDED)
    case _ =>
      match Aim(feedback, rules)
      case None => (p, UNCHANGED)
      case Some((field, raw)) => ApplyDelta(p, field, raw, rules)
  }

  /** A behaviour that has aged. */
  function Decayed(b: Behavior, cutoffMs: real, rate: real): Behavior {
    if b.learnedMs < cutoffMs then b.(confidence := Clamp01(b.confidence - rate)) else b
  }
}
