/** Delivery makes progress: a subscription that keeps being resumed brings its group to the end of the log. */
module BusProgress {
  import opened Bus
  import opened BusInvariant
  import opened BusTheorems

  /** The subscription is on, and asks for entries. */
  predicate Awake(t: Topic, u: nat) {
    && u in t.subs && t.subs[u].group in t.offsets
    && !t.subs[u].cancelled && t.subs[u].count >= 1 && !t.subs[u].phase.Stopped?
  }

  /** Entries its group has not been given yet, and those it still holds itself. */
  function Left(t: Topic, u: nat): int
    requires u in t.subs && t.subs[u].group in t.offsets
  {
    var s := t.subs[u];
    |t.entries| - t.offsets[s.group] + if s.phase.Handling? then |s.phase.batch| - s.phase.next else 0
  }

  /** It is still awake and has no more left than before. */
  predicate NoMoreLeft(t: Topic, t1: Topic, u: nat)
    requires Awake(t, u)
  {
    Awake(t1, u) && Left(t1, u) <= Left(t, u)
  }

  /** Anything but new entries, the end of the bus and the end of this subscription. */
  predicate Calm(a: Action, u: nat) {
    !a.DoPublish? && !a.DoClose? && a != DoUnsubscribe(u)
  }

  lemma {:induction false} LeftIsNatural(t: Topic, u: nat)
    requires Inv(t) && Awake(t, u)
    ensures Left(t, u) >= 0
  {
    assert SubOk(t, u);
  }

  /** Another subscription may take entries of the group, but gives none back. */
  lemma {:induction false} OthersOnlyTake(t: Topic, u: nat, v: nat, closed: bool)
    requires Awake(t, u) && v in t.subs && v != u
    requires t.subs[v].group in t.offsets && t.subs[v].group in t.claims && t.offsets[t.subs[v].group] <= |t.entries|
    ensures NoMoreLeft(t, LoopTop(t, v, closed), u)
  {
  }

  /** At the head of its loop an awake subscription gets the next entry, if there is one. */
  lemma {:induction false} HeadTakesOne(t: Topic, u: nat)
    requires Awake(t, u) && t.subs[u].group in t.claims && t.offsets[t.subs[u].group] <= |t.entries|
    requires t.subs[u].phase.Handling? ==> t.subs[u].phase.next == |t.subs[u].phase.batch|
    ensures NoMoreLeft(t, LoopTop(t, u, false), u)
    ensures Left(t, u) > 0 ==> Left(LoopTop(t, u, false), u) < Left(t, u)
  {
  }

  lemma {:induction false} ResumeTakesOne(t: Topic, u: nat)
    requires Inv(t) && Awake(t, u) && Runnable(t, u)
    ensures NoMoreLeft(t, Resume(t, u, false), u)
    ensures Left(t, u) > 0 ==> Left(Resume(t, u, false), u) < Left(t, u)
  {
    assert SubOk(t, u);
    var phase := t.subs[u].phase;
    if !(phase.Handling? && phase.next < |phase.batch|) {
      HeadTakesOne(t, u);
    }
  }

  lemma {:induction false} OtherResumes(t: Topic, u: nat, v: nat)
    requires Inv(t) && Awake(t, u) && Runnable(t, v) && v != u
    ensures NoMoreLeft(t, Resume(t, v, false), u)
  {
    assert SubOk(t, v);
    var phase := t.subs[v].phase;
    if !(phase.Handling? && phase.next < |phase.batch|) {
      OthersOnlyTake(t, u, v, false);
    }
  }

  lemma {:induction false} NewcomerOnlyTakes(t: Topic, u: nat, v: nat, group: string, consumer: string, count: nat)
    requires Inv(t) && Awake(t, u) && v !in t.subs
    ensures NoMoreLeft(t, Subscribe(t, v, group, consumer, count, false), u)
  {
    assert GroupOk(t, group);
    OthersOnlyTake(Join(t, v, group, consumer, count), u, v, false);
  }

  /** No calm step leaves more to do, and a resume of the subscription itself leaves less. */
  lemma {:induction false} StepTakes(s: State, a: Action, u: nat)
    requires Good(s) && !s.closed && Awake(s.topic, u) && Calm(a, u)
    ensures !Step(s, a).closed && NoMoreLeft(s.topic, Step(s, a).topic, u)
    ensures a == DoResume(u) && Left(s.topic, u) > 0 ==> Left(Step(s, a).topic, u) < Left(s.topic, u)
  {
    var t := s.topic;
    match a
    case DoSubscribe(group, consumer, count) =>
      NewcomerOnlyTakes(t, u, FreshSub(t.subs, 0), group, consumer, count);
    case DoResume(v) =>
      if Runnable(t, v) && v == u {
        ResumeTakesOne(t, u);
      } else if Runnable(t, v) {
        OtherResumes(t, u, v);
      } else if v == u && Left(t, u) > 0 {
        NoLostWakeUp(t, u);
      }
    case _ =>
  }

  // ----- Any run -----

  /** The state after more actions. */
  function Onward(s: State, actions: seq<Action>): (r: State)
    requires Good(s)
    ensures Good(r)
  {
    if actions == [] then s
    else
      var before := Onward(s, actions[..|actions| - 1]);
      StepKeeps(before, actions[|actions| - 1]);
      Step(before, actions[|actions| - 1])
  }

  function Resumes(actions: seq<Action>, u: nat): nat {
    if actions == [] then 0
    else Resumes(actions[..|actions| - 1], u) + if actions[|actions| - 1] == DoResume(u) then 1 else 0
  }

  /** Every resume takes one entry off what is left, until nothing is. */
  lemma {:induction false} ResumesTake(s: State, actions: seq<Action>, u: nat)
    requires Good(s) && !s.closed && Awake(s.topic, u) && forall a <- actions :: Calm(a, u)
    ensures var r := Onward(s, actions);
            && !r.closed && Awake(r.topic, u)
            && Left(r.topic, u) <= (if Resumes(actions, u) < Left(s.topic, u)
                                    then Left(s.topic, u) - Resumes(actions, u) else 0)
  {
    if actions == [] {
      LeftIsNatural(s.topic, u);
    } else {
      var init, last := actions[..|actions| - 1], actions[|actions| - 1];
      ResumesTake(s, init, u);
      StepTakes(Onward(s, init), last, u);
    }
  }

  /** On an open bus, with nothing published meanwhile and whatever else happens, a subscription that is resumed
      as often as entries are left brings its group's offset to the end of the log and has handed over all it
      held. */
  lemma {:induction false} DeliveryCompletes(s: State, actions: seq<Action>, u: nat)
    requires Good(s) && !s.closed && Awake(s.topic, u) && forall a <- actions :: Calm(a, u)
    requires Resumes(actions, u) >= Left(s.topic, u)
    ensures var t := Onward(s, actions).topic;
            && u in t.subs && t.subs[u].group in t.offsets && t.offsets[t.subs[u].group] == |t.entries|
            && forall i: nat :: !InFlight(t, u, i)
  {
    var t := Onward(s, actions).topic;
    ResumesTake(s, actions, u);
    LeftIsNatural(t, u);
    assert SubOk(t, u);
  }
}
