/** How subscriptions end: unsubscribing and closing let a handler finish its batch and nothing more. */
module BusEndings {
  import opened Bus
  import opened BusInvariant
  import opened BusProgress

  /** The subscription has been told to end. */
  predicate Ending(s: State, u: nat) {
    u in s.topic.subs && (s.topic.subs[u].cancelled || s.closed)
  }

  /** Entries of its batch that have not been handed to the handler yet. */
  function Held(t: Topic, u: nat): nat
    requires u in t.subs
  {
    match t.subs[u].phase
    case Handling(_, batch, next) => if next < |batch| then |batch| - next else 0
    case _ => 0
  }

  /** The log positions it still holds, in order. */
  function HeldPositions(t: Topic, u: nat): (r: seq<nat>)
    requires u in t.subs
    ensures |r| == Held(t, u)
  {
    match t.subs[u].phase
    case Handling(lo, batch, next) => seq(Held(t, u), k requires 0 <= k => lo + next + k)
    case _ => []
  }

  /** From `t` to `t1` the subscription has been handed the next positions it held, and claimed nothing. */
  ghost predicate OnlyHanded(t: Topic, t1: Topic, u: nat)
    requires u in t.subs
  {
    && u in t1.subs && t1.subs[u].group == t.subs[u].group
    && t1.subs[u].seen + HeldPositions(t1, u) == t.subs[u].seen + HeldPositions(t, u)
    && t.subs[u].seen <= t1.subs[u].seen
    && forall i: nat {:trigger ClaimedBy(t1, u, i)} :: ClaimedBy(t1, u, i) <==> ClaimedBy(t, u, i)
  }

  lemma {:induction false} HandedTransitive(t: Topic, t1: Topic, t2: Topic, u: nat)
    requires u in t.subs && OnlyHanded(t, t1, u) && OnlyHanded(t1, t2, u)
    ensures OnlyHanded(t, t2, u)
  {
    forall i: nat {:trigger ClaimedBy(t2, u, i)} ensures ClaimedBy(t2, u, i) <==> ClaimedBy(t, u, i) {
      assert ClaimedBy(t1, u, i) <==> ClaimedBy(t, u, i);
    }
  }

  // ----- One step -----

  /** What concerns other subscriptions leaves this one as it is. */
  ghost predicate SameSub(t: Topic, t1: Topic, u: nat)
    requires u in t.subs
  {
    && u in t1.subs && t1.subs[u].(cancelled := false) == t.subs[u].(cancelled := false)
    && forall i: nat {:trigger ClaimedBy(t1, u, i)} :: ClaimedBy(t1, u, i) <==> ClaimedBy(t, u, i)
  }

  lemma {:induction false} SameSubHanded(t: Topic, t1: Topic, u: nat)
    requires u in t.subs && SameSub(t, t1, u)
    ensures OnlyHanded(t, t1, u)
  {
  }

  /** The head of another subscription's loop claims for that one only. */
  lemma {:induction false} OthersClaimForThemselves(t: Topic, u: nat, v: nat, closed: bool)
    requires u in t.subs && v in t.subs && v != u
    requires t.subs[v].group in t.offsets && t.subs[v].group in t.claims && t.offsets[t.subs[v].group] <= |t.entries|
    ensures SameSub(t, LoopTop(t, v, closed), u)
  {
  }

  lemma {:induction false} OtherResumesAlone(t: Topic, u: nat, v: nat, closed: bool)
    requires Inv(t) && u in t.subs && Runnable(t, v) && v != u
    ensures SameSub(t, Resume(t, v, closed), u)
  {
    assert SubOk(t, v);
    var phase := t.subs[v].phase;
    if !(phase.Handling? && phase.next < |phase.batch|) {
      OthersClaimForThemselves(t, u, v, closed);
    }
  }

  lemma {:induction false} NewcomerAlone(t: Topic, u: nat, v: nat, group: string, consumer: string, count: nat)
    requires Inv(t) && u in t.subs && v !in t.subs
    ensures SameSub(t, Subscribe(t, v, group, consumer, count, false), u)
  {
    assert GroupOk(t, group) && SubOk(t, u);
    var t1 := Join(t, v, group, consumer, count);
    assert SameSub(t, t1, u);
    OthersClaimForThemselves(t1, u, v, false);
  }

  /** Resumed, it gets the next entry of its batch; without one it stops. */
  lemma {:induction false} EndingResumes(t: Topic, u: nat, closed: bool)
    requires Inv(t) && Runnable(t, u) && (t.subs[u].cancelled || closed)
    ensures OnlyHanded(t, Resume(t, u, closed), u)
    ensures if Held(t, u) > 0 then Held(Resume(t, u, closed), u) == Held(t, u) - 1
            else Resume(t, u, closed).subs[u].phase.Stopped?
  {
    assert SubOk(t, u);
  }

  /** Everything but its own resumes leaves a subscription as it is, apart from telling it to end. */
  lemma {:induction false} OthersLeaveAlone(s: State, a: Action, u: nat)
    requires Good(s) && u in s.topic.subs && a != DoResume(u)
    ensures SameSub(s.topic, Step(s, a).topic, u)
  {
    var t := s.topic;
    match a
    case DoSubscribe(group, consumer, count) =>
      if !s.closed {
        NewcomerAlone(t, u, FreshSub(t.subs, 0), group, consumer, count);
      }
    case DoResume(v) =>
      if Runnable(t, v) {
        OtherResumesAlone(t, u, v, s.closed);
      }
    case _ =>
  }

  lemma {:induction false} EndingStep(s: State, a: Action, u: nat)
    requires Good(s) && Ending(s, u)
    ensures Ending(Step(s, a), u) && OnlyHanded(s.topic, Step(s, a).topic, u)
  {
    EndingStays(s, a, u);
    if a == DoResume(u) && Runnable(s.topic, u) {
      EndingResumes(s.topic, u, s.closed);
    } else if a != DoResume(u) {
      OthersLeaveAlone(s, a, u);
      SameSubHanded(s.topic, Step(s, a).topic, u);
    }
  }

  lemma {:induction false} EndingStays(s: State, a: Action, u: nat)
    requires Good(s) && Ending(s, u)
    ensures Ending(Step(s, a), u)
  {
    match a
    case DoResume(v) => if Runnable(s.topic, v) { assert SubOk(s.topic, v); }
    case _ =>
  }

  // ----- Any run -----

  /** Once it is told to end, whatever follows, a subscription is handed nothing but the entries it holds, in
      order, and claims nothing more. */
  lemma {:induction false} EndingServesNoMore(s: State, actions: seq<Action>, u: nat)
    requires Good(s) && Ending(s, u)
    ensures Ending(Onward(s, actions), u) && OnlyHanded(s.topic, Onward(s, actions).topic, u)
  {
    if actions != [] {
      var init := actions[..|actions| - 1];
      EndingServesNoMore(s, init, u);
      var before := Onward(s, init);
      EndingStep(before, actions[|actions| - 1], u);
      HandedTransitive(s.topic, before.topic, Onward(s, actions).topic, u);
    }
  }

  /** Unsubscribing: what the handler sees from then on are positions it was holding at that moment. */
  lemma {:induction false} UnsubscribedServesNoMore(s: State, u: nat, actions: seq<Action>)
    requires Good(s) && u in s.topic.subs
    ensures var (t, t1) := (s.topic, Onward(s, [DoUnsubscribe(u)] + actions).topic);
            && u in t1.subs && t.subs[u].seen <= t1.subs[u].seen <= t.subs[u].seen + HeldPositions(t, u)
            && forall i: nat {:trigger ClaimedBy(t1, u, i)} :: ClaimedBy(t1, u, i) <==> ClaimedBy(t, u, i)
  {
    StepKeeps(s, DoUnsubscribe(u));
    var ended := Step(s, DoUnsubscribe(u));
    OnwardAfter(s, DoUnsubscribe(u), actions);
    EndingServesNoMore(ended, actions, u);
    assert SameSub(s.topic, ended.topic, u);
    SameSubHanded(s.topic, ended.topic, u);
    HandedTransitive(s.topic, ended.topic, Onward(ended, actions).topic, u);
  }

  /** Closing does the same to every subscription, and starts no new one. */
  lemma {:induction false} ClosedServesNoMore(s: State, actions: seq<Action>, u: nat)
    requires Good(s)
    ensures var (t, t1) := (s.topic, Onward(s, [DoClose] + actions).topic);
            && t1.subs.Keys == t.subs.Keys && t1.entries == t.entries
            && (u in t.subs ==>
                  && t.subs[u].seen <= t1.subs[u].seen <= t.subs[u].seen + HeldPositions(t, u)
                  && forall i: nat {:trigger ClaimedBy(t1, u, i)} :: ClaimedBy(t1, u, i) <==> ClaimedBy(t, u, i))
  {
    StepKeeps(s, DoClose);
    var closed := Step(s, DoClose);
    OnwardAfter(s, DoClose, actions);
    CloseWakes(s);
    ClosedStays(closed, actions);
    if u in s.topic.subs {
      EndingServesNoMore(closed, actions, u);
      assert SameSub(s.topic, closed.topic, u);
      SameSubHanded(s.topic, closed.topic, u);
      HandedTransitive(s.topic, closed.topic, Onward(closed, actions).topic, u);
    }
  }

  lemma {:induction false} OnwardAfter(s: State, a: Action, actions: seq<Action>)
    requires Good(s) && Good(Step(s, a))
    ensures Onward(s, [a] + actions) == Onward(Step(s, a), actions)
  {
    var all := [a] + actions;
    if actions == [] {
      assert all[..0] == [];
      assert Onward(s, []) == s;
    } else {
      assert all[..|all| - 1] == [a] + actions[..|actions| - 1];
      OnwardAfter(s, a, actions[..|actions| - 1]);
    }
  }

  /** Every sleeper can go on. */
  ghost predicate AllAwake(t: Topic) {
    forall u <- t.subs :: t.subs[u].phase.Parked? ==> Runnable(t, u)
  }

  /** A closed bus stays closed, gets no entry and no subscription, and lets nobody sleep. */
  lemma {:induction false} ClosedStays(s: State, actions: seq<Action>)
    requires Good(s) && s.closed && AllAwake(s.topic)
    ensures var r := Onward(s, actions);
            && r.closed && AllAwake(r.topic)
            && r.topic.subs.Keys == s.topic.subs.Keys && r.topic.entries == s.topic.entries
  {
    if actions != [] {
      var init, last := actions[..|actions| - 1], actions[|actions| - 1];
      ClosedStays(s, init);
      ClosedStep(Onward(s, init), last);
    }
  }

  lemma {:induction false} ClosedStep(s: State, a: Action)
    requires Good(s) && s.closed && AllAwake(s.topic)
    ensures var r := Step(s, a);
            && r.closed && AllAwake(r.topic)
            && r.topic.subs.Keys == s.topic.subs.Keys && r.topic.entries == s.topic.entries
  {
    match a
    case DoResume(u) => if Runnable(s.topic, u) { assert SubOk(s.topic, u); }
    case _ =>
  }

  /** Closing wakes every sleeper. */
  lemma {:induction false} CloseWakes(s: State)
    requires Good(s)
    ensures AllAwake(Step(s, DoClose).topic)
  {
    forall u | u in s.topic.subs && s.topic.subs[u].phase.Parked? ensures Runnable(Step(s, DoClose).topic, u) {
      assert SubOk(s.topic, u);
    }
  }

  /** A subscription that is told to end, and is not asleep, has stopped after as many resumes as entries it
      holds and one more. */
  lemma {:induction false} EndingStops(s: State, actions: seq<Action>, u: nat)
    requires Good(s) && Ending(s, u) && (s.topic.subs[u].phase.Parked? ==> Runnable(s.topic, u))
    ensures var t := Onward(s, actions).topic;
            && u in t.subs && (t.subs[u].phase.Parked? ==> Runnable(t, u))
            && (t.subs[u].phase.Stopped? || Held(t, u) + Resumes(actions, u) <= Held(s.topic, u))
  {
    if actions != [] {
      var init, last := actions[..|actions| - 1], actions[|actions| - 1];
      EndingStops(s, init, u);
      EndingServesNoMore(s, init, u);
      StopStep(Onward(s, init), last, u);
    }
  }

  lemma {:induction false} StopStep(s: State, a: Action, u: nat)
    requires Good(s) && Ending(s, u) && (s.topic.subs[u].phase.Parked? ==> Runnable(s.topic, u))
    ensures var t := Step(s, a).topic;
            && u in t.subs && (t.subs[u].phase.Parked? ==> Runnable(t, u))
            && (s.topic.subs[u].phase.Stopped? ==> t.subs[u].phase.Stopped?)
            && (t.subs[u].phase.Stopped? || Held(t, u) + (if a == DoResume(u) then 1 else 0) <= Held(s.topic, u))
  {
    assert SubOk(s.topic, u);
    if a == DoResume(u) && Runnable(s.topic, u) {
      EndingResumes(s.topic, u, s.closed);
    } else if a != DoResume(u) {
      OthersLeaveAlone(s, a, u);
    }
  }
}
