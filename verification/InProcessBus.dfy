/** The bus object: a table of subjects, updated in place. Every method performs one step of the
    machine on its subject and leaves the other subjects alone. */
module InProcessBus {
  import opened Prelude
  import opened Bus
  import opened BusInvariant

  ghost predicate AllGood(subjects: map<string, Topic>, nextId: nat, closed: bool) {
    forall name {:trigger Good(State(subjects[name], nextId, closed))} | name in subjects ::
      Good(State(subjects[name], nextId, closed))
  }

  lemma GoodUpdate(subjects: map<string, Topic>, nextId: nat, closed: bool, name: string, t: Topic)
    requires AllGood(subjects, nextId, closed) && Good(State(t, nextId, closed))
    ensures AllGood(subjects[name := t], nextId, closed)
  {
    var after := subjects[name := t];
    forall x | x in after ensures Good(State(after[x], nextId, closed)) {
      assert x != name ==> Good(State(subjects[x], nextId, closed));
    }
  }

  lemma GoodAdvance(subjects: map<string, Topic>, nextId: nat, closed: bool)
    requires AllGood(subjects, nextId, closed)
    ensures AllGood(subjects, nextId + 1, closed)
  {
    forall x | x in subjects ensures Good(State(subjects[x], nextId + 1, closed)) {
      StepKeeps(State(subjects[x], nextId, closed), PublishElsewhere);
    }
  }

  lemma GoodClosed(before: map<string, Topic>, after: map<string, Topic>, nextId: nat, closed: bool)
    requires AllGood(before, nextId, closed) && after.Keys == before.Keys
    requires forall x <- after :: after[x] == Close(before[x])
    ensures AllGood(after, nextId, true)
  {
    forall x | x in after ensures Good(State(after[x], nextId, true)) {
      StepKeeps(State(before[x], nextId, closed), DoClose);
    }
  }

  lemma EmptyGood(nextId: nat, closed: bool)
    ensures Good(State(EMPTY, nextId, closed))
  {
    InvEmpty();
  }

  class InProcessBus {
    var subjects: map<string, Topic>
    var nextId: nat
    var closed: bool

    ghost predicate Valid()
      reads this
    {
      AllGood(subjects, nextId, closed)
    }

    /** A subject as the machine sees it; one that was never used is empty. */
    ghost function StateOf(name: string): State
      reads this
    {
      State(if name in subjects then subjects[name] else EMPTY, nextId, closed)
    }

    constructor ()
      ensures Valid() && subjects == map[] && nextId == 0 && !closed
    {
      subjects, nextId, closed := map[], 0, false;
    }

    /** The buffer of a subject, created on first use. */
    method Buffer(name: string) returns (t: Topic)
      requires Valid()
      modifies this`subjects
      ensures Valid() && subjects == old(subjects)[name := t] && t == old(StateOf(name)).topic
      ensures Good(State(t, nextId, closed))
    {
      if name !in subjects {
        EmptyGood(nextId, closed);
        GoodUpdate(subjects, nextId, closed, name, EMPTY);
        subjects := subjects[name := EMPTY];
      }
      t := subjects[name];
    }

    /** Fires every waiter in the set, one after the other. */
    static method FireAll(t: Topic) returns (r: Topic)
      ensures r == t.(fired := t.fired + t.waiters, waiters := {})
    {
      var todo, fired := t.waiters, t.fired;
      while todo != {}
        invariant fired + todo == t.fired + t.waiters
        decreases todo
      {
        var w :| w in todo;
        fired := fired + {w};
        todo := todo - {w};
      }
      r := t.(fired := fired, waiters := {});
    }

    /** Refused on a closed bus; otherwise the entry gets a fresh id, is appended, and wakes sleepers. */
    method Publish(name: string, message: string, ms: nat) returns (published: Option<Entry>)
      requires Valid()
      modifies this
      ensures Valid() && closed == old(closed)
      ensures old(closed) ==> published == None && subjects == old(subjects) && nextId == old(nextId)
      ensures !old(closed) ==>
                && published == Some(Entry(EntryId(ms, old(nextId)), message))
                && StateOf(name) == Step(old(StateOf(name)), DoPublish(ms, message))
                && subjects == old(subjects)[name := StateOf(name).topic]
    {
      if closed {
        return None;
      }
      var t := Buffer(name);
      ghost var before := State(t, nextId, closed);
      var entry := Entry(EntryId(ms, nextId), message);
      GoodAdvance(subjects, nextId, closed);
      StepKeeps(before, DoPublish(ms, message));
      nextId := nextId + 1;
      t := t.(entries := t.entries + [entry]);
      t := FireAll(t);
      assert t == Bus.Publish(before.topic, entry);
      GoodUpdate(subjects, nextId, closed, name, t);
      subjects := subjects[name := t];
      published := Some(entry);
    }

    /** Starts a subscription; refused on a closed bus. */
    method Subscribe(name: string, group: string, consumer: string, count: nat) returns (u: Option<nat>)
      requires Valid()
      modifies this`subjects
      ensures Valid()
      ensures closed ==> u == None && subjects == old(subjects)
      ensures !closed ==>
                && u == Some(FreshSub(old(StateOf(name)).topic.subs, 0))
                && StateOf(name) == Step(old(StateOf(name)), DoSubscribe(group, consumer, count))
                && subjects == old(subjects)[name := StateOf(name).topic]
    {
      if closed {
        return None;
      }
      var t := Buffer(name);
      var id := FreshSub(t.subs, 0);
      t := StartLoop(t, id, group, consumer, count);
      GoodUpdate(subjects, nextId, closed, name, t);
      subjects := subjects[name := t];
      u := Some(id);
    }

    /** Sets the group's offset on first use and enters the loop. */
    method StartLoop(t: Topic, u: nat, group: string, consumer: string, count: nat) returns (r: Topic)
      requires Good(State(t, nextId, closed)) && !closed && u == FreshSub(t.subs, 0)
      ensures State(r, nextId, closed) == Step(State(t, nextId, closed), DoSubscribe(group, consumer, count))
      ensures Good(State(r, nextId, closed))
    {
      StepKeeps(State(t, nextId, closed), DoSubscribe(group, consumer, count));
      assert GroupOk(t, group);
      r := t;
      if group !in r.offsets {
        r := r.(offsets := r.offsets[group := 0], claims := r.claims[group := []]);
      }
      r := r.(subs := r.subs[u := Sub(group, consumer, count, false, Stopped, [])]);
      assert r == Join(t, u, group, consumer, count);
      r := Poll(r, u);
    }

    /** The head of the loop: leave when told to, else take what is there, else go to sleep. */
    method Poll(t: Topic, u: nat) returns (r: Topic)
      requires u in t.subs && t.subs[u].group in t.offsets && t.subs[u].group in t.claims
      requires t.offsets[t.subs[u].group] <= |t.entries|
      ensures r == LoopTop(t, u, closed)
    {
      var s := t.subs[u];
      if s.cancelled || closed {
        return SetPhase(t, u, Stopped);
      }
      var offset := t.offsets[s.group];
      var end := if offset + s.count < |t.entries| then offset + s.count else |t.entries|;
      var batch := t.entries[offset..end];
      r := t;
      if |batch| > 0 {
        r := r.(offsets := r.offsets[s.group := offset + |batch|],
                claims := r.claims[s.group := r.claims[s.group] + Claimed(|batch|, u)]);
        r := Dispatch(r, u, offset, batch, 0);
      } else {
        r := Park(r, u);
      }
    }

    /** A subscription goes on from its await, if it can. */
    method Resume(name: string, u: nat)
      requires Valid()
      modifies this`subjects
      ensures Valid() && StateOf(name) == Step(old(StateOf(name)), DoResume(u))
      ensures subjects == old(subjects) || subjects == old(subjects)[name := StateOf(name).topic]
    {
      if name !in subjects || !Runnable(subjects[name], u) {
        EmptyGood(nextId, closed);
        assert !Runnable(EMPTY, u);
        return;
      }
      var t := subjects[name];
      StepKeeps(State(t, nextId, closed), DoResume(u));
      assert SubOk(t, u);
      var phase := t.subs[u].phase;
      if phase.Handling? && phase.next < |phase.batch| {
        t := Dispatch(t, u, phase.lo, phase.batch, phase.next);
      } else {
        t := Poll(t, u);
      }
      GoodUpdate(subjects, nextId, closed, name, t);
      subjects := subjects[name := t];
    }

    /** Acknowledges an entry; unknown subjects and entries are ignored. */
    method Acknowledge(name: string, group: string, id: EntryId)
      requires Valid()
      modifies this`subjects
      ensures Valid() && StateOf(name) == Step(old(StateOf(name)), DoAck(group, id))
      ensures subjects == old(subjects) || subjects == old(subjects)[name := StateOf(name).topic]
    {
      if name !in subjects || id !in subjects[name].pending {
        EmptyGood(nextId, closed);
        return;
      }
      var t := subjects[name];
      ghost var before := t;
      StepKeeps(State(t, nextId, closed), DoAck(group, id));
      if group in t.pending[id] {
        t := t.(acked := t.acked + {(id, group)});
      }
      var rest := t.pending[id] - {group};
      t := t.(pending := if |rest| == 0 then t.pending - {id} else t.pending[id := rest]);
      assert t == Ack(before, group, id);
      GoodUpdate(subjects, nextId, closed, name, t);
      subjects := subjects[name := t];
    }

    /** Tells a subscription to end; its loop notices when it comes round. */
    method Unsubscribe(name: string, u: nat)
      requires Valid()
      modifies this`subjects
      ensures Valid() && StateOf(name) == Step(old(StateOf(name)), DoUnsubscribe(u))
      ensures subjects == old(subjects) || subjects == old(subjects)[name := StateOf(name).topic]
    {
      if name !in subjects || u !in subjects[name].subs {
        EmptyGood(nextId, closed);
        return;
      }
      var t := subjects[name];
      StepKeeps(State(t, nextId, closed), DoUnsubscribe(u));
      t := t.(subs := t.subs[u := t.subs[u].(cancelled := true)]);
      GoodUpdate(subjects, nextId, closed, name, t);
      subjects := subjects[name := t];
    }

    /** The timer of a sleeping subscription runs out. */
    method FireTimer(name: string, w: nat)
      requires Valid()
      modifies this`subjects
      ensures Valid() && StateOf(name) == Step(old(StateOf(name)), DoTimeout(w))
      ensures subjects == old(subjects) || subjects == old(subjects)[name := StateOf(name).topic]
    {
      if name !in subjects || w !in subjects[name].waiters {
        EmptyGood(nextId, closed);
        return;
      }
      var t := subjects[name];
      StepKeeps(State(t, nextId, closed), DoTimeout(w));
      t := t.(fired := t.fired + {w});
      GoodUpdate(subjects, nextId, closed, name, t);
      subjects := subjects[name := t];
    }

    /** Closes the bus and wakes all sleepers of all subjects. */
    method CloseBus()
      requires Valid()
      modifies this
      ensures Valid() && closed && nextId == old(nextId) && subjects.Keys == old(subjects).Keys
      ensures forall name <- subjects :: subjects[name] == Close(old(subjects)[name])
    {
      closed := true;
      var todo := subjects.Keys;
      while todo != {}
        invariant closed && nextId == old(nextId) && subjects.Keys == old(subjects).Keys && todo <= subjects.Keys
        invariant forall name <- todo :: subjects[name] == old(subjects)[name]
        invariant forall name <- subjects :: name !in todo ==> subjects[name] == Close(old(subjects)[name])
        decreases todo
      {
        var name :| name in todo;
        var t := FireAll(subjects[name]);
        subjects := subjects[name := t];
        todo := todo - {name};
      }
      GoodClosed(old(subjects), subjects, nextId, old(closed));
    }
  }
}
