/** Every step of the bus machine keeps its invariant. */
module BusInvariant {
  import opened Prelude
  import opened Bus

  lemma InvEmpty()
    ensures Inv(EMPTY)
  {
  }

  // ----- Preservation -----

  lemma PublishKeeps(t: Topic, e: Entry)
    requires Inv(t) && forall i | 0 <= i < |t.entries| :: t.entries[i].id != e.id
    ensures Inv(Publish(t, e))
  {
    var t1 := Publish(t, e);
    forall g {:trigger GroupOk(t1, g)} ensures GroupOk(t1, g) {
      assert GroupOk(t, g);
    }
    forall g, i: nat {:trigger ClaimOk(t1, g, i)} ensures ClaimOk(t1, g, i) {
      assert ClaimOk(t, g, i);
    }
    forall u: nat {:trigger SubOk(t1, u)} ensures SubOk(t1, u) {
      assert SubOk(t, u);
      if u in t.subs {
        assert GroupOk(t1, t.subs[u].group);
        forall i: nat {:trigger ClaimedBy(t1, u, i)} ensures ClaimedBy(t1, u, i) == ClaimedBy(t, u, i) {
        }
      }
    }
    forall u: nat, i: nat {:trigger SeenOk(t1, u, i)} ensures SeenOk(t1, u, i) {
      assert SeenOk(t, u, i);
      if u in t.subs {
        assert SubOk(t, u);
      }
    }
    forall g, i: nat {:trigger PendingOk(t1, g, i)} ensures PendingOk(t1, g, i) {
      assert PendingOk(t, g, i);
      assert Dispatched(t1, g, i) == Dispatched(t, g, i);
      if i == |t.entries| {
        assert MarkOk(t, e.id);
        assert AckOk(t, e.id, g);
        NothingBeyond(t, g, i);
      }
    }
    forall id, g {:trigger AckOk(t1, id, g)} ensures AckOk(t1, id, g) {
      assert AckOk(t, id, g);
      if (id, g) in t.acked {
        var i :| 0 <= i < |t.entries| && t.entries[i].id == id && Dispatched(t, g, i);
        assert t1.entries[i].id == id && Dispatched(t1, g, i);
      }
    }
    forall id {:trigger MarkOk(t1, id)} ensures MarkOk(t1, id) {
      assert MarkOk(t, id);
      if id in t.pending {
        var i :| 0 <= i < |t.entries| && t.entries[i].id == id;
        assert t1.entries[i].id == id;
      }
    }
  }

  /** Nothing beyond the log has been dispatched. */
  lemma NothingBeyond(t: Topic, g: string, i: nat)
    requires Inv(t) && i >= |t.entries|
    ensures !Dispatched(t, g, i)
  {
    forall u: nat | u in t.subs ensures i !in t.subs[u].seen {
      assert SeenOk(t, u, i) && SubOk(t, u);
    }
  }

  /** A subscription whose handler has finished its batch may end, or be about to sleep. */
  ghost predicate Idle(t: Topic, u: nat) {
    u in t.subs && (t.subs[u].phase.Handling? ==> t.subs[u].phase.next == |t.subs[u].phase.batch|)
  }

  /** Log, claims and dispatches are the same; at most an idle subscription has moved on. */
  ghost predicate Quiet(t: Topic, t1: Topic) {
    && t1.entries == t.entries && t1.claims == t.claims && t1.offsets == t.offsets
    && t1.acked == t.acked && t1.pending == t.pending && t1.subs.Keys == t.subs.Keys
    && forall u <- t.subs ::
         && t1.subs[u].group == t.subs[u].group && t1.subs[u].seen == t.subs[u].seen
         && t1.subs[u].count == t.subs[u].count
         && (t1.subs[u].phase == t.subs[u].phase || (Idle(t, u) && !t1.subs[u].phase.Handling?))
  }

  /** A quiet step keeps the invariant if no sleeper can miss anything after it. */
  lemma QuietKeeps(t: Topic, t1: Topic)
    requires Inv(t) && Quiet(t, t1) && (forall w <- t1.waiters :: w < t1.nextWaiter)
    requires forall u <- t.subs :: ParkOk(t1, u)
    ensures Inv(t1)
  {
    forall g {:trigger GroupOk(t1, g)} ensures GroupOk(t1, g) {
      assert GroupOk(t, g);
    }
    forall g, i: nat {:trigger ClaimOk(t1, g, i)} ensures ClaimOk(t1, g, i) {
      assert ClaimOk(t, g, i);
    }
    forall u: nat {:trigger SubOk(t1, u)} ensures SubOk(t1, u) {
      assert SubOk(t, u);
      if u in t.subs {
        forall i: nat {:trigger ClaimedBy(t1, u, i)} ensures ClaimedBy(t1, u, i) == ClaimedBy(t, u, i) {
        }
      }
    }
    forall u: nat, i: nat {:trigger SeenOk(t1, u, i)} ensures SeenOk(t1, u, i) {
      assert SeenOk(t, u, i) && SubOk(t, u);
      if u in t.subs {
        assert ClaimedBy(t1, u, i) == ClaimedBy(t, u, i);
      }
    }
    forall g, i: nat ensures Dispatched(t1, g, i) == Dispatched(t, g, i) {
    }
    forall g, i: nat {:trigger PendingOk(t1, g, i)} ensures PendingOk(t1, g, i) {
      assert PendingOk(t, g, i);
    }
    forall id {:trigger MarkOk(t1, id)} ensures MarkOk(t1, id) {
      assert MarkOk(t, id);
    }
    forall id, g {:trigger AckOk(t1, id, g)} ensures AckOk(t1, id, g) {
      assert AckOk(t, id, g);
    }
  }

  lemma StopKeeps(t: Topic, u: nat)
    requires Inv(t) && Idle(t, u)
    ensures Inv(SetPhase(t, u, Stopped))
  {
    forall v | v in t.subs ensures ParkOk(SetPhase(t, u, Stopped), v) {
      assert SubOk(t, v);
    }
    QuietKeeps(t, SetPhase(t, u, Stopped));
  }

  lemma ParkKeeps(t: Topic, u: nat)
    requires Inv(t) && u in t.subs && t.subs[u].phase.Stopped?
    requires t.subs[u].group in t.offsets
    requires t.subs[u].count >= 1 ==> t.offsets[t.subs[u].group] == |t.entries|
    ensures Inv(Park(t, u))
  {
    forall v | v in t.subs ensures ParkOk(Park(t, u), v) {
      assert SubOk(t, v);
    }
    QuietKeeps(t, Park(t, u));
  }

  /** Steps that fire waiters. */
  lemma WakeKeeps(t: Topic, fired: set<nat>, waiters: set<nat>)
    requires Inv(t) && t.fired <= fired && waiters <= t.waiters <= waiters + fired
    ensures Inv(t.(fired := fired, waiters := waiters))
  {
    forall v | v in t.subs ensures ParkOk(t.(fired := fired, waiters := waiters), v) {
      assert SubOk(t, v);
    }
    QuietKeeps(t, t.(fired := fired, waiters := waiters));
  }

  lemma CancelKeeps(t: Topic, u: nat)
    requires Inv(t)
    ensures Inv(Cancel(t, u))
  {
    forall v | v in t.subs ensures ParkOk(Cancel(t, u), v) {
      assert SubOk(t, v);
    }
    QuietKeeps(t, Cancel(t, u));
  }

  lemma JoinKeeps(t: Topic, u: nat, group: string, consumer: string, count: nat)
    requires Inv(t) && u !in t.subs
    ensures Inv(Join(t, u, group, consumer, count))
  {
    var t1 := Join(t, u, group, consumer, count);
    assert GroupOk(t, group);
    forall g {:trigger GroupOk(t1, g)} ensures GroupOk(t1, g) {
      assert GroupOk(t, g);
    }
    forall g, i: nat {:trigger ClaimOk(t1, g, i)} ensures ClaimOk(t1, g, i) {
      assert ClaimOk(t, g, i);
    }
    forall v: nat {:trigger SubOk(t1, v)} ensures SubOk(t1, v) {
      assert SubOk(t, v);
      if v in t.subs {
        forall i: nat {:trigger ClaimedBy(t1, v, i)} ensures ClaimedBy(t1, v, i) == ClaimedBy(t, v, i) {
        }
      }
    }
    forall v: nat, i: nat {:trigger SeenOk(t1, v, i)} ensures SeenOk(t1, v, i) {
      assert SeenOk(t, v, i) && SubOk(t, v);
      if v in t.subs {
        assert ClaimedBy(t1, v, i) == ClaimedBy(t, v, i);
      } else if v == u {
        assert ClaimOk(t, group, i);
      }
    }
    SameDispatches(t, t1);
  }

  /** Dispatches that stay the same keep pending marks and acknowledgements in order. */
  lemma SameDispatches(t: Topic, t1: Topic)
    requires Inv(t) && t1.entries == t.entries && t1.pending == t.pending && t1.acked == t.acked
    requires t.subs.Keys <= t1.subs.Keys
    requires forall u <- t.subs :: t1.subs[u].group == t.subs[u].group && t1.subs[u].seen == t.subs[u].seen
    requires forall u <- t1.subs :: u !in t.subs ==> t1.subs[u].seen == []
    ensures forall g, i: nat {:trigger PendingOk(t1, g, i)} :: PendingOk(t1, g, i)
    ensures forall id {:trigger MarkOk(t1, id)} :: MarkOk(t1, id)
    ensures forall id, g {:trigger AckOk(t1, id, g)} :: AckOk(t1, id, g)
  {
    forall g, i: nat ensures Dispatched(t1, g, i) == Dispatched(t, g, i) {
      if Dispatched(t, g, i) {
        var u :| u in t.subs && t.subs[u].group == g && i in t.subs[u].seen;
        assert u in t1.subs;
      }
    }
    forall g, i: nat {:trigger PendingOk(t1, g, i)} ensures PendingOk(t1, g, i) {
      assert PendingOk(t, g, i);
    }
    forall id {:trigger MarkOk(t1, id)} ensures MarkOk(t1, id) {
      assert MarkOk(t, id);
    }
    forall id, g {:trigger AckOk(t1, id, g)} ensures AckOk(t1, id, g) {
      assert AckOk(t, id, g);
    }
  }

  /** A stopped subscription claims a batch, none of it dispatched yet. */
  function ClaimBatch(t: Topic, u: nat, batch: seq<Entry>): Topic
    requires u in t.subs && t.subs[u].group in t.offsets && t.subs[u].group in t.claims
  {
    SetPhase(Claim(t, u, |batch|), u, Handling(t.offsets[t.subs[u].group], batch, 0))
  }

  lemma ClaimKeeps(t: Topic, u: nat)
    requires Inv(t) && u in t.subs && t.subs[u].phase.Stopped?
    requires t.subs[u].group in t.offsets && t.subs[u].group in t.claims
    requires t.offsets[t.subs[u].group] < |t.entries| && t.subs[u].count >= 1
    ensures Inv(ClaimBatch(t, u, NextBatch(t, t.subs[u])))
  {
    var g0 := t.subs[u].group;
    var lo, batch := t.offsets[g0], NextBatch(t, t.subs[u]);
    var t1 := ClaimBatch(t, u, batch);
    assert GroupOk(t, g0) && SubOk(t, u);
    forall g {:trigger GroupOk(t1, g)} ensures GroupOk(t1, g) {
      assert GroupOk(t, g);
    }
    forall g, i: nat {:trigger ClaimOk(t1, g, i)} ensures ClaimOk(t1, g, i) {
      assert ClaimOk(t, g, i);
    }
    forall v: nat {:trigger SubOk(t1, v)} ensures SubOk(t1, v) {
      assert SubOk(t, v);
      if v in t.subs {
        assert GroupOk(t1, t.subs[v].group);
        forall i: nat {:trigger ClaimedBy(t1, v, i)}
          ensures ClaimedBy(t1, v, i) == (ClaimedBy(t, v, i) || (v == u && lo <= i < lo + |batch|))
        {
        }
      }
    }
    forall v: nat, i: nat {:trigger SeenOk(t1, v, i)} ensures SeenOk(t1, v, i) {
      assert SeenOk(t, v, i);
      if v in t.subs {
        assert ClaimedBy(t1, v, i) == (ClaimedBy(t, v, i) || (v == u && lo <= i < lo + |batch|));
      }
    }
    SameDispatches(t, t1);
  }

  /** Position `i` of the group is dispatched by `u` or not at all, if `u` claimed it. */
  lemma OnlyClaimant(t: Topic, u: nat, i: nat)
    requires Inv(t) && u in t.subs && ClaimedBy(t, u, i) && i >= Frontier(t, u)
    ensures !Dispatched(t, t.subs[u].group, i)
  {
    forall v: nat | v in t.subs && t.subs[v].group == t.subs[u].group ensures i !in t.subs[v].seen {
      assert SeenOk(t, v, i);
    }
  }

  lemma DispatchKeeps(t: Topic, u: nat)
    requires Inv(t) && u in t.subs && t.subs[u].phase.Handling?
    requires t.subs[u].phase.next < |t.subs[u].phase.batch|
    ensures var Handling(lo, batch, next) := t.subs[u].phase;
            Inv(Dispatch(t, u, lo, batch, next))
  {
    var Handling(lo, batch, next) := t.subs[u].phase;
    var t1 := Dispatch(t, u, lo, batch, next);
    var g0, at := t.subs[u].group, lo + next;
    assert SubOk(t, u);
    assert ClaimedBy(t, u, at);
    OnlyClaimant(t, u, at);
    forall g {:trigger GroupOk(t1, g)} ensures GroupOk(t1, g) {
      assert GroupOk(t, g);
    }
    forall g, i: nat {:trigger ClaimOk(t1, g, i)} ensures ClaimOk(t1, g, i) {
      assert ClaimOk(t, g, i);
    }
    forall v: nat {:trigger SubOk(t1, v)} ensures SubOk(t1, v) {
      assert SubOk(t, v);
      if v in t.subs {
        forall i: nat {:trigger ClaimedBy(t1, v, i)} ensures ClaimedBy(t1, v, i) == ClaimedBy(t, v, i) {
        }
        if v == u {
          SeenGrows(t, u, at);
        }
      }
    }
    forall v: nat, i: nat {:trigger SeenOk(t1, v, i)} ensures SeenOk(t1, v, i) {
      assert SeenOk(t, v, i);
      if v in t.subs {
        assert ClaimedBy(t1, v, i) == ClaimedBy(t, v, i);
      }
    }
    forall g, i: nat ensures Dispatched(t1, g, i) == (Dispatched(t, g, i) || (g == g0 && i == at)) {
      DispatchAdds(t, u, g, i);
    }
    forall g, i: nat {:trigger PendingOk(t1, g, i)} ensures PendingOk(t1, g, i) {
      PendingAfterDispatch(t, u, g, i);
    }
    forall id {:trigger MarkOk(t1, id)} ensures MarkOk(t1, id) {
      MarkAfterDispatch(t, u, id);
    }
    forall id, g {:trigger AckOk(t1, id, g)} ensures AckOk(t1, id, g) {
      assert AckOk(t, id, g);
    }
  }

  lemma {:induction false} PendingAfterDispatch(t: Topic, u: nat, g: string, i: nat)
    requires Inv(t) && u in t.subs && t.subs[u].phase.Handling?
    requires t.subs[u].phase.next < |t.subs[u].phase.batch|
    requires var Handling(lo, batch, next) := t.subs[u].phase; !Dispatched(t, t.subs[u].group, lo + next)
    ensures var Handling(lo, batch, next) := t.subs[u].phase;
            PendingOk(Dispatch(t, u, lo, batch, next), g, i)
  {
    var Handling(lo, batch, next) := t.subs[u].phase;
    assert SubOk(t, u);
    assert PendingOk(t, g, i);
    DispatchAdds(t, u, g, i);
    if i < |t.entries| && t.entries[i].id == batch[next].id {
      assert i == lo + next;
      assert AckOk(t, batch[next].id, t.subs[u].group);
    }
  }

  lemma MarkAfterDispatch(t: Topic, u: nat, id: EntryId)
    requires Inv(t) && u in t.subs && t.subs[u].phase.Handling?
    requires t.subs[u].phase.next < |t.subs[u].phase.batch|
    ensures var Handling(lo, batch, next) := t.subs[u].phase;
            MarkOk(Dispatch(t, u, lo, batch, next), id)
  {
    var Handling(lo, batch, next) := t.subs[u].phase;
    var t1 := Dispatch(t, u, lo, batch, next);
    assert SubOk(t, u);
    assert MarkOk(t, id);
    assert t1.entries[lo + next].id == batch[next].id;
    if id == batch[next].id {
      assert t.subs[u].group in t1.pending[id];
    } else if id in t.pending {
      var i :| 0 <= i < |t.entries| && t.entries[i].id == id;
      assert t1.entries[i].id == id;
    }
  }

  /** Everything a handler has seen lies before its frontier. */
  lemma SeenGrows(t: Topic, u: nat, at: nat)
    requires Inv(t) && u in t.subs && at == Frontier(t, u)
    ensures Ascending(t.subs[u].seen + [at])
  {
    assert SubOk(t, u);
    forall k | 0 <= k < |t.subs[u].seen| ensures t.subs[u].seen[k] < at {
      assert SeenOk(t, u, t.subs[u].seen[k]);
    }
  }

  lemma DispatchAdds(t: Topic, u: nat, g: string, i: nat)
    requires u in t.subs && t.subs[u].phase.Handling? && t.subs[u].phase.next < |t.subs[u].phase.batch|
    ensures var Handling(lo, batch, next) := t.subs[u].phase;
            Dispatched(Dispatch(t, u, lo, batch, next), g, i)
            == (Dispatched(t, g, i) || (g == t.subs[u].group && i == lo + next))
  {
    var Handling(lo, batch, next) := t.subs[u].phase;
    var t1 := Dispatch(t, u, lo, batch, next);
    if Dispatched(t, g, i) {
      var v :| v in t.subs && t.subs[v].group == g && i in t.subs[v].seen;
      assert v in t1.subs && i in t1.subs[v].seen;
    }
    assert lo + next in t1.subs[u].seen;
  }

  /** Frames, claims and subscriptions do not depend on pending marks. */
  lemma MarksOnly(t: Topic, t1: Topic)
    requires Inv(t) && t1 == t.(pending := t1.pending, acked := t1.acked)
    requires forall g, i: nat {:trigger PendingOk(t1, g, i)} :: PendingOk(t1, g, i)
    requires forall id {:trigger MarkOk(t1, id)} :: MarkOk(t1, id)
    requires forall id, g {:trigger AckOk(t1, id, g)} :: AckOk(t1, id, g)
    ensures Inv(t1)
  {
    forall g {:trigger GroupOk(t1, g)} ensures GroupOk(t1, g) {
      assert GroupOk(t, g);
    }
    forall g, i: nat {:trigger ClaimOk(t1, g, i)} ensures ClaimOk(t1, g, i) {
      assert ClaimOk(t, g, i);
    }
    forall v: nat {:trigger SubOk(t1, v)} ensures SubOk(t1, v) {
      assert SubOk(t, v);
      if v in t.subs {
        forall i: nat {:trigger ClaimedBy(t1, v, i)} ensures ClaimedBy(t1, v, i) == ClaimedBy(t, v, i) {
        }
      }
    }
    forall v: nat, i: nat {:trigger SeenOk(t1, v, i)} ensures SeenOk(t1, v, i) {
      assert SeenOk(t, v, i);
      if v in t.subs {
        assert ClaimedBy(t1, v, i) == ClaimedBy(t, v, i);
      }
    }
  }

  lemma AckKeeps(t: Topic, group: string, id: EntryId)
    requires Inv(t)
    ensures Inv(Ack(t, group, id))
  {
    var t1 := Ack(t, group, id);
    assert MarkOk(t, id);
    if id in t.pending {
      var at :| 0 <= at < |t.entries| && t.entries[at].id == id;
      forall g, i: nat ensures Dispatched(t1, g, i) == Dispatched(t, g, i) {
      }
      forall g, i: nat {:trigger PendingOk(t1, g, i)} ensures PendingOk(t1, g, i) {
        assert PendingOk(t, g, i);
      }
      forall x {:trigger MarkOk(t1, x)} ensures MarkOk(t1, x) {
        assert MarkOk(t, x);
      }
      forall x, g {:trigger AckOk(t1, x, g)} ensures AckOk(t1, x, g) {
        assert AckOk(t, x, g) && PendingOk(t, group, at);
        if (x, g) in t.acked {
          var i :| 0 <= i < |t.entries| && t.entries[i].id == x && Dispatched(t, g, i);
          assert t1.entries[i].id == x && Dispatched(t1, g, i);
        } else if (x, g) in t1.acked {
          assert Dispatched(t, g, at);
          assert t1.entries[at].id == x && Dispatched(t1, g, at);
        }
      }
      MarksOnly(t, t1);
    }
  }

  lemma LoopTopKeeps(t: Topic, u: nat, closed: bool)
    requires Inv(t) && Idle(t, u)
    requires t.subs[u].group in t.offsets && t.subs[u].group in t.claims
    requires t.offsets[t.subs[u].group] <= |t.entries|
    ensures Inv(LoopTop(t, u, closed))
  {
    var s := t.subs[u];
    StopKeeps(t, u);
    var stopped := SetPhase(t, u, Stopped);
    if !s.cancelled && !closed {
      if NextBatch(t, s) == [] {
        ParkKeeps(stopped, u);
        assert LoopTop(t, u, closed) == Park(stopped, u);
      } else {
        ServeKeeps(stopped, u);
        assert LoopTop(t, u, closed) == Serve(stopped, u);
      }
    }
  }

  /** A stopped subscription takes the next batch and gets its first entry. */
  function Serve(t: Topic, u: nat): Topic
    requires u in t.subs && t.subs[u].group in t.offsets && t.subs[u].group in t.claims
    requires t.offsets[t.subs[u].group] <= |t.entries| && NextBatch(t, t.subs[u]) != []
  {
    var batch := NextBatch(t, t.subs[u]);
    Dispatch(Claim(t, u, |batch|), u, t.offsets[t.subs[u].group], batch, 0)
  }

  lemma {:induction false} ServeKeeps(t: Topic, u: nat)
    requires Inv(t) && u in t.subs && t.subs[u].phase.Stopped?
    requires t.subs[u].group in t.offsets && t.subs[u].group in t.claims
    requires t.offsets[t.subs[u].group] <= |t.entries| && NextBatch(t, t.subs[u]) != []
    ensures Inv(Serve(t, u))
  {
    var batch := NextBatch(t, t.subs[u]);
    ClaimKeeps(t, u);
    var claimed := ClaimBatch(t, u, batch);
    DispatchKeeps(claimed, u);
    assert Serve(t, u) == Dispatch(claimed, u, t.offsets[t.subs[u].group], batch, 0);
  }

  lemma {:induction false} SubscribeKeeps(t: Topic, u: nat, group: string, consumer: string, count: nat, closed: bool)
    requires Inv(t) && u !in t.subs
    ensures Inv(Subscribe(t, u, group, consumer, count, closed))
  {
    JoinKeeps(t, u, group, consumer, count);
    assert GroupOk(t, group);
    LoopTopKeeps(Join(t, u, group, consumer, count), u, closed);
  }

  lemma ResumeKeeps(t: Topic, u: nat, closed: bool)
    requires Inv(t) && Runnable(t, u)
    ensures Inv(Resume(t, u, closed))
  {
    assert SubOk(t, u);
    if t.subs[u].phase.Handling? && t.subs[u].phase.next < |t.subs[u].phase.batch| {
      DispatchKeeps(t, u);
    } else {
      LoopTopKeeps(t, u, closed);
    }
  }

  /** Every step keeps the invariant. */
  lemma {:induction false} StepKeeps(s: State, a: Action)
    requires Good(s)
    ensures Good(Step(s, a))
  {
    StepKeepsInv(s, a);
    StepKeepsEntries(s, a);
  }

  /** Only publishing adds to the log. */
  lemma {:induction false} StepKeepsEntries(s: State, a: Action)
    requires Good(s)
    ensures !a.DoPublish? || s.closed ==> Step(s, a).topic.entries == s.topic.entries
    ensures s.nextId <= Step(s, a).nextId
  {
    match a
    case DoResume(u) => if Runnable(s.topic, u) { assert SubOk(s.topic, u); }
    case _ =>
  }

  lemma {:induction false} StepKeepsInv(s: State, a: Action)
    requires Good(s)
    ensures Inv(Step(s, a).topic)
  {
    var t := s.topic;
    match a
    case DoPublish(ms, message) =>
      if !s.closed { PublishKeeps(t, Entry(EntryId(ms, s.nextId), message)); }
    case PublishElsewhere =>
    case DoSubscribe(group, consumer, count) =>
      if !s.closed {
        SubscribeKeeps(t, FreshSub(t.subs, 0), group, consumer, count, s.closed);
      }
    case DoResume(u) => if Runnable(t, u) { ResumeKeeps(t, u, s.closed); }
    case DoAck(group, id) => AckKeeps(t, group, id);
    case DoTimeout(w) =>
      if w in t.waiters { WakeKeeps(t, t.fired + {w}, t.waiters); }
    case DoUnsubscribe(u) => CancelKeeps(t, u);
    case DoClose => WakeKeeps(t, t.fired + t.waiters, {});
  }
}
