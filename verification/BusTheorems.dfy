/** What every run of the bus machine guarantees. */
module BusTheorems {
  import opened Prelude
  import opened Bus
  import opened BusInvariant

  /** The state after any sequence of actions on a fresh bus; it is good whatever they are. */
  function Run(actions: seq<Action>): (s: State)
    ensures Good(s)
  {
    if actions == [] then
      InvEmpty();
      State(EMPTY, 0, false)
    else
      var before := Run(actions[..|actions| - 1]);
      StepKeeps(before, actions[|actions| - 1]);
      Step(before, actions[|actions| - 1])
  }

  // ----- What it means -----

  ghost predicate InFlight(t: Topic, u: nat, i: nat) {
    u in t.subs && t.subs[u].phase.Handling?
    && t.subs[u].phase.lo + t.subs[u].phase.next <= i < t.subs[u].phase.lo + |t.subs[u].phase.batch|
  }

  /** Exactly once per group: every position below the group's offset has been dispatched by one
      subscription, once, or is in flight with one, and not both; positions from the offset on are
      with nobody. */
  lemma ExactlyOnce(t: Topic, g: string, i: nat) returns (owner: nat)
    requires Inv(t) && g in t.offsets
    ensures i < t.offsets[g] ==>
              && owner in t.subs && t.subs[owner].group == g
              && ((i in t.subs[owner].seen) != InFlight(t, owner, i))
              && multiset(t.subs[owner].seen)[i] <= 1
    ensures forall u: nat | u in t.subs && t.subs[u].group == g && (i in t.subs[u].seen || InFlight(t, u, i)) ::
              i < t.offsets[g] && u == owner
  {
    assert GroupOk(t, g) && ClaimOk(t, g, i);
    owner := if i < t.offsets[g] then t.claims[g][i] else 0;
    if i < t.offsets[g] {
      assert SeenOk(t, owner, i) && SubOk(t, owner);
      assert ClaimedBy(t, owner, i);
      OnceIfAscending(t.subs[owner].seen, i);
    }
    forall u: nat | u in t.subs && t.subs[u].group == g && (i in t.subs[u].seen || InFlight(t, u, i))
      ensures i < t.offsets[g] && u == owner
    {
      assert SeenOk(t, u, i) && SubOk(t, u);
      assert ClaimedBy(t, u, i);
    }
  }

  lemma {:induction false} OnceIfAscending(s: seq<nat>, x: nat)
    requires Ascending(s)
    ensures multiset(s)[x] <= 1
  {
    if s != [] {
      var init, last := s[..|s| - 1], s[|s| - 1];
      OnceIfAscending(init, x);
      assert s == init + [last];
      assert last !in init;
    }
  }

  /** No wake-up is lost: while a group has undelivered entries, none of its subscriptions that asks for
      any sleeps. */
  lemma NoLostWakeUp(t: Topic, u: nat)
    requires Inv(t) && u in t.subs && t.subs[u].phase.Parked? && t.subs[u].group in t.offsets
    requires t.offsets[t.subs[u].group] < |t.entries| && t.subs[u].count >= 1
    ensures Runnable(t, u)
  {
    assert SubOk(t, u);
  }

  /** A subscription that asks for batches of no entries is never served. */
  lemma {:induction false} CountZeroStarves(t: Topic, u: nat)
    requires Inv(t) && u in t.subs && t.subs[u].count == 0
    ensures t.subs[u].seen == [] && forall i: nat :: !InFlight(t, u, i)
  {
    assert SubOk(t, u);
  }

  /** Each consumer sees log order, and an entry is pending for its group exactly if it was dispatched
      there and not acknowledged since. */
  lemma OrderAndPending(t: Topic, u: nat, i: nat)
    requires Inv(t) && u in t.subs && i < |t.entries|
    ensures Ascending(t.subs[u].seen)
    ensures var g, id := t.subs[u].group, t.entries[i].id;
            IsPending(t, g, id) <==> Dispatched(t, g, i) && (id, g) !in t.acked
  {
    assert SubOk(t, u) && PendingOk(t, t.subs[u].group, i);
  }
}
