/** The in-process consumer-group bus, one subject at a time, as a machine whose steps are what
    happens between two awaits. Any interleaving of steps is a run. */
module Bus {
  import opened Prelude

  /** An entry id combines the clock with a bus-wide counter. */
  datatype EntryId = EntryId(ms: nat, n: nat)

  datatype Entry = Entry(id: EntryId, message: string)

  /** Where a subscription's loop stands: its handler is busy with `batch[next - 1]`, it sleeps on a
      waiter, or it has ended. `lo` is the log position at which the batch begins. */
  datatype Phase =
    | Handling(lo: nat, batch: seq<Entry>, next: nat)
    | Parked(waiter: nat)
    | Stopped

  /** `seen` lists the log positions handed to the handler, in order. */
  datatype Sub = Sub(group: string, consumer: string, count: nat, cancelled: bool, phase: Phase, seen: seq<nat>)

  /** One subject. `claims` and `acked` only record history: who took which log position of a group,
      and which (entry, group) pairs were acknowledged after dispatch. */
  datatype Topic = Topic(
    entries: seq<Entry>,
    offsets: map<string, nat>,
    pending: map<EntryId, map<string, string>>,
    waiters: set<nat>,
    fired: set<nat>,
    nextWaiter: nat,
    subs: map<nat, Sub>,
    claims: map<string, seq<nat>>,
    acked: set<(EntryId, string)>)

  const EMPTY: Topic := Topic([], map[], map[], {}, {}, 0, map[], map[], {})

  // ----- Steps -----

  /** Appends an entry and wakes every waiter. */
  function Publish(t: Topic, e: Entry): Topic {
    t.(entries := t.entries + [e], fired := t.fired + t.waiters, waiters := {})
  }

  /** Marks an entry as pending for the group. */
  function AddPending(pending: map<EntryId, map<string, string>>, id: EntryId, group: string, consumer: string)
    : map<EntryId, map<string, string>>
  {
    if id in pending then pending[id := pending[id][group := consumer]]
    else pending[id := map[group := consumer]]
  }

  /** Hands `batch[k]` to the handler of subscription `u`. */
  function Dispatch(t: Topic, u: nat, lo: nat, batch: seq<Entry>, k: nat): Topic
    requires u in t.subs && k < |batch|
  {
    var s := t.subs[u];
    t.(pending := AddPending(t.pending, batch[k].id, s.group, s.consumer),
       subs := t.subs[u := s.(phase := Handling(lo, batch, k + 1), seen := s.seen + [lo + k])])
  }

  /** What the group has not been given yet, up to `count` entries. */
  function NextBatch(t: Topic, s: Sub): seq<Entry>
    requires s.group in t.offsets && t.offsets[s.group] <= |t.entries|
  {
    var offset := t.offsets[s.group];
    t.entries[offset..if offset + s.count < |t.entries| then offset + s.count else |t.entries|]
  }

  function Claimed(n: nat, u: nat): (r: seq<nat>)
    ensures |r| == n && forall i | 0 <= i < n :: r[i] == u
  {
    if n == 0 then [] else Claimed(n - 1, u) + [u]
  }

  /** Moves the group's offset past the batch. */
  function Claim(t: Topic, u: nat, n: nat): Topic
    requires u in t.subs && t.subs[u].group in t.offsets && t.subs[u].group in t.claims
  {
    var g := t.subs[u].group;
    t.(offsets := t.offsets[g := t.offsets[g] + n], claims := t.claims[g := t.claims[g] + Claimed(n, u)])
  }

  function SetPhase(t: Topic, u: nat, phase: Phase): Topic
    requires u in t.subs
  {
    t.(subs := t.subs[u := t.subs[u].(phase := phase)])
  }

  function Park(t: Topic, u: nat): Topic
    requires u in t.subs
  {
    SetPhase(t, u, Parked(t.nextWaiter)).(waiters := t.waiters + {t.nextWaiter}, nextWaiter := t.nextWaiter + 1)
  }

  /** The top of the subscription loop: stop, or claim a batch and dispatch its first entry, or park. */
  function LoopTop(t: Topic, u: nat, closed: bool): Topic
    requires u in t.subs && t.subs[u].group in t.offsets && t.subs[u].group in t.claims
    requires t.offsets[t.subs[u].group] <= |t.entries|
  {
    var s := t.subs[u];
    if s.cancelled || closed then SetPhase(t, u, Stopped)
    else
      var batch := NextBatch(t, s);
      if batch == [] then Park(t, u)
      else Dispatch(Claim(t, u, |batch|), u, t.offsets[s.group], batch, 0)
  }

  /** A new subscription; its loop runs at once to its first await. */
  function Subscribe(t: Topic, u: nat, group: string, consumer: string, count: nat, closed: bool): Topic
    requires Inv(t) && u !in t.subs
  {
    assert GroupOk(t, group);
    LoopTop(Join(t, u, group, consumer, count), u, closed)
  }

  /** The offset of a group starts at zero and is kept when the group is known already. */
  function Join(t: Topic, u: nat, group: string, consumer: string, count: nat): Topic {
    var t1 := if group in t.offsets then t
              else t.(offsets := t.offsets[group := 0], claims := t.claims[group := []]);
    t1.(subs := t1.subs[u := Sub(group, consumer, count, false, Stopped, [])])
  }

  /** The subscription can go on: its waiter has fired, or its handler is done. */
  predicate Runnable(t: Topic, u: nat) {
    u in t.subs && match t.subs[u].phase
                   case Parked(w) => w in t.fired
                   case Handling(_, _, _) => true
                   case Stopped => false
  }

  /** From one await to the next. */
  function Resume(t: Topic, u: nat, closed: bool): Topic
    requires Inv(t) && Runnable(t, u)
  {
    assert SubOk(t, u);
    match t.subs[u].phase
    case Handling(lo, batch, next) =>
      if next < |batch| then Dispatch(t, u, lo, batch, next) else LoopTop(t, u, closed)
    case _ => LoopTop(t, u, closed)
  }

  /** Acknowledging drops the group's pending mark, and the entry with its last one. */
  function Ack(t: Topic, group: string, id: EntryId): Topic {
    if id !in t.pending then t
    else
      var rest := t.pending[id] - {group};
      t.(pending := if |rest| == 0 then t.pending - {id} else t.pending[id := rest],
         acked := if group in t.pending[id] then t.acked + {(id, group)} else t.acked)
  }

  /** A waiter's timer fires. */
  function Timeout(t: Topic, w: nat): Topic {
    if w in t.waiters then t.(fired := t.fired + {w}) else t
  }

  function Cancel(t: Topic, u: nat): Topic {
    if u in t.subs then t.(subs := t.subs[u := t.subs[u].(cancelled := true)]) else t
  }

  /** Closing wakes everyone. */
  function Close(t: Topic): Topic {
    t.(fired := t.fired + t.waiters, waiters := {})
  }

  // ----- The invariant -----

  /** Group `g` has handed out exactly the positions below its offset. */
  ghost predicate GroupOk(t: Topic, g: string) {
    g in t.offsets ==> g in t.claims && |t.claims[g]| == t.offsets[g] <= |t.entries|
  }

  /** Position `i` of group `g` was claimed by a subscription of that group. */
  ghost predicate ClaimOk(t: Topic, g: string, i: nat) {
    g in t.claims && i < |t.claims[g]| ==> t.claims[g][i] in t.subs && t.subs[t.claims[g][i]].group == g
  }

  ghost predicate ClaimedBy(t: Topic, u: nat, i: nat)
    requires u in t.subs
  {
    var g := t.subs[u].group;
    g in t.claims && i < |t.claims[g]| && t.claims[g][i] == u
  }

  /** Positions below the frontier have been dispatched, claimed ones from it on are in flight. */
  ghost function Frontier(t: Topic, u: nat): nat
    requires u in t.subs
  {
    var s := t.subs[u];
    if s.phase.Handling? then s.phase.lo + s.phase.next else |t.entries|
  }

  ghost predicate SeenOk(t: Topic, u: nat, i: nat) {
    u in t.subs ==> (i in t.subs[u].seen <==> ClaimedBy(t, u, i) && i < Frontier(t, u))
  }

  /** A batch is the stretch of the log it was cut from, no longer than asked for, and its holder's last
      claim. */
  ghost predicate BatchOk(t: Topic, u: nat)
    requires u in t.subs
  {
    t.subs[u].phase.Handling? ==>
      var Handling(lo, batch, next) := t.subs[u].phase;
      && next <= |batch| <= t.subs[u].count
      && lo + |batch| <= |t.entries| && batch == t.entries[lo..lo + |batch|]
      && forall i: nat {:trigger ClaimedBy(t, u, i)} ::
           (lo <= i < lo + |batch| ==> ClaimedBy(t, u, i)) && (ClaimedBy(t, u, i) ==> i < lo + |batch|)
  }

  /** A sleeper is known to the next publish or already woken; asleep, it has nothing to miss, unless it
      asks for nothing. */
  ghost predicate ParkOk(t: Topic, u: nat)
    requires u in t.subs
  {
    var s := t.subs[u];
    s.phase.Parked? ==>
      && s.phase.waiter < t.nextWaiter
      && (s.phase.waiter !in t.fired ==>
            && s.phase.waiter in t.waiters && s.group in t.offsets
            && (s.count >= 1 ==> t.offsets[s.group] == |t.entries|))
  }

  ghost predicate SubOk(t: Topic, u: nat) {
    u in t.subs ==>
      && t.subs[u].group in t.offsets && GroupOk(t, t.subs[u].group)
      && (t.subs[u].count == 0 ==> t.subs[u].seen == [] && !t.subs[u].phase.Handling?)
      && Ascending(t.subs[u].seen) && BatchOk(t, u) && ParkOk(t, u)
  }

  /** Position `i` has been handed to a handler of group `g`. */
  ghost predicate Dispatched(t: Topic, g: string, i: nat) {
    exists u :: u in t.subs && t.subs[u].group == g && i in t.subs[u].seen
  }

  ghost predicate IsPending(t: Topic, g: string, id: EntryId) {
    id in t.pending && g in t.pending[id]
  }

  /** An entry is pending for a group exactly if it was dispatched there and not acknowledged since. */
  ghost predicate PendingOk(t: Topic, g: string, i: nat) {
    i < |t.entries| ==>
      (IsPending(t, g, t.entries[i].id) <==> Dispatched(t, g, i) && (t.entries[i].id, g) !in t.acked)
  }

  /** Pending marks belong to published entries, and an entry without marks is gone. */
  ghost predicate MarkOk(t: Topic, id: EntryId) {
    id in t.pending ==> t.pending[id] != map[] && exists i :: 0 <= i < |t.entries| && t.entries[i].id == id
  }

  /** Only dispatched entries are acknowledged. */
  ghost predicate AckOk(t: Topic, id: EntryId, g: string) {
    (id, g) in t.acked ==> exists i :: 0 <= i < |t.entries| && t.entries[i].id == id && Dispatched(t, g, i)
  }

  ghost predicate DistinctIds(entries: seq<Entry>) {
    forall i, j | 0 <= i < j < |entries| :: entries[i].id != entries[j].id
  }

  ghost predicate Inv(t: Topic) {
    && DistinctIds(t.entries)
    && (forall g {:trigger GroupOk(t, g)} :: GroupOk(t, g))
    && (forall g, i: nat {:trigger ClaimOk(t, g, i)} :: ClaimOk(t, g, i))
    && (forall u: nat {:trigger SubOk(t, u)} :: SubOk(t, u))
    && (forall u: nat, i: nat {:trigger SeenOk(t, u, i)} :: SeenOk(t, u, i))
    && (forall g, i: nat {:trigger PendingOk(t, g, i)} :: PendingOk(t, g, i))
    && (forall id {:trigger MarkOk(t, id)} :: MarkOk(t, id))
    && (forall id, g {:trigger AckOk(t, id, g)} :: AckOk(t, id, g))
    && (forall w <- t.waiters :: w < t.nextWaiter)
  }

  // ----- Runs -----

  datatype State = State(topic: Topic, nextId: nat, closed: bool)

  /** Everything that can happen to a subject. Publishing elsewhere only moves the bus-wide counter. */
  datatype Action =
    | DoPublish(ms: nat, message: string)
    | PublishElsewhere
    | DoSubscribe(group: string, consumer: string, count: nat)
    | DoResume(u: nat)
    | DoAck(group: string, id: EntryId)
    | DoTimeout(w: nat)
    | DoUnsubscribe(u: nat)
    | DoClose

  ghost predicate Good(s: State) {
    && Inv(s.topic)
    && (forall i | 0 <= i < |s.topic.entries| :: s.topic.entries[i].id.n < s.nextId)
  }

  /** A subscription is known by a number not used before. */
  function FreshSub(subs: map<nat, Sub>, from: nat): (u: nat)
    ensures u !in subs
    decreases |subs.Keys - set x | x in subs && x < from|
  {
    if from !in subs then from
    else
      assert (subs.Keys - set x | x in subs && x < from) == (subs.Keys - set x | x in subs && x < from + 1) + {from};
      FreshSub(subs, from + 1)
  }

  /** An action that is refused or cannot happen now leaves everything as it is. */
  function Step(s: State, a: Action): (r: State)
    requires Good(s)
  {
    match a
    case DoPublish(ms, message) =>
      if s.closed then s
      else State(Publish(s.topic, Entry(EntryId(ms, s.nextId), message)), s.nextId + 1, s.closed)
    case PublishElsewhere => s.(nextId := s.nextId + 1)
    case DoSubscribe(group, consumer, count) =>
      if s.closed then s
      else s.(topic := Subscribe(s.topic, FreshSub(s.topic.subs, 0), group, consumer, count, s.closed))
    case DoResume(u) => if Runnable(s.topic, u) then s.(topic := Resume(s.topic, u, s.closed)) else s
    case DoAck(group, id) => s.(topic := Ack(s.topic, group, id))
    case DoTimeout(w) => s.(topic := Timeout(s.topic, w))
    case DoUnsubscribe(u) => s.(topic := Cancel(s.topic, u))
    case DoClose => State(Close(s.topic), s.nextId, true)
  }
}
