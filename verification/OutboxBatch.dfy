/** One claim of the outbox: which events a relay locks, in which order, and what it leaves alone. */
module OutboxBatch {
  import opened Base
  import opened Pipeline
  import opened Shared
  import opened Wellformed

  const DEFAULT_BATCH: int := 50

  /** One row of a claimed batch; `task` numbers the claim. */
  datatype Claimed = Claimed(task: nat, event: Uuid, payload: Payload)

  predicate Holds(s: State, x: Claimed, pc: TaskPc) {
    && x.task in s.tasks && s.tasks[x.task].event == x.event && s.tasks[x.task].pc == pc
    && x.event in s.events && s.events[x.event].payload == x.payload
  }

  function Limit(limit: int): (most: int)
    ensures most > 0 && (limit > 0 ==> most == limit) && (limit <= 0 ==> most == 50)
  {
    if limit <= 0 then DEFAULT_BATCH else limit
  }

  function Eligible(s: State): set<Uuid> { set e | e in s.events && Leasable(s, e) }

  predicate IsOldest(es: map<Uuid, Event>, among: set<Uuid>, e: Uuid)
    requires among <= es.Keys && e in es
  {
    forall f | f in among :: es[e].createdAt <= es[f].createdAt
  }

  lemma {:induction false} OldestExists(es: map<Uuid, Event>, among: set<Uuid>)
    requires among <= es.Keys && among != {}
    ensures exists e :: e in among && IsOldest(es, among, e)
    decreases among
  {
    Inhabited(among);
    var x :| x in among;
    var rest := among - {x};
    if rest == {} {
      assert among == {x};
      assert IsOldest(es, among, x);
    } else {
      OldestExists(es, rest);
      var y :| y in rest && IsOldest(es, rest, y);
      assert forall f | f in among :: f == x || f in rest;
      assert IsOldest(es, among, if es[x].createdAt < es[y].createdAt then x else y);
    }
  }

  function Taken(batch: seq<Claimed>): set<Uuid> { set x | x in batch :: x.event }

  function Locked(e: Event, until: int): Event { e.(lockedUntil := Some(until)) }

  predicate NoYounger(es: map<Uuid, Event>, e: Uuid, f: Uuid) {
    e in es && f in es && es[e].createdAt <= es[f].createdAt
  }

  /** Different events, claimed oldest first, and none left out is older. */
  ghost predicate OldestFirst(es: map<Uuid, Event>, eligible: set<Uuid>, batch: seq<Claimed>) {
    && (forall k | 0 <= k < |batch| :: batch[k].event in eligible)
    && (forall j, k | 0 <= j < k < |batch| ::
          batch[j].task != batch[k].task && batch[j].event != batch[k].event && NoYounger(es, batch[j].event, batch[k].event))
    && (forall k, f | 0 <= k < |batch| && f in eligible && f !in Taken(batch) :: NoYounger(es, batch[k].event, f))
  }

  /** Those events are locked until `now + hold` and no other event has changed. */
  ghost predicate LockedOut(before: State, s: State, batch: seq<Claimed>, hold: nat) {
    && s.now == before.now && s.published == before.published && s.events.Keys == before.events.Keys
    && (forall e | e in before.events ::
          s.events[e] == if e in Taken(batch) then Locked(before.events[e], before.now + hold) else before.events[e])
  }

  ghost predicate AllHeld(s: State, batch: seq<Claimed>, mine: set<nat>) {
    forall k | 0 <= k < |batch| :: Holds(s, batch[k], Check) && batch[k].task in mine
  }

  ghost predicate Claims(before: State, s: State, batch: seq<Claimed>, mine: set<nat>, most: int, hold: nat) {
    && |batch| <= most && OldestFirst(before.events, Eligible(before), batch) && LockedOut(before, s, batch, hold) && AllHeld(s, batch, mine)
  }

  /** The batch is full, or no eligible event is left out; and none left out is older. */
  ghost predicate Exhausted(before: State, batch: seq<Claimed>, most: int) {
    && (forall f | f in Eligible(before) && f !in Taken(batch) ::
          |batch| >= most && forall x | x in batch :: NoYounger(before.events, x.event, f))
  }

  lemma ClaimsNothing(before: State, mine: set<nat>, most: int, hold: nat)
    requires most >= 0
    ensures Claims(before, before, [], mine, most, hold)
  {
  }

  lemma LeaseMoves(c: Config, s: State, t: nat, e: Uuid, hold: nat)
    requires RelayEnabled(s, t, Lease(e, hold))
    ensures var u := Next(c, s, Relay(t, Lease(e, hold)));
            && u.now == s.now && u.published == s.published
            && u.events == s.events[e := Locked(s.events[e], s.now + hold)]
            && u.tasks == s.tasks[t := Task(e, s.now + hold, Check)]
  {
  }

  lemma StillEligible(before: State, s: State, batch: seq<Claimed>, hold: nat)
    requires LockedOut(before, s, batch, hold)
    ensures Eligible(s) == Eligible(before) - Taken(batch)
  {
    forall e | e in before.events ensures e in Eligible(s) <==> e in Eligible(before) - Taken(batch) {
    }
  }

  lemma TakenMore(batch: seq<Claimed>, x: Claimed)
    ensures Taken(batch + [x]) == Taken(batch) + {x.event}
  {
  }

  lemma OldestFirstMore(es: map<Uuid, Event>, eligible: set<Uuid>, batch: seq<Claimed>, x: Claimed)
    requires OldestFirst(es, eligible, batch) && x.event in eligible && x.event !in Taken(batch)
    requires forall k | 0 <= k < |batch| :: batch[k].task != x.task
    requires forall f | f in eligible && f !in Taken(batch) :: NoYounger(es, x.event, f)
    ensures OldestFirst(es, eligible, batch + [x])
  {
    TakenMore(batch, x);
    forall k | 0 <= k < |batch| ensures batch[k].event in Taken(batch) {}
    hide NoYounger, Taken;
  }

  lemma LockedOutMore(before: State, s: State, batch: seq<Claimed>, hold: nat, x: Claimed, u: State)
    requires LockedOut(before, s, batch, hold) && x.event in s.events && x.event !in Taken(batch)
    requires u.now == s.now && u.published == s.published
    requires u.events == s.events[x.event := Locked(s.events[x.event], s.now + hold)]
    requires Taken(batch + [x]) == Taken(batch) + {x.event}
    ensures LockedOut(before, u, batch + [x], hold)
  {
    hide Taken;
  }

  lemma ClaimsOneMore(c: Config, before: State, s: State, batch: seq<Claimed>, mine: set<nat>, most: int, hold: nat, x: Claimed)
    requires Claims(before, s, batch, mine, most, hold) && |batch| < most
    requires RelayEnabled(s, x.task, Lease(x.event, hold)) && x.task !in mine
    requires x.event in Eligible(s) && IsOldest(s.events, Eligible(s), x.event) && x.payload == s.events[x.event].payload
    ensures Claims(before, Next(c, s, Relay(x.task, Lease(x.event, hold))), batch + [x], mine + {x.task}, most, hold)
  {
    LeaseMoves(c, s, x.task, x.event, hold);
    hide Next, RelayEnabled;
    StillEligible(before, s, batch, hold);
    TakenMore(batch, x);
    forall f | f in Eligible(before) && f !in Taken(batch) ensures NoYounger(before.events, x.event, f) {
      assert f in Eligible(s);
    }
    OldestFirstMore(before.events, Eligible(before), batch, x);
    LockedOutMore(before, s, batch, hold, x, Next(c, s, Relay(x.task, Lease(x.event, hold))));
    hide OldestFirst, Eligible, Taken;
  }

  lemma NothingLeftOut(before: State, s: State, batch: seq<Claimed>, mine: set<nat>, most: int, hold: nat)
    requires Claims(before, s, batch, mine, most, hold) && (|batch| >= most || Eligible(s) == {})
    ensures Exhausted(before, batch, most)
  {
    StillEligible(before, s, batch, hold);
    hide LockedOut, AllHeld, Eligible, Leasable;
    forall f, x | f in Eligible(before) && f !in Taken(batch) && x in batch
      ensures |batch| >= most && NoYounger(before.events, x.event, f)
    {
      assert f in Eligible(s);
      var k :| 0 <= k < |batch| && batch[k] == x;
    }
    forall f | f in Eligible(before) && f !in Taken(batch) ensures |batch| >= most {
      assert f in Eligible(s);
    }
  }

  lemma LeasedEvent(before: State, leased: State, batch: seq<Claimed>, hold: nat, k: nat)
    requires LockedOut(before, leased, batch, hold) && k < |batch| && batch[k].event in leased.events
    ensures batch[k].event in before.events
    ensures leased.events[batch[k].event] == Locked(before.events[batch[k].event], before.now + hold)
  {
    assert batch[k].event in Taken(batch);
  }
}
