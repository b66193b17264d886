/** The outbox lease: who may have an event in hand, and how often it can be published. */
module Leases {
  import opened Base
  import opened Pipeline
  import opened Wellformed

  // ----- exclusive while the event's relays let go in time ------------------------------------------

  /** Time does not pass the lease of a relay that still has this event in hand. */
  predicate Timely(s: State, step: Step, e: Uuid) {
    step.World? && step.world.Tick? ==>
      forall t | t in s.tasks && s.tasks[t].event == e :: s.now + step.world.delta <= s.tasks[t].until
  }

  ghost predicate TimelyRun(c: Config, s: State, trace: seq<Step>, t: State, e: Uuid)
    decreases |trace|
  {
    if trace == [] then s == t
    else Enabled(s, trace[0]) && Timely(s, trace[0], e) && TimelyRun(c, Next(c, s, trace[0]), trace[1..], t, e)
  }

  /** The event is in one hand at most, and then published already or locked by exactly that hand's lease. */
  ghost predicate Exclusive(now: int, es: map<Uuid, Event>, ts: map<nat, Task>, e: Uuid) {
    && (forall t | t in ts && ts[t].event == e :: e in es && now <= ts[t].until)
    && (forall t, u | t in ts && u in ts && ts[t].event == e && ts[u].event == e :: t == u)
    && (forall t | t in ts && ts[t].event == e && e in es :: es[e].status == Published || es[e].lockedUntil == Some(ts[t].until))
  }

  lemma ExclusiveLease(s: State, t: nat, f: Uuid, hold: nat, e: Uuid)
    requires Exclusive(s.now, s.events, s.tasks, e) && RelayEnabled(s, t, Lease(f, hold))
    ensures Exclusive(s.now, NextLease(s, t, f, hold).events, NextLease(s, t, f, hold).tasks, e)
  {
    // a pending event in somebody's hand is locked until now or later, so it is not leasable
    assert f == e ==> forall k | k in s.tasks :: s.tasks[k].event != e;
  }

  /** The only step that clears a lock, recording a failure, does not look whose lock it is;
      here it can only be the relay's own. */
  lemma ExclusiveHand(now: int, es: map<Uuid, Event>, ts: map<nat, Task>, t: nat, e': Event, pc: Option<TaskPc>, e: Uuid)
    requires Exclusive(now, es, ts, e) && t in ts && ts[t].event in es
    requires e' == es[ts[t].event] || pc == None || e'.status == Published
    requires es[ts[t].event].status == Published ==> e'.status == Published
    ensures Exclusive(now, es[ts[t].event := e'], SetTask(ts, t, pc), e)
  {
  }

  lemma ExclusiveRelay(s: State, t: nat, r: RelayStep, e: Uuid)
    requires Exclusive(s.now, s.events, s.tasks, e) && RelayEnabled(s, t, r)
    ensures Exclusive(s.now, NextRelay(s, t, r).events, NextRelay(s, t, r).tasks, e)
  {
    hide Exclusive, Leasable, SetTask;
    if r.Lease? {
      ExclusiveLease(s, t, r.event, r.hold, e);
    } else {
      var x := s.tasks[t];
      var f := s.events[x.event];
      ExclusiveHand(s.now, s.events, s.tasks, t, NewEvent(f, r), NextTaskPc(x, f, r), e);
    }
  }

  lemma ExclusiveWorld(s: State, w: WorldStep, e: Uuid)
    requires Exclusive(s.now, s.events, s.tasks, e) && WorldEnabled(s, w) && Timely(s, World(w), e)
    ensures Exclusive(NextWorld(s, w).now, NextWorld(s, w).events, s.tasks, e)
  {
    hide FreshMessage;
  }

  lemma {:induction false} ExclusiveRun(c: Config, s: State, trace: seq<Step>, t: State, e: Uuid)
    requires Exclusive(s.now, s.events, s.tasks, e) && TimelyRun(c, s, trace, t, e)
    ensures Exclusive(t.now, t.events, t.tasks, e)
    decreases |trace|
  {
    hide Exclusive, NextWorld, NextRelay, NextWork, Timely;
    if trace != [] {
      match trace[0] {
        case World(w) => ExclusiveWorld(s, w, e);
        case Relay(k, r) => ExclusiveRelay(s, k, r, e);
        case Work(i, w) =>
      }
      ExclusiveRun(c, Next(c, s, trace[0]), trace[1..], t, e);
    }
  }

  /** If the relays that claim an event let go of it no later than its lock runs out, it is never in
      the hands of two of them, although recording a failure clears the lock unconditionally. */
  lemma LeaseIsExclusive(c: Config, trace: seq<Step>, s: State, e: Uuid, t: nat, u: nat)
    requires TimelyRun(c, Init(), trace, s, e)
    requires t in s.tasks && u in s.tasks && s.tasks[t].event == e && s.tasks[u].event == e
    ensures t == u
  {
    hide TimelyRun;
    ExclusiveRun(c, Init(), trace, s, e);
  }

  /** And while one has it in hand no step of any other relay about the event is enabled. */
  lemma NoRivalStep(c: Config, trace: seq<Step>, s: State, e: Uuid, t: nat, u: nat, r: RelayStep)
    requires TimelyRun(c, Init(), trace, s, e)
    requires t in s.tasks && s.tasks[t].event == e && u != t && RelayEnabled(s, u, r)
    ensures if r.Lease? then r.event != e else s.tasks[u].event != e
  {
    hide TimelyRun;
    ExclusiveRun(c, Init(), trace, s, e);
  }

  /** One relay a tick too slow, and two others that are both inside their leases hold the same event:
      the late one records its failure and so clears the lock of the one that claimed after it. */
  lemma LateRelayUnlocksOthers(c: Config)
    ensures exists s, t, u :: Reachable(c, s) && t != u && t in s.tasks && u in s.tasks
              && s.tasks[t].event == s.tasks[u].event && s.now <= s.tasks[t].until && s.now <= s.tasks[u].until
  {
    var s := ClaimedLate(c);
    hide Run, Reachable, NextWork, WorkEnabled, NextWorld, WorldEnabled;
    s := ReachableNext(c, s, Relay(0, RecordFailure(Done)));
    s := ReachableNext(c, s, Relay(2, Lease(0, 30)));
    assert s.tasks[1].event == s.tasks[2].event;
  }

  lemma Ticks(c: Config, s: State, delta: nat) returns (t: State)
    requires Reachable(c, s)
    ensures Reachable(c, t) && t == s.(now := s.now + delta)
  {
    hide Reachable, NextWork, WorkEnabled, NextRelay, RelayEnabled, FreshMessage, FreshCopy;
    t := ReachableNext(c, s, World(Tick(delta)));
  }

  /** Relay 0 has failed and not recorded it when its lease runs out and relay 1 claims the event. */
  lemma ClaimedLate(c: Config) returns (s: State)
    ensures Reachable(c, s) && s.now == 31 && s.leases.Keys == {0, 1}
    ensures s.events == map[0 := Event(Sample(), Pending, Some(61), 0, 0)]
    ensures s.tasks == map[0 := Task(0, 30, Record), 1 := Task(0, 61, Check)]
  {
    s := Init();
    assert Run(c, s, [], s);
    hide Run, Reachable, NextWork, WorkEnabled;
    s := ReachableNext(c, s, World(Accept(0, 0, 0, Standard)));
    s := ReachableNext(c, s, Relay(0, Lease(0, 30)));
    s := LateWithFailure(c, s);
  }

  lemma LateWithFailure(c: Config, s0: State) returns (s: State)
    requires Reachable(c, s0) && s0.now == 0 && s0.leases.Keys == {0} && s0.tasks == map[0 := Task(0, 30, Check)]
    requires s0.events == map[0 := Event(Sample(), Pending, Some(30), 0, 0)]
    ensures Reachable(c, s) && s.now == 31 && s.leases.Keys == {0, 1}
    ensures s.events == map[0 := Event(Sample(), Pending, Some(61), 0, 0)]
    ensures s.tasks == map[0 := Task(0, 30, Record), 1 := Task(0, 61, Check)]
  {
    hide Run, Reachable, NextWork, WorkEnabled, NextWorld, WorldEnabled;
    s := ReachableNext(c, s0, Relay(0, CheckPublished(false)));
    assert s.events == s0.events;
    s := Ticks(c, s, 31);
    s := ReachableNext(c, s, Relay(1, Lease(0, 30)));
  }

  // ----- never more copies than claims, timing aside -----------------------------------------------

  /** Every copy a relay published is charged to one claim of its event, and a claim that has not
      published yet has no copy charged to it. */
  ghost predicate Charged(ts: map<nat, Task>, leases: map<nat, Uuid>, published: map<nat, nat>) {
    && (forall cp | cp in published :: published[cp] in leases)
    && (forall a, b | a in published && b in published && published[a] == published[b] :: a == b)
    && (forall t, cp | t in ts && cp in published && published[cp] == t :: ts[t].pc != Check && ts[t].pc != Publish)
  }

  lemma ChargedRelay(s: State, t: nat, r: RelayStep)
    requires Charged(s.tasks, s.leases, s.published) && TasksAgree(s.events, s.tasks, s.leases) && RelayEnabled(s, t, r)
    ensures var u := NextRelay(s, t, r); Charged(u.tasks, u.leases, u.published)
  {
    hide NewEvent;
  }

  lemma {:induction false} ChargedRun(c: Config, s: State, trace: seq<Step>, t: State)
    requires Charged(s.tasks, s.leases, s.published) && TasksAgree(s.events, s.tasks, s.leases) && Run(c, s, trace, t)
    ensures Charged(t.tasks, t.leases, t.published)
    decreases |trace|
  {
    hide Charged, TasksAgree, NextWorld, NextRelay, NextWork, Enabled;
    if trace != [] {
      TasksStep(c, s, trace[0]);
      if trace[0].Relay? { ChargedStep(c, s, trace[0]); }
      ChargedOutside(c, s, trace[0]);
      ChargedRun(c, Next(c, s, trace[0]), trace[1..], t);
    }
  }

  lemma ChargedStep(c: Config, s: State, step: Step)
    requires step.Relay? && Enabled(s, step)
    requires Charged(s.tasks, s.leases, s.published) && TasksAgree(s.events, s.tasks, s.leases)
    ensures Charged(Next(c, s, step).tasks, Next(c, s, step).leases, Next(c, s, step).published)
  {
    hide Charged, TasksAgree, NextRelay;
    ChargedRelay(s, step.task, step.relay);
  }

  lemma ChargedOutside(c: Config, s: State, step: Step)
    requires Enabled(s, step)
    ensures !step.Relay? ==> Next(c, s, step).tasks == s.tasks && Next(c, s, step).leases == s.leases
                             && Next(c, s, step).published == s.published
  {
    hide NextWorld, NextWork, NextRelay;
  }

  ghost function CopiesOf(s: State, e: Uuid): set<nat> {
    set cp | cp in s.published && s.published[cp] in s.leases && s.leases[s.published[cp]] == e
  }

  ghost function ClaimsOf(s: State, e: Uuid): set<nat> {
    set t | t in s.leases && s.leases[t] == e
  }

  /** An injection bounds the size of a set. */
  lemma {:induction false} Injected(a: set<nat>, f: map<nat, nat>, b: set<nat>)
    requires forall x | x in a :: x in f && f[x] in b
    requires forall x, y | x in a && y in a && f[x] == f[y] :: x == y
    ensures |a| <= |b|
    decreases a
  {
    if a != {} {
      var x :| x in a;
      Injected(a - {x}, f, b - {f[x]});
    }
  }

  /** However late relays are and whatever fails, the copies relays ever published of an event
      never outnumber the claims made on it. */
  lemma CopiesNeverExceedClaims(c: Config, s: State, e: Uuid)
    requires Reachable(c, s)
    ensures |CopiesOf(s, e)| <= |ClaimsOf(s, e)|
  {
    var trace :| Run(c, Init(), trace, s);
    hide Run;
    ChargedRun(c, Init(), trace, s);
    Injected(CopiesOf(s, e), s.published, ClaimsOf(s, e));
  }

  // ----- no mark without a publish, and a publish for every claim ---------------------------------------

  predicate IsMarking(x: Task) { x.pc.Mark? || x.pc.Recheck? }

  ghost predicate HasPublished(published: map<nat, nat>, t: nat) { exists cp :: cp in published && published[cp] == t }

  ghost predicate MarkersPublished(ts: map<nat, Task>, published: map<nat, nat>) {
    forall t | t in ts && IsMarking(ts[t]) :: HasPublished(published, t)
  }

  lemma MarkersRelay(s: State, t: nat, r: RelayStep)
    requires MarkersPublished(s.tasks, s.published) && RelayEnabled(s, t, r)
    ensures MarkersPublished(NextRelay(s, t, r).tasks, NextRelay(s, t, r).published)
  {
    hide NewEvent;
    var u := NextRelay(s, t, r);
    forall k | k in u.tasks && IsMarking(u.tasks[k]) ensures HasPublished(u.published, k) {
      if r.PublishCopy? && k == t {
        assert u.published[r.copy] == t;
      } else {
        assert k in s.tasks && IsMarking(s.tasks[k]);
        var cp :| cp in s.published && s.published[cp] == k;
        assert u.published[cp] == k;
      }
    }
  }

  lemma {:induction false} MarkersRun(c: Config, s: State, trace: seq<Step>, t: State)
    requires MarkersPublished(s.tasks, s.published) && Run(c, s, trace, t)
    ensures MarkersPublished(t.tasks, t.published)
    decreases |trace|
  {
    hide MarkersPublished, NextWorld, NextRelay, NextWork, Enabled;
    if trace != [] {
      if trace[0].Relay? { MarkersAfter(c, s, trace[0]); }
      ChargedOutside(c, s, trace[0]);
      MarkersRun(c, Next(c, s, trace[0]), trace[1..], t);
    }
  }

  lemma MarkersAfter(c: Config, s: State, step: Step)
    requires step.Relay? && Enabled(s, step) && MarkersPublished(s.tasks, s.published)
    ensures MarkersPublished(Next(c, s, step).tasks, Next(c, s, step).published)
  {
    hide NextRelay, MarkersPublished;
    MarkersRelay(s, step.task, step.relay);
  }

  /** No claim gets to marking, or to looking again after a failed mark, without having put a copy of
      its own on the queue. */
  lemma NoMarkWithoutCopy(c: Config, s: State, t: nat)
    requires Reachable(c, s) && t in s.tasks && IsMarking(s.tasks[t])
    ensures exists cp :: cp in s.published && s.published[cp] == t
  {
    var trace :| Run(c, Init(), trace, s);
    hide Run;
    MarkersRun(c, Init(), trace, s);
  }

  /** The event has been claimed and published `n` times, by relays that then failed to mark it, and is
      pending still with nobody working on it. */
  ghost predicate Unmarked(c: Config, s: State, n: nat) {
    && Reachable(c, s) && s.tasks == map[]
    && 0 in s.events && s.events[0].status == Pending && s.events[0].payload.Ids?
    && (forall t: nat :: t in s.leases <==> t < n) && (forall t | t in s.leases :: s.leases[t] == 0)
    && (forall cp: nat :: cp in s.published <==> cp < n) && (forall cp | cp in s.published :: s.published[cp] == cp)
    && (forall cp | cp in s.copies :: cp < n)
  }

  /** Every attempt refused, and every look after it failed. */
  lemma {:induction false} MarksRefused(c: Config, s: State, n: nat, attempt: nat) returns (t: State)
    requires Reachable(c, s) && attempt < MARK_PUBLISHED_MAX_ATTEMPTS
    requires 0 in s.events && n in s.tasks && s.tasks.Keys == {n} && s.tasks[n].event == 0 && s.tasks[n].pc == Mark(attempt)
    requires s.events[0].status == Pending
    ensures Reachable(c, t) && t == s.(tasks := map[])
    decreases MARK_PUBLISHED_MAX_ATTEMPTS - attempt
  {
    hide Reachable;
    t := RefusedOnce(c, s, n, attempt);
    if attempt + 1 < MARK_PUBLISHED_MAX_ATTEMPTS {
      t := MarksRefused(c, t, n, attempt + 1);
    }
  }

  lemma RefusedOnce(c: Config, s: State, n: nat, attempt: nat) returns (t: State)
    requires Reachable(c, s) && 0 in s.events && s.events[0].status == Pending
    requires n in s.tasks && s.tasks.Keys == {n} && s.tasks[n].event == 0 && s.tasks[n].pc == Mark(attempt)
    ensures Reachable(c, t)
    ensures if attempt + 1 < MARK_PUBLISHED_MAX_ATTEMPTS
            then t == s.(tasks := map[n := s.tasks[n].(pc := Mark(attempt + 1))]) else t == s.(tasks := map[])
  {
    hide Reachable, NextWork, WorkEnabled, NextWorld, WorldEnabled;
    t := ReachableNext(c, s, Relay(n, MarkPublished(Refused)));
    assert t.events == s.events;
    t := ReachableNext(c, t, Relay(n, RecheckPublished(false)));
    assert t.events == s.events;
  }

  /** The lease runs out, and the next relay publishes the event again. */
  lemma AnotherCopy(c: Config, s: State, n: nat) returns (t: State)
    requires Unmarked(c, s, n)
    ensures Unmarked(c, t, n + 1)
  {
    hide Reachable;
    var u := ClaimsAgain(c, s, n);
    var v := PublishesAgain(c, u, n);
    t := MarksRefused(c, v, n, 0);
  }

  lemma PublishesAgain(c: Config, s: State, n: nat) returns (t: State)
    requires Reachable(c, s) && s.tasks.Keys == {n} && s.tasks[n].event == 0 && s.tasks[n].pc == Check
    requires 0 in s.events && s.events[0].status == Pending && s.events[0].payload.Ids? && n !in s.copies && n !in s.published
    ensures Reachable(c, t) && t.tasks.Keys == {n} && t.tasks[n].event == 0 && t.tasks[n].pc == Mark(0)
    ensures t.events == s.events && t.leases == s.leases && t.published == s.published[n := n]
    ensures t.copies.Keys == s.copies.Keys + {n}
  {
    hide Reachable, NextWork, WorkEnabled, NextWorld, WorldEnabled;
    t := ReachableNext(c, s, Relay(n, CheckPublished(true)));
    assert t.events == s.events;
    t := ReachableNext(c, t, Relay(n, PublishCopy(n, Done)));
    assert t.events == s.events;
  }

  lemma ClaimsAgain(c: Config, s: State, n: nat) returns (t: State)
    requires Unmarked(c, s, n)
    ensures Reachable(c, t) && t.tasks.Keys == {n} && t.tasks[n].event == 0 && t.tasks[n].pc == Check
    ensures 0 in t.events && t.events[0].status == Pending && t.events[0].payload.Ids?
    ensures t.leases == s.leases[n := 0] && t.published == s.published && t.copies == s.copies
  {
    hide Reachable;
    var u := Expires(c, s);
    t := LeasesAgain(c, u, n);
  }

  lemma Expires(c: Config, s: State) returns (t: State)
    requires Reachable(c, s) && 0 in s.events && s.events[0].status == Pending
    ensures Reachable(c, t) && t == s.(now := t.now) && Leasable(t, 0)
  {
    hide Reachable;
    var delta: nat := if s.events[0].lockedUntil.Some? && s.events[0].lockedUntil.value >= s.now
                      then s.events[0].lockedUntil.value - s.now + 1 else 0;
    t := Ticks(c, s, delta);
  }

  lemma LeasesAgain(c: Config, s: State, n: nat) returns (t: State)
    requires Reachable(c, s) && s.tasks == map[] && Leasable(s, 0) && n !in s.leases
    ensures Reachable(c, t) && t.tasks == map[n := Task(0, s.now + 30, Check)]
    ensures t.events == s.events[0 := s.events[0].(lockedUntil := Some(s.now + 30))]
    ensures t.leases == s.leases[n := 0] && t.published == s.published && t.copies == s.copies
  {
    hide Reachable, NextWork, WorkEnabled, NextWorld, WorldEnabled, Leasable;
    t := ReachableNext(c, s, Relay(n, Lease(0, 30)));
  }

  function Below(n: nat): (ks: set<nat>)
    ensures |ks| == n && forall k: nat :: k in ks <==> k < n
  {
    if n == 0 then {} else Below(n - 1) + {n - 1}
  }

  /** So the bound on copies is met for every number of claims: an event whose marks keep failing is
      published once per claim, as often as it is claimed, and stays pending. */
  lemma {:induction false} PublishedAgainAtEveryClaim(c: Config, n: nat) returns (s: State)
    ensures Reachable(c, s) && 0 in s.events && s.events[0].status == Pending
    ensures |CopiesOf(s, 0)| == n == |ClaimsOf(s, 0)|
    ensures Unmarked(c, s, n)
  {
    if n == 0 {
      s := Init();
      assert Run(c, s, [], s);
      s := ReachableNext(c, s, World(Accept(0, 0, 0, Standard)));
      assert CopiesOf(s, 0) == {} && ClaimsOf(s, 0) == {};
    } else {
      s := PublishedAgainAtEveryClaim(c, n - 1);
      s := AnotherCopy(c, s, n - 1);
      assert CopiesOf(s, 0) == Below(n) && ClaimsOf(s, 0) == Below(n);
    }
  }

  // ----- published is final ---------------------------------------------------------------------------

  lemma PublishedRelay(s: State, t: nat, r: RelayStep, e: Uuid)
    requires RelayEnabled(s, t, r) && e in s.events && s.events[e].status == Published
    ensures e in NextRelay(s, t, r).events && NextRelay(s, t, r).events[e] == s.events[e]
  {
    hide NextTaskPc, SetTask;
  }

  lemma PublishedStep(c: Config, s: State, step: Step, e: Uuid)
    requires Enabled(s, step) && e in s.events && s.events[e].status == Published
    ensures e in Next(c, s, step).events && Next(c, s, step).events[e] == s.events[e]
  {
    hide NextRelay, NextWork;
    if step.Relay? { PublishedRelay(s, step.task, step.relay, e); }
  }

  /** A published event keeps its row for good: it is neither leased, counted as failed nor reverted. */
  lemma {:induction false} PublishedForever(c: Config, s: State, trace: seq<Step>, t: State, e: Uuid)
    requires Run(c, s, trace, t) && e in s.events && s.events[e].status == Published
    ensures e in t.events && t.events[e] == s.events[e]
    decreases |trace|
  {
    hide Next, Enabled;
    if trace != [] {
      PublishedStep(c, s, trace[0], e);
      PublishedForever(c, Next(c, s, trace[0]), trace[1..], t, e);
    }
  }
}
