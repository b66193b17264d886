/** The database and the broker as code sees them: a state that advances by one step per call, and
    by any steps of everybody else between two calls. */
module Shared {
  import opened Base
  import opened Pipeline
  import opened Wellformed
  import NoLoss
  import OperatorCalls

  /** What other relays may do while one has events in hand: anything; anything but act on those
      events, which is all they can do while leases are kept; or nothing, because there are none. */
  datatype Rivals = Anyone | InTime | Nobody

  /** Who is running: a worker's handler, or a relay with the claims it has made. */
  datatype Self = Handling(worker: nat) | Relaying(tasks: set<nat>, rivals: Rivals)

  predicate Concerns(s: State, step: Step, e: Uuid) {
    step.Relay? && if step.relay.Lease? then step.relay.event == e else step.task in s.tasks && s.tasks[step.task].event == e
  }

  /** The step is about an event that one of these claims still has in hand. */
  predicate Disputes(s: State, ts: set<nat>, step: Step) {
    exists k :: k in ts && k in s.tasks && Concerns(s, step, s.tasks[k].event)
  }

  /** A step that somebody else takes. */
  predicate Foreign(s: State, me: Self, step: Step) {
    match me
    case Handling(i) => !(step.Work? && step.worker == i)
    case Relaying(ts, rivals) =>
      step.Relay? ==> step.task !in ts && (rivals.InTime? ==> !Disputes(s, ts, step)) && !rivals.Nobody?
  }

  predicate SameHandler(s: State, t: State, i: nat) {
    (i in s.handlers <==> i in t.handlers) && (i in s.handlers ==> t.handlers[i] == s.handlers[i])
  }

  predicate SameTasks(s: State, t: State, ts: set<nat>) {
    forall k | k in ts :: (k in s.tasks <==> k in t.tasks) && (k in s.tasks ==> t.tasks[k] == s.tasks[k])
  }

  /** Events are only added. */
  predicate EventsKept(es: map<Uuid, Event>, es': map<Uuid, Event>) {
    forall e | e in es :: e in es' && es'[e] == es[e]
  }

  /** Events are never removed and keep their payloads. */
  predicate EventsStay(es: map<Uuid, Event>, es': map<Uuid, Event>) {
    forall e | e in es :: e in es' && es'[e].payload == es[e].payload
  }

  /** The events these claims have in hand are as they were. */
  predicate HeldKept(s: State, t: State, ts: set<nat>) {
    forall k | k in ts && k in s.tasks && s.tasks[k].event in s.events ::
      s.tasks[k].event in t.events && t.events[s.tasks[k].event] == s.events[s.tasks[k].event]
  }

  /** What the others leave to the one running. */
  ghost predicate Undisturbed(me: Self, s: State, t: State) {
    match me
    case Handling(i) => SameHandler(s, t, i)
    case Relaying(ts, rivals) =>
      && SameTasks(s, t, ts) && EventsStay(s.events, t.events)
      && (!rivals.Anyone? ==> HeldKept(s, t, ts))
      && (rivals.Nobody? ==> EventsKept(s.events, t.events))
  }

  lemma ForeignWorld(s: State, w: WorldStep)
    requires WorldEnabled(s, w)
    ensures EventsKept(s.events, NextWorld(s, w).events)
  {
  }

  lemma PayloadKept(e: Event, r: RelayStep)
    ensures NewEvent(e, r).payload == e.payload
  {
  }

  lemma RelayKeepsPayloads(s: State, t: nat, r: RelayStep)
    requires RelayEnabled(s, t, r)
    ensures EventsStay(s.events, NextRelay(s, t, r).events)
  {
    if !r.Lease? { PayloadKept(s.events[s.tasks[t].event], r); }
    hide NextTaskPc, NewEvent, SetTask, FreshCopy;
  }

  lemma RelayKeepsTasks(s: State, t: nat, r: RelayStep, ts: set<nat>)
    requires RelayEnabled(s, t, r) && t !in ts
    ensures SameTasks(s, NextRelay(s, t, r), ts)
  {
    hide NextTaskPc, NewEvent;
  }

  lemma RelayKeepsHeld(s: State, t: nat, r: RelayStep, ts: set<nat>)
    requires RelayEnabled(s, t, r) && !Disputes(s, ts, Relay(t, r))
    ensures HeldKept(s, NextRelay(s, t, r), ts)
  {
    hide NextTaskPc, NewEvent, SetTask, FreshCopy, Leasable;
    forall k | k in ts && k in s.tasks ensures !Concerns(s, Relay(t, r), s.tasks[k].event) {}
  }

  lemma ForeignWork(c: Config, s: State, j: nat, w: WorkStep, i: nat)
    requires WorkEnabled(s, j, w) && j != i
    ensures SameHandler(s, NextWork(c, s, j, w), i)
  {
    hide NewMessages, NewClaims, NewCalls, NewResumed, NewDlq, NextPc;
  }

  lemma ForeignStep(c: Config, me: Self, s: State, step: Step)
    requires Enabled(s, step) && Foreign(s, me, step)
    ensures Undisturbed(me, s, Next(c, s, step))
  {
    match step {
      case World(w) => ForeignWorld(s, w);
      case Relay(t, r) =>
        if me.Relaying? {
          RelayKeepsPayloads(s, t, r);
          RelayKeepsTasks(s, t, r, me.tasks);
          if me.rivals.InTime? { RelayKeepsHeld(s, t, r, me.tasks); }
        }
      case Work(j, w) => if me.Handling? { ForeignWork(c, s, j, w, me.worker); }
    }
    hide NextWorld, NextRelay, NextWork, Disputes;
  }

  lemma UndisturbedChain(me: Self, s: State, t: State, u: State)
    requires Undisturbed(me, s, t) && Undisturbed(me, t, u)
    ensures Undisturbed(me, s, u)
  {
  }

  lemma Still(me: Self, s: State)
    ensures Undisturbed(me, s, s)
  {
  }

  // ----- what one party has done ------------------------------------------------------------------

  /** The steps taken under one claim of an event, in order. */
  function RelayCalls(history: seq<Step>, t: nat): seq<RelayStep> {
    if history == [] then []
    else
      var before := RelayCalls(history[..|history| - 1], t);
      if Last(history).Relay? && Last(history).task == t then before + [Last(history).relay] else before
  }

  lemma RelayCallsSnoc(history: seq<Step>, step: Step, t: nat)
    ensures RelayCalls(history + [step], t)
            == RelayCalls(history, t) + (if step.Relay? && step.task == t then [step.relay] else [])
  {
    assert (history + [step])[..|history|] == history;
  }

  /** A step of a handler, and the state it was taken in. */
  datatype Found = Found(step: WorkStep, state: State)

  /** The steps of one handler along a run, in order. */
  ghost function Log(c: Config, s: State, trace: seq<Step>, i: nat): seq<Found>
    decreases |trace|
  {
    if trace == [] || !Enabled(s, trace[0]) then []
    else
      (if trace[0].Work? && trace[0].worker == i then [Found(trace[0].work, s)] else [])
      + Log(c, Next(c, s, trace[0]), trace[1..], i)
  }

  lemma {:induction false} LogSnoc(c: Config, s: State, trace: seq<Step>, t: State, step: Step, i: nat)
    requires Run(c, s, trace, t) && Enabled(t, step)
    ensures Log(c, s, trace + [step], i)
            == Log(c, s, trace, i) + (if step.Work? && step.worker == i then [Found(step.work, t)] else [])
    decreases |trace|
  {
    hide Enabled, Next;
    if trace == [] {
      assert trace + [step] == [step] && [step][1..] == [];
    } else {
      assert (trace + [step])[1..] == trace[1..] + [step];
      LogSnoc(c, Next(c, s, trace[0]), trace[1..], t, step, i);
    }
  }

  /** Nothing was done in the name of the one running. */
  ghost predicate NotByMe(c: Config, me: Self, before: seq<Step>, after: seq<Step>) {
    match me
    case Handling(i) => Log(c, Init(), after, i) == Log(c, Init(), before, i)
    case Relaying(ts, _) => forall t | t in ts :: RelayCalls(after, t) == RelayCalls(before, t)
  }

  lemma NothingDone(c: Config, me: Self, history: seq<Step>)
    ensures NotByMe(c, me, history, history)
  {
  }

  lemma ForeignIsNotByMe(c: Config, me: Self, before: seq<Step>, history: seq<Step>, s: State, step: Step)
    requires NotByMe(c, me, before, history) && Run(c, Init(), history, s) && Enabled(s, step) && Foreign(s, me, step)
    ensures NotByMe(c, me, before, history + [step])
  {
    hide Run, Enabled, Next;
    if me.Handling? {
      LogSnoc(c, Init(), history, s, step, me.worker);
    } else {
      forall t | t in me.tasks ensures RelayCalls(history + [step], t) == RelayCalls(before, t) {
        RelayCallsSnoc(history, step, t);
      }
    }
  }

  // ----- what never goes back -----------------------------------------------------------------------

  predicate Decided(cs: seq<Call>) { !OperatorCalls.Undecided(cs) && !Last(cs).InFlight? }

  /** Final statuses, decided calls and the dead letters are there to stay, and time does not go back. */
  ghost predicate Later(s: State, t: State) {
    && s.now <= t.now
    && Grows(s.messages, t.messages)
    && (forall m | Decided(CallsOf(s.calls, m)) :: CallsOf(t.calls, m) == CallsOf(s.calls, m))
    && (forall p | p in s.dlq :: p in t.dlq)
  }

  lemma DlqKept(c: Config, s: State, step: Step)
    requires Enabled(s, step)
    ensures forall p | p in s.dlq :: p in Next(c, s, step).dlq
  {
    hide NextWorld, NextRelay, NewMessages, NewClaims, NewCalls, NewResumed, NextPc, Settled;
  }

  lemma ClockRuns(c: Config, s: State, step: Step)
    requires Enabled(s, step)
    ensures s.now <= Next(c, s, step).now
  {
    if step.World? { WorldClockRuns(s, step.world); }
    hide NextWorld, NextRelay, NextWork;
  }

  lemma WorldClockRuns(s: State, w: WorldStep)
    requires WorldEnabled(s, w)
    ensures s.now <= NextWorld(s, w).now
  {
    hide FreshMessage, FreshCopy;
  }

  lemma StepIsLater(c: Config, s: State, step: Step)
    requires Reachable(c, s) && Enabled(s, step)
    ensures Later(s, Next(c, s, step))
  {
    NoLoss.InvReachable(c, s);
    OperatorCalls.InvReachable(c, s);
    hide Reachable, Enabled, Next, HoldersAgree, PathsAgree, RowLocks, EventsAgree, TasksAgree, Grows, CallsOf;
    ClockRuns(c, s, step);
    StepGrows(c, s, step);
    DlqKept(c, s, step);
    forall m | Decided(CallsOf(s.calls, m)) ensures CallsOf(Next(c, s, step).calls, m) == CallsOf(s.calls, m) {
      OperatorCalls.DecidedForever(c, s, step, m);
    }
  }

  lemma LaterChain(s: State, t: State, u: State)
    requires Later(s, t) && Later(t, u)
    ensures Later(s, u)
  {
    hide CallsOf;
  }

  lemma LaterStart(s: State)
    ensures Later(s, s)
  {
  }

  class World {
    const config: Config
    var s: State
    ghost var history: seq<Step>

    constructor (config: Config)
      ensures Valid() && this.config == config && s == Init() && history == []
    {
      this.config := config;
      s, history := Init(), [];
    }

    /** The state is where some run of the whole system has led. */
    ghost predicate Valid()
      reads this
    {
      Run(config, Init(), history, s)
    }

    lemma IsReachable()
      requires Valid()
      ensures Reachable(config, s)
    {
      hide Run;
    }

    method Step(step: Step)
      requires Valid() && Enabled(s, step)
      modifies this
      ensures Valid() && s == Next(config, old(s), step) && history == old(history) + [step]
    {
      hide Run, Enabled, Next;
      RunSnoc(config, Init(), history, s, step);
      history := history + [step];
      s := Next(config, s, step);
    }

    /** Any number of steps of everybody else, in any order. */
    method Others(me: Self)
      requires Valid()
      modifies this
      ensures Valid() && Undisturbed(me, old(s), s) && old(history) <= history
      ensures NotByMe(config, me, old(history), history) && Later(old(s), s)
    {
      hide Run, Enabled, Next, Undisturbed, Foreign, NotByMe, Later, Reachable;
      Still(me, s);
      LaterStart(s);
      NothingDone(config, me, history);
      var k, n: int := 0, *;
      while k < n
        invariant Valid() && Undisturbed(me, old(s), s) && old(history) <= history
        invariant NotByMe(config, me, old(history), history) && Later(old(s), s)
      {
        var step: Step := *;
        if Enabled(s, step) && Foreign(s, me, step) {
          ForeignStep(config, me, s, step);
          UndisturbedChain(me, old(s), s, Next(config, s, step));
          ForeignIsNotByMe(config, me, old(history), history, s, step);
          IsReachable();
          StepIsLater(config, s, step);
          LaterChain(old(s), s, Next(config, s, step));
          Step(step);
        }
        k := k + 1;
      }
    }
  }
}
