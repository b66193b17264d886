/** The outbox relay, call by call: claim a batch under a lease, publish each event with a confirm,
    mark it with retries or record the failure. Everybody else may move between any two calls, and
    any call may fail. */
module OutboxRelay {
  import opened Base
  import opened Pipeline
  import opened Shared
  import opened Wellformed
  import opened OutboxBatch
  import Leases

  const BACKOFF_MS: int := 50
  const DEFAULT_LEASE_MS: int := 30_000

  /** The phase publishEvent fails in. */
  datatype Phase = CheckPhase | DecodePhase | PublishPhase | MarkPhase

  // ----- what an event may come to ----------------------------------------------------------------

  /** A failure was recorded: unlocked, one retry more, still pending. */
  function Retried(e: Event): Event { e.(retries := e.retries + 1, lockedUntil := None) }

  /** At that point of the run the broker confirmed a copy of the event's own payload, on the queue
      of its own message type, published under this claim. */
  ghost predicate ConfirmedAt(c: Config, history: seq<Step>, x: Claimed, k: nat, cp: nat, u: State) {
    && k < |history| && history[k] == Pipeline.Step.Relay(x.task, PublishCopy(cp, Done))
    && Run(c, Init(), history[..k + 1], u)
    && x.payload.Ids? && cp in u.copies && u.copies[cp] == Copy(x.payload.kind, x.payload, false, 0, None)
  }

  ghost predicate Confirmed(c: Config, history: seq<Step>, x: Claimed) {
    exists k, cp, u :: ConfirmedAt(c, history, x, k, cp, u)
  }

  lemma JustConfirmed(c: Config, before: seq<Step>, s: State, x: Claimed, cp: nat)
    requires var history := before + [Pipeline.Step.Relay(x.task, PublishCopy(cp, Done))]; Run(c, Init(), history, s)
    requires x.payload.Ids? && cp in s.copies && s.copies[cp] == Copy(x.payload.kind, x.payload, false, 0, None)
    ensures Confirmed(c, before + [Pipeline.Step.Relay(x.task, PublishCopy(cp, Done))], x)
  {
    hide Run;
    var history := before + [Pipeline.Step.Relay(x.task, PublishCopy(cp, Done))];
    assert history[..|before| + 1] == history;
    assert ConfirmedAt(c, history, x, |before|, cp, s);
  }

  lemma ConfirmedStays(c: Config, history: seq<Step>, later: seq<Step>, x: Claimed)
    requires history <= later
    ensures Confirmed(c, history, x) ==> Confirmed(c, later, x)
  {
    hide Run;
    if Confirmed(c, history, x) {
      var k, cp, u :| ConfirmedAt(c, history, x, k, cp, u);
      assert later[..k + 1] == history[..k + 1];
      assert ConfirmedAt(c, later, x, k, cp, u);
    }
  }

  /** What working on one event came to: the phase that failed, how recording the failure went if it
      was recorded, and the calls that were made. */
  datatype Report = Report(failed: Option<Phase>, recorded: Option<Io>, calls: seq<RelayStep>)

  /** How the attempts to mark went. */
  function Marks(calls: seq<RelayStep>): seq<Io> {
    if calls == [] then []
    else
      var before := Marks(calls[..|calls| - 1]);
      if Last(calls).MarkPublished? then before + [Last(calls).io] else before
  }

  lemma MarksSnoc(calls: seq<RelayStep>, r: RelayStep)
    ensures Marks(calls + [r]) == Marks(calls) + (if r.MarkPublished? then [r.io] else [])
  {
    assert (calls + [r])[..|calls|] == calls;
  }

  lemma MarksOneMore(calls: seq<RelayStep>, more: seq<RelayStep>, io: Io)
    requires more == [MarkPublished(io)] || exists looked :: more == [MarkPublished(io), RecheckPublished(looked)]
    ensures Marks(calls + more) == Marks(calls) + [io]
  {
    MarksSnoc(calls, MarkPublished(io));
    if |more| == 2 {
      assert more == [more[0]] + [more[1]] && calls + more == (calls + [more[0]]) + [more[1]];
      MarksSnoc(calls + [more[0]], more[1]);
    }
  }

  /** Five attempts, and none of them reported success. */
  predicate AllMarksFailed(calls: seq<RelayStep>) {
    |Marks(calls)| == 5 && forall k | 0 <= k < 5 :: Marks(calls)[k] != Done
  }

  /** The failed call is among those made. */
  ghost predicate FailedAt(failed: Option<Phase>, calls: seq<RelayStep>, x: Claimed) {
    match failed
    case None => true
    case Some(CheckPhase) => CheckPublished(false) in calls
    case Some(DecodePhase) => x.payload == Malformed
    case Some(PublishPhase) => exists cp, io :: io != Done && PublishCopy(cp, io) in calls
    case Some(MarkPhase) => AllMarksFailed(calls)
  }

  lemma NoMarks()
    ensures Marks([]) == []
  {
  }

  lemma {:induction false} MarksAfter(calls: seq<RelayStep>, more: seq<RelayStep>)
    ensures (forall r | r in calls :: !r.MarkPublished?) ==> Marks(calls + more) == Marks(more)
    decreases |more|
  {
    if more == [] {
      assert calls + more == calls;
      NoneAmong(calls);
    } else {
      var before := more[..|more| - 1];
      MarksAfter(calls, before);
      assert calls + more == (calls + before) + [Last(more)] && more == before + [Last(more)];
      MarksSnoc(calls + before, Last(more));
      MarksSnoc(before, Last(more));
    }
  }

  lemma {:induction false} NoneAmong(calls: seq<RelayStep>)
    ensures (forall r | r in calls :: !r.MarkPublished?) ==> Marks(calls) == []
  {
    if calls != [] {
      NoneAmong(calls[..|calls| - 1]);
      assert Last(calls) in calls;
    }
  }

  /** A failure is reported only when the call it names did fail, and every failure but that of the mark
      has been recorded, or recording it has been tried. */
  ghost predicate Justified(report: Report, x: Claimed) {
    && FailedAt(report.failed, report.calls, x)
    && (if report.failed == None || report.failed.value == MarkPhase then report.recorded == None else WasRecorded(report))
  }

  predicate WasRecorded(report: Report) {
    report.recorded.Some? && report.calls != [] && Last(report.calls) == RecordFailure(report.recorded.value)
  }

  /** What the event has come to. No failure: published, with a confirmed copy of its payload put on its own
      queue. A failed mark: likewise confirmed, and as leased, unless a mark took effect without saying so.
      Any other failure: unlocked and retried once more, or as leased if the recording was refused. */
  ghost predicate Fate(c: Config, leased: Event, e: Event, history: seq<Step>, x: Claimed, report: Report) {
    match report.failed
    case None => e.status == Published && Confirmed(c, history, x)
    case Some(MarkPhase) =>
      && Confirmed(c, history, x)
      && (if Unsure in Marks(report.calls) then e.status == Published else e == leased)
    case Some(_) =>
      report.recorded.Some? && e == if report.recorded.value.Applied() then Retried(leased) else leased
  }

  /** The fates exclude each other. */
  lemma FatesExclude(leased: Event, e: Event)
    requires leased.status == Pending && leased.lockedUntil.Some?
    ensures !(e.status == Published && e == Retried(leased)) && !(e.status == Published && e == leased)
    ensures Retried(leased) != leased
  {
  }

  // ----- how long a relay sleeps ----------------------------------------------------------------------

  /** What has been slept, in milliseconds, when the first, second, ... attempt is the last. */
  const SLEPT: seq<nat> := [0, 50, 150, 300, 500]

  /** At the default batch size the sleeps of one poll fit into the default lease. */
  lemma SleepsInsideLease(slept: nat, n: nat, batchSize: int)
    requires slept <= 500 * n && n <= Limit(batchSize)
    ensures batchSize <= DEFAULT_BATCH ==> slept <= 25_000 < DEFAULT_LEASE_MS
  {
  }

  // ----- one call ---------------------------------------------------------------------------------------

  predicate ElseKept(es: map<Uuid, Event>, es': map<Uuid, Event>, e: Uuid) {
    forall x | x in es && x != e :: x in es' && es'[x] == es[x]
  }

  /** The other events in hand are as they were. */
  predicate OthersHeld(s: State, u: State, ts: set<nat>, e: Uuid) {
    forall k | k in ts && k in s.tasks && s.tasks[k].event in s.events && s.tasks[k].event != e ::
      s.tasks[k].event in u.events && u.events[s.tasks[k].event] == s.events[s.tasks[k].event]
  }

  /** What stays as it is while a relay works on one of its events. */
  ghost predicate Progress(s: State, u: State, mine: set<nat>, rivals: Rivals, x: Claimed) {
    && SameTasks(s, u, mine - {x.task}) && EventsStay(s.events, u.events)
    && (!rivals.Anyone? ==> OthersHeld(s, u, mine - {x.task}, x.event))
    && (rivals.Nobody? ==> ElseKept(s.events, u.events, x.event))
  }

  lemma ProgressChain(s: State, u: State, v: State, mine: set<nat>, rivals: Rivals, x: Claimed)
    requires Progress(s, u, mine, rivals, x) && Progress(u, v, mine, rivals, x)
    ensures Progress(s, v, mine, rivals, x)
  {
  }

  lemma ProgressStart(s: State, mine: set<nat>, rivals: Rivals, x: Claimed)
    ensures Progress(s, s, mine, rivals, x)
  {
  }

  /** Waiting does not change the event, unless others may act on what this relay has in hand. */
  lemma WaitIsProgress(s: State, u: State, mine: set<nat>, rivals: Rivals, x: Claimed, pc: TaskPc)
    requires Undisturbed(Relaying(mine, rivals), s, u) && x.task in mine && Holds(s, x, pc)
    ensures Progress(s, u, mine, rivals, x) && Holds(u, x, pc)
    ensures !rivals.Anyone? ==> u.events[x.event] == s.events[x.event]
  {
  }

  lemma CallKeepsElse(c: Config, s: State, x: Claimed, r: RelayStep)
    requires RelayEnabled(s, x.task, r) && !r.Lease? && x.task in s.tasks && s.tasks[x.task].event == x.event
    ensures var u := Next(c, s, Pipeline.Step.Relay(x.task, r));
            && ElseKept(s.events, u.events, x.event)
            && (forall k | k != x.task :: (k in s.tasks <==> k in u.tasks) && (k in s.tasks ==> u.tasks[k] == s.tasks[k]))
  {
    hide NextTaskPc, NewEvent, FreshCopy;
  }

  lemma CallTakesNoTime(c: Config, s: State, t: nat, r: RelayStep)
    requires RelayEnabled(s, t, r)
    ensures Next(c, s, Pipeline.Step.Relay(t, r)).now == s.now
  {
    hide NextRelay;
  }

  lemma ElseIsProgress(s: State, u: State, mine: set<nat>, rivals: Rivals, x: Claimed)
    requires ElseKept(s.events, u.events, x.event)
    requires x.event in s.events ==> x.event in u.events && u.events[x.event].payload == s.events[x.event].payload
    requires forall k | k != x.task :: (k in s.tasks <==> k in u.tasks) && (k in s.tasks ==> u.tasks[k] == s.tasks[k])
    ensures Progress(s, u, mine, rivals, x)
  {
  }

  lemma CallDoes(c: Config, s: State, x: Claimed, r: RelayStep, pc: TaskPc)
    requires RelayEnabled(s, x.task, r) && !r.Lease? && Holds(s, x, pc)
    ensures var u := Next(c, s, Pipeline.Step.Relay(x.task, r));
            && x.event in u.events && u.events[x.event] == NewEvent(s.events[x.event], r)
            && u.events[x.event].payload == x.payload
            && (match NextTaskPc(s.tasks[x.task], s.events[x.event], r)
                case None => x.task !in u.tasks
                case Some(next) => Holds(u, x, next))
            && (r.PublishCopy? && r.io.Applied() ==>
                  r.copy in u.copies && u.copies[r.copy] == Copy(x.payload.kind, x.payload, false, 0, None))
  {
    PayloadKept(s.events[x.event], r);
    hide NextTaskPc, NewEvent, FreshCopy;
  }

  /** One call of the relay: its own task and its own event move, nothing else. */
  lemma CallMoves(c: Config, s: State, x: Claimed, r: RelayStep, mine: set<nat>, rivals: Rivals, pc: TaskPc)
    requires RelayEnabled(s, x.task, r) && !r.Lease? && Holds(s, x, pc)
    ensures var u := Next(c, s, Pipeline.Step.Relay(x.task, r));
            && Progress(s, u, mine, rivals, x) && u.now == s.now
            && x.event in u.events && u.events[x.event] == NewEvent(s.events[x.event], r)
            && (match NextTaskPc(s.tasks[x.task], s.events[x.event], r)
                case None => x.task !in u.tasks
                case Some(next) => Holds(u, x, next))
            && (r.PublishCopy? && r.io.Applied() ==>
                  r.copy in u.copies && u.copies[r.copy] == Copy(x.payload.kind, x.payload, false, 0, None))
  {
    hide Next, RelayEnabled, Progress, NextTaskPc, NewEvent;
    CallTakesNoTime(c, s, x.task, r);
    CallKeepsElse(c, s, x, r);
    CallDoes(c, s, x, r, pc);
    ElseIsProgress(s, Next(c, s, Pipeline.Step.Relay(x.task, r)), mine, rivals, x);
  }

  lemma TickMoves(c: Config, s: State, ms: nat, mine: set<nat>, rivals: Rivals, x: Claimed, pc: TaskPc)
    requires Holds(s, x, pc)
    ensures var u := Next(c, s, World(Tick(ms)));
            Progress(s, u, mine, rivals, x) && Holds(u, x, pc) && u.events == s.events && u.now == s.now + ms
  {
  }

  /** While every relay keeps to its leases, the steps of other relays that InTime leaves out cannot
      be taken anyway: none is enabled about an event this relay has in hand. */
  lemma TimelyRelaysAreInTime(c: Config, trace: seq<Step>, s: State, mine: set<nat>, step: Step)
    requires forall k | k in mine && k in s.tasks :: Leases.TimelyRun(c, Init(), trace, s, s.tasks[k].event)
    requires Enabled(s, step) && (step.Relay? ==> step.task !in mine)
    ensures Foreign(s, Relaying(mine, InTime), step)
  {
    if step.Relay? && Disputes(s, mine, step) {
      var k :| k in mine && k in s.tasks && Concerns(s, step, s.tasks[k].event);
      Leases.NoRivalStep(c, trace, s, s.tasks[k].event, k, step.task, step.relay);
    }
    hide Leases.TimelyRun, RelayEnabled;
  }

  // ----- a batch ------------------------------------------------------------------------------------------

  /** A point of the run and the state it had led to. */
  datatype Instant = Instant(steps: nat, state: State)

  ghost predicate IsInstant(c: Config, history: seq<Step>, m: Instant) {
    m.steps <= |history| && Run(c, Init(), history[..m.steps], m.state)
  }

  lemma InstantStays(c: Config, history: seq<Step>, later: seq<Step>, m: Instant)
    requires IsInstant(c, history, m) && history <= later
    ensures IsInstant(c, later, m)
  {
    hide Run;
    assert later[..m.steps] == history[..m.steps];
  }

  /** A point of the run, the state it had led to, and what was reported of an event there. */
  datatype Moment = Moment(steps: nat, state: State, report: Report)

  predicate EndsWith<T(==)>(whole: seq<T>, end: seq<T>) { |end| <= |whole| && whole[|whole| - |end|..] == end }

  /** The report is true: its calls are the last ones made about the event by then, and justify it. */
  ghost predicate Told(history: seq<Step>, m: Moment, x: Claimed) {
    && m.steps <= |history| && EndsWith(RelayCalls(history[..m.steps], x.task), m.report.calls)
    && Justified(m.report, x)
  }

  ghost predicate IsMoment(c: Config, history: seq<Step>, m: Moment) {
    IsInstant(c, history, Instant(m.steps, m.state))
  }

  /** At that moment the relay had let go of the event, and the event had met one of its fates. */
  ghost predicate LetGo(c: Config, leased: State, history: seq<Step>, m: Moment, x: Claimed) {
    && Told(history, m, x)
    && IsMoment(c, history, m) && x.task !in m.state.tasks
    && x.event in leased.events && x.event in m.state.events
    && Fate(c, leased.events[x.event], m.state.events[x.event], history[..m.steps], x, m.report)
  }

  lemma LetGoStays(c: Config, leased: State, history: seq<Step>, later: seq<Step>, m: Moment, x: Claimed)
    requires LetGo(c, leased, history, m, x) && history <= later
    ensures LetGo(c, leased, later, m, x)
  {
    assert later[..m.steps] == history[..m.steps];
    hide Run, Fate, RelayCalls, Justified;
  }

  /** The events let go of are through, the others are as they were claimed. */
  ghost predicate Worked(leased: State, s: State, batch: seq<Claimed>, i: nat, mine: set<nat>) {
    && i <= |batch|
    && (forall k | 0 <= k < |batch| :: batch[k].task in mine && batch[k].event in leased.events && batch[k].event in s.events)
    && (forall j, k | 0 <= j < k < |batch| :: batch[j].task != batch[k].task && batch[j].event != batch[k].event)
    && (forall k | 0 <= k < |batch| :: leased.events[batch[k].event].status == Pending)
    && (forall k | 0 <= k < i :: batch[k].task !in s.tasks)
    && (forall k | i <= k < |batch| :: Holds(s, batch[k], Check))
  }

  ghost predicate Waiting(leased: State, s: State, batch: seq<Claimed>, i: nat) {
    forall k | i <= k < |batch| :: batch[k].event in leased.events && batch[k].event in s.events
                                   && s.events[batch[k].event] == leased.events[batch[k].event]
  }

  ghost predicate Released(c: Config, leased: State, history: seq<Step>, batch: seq<Claimed>, released: seq<Moment>) {
    |released| <= |batch| && forall k | 0 <= k < |released| :: LetGo(c, leased, history, released[k], batch[k])
  }

  /** Nobody has touched the released events since, nor any event outside the batch. */
  ghost predicate LeftAlone(leased: State, s: State, batch: seq<Claimed>, released: seq<Moment>) {
    && |released| <= |batch|
    && (forall k | 0 <= k < |released| :: batch[k].event in s.events && batch[k].event in released[k].state.events
                                          && s.events[batch[k].event] == released[k].state.events[batch[k].event])
    && (forall e | e in leased.events && e !in Taken(batch) :: e in s.events && s.events[e] == leased.events[e])
  }

  ghost predicate Going(c: Config, leased: State, s: State, history: seq<Step>, batch: seq<Claimed>, released: seq<Moment>,
                        mine: set<nat>, rivals: Rivals)
  {
    && Worked(leased, s, batch, |released|, mine)
    && (!rivals.Anyone? ==> Waiting(leased, s, batch, |released|) && Released(c, leased, history, batch, released))
    && (rivals.Nobody? ==> LeftAlone(leased, s, batch, released))
  }

  lemma WorkBegins(c: Config, before: State, s: State, history: seq<Step>, batch: seq<Claimed>, mine: set<nat>, most: int,
                   hold: nat, rivals: Rivals)
    requires Claims(before, s, batch, mine, most, hold)
    ensures Going(c, s, s, history, batch, [], mine, rivals)
  {
    hide LetGo;
    forall k | 0 <= k < |batch| ensures batch[k].event in Taken(batch) {}
  }

  lemma WorkNext(c: Config, leased: State, s: State, history: seq<Step>, batch: seq<Claimed>, released: seq<Moment>,
                 mine: set<nat>, rivals: Rivals)
    requires Going(c, leased, s, history, batch, released, mine, rivals) && |released| < |batch|
    ensures var x := batch[|released|];
            && Holds(s, x, Check) && x.task in mine && x.event in leased.events && leased.events[x.event].status == Pending
            && (!rivals.Anyone? ==> s.events[x.event] == leased.events[x.event])
  {
  }

  lemma WorkedOneMore(leased: State, s: State, u: State, batch: seq<Claimed>, i: nat, mine: set<nat>, rivals: Rivals)
    requires Worked(leased, s, batch, i, mine) && i < |batch|
    requires Progress(s, u, mine, rivals, batch[i]) && batch[i].event in u.events && batch[i].task !in u.tasks
    ensures Worked(leased, u, batch, i + 1, mine)
    ensures !rivals.Anyone? && Waiting(leased, s, batch, i) ==> Waiting(leased, u, batch, i + 1)
  {
  }

  lemma ReleasedOneMore(c: Config, leased: State, history: seq<Step>, later: seq<Step>, batch: seq<Claimed>,
                        released: seq<Moment>, m: Moment)
    requires Released(c, leased, history, batch, released) && |released| < |batch| && history <= later
    requires LetGo(c, leased, later, m, batch[|released|])
    ensures Released(c, leased, later, batch, released + [m])
  {
    hide LetGo;
    forall k | 0 <= k < |released| ensures LetGo(c, leased, later, released[k], batch[k]) {
      LetGoStays(c, leased, history, later, released[k], batch[k]);
    }
  }

  lemma LeftAloneOneMore(leased: State, s: State, u: State, batch: seq<Claimed>, released: seq<Moment>, m: Moment,
                         mine: set<nat>)
    requires LeftAlone(leased, s, batch, released) && |released| < |batch| && Worked(leased, s, batch, |released|, mine)
    requires Progress(s, u, mine, Nobody, batch[|released|]) && m.state == u && batch[|released|].event in u.events
    ensures LeftAlone(leased, u, batch, released + [m])
  {
    forall k | 0 <= k < |batch| ensures batch[k].event in Taken(batch) {}
    hide Taken;
  }

  lemma GoingOneMore(c: Config, leased: State, s: State, u: State, history: seq<Step>, later: seq<Step>, batch: seq<Claimed>,
                     released: seq<Moment>, m: Moment, mine: set<nat>, rivals: Rivals)
    requires Going(c, leased, s, history, batch, released, mine, rivals) && |released| < |batch| && history <= later
    requires Progress(s, u, mine, rivals, batch[|released|]) && batch[|released|].event in u.events
    requires batch[|released|].task !in u.tasks && m.state == u
    requires !rivals.Anyone? ==> LetGo(c, leased, later, m, batch[|released|])
    ensures Going(c, leased, u, later, batch, released + [m], mine, rivals)
  {
    hide LetGo, Progress;
    WorkedOneMore(leased, s, u, batch, |released|, mine, rivals);
    if !rivals.Anyone? { ReleasedOneMore(c, leased, history, later, batch, released, m); }
    if rivals.Nobody? { LeftAloneOneMore(leased, s, u, batch, released, m, mine); }
    hide Worked, Waiting, Released, LeftAlone;
  }

  /** The same, counted from the row the batch was locked out of. */
  ghost predicate MetFate(c: Config, before: State, hold: nat, history: seq<Step>, m: Moment, x: Claimed) {
    && Told(history, m, x)
    && IsMoment(c, history, m) && x.task !in m.state.tasks && x.event in before.events && x.event in m.state.events
    && Fate(c, Locked(before.events[x.event], before.now + hold), m.state.events[x.event], history[..m.steps], x, m.report)
  }

  ghost predicate StillAsReleased(m: Moment, s: State, x: Claimed) {
    x.event in s.events && x.event in m.state.events && s.events[x.event] == m.state.events[x.event]
  }

  lemma WorkEnds(c: Config, before: State, leased: State, s: State, history: seq<Step>, batch: seq<Claimed>,
                 released: seq<Moment>, mine: set<nat>, most: int, hold: nat, rivals: Rivals)
    requires Claims(before, leased, batch, mine, most, hold) && |released| == |batch|
    requires Going(c, leased, s, history, batch, released, mine, rivals)
    ensures |batch| <= most && OldestFirst(before.events, Eligible(before), batch)
    ensures forall k | 0 <= k < |batch| :: batch[k].task !in s.tasks && batch[k].event in s.events
    ensures !rivals.Anyone? ==> forall k | 0 <= k < |batch| :: MetFate(c, before, hold, history, released[k], batch[k])
    ensures rivals.Nobody? ==>
              && (forall k | 0 <= k < |batch| :: StillAsReleased(released[k], s, batch[k]))
              && (forall e | e in before.events && e !in Taken(batch) :: e in s.events && s.events[e] == before.events[e])
  {
    hide OldestFirst, Taken, Eligible, Fate, Run, RelayCalls, Justified;
    if !rivals.Anyone? {
      forall k | 0 <= k < |batch| ensures MetFate(c, before, hold, history, released[k], batch[k]) {
        assert LetGo(c, leased, history, released[k], batch[k]);
        LeasedEvent(before, leased, batch, hold, k);
      }
    }
  }

  class Relay {
    const world: World
    const rivals: Rivals
    var mine: set<nat>

    constructor (world: World, rivals: Rivals)
      ensures this.world == world && this.rivals == rivals && mine == {}
    {
      this.world, this.rivals, this.mine := world, rivals, {};
    }

    /** Ready to make the next call about the event. */
    ghost predicate Ready(x: Claimed, pc: TaskPc)
      reads this, world
    {
      world.Valid() && x.task in mine && Holds(world.s, x, pc)
    }

    /** Since `s` the run has gone on, and of this relay's work only that on `x`. */
    twostate predicate Moved(x: Claimed)
      reads this, world
    {
      && world.Valid() && old(world.history) <= world.history && old(world.s.now) <= world.s.now
      && Progress(old(world.s), world.s, mine, rivals, x)
    }

    function EventOf(x: Claimed): Event
      reads world
      requires x.event in world.s.events
    {
      world.s.events[x.event]
    }

    ghost function Calls(x: Claimed): seq<RelayStep>
      reads world
    {
      RelayCalls(world.history, x.task)
    }

    /** Everybody else moves; this relay's events wait. */
    method Wait(x: Claimed, ghost pc: TaskPc)
      requires Ready(x, pc)
      modifies world
      ensures Moved(x) && Ready(x, pc) && Calls(x) == old(Calls(x))
      ensures !rivals.Anyone? ==> EventOf(x) == old(EventOf(x))
    {
      hide Run, RelayCalls, Grows, Decided;
      world.Others(Relaying(mine, rivals));
      hide Undisturbed, Holds, Progress;
      WaitIsProgress(old(world.s), world.s, mine, rivals, x, pc);
    }

    /** One call of this relay about one of its events. */
    method Act(x: Claimed, r: RelayStep, ghost pc: TaskPc)
      requires Ready(x, pc) && !r.Lease? && RelayEnabled(world.s, x.task, r)
      modifies world
      ensures Moved(x) && x.event in world.s.events && EventOf(x) == NewEvent(old(EventOf(x)), r)
      ensures world.history == old(world.history) + [Pipeline.Step.Relay(x.task, r)]
      ensures Calls(x) == old(Calls(x)) + [r]
      ensures match NextTaskPc(old(world.s).tasks[x.task], old(EventOf(x)), r)
              case None => x.task !in world.s.tasks
              case Some(next) => Ready(x, next)
      ensures r.PublishCopy? && r.io.Applied() ==>
                r.copy in world.s.copies && world.s.copies[r.copy] == Copy(x.payload.kind, x.payload, false, 0, None)
    {
      hide Run, Next, RelayEnabled, Progress, NewEvent, NextTaskPc, RelayCalls;
      CallMoves(world.config, world.s, x, r, mine, rivals, pc);
      RelayCallsSnoc(world.history, Pipeline.Step.Relay(x.task, r), x.task);
      world.Step(Pipeline.Step.Relay(x.task, r));
    }

    /** Wait, then one call; `before` is the state the call found. */
    lemma Chain(s: State, before: State, x: Claimed)
      requires Progress(s, before, mine, rivals, x) && Progress(before, world.s, mine, rivals, x)
      ensures Progress(s, world.s, mine, rivals, x)
    {
      ProgressChain(s, before, world.s, mine, rivals, x);
    }

    // ----- store and broker calls ---------------------------------------------------------------

    /** IsPublished before publishing. */
    method CheckPublished(x: Claimed) returns (ok: bool, published: bool)
      requires Ready(x, Check)
      modifies world
      ensures Moved(x) && x.event in world.s.events && Calls(x) == old(Calls(x)) + [RelayStep.CheckPublished(ok)]
      ensures !rivals.Anyone? ==> EventOf(x) == old(EventOf(x))
      ensures ok ==> (published <==> EventOf(x).status == Published)
      ensures ok && published ==> x.task !in world.s.tasks
      ensures !(ok && published) ==> Ready(x, if !ok || x.payload == Malformed then Record else Publish)
    {
      hide Run, Progress;
      Wait(x, Check);
      ghost var before := world.s;
      ok := *;
      published := ok && EventOf(x).status == Published;
      Act(x, RelayStep.CheckPublished(ok), Check);
      Chain(old(world.s), before, x);
    }

    /** Publish with a confirm, on the queue of the payload's own message type. */
    method PublishConfirmed(x: Claimed) returns (ok: bool, copy: nat, io: Io)
      requires Ready(x, Publish) && x.payload.Ids?
      modifies world
      ensures Moved(x) && Ready(x, if ok then Mark(0) else Record)
      ensures (ok <==> io == Done) && Calls(x) == old(Calls(x)) + [PublishCopy(copy, io)]
      ensures !rivals.Anyone? ==> EventOf(x) == old(EventOf(x))
      ensures ok ==> Confirmed(world.config, world.history, x) && copy in world.s.copies
                     && world.s.copies[copy] == Copy(x.payload.kind, x.payload, false, 0, None)
    {
      hide Run, Progress, Confirmed;
      Wait(x, Publish);
      ghost var before := world.s;
      copy := UnusedNat(world.s.copies.Keys + world.s.published.Keys);
      io := *;
      ok := io == Done;
      ghost var h := world.history;
      Act(x, PublishCopy(copy, io), Publish);
      if ok { JustConfirmed(world.config, h, world.s, x, copy); }
      Chain(old(world.s), before, x);
    }

    /** MarkPublished: no error when the event is published already. */
    method MarkPublishedOnce(x: Claimed, attempt: nat) returns (ok: bool, io: Io)
      requires Ready(x, Mark(attempt))
      modifies world
      ensures Moved(x) && x.event in world.s.events && Calls(x) == old(Calls(x)) + [MarkPublished(io)]
      ensures ok <==> io == Done
      ensures ok ==> x.task !in world.s.tasks
      ensures !ok ==> Ready(x, Recheck(attempt))
      ensures io.Applied() ==> EventOf(x).status == Published
      ensures !rivals.Anyone? && !io.Applied() ==> EventOf(x) == old(EventOf(x))
    {
      hide Run, Progress;
      Wait(x, Mark(attempt));
      ghost var before := world.s;
      io := *;
      ok := io == Done;
      Act(x, MarkPublished(io), Mark(attempt));
      Chain(old(world.s), before, x);
    }

    /** IsPublished after a failed mark. */
    method LookAgain(x: Claimed, attempt: nat) returns (ok: bool, published: bool)
      requires Ready(x, TaskPc.Recheck(attempt))
      modifies world
      ensures Moved(x) && x.event in world.s.events && Calls(x) == old(Calls(x)) + [RecheckPublished(ok)]
      ensures ok && published ==> EventOf(x).status == Published
      ensures !rivals.Anyone? ==> EventOf(x) == old(EventOf(x))
      ensures if !(ok && published) && attempt + 1 < MARK_PUBLISHED_MAX_ATTEMPTS then Ready(x, Mark(attempt + 1))
              else x.task !in world.s.tasks
    {
      hide Run, Progress;
      Wait(x, TaskPc.Recheck(attempt));
      ghost var before := world.s;
      ok := *;
      published := ok && EventOf(x).status == Published;
      Act(x, RecheckPublished(ok), TaskPc.Recheck(attempt));
      Chain(old(world.s), before, x);
    }

    /** RecordPublishFailure; its own failure is only logged. */
    method RecordPublishFailure(x: Claimed) returns (io: Io)
      requires Ready(x, Record)
      modifies world
      ensures Moved(x) && x.event in world.s.events && x.task !in world.s.tasks
      ensures Calls(x) == old(Calls(x)) + [RecordFailure(io)]
      ensures !rivals.Anyone? && old(EventOf(x)).status == Pending ==>
                EventOf(x) == if io.Applied() then Retried(old(EventOf(x))) else old(EventOf(x))
      ensures io.Applied() ==> EventOf(x).status == Published || (EventOf(x).lockedUntil == None && EventOf(x).retries > 0)
    {
      hide Run, Progress;
      Wait(x, Record);
      ghost var before := world.s;
      io := *;
      Act(x, RecordFailure(io), Record);
      Chain(old(world.s), before, x);
    }

    // ----- the relay ------------------------------------------------------------------------------

    /** time.Sleep: the clock moves and so may everybody else, at the next call. */
    method Sleep(x: Claimed, ms: nat, ghost pc: TaskPc)
      requires Ready(x, pc)
      modifies world
      ensures Moved(x) && Ready(x, pc) && EventOf(x) == old(EventOf(x)) && Calls(x) == old(Calls(x))
      ensures world.s.now == old(world.s.now) + ms
    {
      hide Run, Next, RelayCalls;
      RelayCallsSnoc(world.history, World(Tick(ms)), x.task);
      TickMoves(world.config, world.s, ms, mine, rivals, x, pc);
      world.Step(World(Tick(ms)));
    }

    /** One attempt, and another look if it fails. */
    method MarkAndLook(x: Claimed, attempt: nat) returns (ok: bool, ghost io: Io, ghost calls: seq<RelayStep>)
      requires Ready(x, Mark(attempt))
      modifies world
      ensures Moved(x) && x.event in world.s.events && Calls(x) == old(Calls(x)) + calls
      ensures calls == [MarkPublished(io)] || exists looked :: calls == [MarkPublished(io), RecheckPublished(looked)]
      ensures ok ==> EventOf(x).status == Published && x.task !in world.s.tasks
      ensures !ok ==> io != Done
      ensures !ok ==> if attempt + 1 < MARK_PUBLISHED_MAX_ATTEMPTS then Ready(x, Mark(attempt + 1)) else x.task !in world.s.tasks
      ensures !rivals.Anyone? ==> if io.Applied() then EventOf(x).status == Published else EventOf(x) == old(EventOf(x))
    {
      hide Run, Progress;
      var result;
      ok, result := MarkPublishedOnce(x, attempt);
      io, calls := result, [MarkPublished(result)];
      if ok { return; }
      ghost var s1 := world.s;
      var looked, published := LookAgain(x, attempt);
      Chain(old(world.s), s1, x);
      calls := [MarkPublished(result), RecheckPublished(looked)];
      ok := looked && published;
    }

    /** Up to five attempts, each failure followed by another look and a longer sleep. */
    method MarkPublishedWithRetry(x: Claimed) returns (ok: bool, attempts: nat, slept: nat, ghost calls: seq<RelayStep>)
      requires Ready(x, Mark(0))
      modifies world
      ensures Moved(x) && x.event in world.s.events && x.task !in world.s.tasks
      ensures ok ==> EventOf(x).status == Published
      ensures !rivals.Anyone? ==> EventOf(x) == old(EventOf(x)) || EventOf(x).status == Published
      ensures 1 <= attempts <= 5 && slept == SLEPT[attempts - 1] && world.s.now >= old(world.s.now) + slept
      ensures Calls(x) == old(Calls(x)) + calls && |Marks(calls)| == attempts
      ensures !ok ==> AllMarksFailed(calls)
      ensures !ok && !rivals.Anyone? && old(EventOf(x)).status == Pending ==>
                if Unsure in Marks(calls) then EventOf(x).status == Published else EventOf(x) == old(EventOf(x))
    {
      hide Run, Progress, Marks;
      ProgressStart(world.s, mine, rivals, x);
      NoMarks();
      ok, attempts, slept, calls := false, 0, 0, [];
      while attempts < MARK_PUBLISHED_MAX_ATTEMPTS
        invariant 0 <= attempts <= MARK_PUBLISHED_MAX_ATTEMPTS && world.Valid() && old(world.history) <= world.history
        invariant Progress(old(world.s), world.s, mine, rivals, x) && x.event in world.s.events
        invariant if attempts < MARK_PUBLISHED_MAX_ATTEMPTS then Ready(x, Mark(attempts)) else x.task !in world.s.tasks
        invariant world.s.now >= old(world.s.now) + slept
        invariant slept == SLEPT[if attempts < MARK_PUBLISHED_MAX_ATTEMPTS then attempts else attempts - 1]
        invariant Calls(x) == old(Calls(x)) + calls && |Marks(calls)| == attempts
        invariant forall k | 0 <= k < attempts :: Marks(calls)[k] != Done
        invariant !rivals.Anyone? ==> if Unsure in Marks(calls) then EventOf(x).status == Published else EventOf(x) == old(EventOf(x))
      {
        ghost var s0 := world.s;
        ghost var io, more;
        ok, io, more := MarkAndLook(x, attempts);
        Chain(old(world.s), s0, x);
        MarksOneMore(calls, more, io);
        calls := calls + more;
        attempts := attempts + 1;
        if ok { return; }
        if attempts < MARK_PUBLISHED_MAX_ATTEMPTS {
          ghost var s2 := world.s;
          Sleep(x, attempts * BACKOFF_MS, Mark(attempts));
          Chain(old(world.s), s2, x);
          slept := slept + attempts * BACKOFF_MS;
        }
      }
    }

    /** Check, decode, publish, mark: the phase that failed, or none. */
    method PublishEvent(x: Claimed) returns (failed: Option<Phase>, slept: nat, ghost calls: seq<RelayStep>)
      requires Ready(x, Check)
      modifies world
      ensures Moved(x) && x.event in world.s.events && slept <= 500 && Calls(x) == old(Calls(x)) + calls
      ensures failed == None ==> EventOf(x).status == Published
      ensures if failed == None || failed.value == MarkPhase then x.task !in world.s.tasks else Ready(x, Record)
      ensures !rivals.Anyone? && old(EventOf(x)).status == Pending ==>
                && (failed == None ==> Confirmed(world.config, world.history, x))
                && (failed == Some(MarkPhase) ==>
                      if Unsure in Marks(calls) then EventOf(x).status == Published else EventOf(x) == old(EventOf(x)))
                && (failed.Some? && failed.value != MarkPhase ==> EventOf(x) == old(EventOf(x)))
      // a mark is only attempted after a confirmed publish
      ensures failed == Some(MarkPhase) ==> Confirmed(world.config, world.history, x)
      // and every failure is one of the call it names
      ensures FailedAt(failed, calls, x)
    {
      hide Run, Progress, Confirmed, Marks, RelayCalls;
      slept := 0;
      var checked, published := CheckPublished(x);
      calls := [RelayStep.CheckPublished(checked)];
      if !checked { return Some(CheckPhase), slept, calls; }
      if published { return None, slept, calls; }
      if x.payload == Malformed { return Some(DecodePhase), slept, calls; }
      ghost var s0 := world.s;
      var confirmed, copy, io := PublishConfirmed(x);
      Chain(old(world.s), s0, x);
      calls := calls + [PublishCopy(copy, io)];
      if !confirmed { return Some(PublishPhase), slept, calls; }
      ghost var s1, h1 := world.s, world.history;
      var marked, attempts, pause, marking := MarkPublishedWithRetry(x);
      Chain(old(world.s), s1, x);
      ConfirmedStays(world.config, h1, world.history, x);
      MarksAfter(calls, marking);
      calls := calls + marking;
      slept := pause;
      if !marked { return Some(MarkPhase), slept, calls; }
      return None, slept, calls;
    }

    /** One turn of the loop in pollOnce: a failure to mark keeps the lease, any other is recorded. */
    method Handle(x: Claimed) returns (slept: nat, ghost report: Report)
      requires Ready(x, Check)
      modifies world
      ensures Moved(x) && x.event in world.s.events && x.task !in world.s.tasks && slept <= 500
      ensures Calls(x) == old(Calls(x)) + report.calls && Justified(report, x)
      ensures report.failed == None ==> EventOf(x).status == Published
      ensures !rivals.Anyone? && old(EventOf(x)).status == Pending ==>
                Fate(world.config, old(EventOf(x)), EventOf(x), world.history, x, report)
    {
      hide Run, Progress, Confirmed, Marks;
      var failed, pause, calls := PublishEvent(x);
      slept := pause;
      report := Report(failed, None, calls);
      if failed.Some? && failed.value != MarkPhase {
        ghost var s0 := world.s;
        var io := RecordPublishFailure(x);
        Chain(old(world.s), s0, x);
        report := Report(failed, Some(io), calls + [RecordFailure(io)]);
      }
    }

    /** SELECT the pending, unlocked events oldest first, up to the limit, and lock them, in one
        transaction: nobody else moves in between, and rows another claim has locked are skipped.
        `before` is the state it found. */
    method ClaimPendingBatch(limit: int, hold: nat, ok: bool) returns (batch: seq<Claimed>, ghost before: Instant)
      requires world.Valid()
      modifies this, world
      ensures world.Valid() && old(world.history) <= world.history
      ensures IsInstant(world.config, world.history, before) && before.steps >= |old(world.history)|
      ensures !ok ==> batch == [] && mine == old(mine) && world.s == before.state
      ensures ok ==>
                && Claims(before.state, world.s, batch, mine, Limit(limit), hold)
                && Exhausted(before.state, batch, Limit(limit))
    {
      hide Run, Claims, Undisturbed;
      world.Others(Relaying(mine, rivals));
      ghost var found := world.s;
      before := Instant(|world.history|, found);
      assert world.history[..|world.history|] == world.history;
      batch := [];
      if !ok { return; }
      var most := if limit <= 0 then DEFAULT_BATCH else limit;
      ClaimsNothing(found, mine, most, hold);
      while |batch| < most && Eligible(world.s) != {}
        invariant world.Valid() && old(world.history) <= world.history
        invariant IsInstant(world.config, world.history, before)
        invariant Claims(found, world.s, batch, mine, most, hold)
        decreases most - |batch|
      {
        OldestExists(world.s.events, Eligible(world.s));
        var e :| e in Eligible(world.s) && IsOldest(world.s.events, Eligible(world.s), e);
        var t := UnusedNat(world.s.leases.Keys + world.s.tasks.Keys + mine);
        var x := Claimed(t, e, world.s.events[e].payload);
        ClaimsOneMore(world.config, found, world.s, batch, mine, most, hold, x);
        ghost var h := world.history;
        world.Step(Pipeline.Step.Relay(t, Lease(e, hold)));
        InstantStays(world.config, h, world.history, before);
        mine := mine + {t};
        batch := batch + [x];
      }
      NothingLeftOut(found, world.s, batch, mine, most, hold);
    }

    /** One poll: claim a batch, then publish its events one after the other. `claimed` says whether the
        claim goes through, `before` is what it found, and `released` are the moments at which the relay
        let go of the events. While leases are kept, every event meets exactly one of its three
        fates by then; when no other relay runs it stays at that, and every other event stays as it
        was; and the sleeps add up to no more than half a second an event. */
    method PollOnce(batchSize: int, hold: nat, claimed: bool)
        returns (batch: seq<Claimed>, slept: nat, ghost before: Instant, ghost released: seq<Moment>)
      requires world.Valid()
      modifies this, world
      ensures world.Valid() && old(world.history) <= world.history
      ensures IsInstant(world.config, world.history, before) && before.steps >= |old(world.history)|
      ensures !claimed ==> batch == []
      ensures |batch| <= Limit(batchSize) && slept <= 500 * |batch|
      ensures batchSize <= DEFAULT_BATCH ==> slept <= 25_000 < DEFAULT_LEASE_MS
      ensures claimed ==> OldestFirst(before.state.events, Eligible(before.state), batch)
                          && Exhausted(before.state, batch, Limit(batchSize))
      ensures forall k | 0 <= k < |batch| :: batch[k].task !in world.s.tasks && batch[k].event in world.s.events
      ensures !rivals.Anyone? && claimed ==>
                && |released| == |batch|
                && (forall k | 0 <= k < |batch| ::
                      MetFate(world.config, before.state, hold, world.history, released[k], batch[k]))
      ensures rivals.Nobody? && claimed ==>
                && (forall k | 0 <= k < |batch| :: StillAsReleased(released[k], world.s, batch[k]))
                && (forall e | e in before.state.events && e !in Taken(batch) ::
                      e in world.s.events && world.s.events[e] == before.state.events[e])
    {
      hide Run, Exhausted, Claims, OldestFirst, Going, Limit, MetFate, StillAsReleased, IsInstant;
      slept, released := 0, [];
      batch, before := ClaimPendingBatch(batchSize, hold, claimed);
      if !claimed { return; }
      ghost var leased, h := world.s, world.history;
      WorkBegins(world.config, before.state, leased, world.history, batch, mine, Limit(batchSize), hold, rivals);
      slept, released := HandleAll(batch, leased);
      WorkEnds(world.config, before.state, leased, world.s, world.history, batch, released, mine, Limit(batchSize), hold, rivals);
      InstantStays(world.config, h, world.history, before);
      SleepsInsideLease(slept, |batch|, batchSize);
    }

    method HandleAll(batch: seq<Claimed>, ghost leased: State) returns (slept: nat, ghost released: seq<Moment>)
      requires world.Valid() && Going(world.config, leased, world.s, world.history, batch, [], mine, rivals)
      modifies world
      ensures world.Valid() && old(world.history) <= world.history
      ensures |released| == |batch| && slept <= 500 * |batch|
      ensures Going(world.config, leased, world.s, world.history, batch, released, mine, rivals)
    {
      hide Run, Progress, Going, Fate, RelayCalls, Justified;
      slept, released := 0, [];
      for i := 0 to |batch|
        invariant world.Valid() && old(world.history) <= world.history && |released| == i
        invariant Going(world.config, leased, world.s, world.history, batch, released, mine, rivals)
        invariant slept <= 500 * i
      {
        ghost var s0, h0 := world.s, world.history;
        WorkNext(world.config, leased, s0, h0, batch, released, mine, rivals);
        var pause, report := Handle(batch[i]);
        ghost var m := Moment(|world.history|, world.s, report);
        assert world.history[..|world.history|] == world.history;
        GoingOneMore(world.config, leased, s0, world.s, h0, world.history, batch, released, m, mine, rivals);
        released := released + [m];
        slept := slept + pause;
      }
    }
  }
}
