/** The delivery pipeline after a send is accepted: one database, one broker, any number of
    outbox relays and worker handlers, each advancing one atomic call at a time.

    A handler's uncommitted transaction is carried by its program counter, so a crash, which
    removes the handler, rolls the transaction back. */
module Pipeline {
  import opened Base

  // ----- data ---------------------------------------------------------------------------

  datatype Status = Accepted | Sent | Failed | DeadLettered

  datatype Kind = Standard | Express

  /** A queue body: the ids the worker decodes, or bytes it cannot decode. */
  datatype Payload = Malformed | Ids(account: Uuid, message: Uuid, kind: Kind)

  /** A row of sms_messages. */
  datatype Message = Message(account: Uuid, status: Status)

  datatype EventStatus = Pending | Published

  /** A row of outbox_events. */
  datatype Event = Event(payload: Payload, status: EventStatus, lockedUntil: Option<int>,
                         retries: nat, createdAt: int)

  /** A copy of a payload on a work queue; `holder` is the handler it is unacknowledged at,
      `deaths` the sum of its x-death counts. */
  datatype Copy = Copy(queue: Kind, payload: Payload, redelivered: bool, deaths: int, holder: Option<nat>)

  datatype Outcome = Success | Permanent | Transient

  /** One operator call for a message, as the worker sees it. */
  datatype Call = InFlight(worker: nat) | Returned(outcome: Outcome) | Lost

  /** Where a handler stands in handleDelivery. */
  datatype Pc =
    | Received                                        // before decoding the body
    | ClaimRead                                       // claimDelivery: first read of the message
    | ClaimInsert                                     // claimDelivery: insert of the claim row
    | ClaimCommit                                     // claim row inserted, not yet committed
    | ClaimReread                                     // claimDelivery: read after a conflict
    | Operate                                         // claim committed, operator not yet called
    | Calling                                         // inside operator.Send
    | MarkSent(resumed: bool)
    | MarkFailed
    | Release
    | DeadUpdate                                      // deadLetter: guarded status update
    | DeadInsert(updated: bool)                       // deadLetter: insert of the claim row
    | DeadCommit(updated: bool, inserted: bool)       // deadLetter: commit
    | DeadPublish                                     // deadLetter: copy to the DLQ
    | Settling(requeue: bool)                         // the deferred ack or nack

  datatype Handler = Handler(copy: nat, payload: Payload, redelivered: bool, deaths: int, pc: Pc)

  /** Where a relay stands with one event it has claimed. */
  datatype TaskPc = Check | Publish | Mark(attempt: nat) | Recheck(attempt: nat) | Record

  datatype Task = Task(event: Uuid, until: int, pc: TaskPc)

  datatype Config = Config(maxAttempts: int, dlqSet: bool)

  datatype State = State(
    now: int,
    messages: map<Uuid, Message>,
    claims: set<Uuid>,                // committed rows of processed_consumer_events
    events: map<Uuid, Event>,
    copies: map<nat, Copy>,
    dlq: multiset<Payload>,
    handlers: map<nat, Handler>,
    tasks: map<nat, Task>,
    // history
    calls: map<Uuid, seq<Call>>,      // operator calls per message, oldest first
    resumed: set<Uuid>,               // messages a redelivered copy resumed
    leases: map<nat, Uuid>,           // every claim of an event ever made by a relay
    published: map<nat, nat>)         // copy put on a queue by a relay -> the claim it acted under

  const MARK_PUBLISHED_MAX_ATTEMPTS := 5

  /** The payload the example runs are about. */
  function Sample(): Payload { Ids(0, 0, Standard) }

  predicate Terminal(st: Status) { st != Accepted }

  predicate About(p: Payload, a: Uuid, m: Uuid) {
    p.Ids? && p.account == a && p.message == m
  }

  /** deliveryAttemptCount: the x-death total when positive, else one for a redelivery. */
  function Attempts(redelivered: bool, deaths: int): int {
    if deaths > 0 then deaths else if redelivered then 1 else 0
  }

  predicate ShouldDeadLetter(c: Config, redelivered: bool, deaths: int) {
    c.maxAttempts > 0 && Attempts(redelivered, deaths) >= c.maxAttempts
  }

  predicate Deadly(c: Config, h: Handler) { ShouldDeadLetter(c, h.redelivered, h.deaths) }

  // ----- locks held by open transactions --------------------------------------------------

  /** An uncommitted claim row: any other insert of the same key waits. */
  predicate HoldsKey(h: Handler, m: Uuid) {
    h.payload.Ids? && h.payload.message == m &&
    (h.pc.ClaimCommit? || (h.pc.DeadCommit? && h.pc.inserted))
  }

  /** An uncommitted status update: any other update of the same row waits. */
  predicate HoldsRow(h: Handler, m: Uuid) {
    h.payload.Ids? && h.payload.message == m &&
    ((h.pc.DeadInsert? && h.pc.updated) || (h.pc.DeadCommit? && h.pc.updated))
  }

  predicate KeyFree(hs: map<nat, Handler>, m: Uuid) {
    forall i | i in hs :: !HoldsKey(hs[i], m)
  }

  predicate RowFree(hs: map<nat, Handler>, m: Uuid) {
    forall i | i in hs :: !HoldsRow(hs[i], m)
  }

  // ----- steps ------------------------------------------------------------------------------

  /** The API commits a send; time passes; copies appear from outside; the broker acts. */
  datatype WorldStep =
    | Accept(account: Uuid, message: Uuid, event: Uuid, kind: Kind)
    | Tick(delta: nat)
    | Stray(copy: nat, queue: Kind, payload: Payload, deaths: int)
    | RaiseDeaths(copy: nat, more: nat)
    | Disconnect(copy: nat)

  datatype RelayStep =
    | Lease(event: Uuid, hold: nat)
    | CheckPublished(ok: bool)
    | PublishCopy(copy: nat, io: Io)
    | MarkPublished(io: Io)
    | RecheckPublished(ok: bool)
    | RecordFailure(io: Io)
    | Abandon

  datatype WorkStep =
    | Receive(copy: nat)
    | Refuse
    | Decode
    | ReadStatus(ok: bool)
    | InsertClaim(ok: bool)
    | CommitClaim(io: Io)
    | CallOperator
    | Answer(outcome: Outcome)
    | SetSent(io: Io)
    | SetFailed(io: Io)
    | DropClaim(io: Io)
    | SetDead(ok: bool)
    | InsertDead(ok: bool)
    | CommitDead(io: Io)
    | PublishDead(io: Io)
    | Settle(ok: bool)
    | Crash

  datatype Step =
    | World(world: WorldStep)
    | Relay(task: nat, relay: RelayStep)
    | Work(worker: nat, work: WorkStep)

  function Init(): State {
    State(0, map[], {}, map[], map[], multiset{}, map[], map[], map[], {}, map[], map[])
  }

  // ----- when a step can be taken -----------------------------------------------------------

  /** No row, copy or handler mentions the id: what a new random UUID gives. */
  predicate FreshMessage(s: State, m: Uuid) {
    && m !in s.messages && m !in s.claims && m !in s.calls && m !in s.resumed
    && (forall c | c in s.copies :: s.copies[c].payload.Ids? ==> s.copies[c].payload.message != m)
    && (forall i | i in s.handlers :: s.handlers[i].payload.Ids? ==> s.handlers[i].payload.message != m)
    && (forall p | p in s.dlq :: p.Ids? ==> p.message != m)
  }

  predicate FreshCopy(s: State, cp: nat) { cp !in s.copies && cp !in s.published }

  predicate FreshWorker(s: State, i: nat) {
    i !in s.handlers && forall cp | cp in s.copies :: s.copies[cp].holder != Some(i)
  }

  /** status = 'pending' AND (locked_until IS NULL OR locked_until < NOW()). */
  predicate Leasable(s: State, e: Uuid) {
    && e in s.events && s.events[e].status == Pending
    && (s.events[e].lockedUntil == None || s.events[e].lockedUntil.value < s.now)
  }

  predicate WorldEnabled(s: State, w: WorldStep) {
    match w
    case Accept(a, m, e, k) => FreshMessage(s, m) && e !in s.events
    case Tick(_) => true
    case Stray(cp, _, _, _) => FreshCopy(s, cp)
    case RaiseDeaths(cp, _) => cp in s.copies && s.copies[cp].holder == None
    case Disconnect(cp) => cp in s.copies && s.copies[cp].holder != None
  }

  predicate TaskReady(x: Task, r: RelayStep) {
    match r
    case Lease(_, _) => false
    case CheckPublished(_) => x.pc == Check
    case PublishCopy(_, _) => x.pc == Publish
    case MarkPublished(_) => x.pc.Mark?
    case RecheckPublished(_) => x.pc.Recheck?
    case RecordFailure(_) => x.pc == Record
    case Abandon => true
  }

  predicate RelayEnabled(s: State, t: nat, r: RelayStep) {
    if r.Lease? then t !in s.leases && t !in s.tasks && Leasable(s, r.event)
    else
      && t in s.tasks && s.tasks[t].event in s.events && TaskReady(s.tasks[t], r)
      && (r.PublishCopy? ==> FreshCopy(s, r.copy) && s.events[s.tasks[t].event].payload.Ids?)
  }

  /** The handler's own program counter allows the step. */
  predicate Ready(h: Handler, w: WorkStep) {
    match w
    case Receive(_) => false
    case Refuse => h.pc == Received
    case Decode => h.pc == Received
    case ReadStatus(_) => h.payload.Ids? && (h.pc == ClaimRead || h.pc == ClaimReread)
    case InsertClaim(_) => h.payload.Ids? && h.pc == ClaimInsert
    case CommitClaim(_) => h.payload.Ids? && h.pc == ClaimCommit
    case CallOperator => h.payload.Ids? && h.pc == Operate
    case Answer(_) => h.payload.Ids? && h.pc == Calling
    case SetSent(_) => h.payload.Ids? && h.pc.MarkSent?
    case SetFailed(_) => h.payload.Ids? && h.pc == MarkFailed
    case DropClaim(_) => h.payload.Ids? && h.pc == Release
    case SetDead(_) => h.payload.Ids? && h.pc == DeadUpdate
    case InsertDead(_) => h.payload.Ids? && h.pc.DeadInsert?
    case CommitDead(_) => h.payload.Ids? && h.pc.DeadCommit?
    case PublishDead(_) => h.payload.Ids? && h.pc == DeadPublish
    case Settle(_) => h.pc.Settling?
    case Crash => true
  }

  /** What the step has to wait for: no other open transaction holds the key or the row. */
  predicate Unblocked(s: State, h: Handler, w: WorkStep) {
    match w
    case InsertClaim(ok) => ok && h.payload.Ids? ==> KeyFree(s.handlers, h.payload.message)
    case InsertDead(ok) => ok && h.payload.Ids? ==> KeyFree(s.handlers, h.payload.message)
    case SetSent(io) => io.Applied() && h.payload.Ids? ==> RowFree(s.handlers, h.payload.message)
    case SetFailed(io) => io.Applied() && h.payload.Ids? ==> RowFree(s.handlers, h.payload.message)
    case SetDead(ok) => ok && h.payload.Ids? ==> RowFree(s.handlers, h.payload.message)
    case _ => true
  }

  predicate WorkEnabled(s: State, i: nat, w: WorkStep) {
    if w.Receive? then FreshWorker(s, i) && w.copy in s.copies && s.copies[w.copy].holder == None
    else i in s.handlers && Ready(s.handlers[i], w) && Unblocked(s, s.handlers[i], w)
  }

  predicate Enabled(s: State, step: Step) {
    match step
    case World(w) => WorldEnabled(s, w)
    case Relay(t, r) => RelayEnabled(s, t, r)
    case Work(i, w) => WorkEnabled(s, i, w)
  }

  // ----- the world ----------------------------------------------------------------------------

  /** The broker takes a copy back: it keeps its headers and is marked redelivered. */
  function Requeued(x: Copy): Copy { x.(holder := None, redelivered := true) }

  function NextWorld(s: State, w: WorldStep): (t: State)
    requires WorldEnabled(s, w)
    ensures t.claims == s.claims && t.handlers == s.handlers && t.calls == s.calls && t.resumed == s.resumed
    ensures t.tasks == s.tasks && t.leases == s.leases && t.published == s.published && t.dlq == s.dlq
  {
    match w
    case Accept(a, m, e, k) =>
      s.(messages := s.messages[m := Message(a, Accepted)],
         events := s.events[e := Event(Ids(a, m, k), Pending, None, 0, s.now)])
    case Tick(d) => s.(now := s.now + d)
    case Stray(cp, q, p, d) => s.(copies := s.copies[cp := Copy(q, p, false, d, None)])
    case RaiseDeaths(cp, n) => s.(copies := s.copies[cp := s.copies[cp].(deaths := s.copies[cp].deaths + n)])
    case Disconnect(cp) => s.(copies := s.copies[cp := Requeued(s.copies[cp])])
  }

  // ----- relays -------------------------------------------------------------------------------

  /** publishEvent and markPublishedWithRetry, call by call; None when done with the event. */
  function NextTaskPc(x: Task, e: Event, r: RelayStep): Option<TaskPc> {
    match r
    case CheckPublished(ok) =>
      if !ok then Some(Record)
      else if e.status == Published then None
      else if e.payload == Malformed then Some(Record)
      else Some(Publish)
    case PublishCopy(_, io) => if io == Done then Some(Mark(0)) else Some(Record)
    case MarkPublished(io) =>
      if io == Done || !x.pc.Mark? then None else Some(Recheck(x.pc.attempt))
    case RecheckPublished(ok) =>
      if ok && e.status == Published then None
      else if x.pc.Recheck? && x.pc.attempt + 1 < MARK_PUBLISHED_MAX_ATTEMPTS then Some(Mark(x.pc.attempt + 1))
      else None
    case _ => None
  }

  /** Both updates are guarded by status = 'pending'. */
  function NewEvent(e: Event, r: RelayStep): Event {
    if e.status == Published then e
    else match r
      case MarkPublished(io) => if io.Applied() then e.(status := Published, lockedUntil := None) else e
      case RecordFailure(io) => if io.Applied() then e.(retries := e.retries + 1, lockedUntil := None) else e
      case _ => e
  }

  function SetTask(ts: map<nat, Task>, t: nat, pc: Option<TaskPc>): map<nat, Task>
    requires t in ts
  {
    if pc == None then ts - {t} else ts[t := ts[t].(pc := pc.value)]
  }

  /** One row of ClaimPendingBatch. */
  function NextLease(s: State, t: nat, e: Uuid, hold: nat): State
    requires e in s.events
  {
    s.(events := s.events[e := s.events[e].(lockedUntil := Some(s.now + hold))],
       tasks := s.tasks[t := Task(e, s.now + hold, Check)],
       leases := s.leases[t := e])
  }

  function NextRelay(s: State, t: nat, r: RelayStep): (u: State)
    requires RelayEnabled(s, t, r)
    ensures u.now == s.now && u.messages == s.messages && u.claims == s.claims && u.dlq == s.dlq
    ensures u.handlers == s.handlers && u.calls == s.calls && u.resumed == s.resumed
  {
    if r.Lease? then NextLease(s, t, r.event, r.hold)
    else
      var x := s.tasks[t];
      var e := s.events[x.event];
      var s1 := s.(tasks := SetTask(s.tasks, t, NextTaskPc(x, e, r)),
                   events := s.events[x.event := NewEvent(e, r)]);
      if r.PublishCopy? && r.io.Applied()
      then s1.(copies := s.copies[r.copy := Copy(e.payload.kind, e.payload, false, 0, None)],
               published := s.published[r.copy := t])
      else s1
  }

  // ----- workers ------------------------------------------------------------------------------

  /** SELECT ... WHERE id AND account_id: the committed status, if there is such a row. */
  function Lookup(ms: map<Uuid, Message>, p: Payload): Option<Status>
    requires p.Ids?
  {
    if p.message in ms && ms[p.message].account == p.account then Some(ms[p.message].status) else None
  }

  /** UPDATE sms_messages SET status WHERE id AND account_id AND status = 'accepted'. */
  function MarkIfAccepted(ms: map<Uuid, Message>, p: Payload, st: Status): map<Uuid, Message>
    requires p.Ids?
  {
    if Lookup(ms, p) == Some(Accepted) then ms[p.message := Message(p.account, st)] else ms
  }

  predicate Inner(w: WorkStep) { !w.Receive? && !w.Settle? && !w.Crash? }

  function AfterAnswer(out: Outcome): Pc {
    match out
    case Success => MarkSent(false)
    case Permanent => MarkFailed
    case Transient => Release
  }

  /** The control flow of handleDelivery, claimDelivery and deadLetter. */
  function NextPc(c: Config, s: State, h: Handler, w: WorkStep): Pc
    requires Inner(w) && Ready(h, w)
  {
    match w
    case Refuse => Settling(true)
    case Decode => if h.payload == Malformed then Settling(false) else if Deadly(c, h) then DeadUpdate else ClaimRead
    case ReadStatus(ok) =>
      var row := Lookup(s.messages, h.payload);
      if !ok then Settling(true)
      else if row == None || Terminal(row.value) then Settling(false)
      else if h.pc == ClaimRead then ClaimInsert
      else if h.redelivered then MarkSent(true)
      else Settling(true)
    case InsertClaim(ok) =>
      if !ok then Settling(true) else if h.payload.message in s.claims then ClaimReread else ClaimCommit
    case CommitClaim(io) => if io == Done then Operate else Settling(true)
    case CallOperator => Calling
    case Answer(out) => AfterAnswer(out)
    case SetSent(io) => Settling(io != Done)
    case SetFailed(io) => Settling(io != Done)
    case DropClaim(io) => Settling(true)
    case SetDead(ok) => if ok then DeadInsert(Lookup(s.messages, h.payload) == Some(Accepted)) else Settling(true)
    case InsertDead(ok) => if ok then DeadCommit(h.pc.updated, h.payload.message !in s.claims) else Settling(true)
    case CommitDead(io) => if io != Done then Settling(true) else if c.dlqSet then DeadPublish else Settling(false)
    case PublishDead(io) => Settling(io != Done)
  }

  function NewMessages(ms: map<Uuid, Message>, h: Handler, w: WorkStep): map<Uuid, Message>
    requires Inner(w) && Ready(h, w)
  {
    match w
    case SetSent(io) => if io.Applied() then MarkIfAccepted(ms, h.payload, Sent) else ms
    case SetFailed(io) => if io.Applied() then MarkIfAccepted(ms, h.payload, Failed) else ms
    case CommitDead(io) =>
      // the row was locked when it was updated, so the commit writes it whatever it holds
      if io.Applied() && h.pc.updated then ms[h.payload.message := Message(h.payload.account, DeadLettered)] else ms
    case _ => ms
  }

  function NewClaims(claims: set<Uuid>, h: Handler, w: WorkStep): set<Uuid>
    requires Inner(w) && Ready(h, w)
  {
    match w
    case CommitClaim(io) => if io.Applied() then claims + {h.payload.message} else claims
    case DropClaim(io) => if io.Applied() then claims - {h.payload.message} else claims
    case CommitDead(io) => if io.Applied() && h.pc.inserted then claims + {h.payload.message} else claims
    case _ => claims
  }

  function CallsOf(calls: map<Uuid, seq<Call>>, m: Uuid): seq<Call> {
    if m in calls then calls[m] else []
  }

  function SetLast(cs: seq<Call>, x: Call): seq<Call> {
    if cs == [] then [x] else cs[|cs| - 1 := x]
  }

  function NewCalls(calls: map<Uuid, seq<Call>>, i: nat, h: Handler, w: WorkStep): map<Uuid, seq<Call>>
    requires Ready(h, w)
  {
    if !h.payload.Ids? then calls
    else
      var cs := CallsOf(calls, h.payload.message);
      match w
      case CallOperator => calls[h.payload.message := cs + [InFlight(i)]]
      case Answer(out) => calls[h.payload.message := SetLast(cs, Returned(out))]
      case Crash => if h.pc == Calling then calls[h.payload.message := SetLast(cs, Lost)] else calls
      case _ => calls
  }

  function NewResumed(c: Config, s: State, h: Handler, w: WorkStep): set<Uuid>
    requires Inner(w) && Ready(h, w)
  {
    if h.payload.Ids? && NextPc(c, s, h, w) == MarkSent(true) then s.resumed + {h.payload.message} else s.resumed
  }

  function NewDlq(dlq: multiset<Payload>, h: Handler, w: WorkStep): multiset<Payload> {
    if w.PublishDead? && w.io.Applied() then dlq + multiset{h.payload} else dlq
  }

  /** The deferred ack or nack; without `ok` it never reaches the broker, and it changes
      nothing when the copy is no longer this handler's. */
  function Settled(copies: map<nat, Copy>, i: nat, h: Handler, ok: bool): map<nat, Copy> {
    if !ok || h.copy !in copies || copies[h.copy].holder != Some(i) || !h.pc.Settling? then copies
    else if h.pc.requeue then copies[h.copy := Requeued(copies[h.copy])]
    else copies - {h.copy}
  }

  function NextReceive(s: State, i: nat, cp: nat): State
    requires cp in s.copies
  {
    var x := s.copies[cp];
    s.(copies := s.copies[cp := x.(holder := Some(i))],
       handlers := s.handlers[i := Handler(cp, x.payload, x.redelivered, x.deaths, Received)])
  }

  function NextWork(c: Config, s: State, i: nat, w: WorkStep): (t: State)
    requires WorkEnabled(s, i, w)
    ensures t.now == s.now && t.events == s.events
    ensures !Inner(w) ==> t.messages == s.messages && t.claims == s.claims && t.resumed == s.resumed && t.dlq == s.dlq
    ensures Inner(w) ==> t.copies == s.copies
    ensures t.tasks == s.tasks && t.leases == s.leases && t.published == s.published
  {
    if w.Receive? then NextReceive(s, i, w.copy)
    else
      var h := s.handlers[i];
      if w.Settle? then s.(handlers := s.handlers - {i}, copies := Settled(s.copies, i, h, w.ok))
      else if w.Crash? then s.(handlers := s.handlers - {i}, calls := NewCalls(s.calls, i, h, w))
      else
        s.(handlers := s.handlers[i := h.(pc := NextPc(c, s, h, w))],
           messages := NewMessages(s.messages, h, w),
           claims := NewClaims(s.claims, h, w),
           calls := NewCalls(s.calls, i, h, w),
           resumed := NewResumed(c, s, h, w),
           dlq := NewDlq(s.dlq, h, w))
  }

  function Next(c: Config, s: State, step: Step): State
    requires Enabled(s, step)
  {
    match step
    case World(w) => NextWorld(s, w)
    case Relay(t, r) => NextRelay(s, t, r)
    case Work(i, w) => NextWork(c, s, i, w)
  }

  // ----- runs -------------------------------------------------------------------------------

  /** `trace` can be taken from `s`, one enabled step after the other, and ends in `t`. */
  ghost predicate Run(c: Config, s: State, trace: seq<Step>, t: State)
    decreases |trace|
  {
    if trace == [] then s == t
    else Enabled(s, trace[0]) && Run(c, Next(c, s, trace[0]), trace[1..], t)
  }

  ghost predicate Reachable(c: Config, s: State) {
    exists trace :: Run(c, Init(), trace, s)
  }

  lemma {:induction false} RunConcat(c: Config, s: State, a: seq<Step>, t: State, b: seq<Step>, u: State)
    requires Run(c, s, a, t) && Run(c, t, b, u)
    ensures Run(c, s, a + b, u)
    decreases |a|
  {
    hide Enabled, Next;
    if a == [] {
      assert a + b == b;
    } else {
      RunConcat(c, Next(c, s, a[0]), a[1..], t, b, u);
      assert (a + b)[1..] == a[1..] + b;
    }
  }

  lemma RunOne(c: Config, s: State, step: Step)
    requires Enabled(s, step)
    ensures Run(c, s, [step], Next(c, s, step))
  {
    assert [step][1..] == [];
  }

  lemma RunSnoc(c: Config, s: State, trace: seq<Step>, t: State, step: Step)
    requires Run(c, s, trace, t) && Enabled(t, step)
    ensures Run(c, s, trace + [step], Next(c, t, step))
  {
    RunOne(c, t, step);
    RunConcat(c, s, trace, t, [step], Next(c, t, step));
  }

  lemma ReachableNext(c: Config, s: State, step: Step) returns (t: State)
    requires Reachable(c, s) && Enabled(s, step)
    ensures t == Next(c, s, step) && Reachable(c, t)
  {
    hide Enabled, Next, Run;
    var trace :| Run(c, Init(), trace, s);
    RunSnoc(c, Init(), trace, s, step);
    t := Next(c, s, step);
  }
}
