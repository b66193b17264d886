/** What ties handlers, copies, events and row locks together in every reachable state. */
module Wellformed {
  import opened Base
  import opened Pipeline

  // ----- handlers and the copies they hold ---------------------------------------------------

  predicate HolderAgrees(cp: nat, x: Copy, hs: map<nat, Handler>) {
    x.holder.Some? && x.holder.value in hs ==>
      var h := hs[x.holder.value];
      h.copy == cp && h.payload == x.payload && h.redelivered == x.redelivered && h.deaths == x.deaths
  }

  /** A live handler that still holds its copy was told that copy's payload and headers. */
  ghost predicate HoldersAgree(copies: map<nat, Copy>, hs: map<nat, Handler>) {
    forall cp | cp in copies :: HolderAgrees(cp, copies[cp], hs)
  }

  lemma HoldersWork(c: Config, s: State, i: nat, w: WorkStep)
    requires HoldersAgree(s.copies, s.handlers) && WorkEnabled(s, i, w)
    ensures var t := NextWork(c, s, i, w); HoldersAgree(t.copies, t.handlers)
  {
  }

  lemma HoldersWorld(s: State, w: WorldStep)
    requires HoldersAgree(s.copies, s.handlers) && WorldEnabled(s, w)
    ensures var t := NextWorld(s, w); HoldersAgree(t.copies, t.handlers)
  {
  }

  lemma HoldersRelay(s: State, t: nat, r: RelayStep)
    requires HoldersAgree(s.copies, s.handlers) && RelayEnabled(s, t, r)
    ensures var u := NextRelay(s, t, r); HoldersAgree(u.copies, u.handlers)
  {
  }

  lemma HoldersStep(c: Config, s: State, step: Step)
    requires HoldersAgree(s.copies, s.handlers) && Enabled(s, step)
    ensures HoldersAgree(Next(c, s, step).copies, Next(c, s, step).handlers)
  {
    hide NextWorld, NextRelay, NextWork, HoldersAgree;
    match step
    case World(w) => HoldersWorld(s, w);
    case Relay(t, r) => HoldersRelay(s, t, r);
    case Work(i, w) => HoldersWork(c, s, i, w);
  }

  // ----- the path a handler is on --------------------------------------------------------------

  predicate DeadPath(pc: Pc) { pc.DeadUpdate? || pc.DeadInsert? || pc.DeadCommit? || pc.DeadPublish? }

  /** The claim path, from the first read of the message on. */
  predicate ClaimPath(pc: Pc) { !DeadPath(pc) && !pc.Received? && !pc.Settling? }

  /** A handler is on the dead-letter path exactly when its headers send it there, and past
      the first read its message exists. */
  predicate PathAgrees(c: Config, ms: map<Uuid, Message>, h: Handler) {
    && (DeadPath(h.pc) ==> h.payload.Ids? && Deadly(c, h))
    && (ClaimPath(h.pc) ==> h.payload.Ids? && !Deadly(c, h))
    && (ClaimPath(h.pc) && h.pc != ClaimRead ==> h.payload.Ids? && Lookup(ms, h.payload).Some?)
    && (h.payload.Ids? && HoldsRow(h, h.payload.message) ==> Lookup(ms, h.payload) == Some(Accepted))
  }

  ghost predicate PathsAgree(c: Config, ms: map<Uuid, Message>, hs: map<nat, Handler>) {
    forall i | i in hs :: PathAgrees(c, ms, hs[i])
  }

  /** A row is locked by at most one open transaction. */
  ghost predicate RowLocks(hs: map<nat, Handler>) {
    forall i, j, m | i in hs && j in hs && HoldsRow(hs[i], m) && HoldsRow(hs[j], m) :: i == j
  }

  /** Rows are never deleted and keep their account; a terminal status never changes. */
  ghost predicate Grows(ms: map<Uuid, Message>, ms': map<Uuid, Message>) {
    forall m | m in ms :: m in ms' && ms'[m].account == ms[m].account && (Terminal(ms[m].status) ==> ms'[m] == ms[m])
  }

  /** The heart of "terminal statuses never change": the guarded updates see the status, and the
      unguarded commit of a dead letter writes a row its transaction has kept accepted. */
  lemma MessagesGrow(c: Config, ms: map<Uuid, Message>, h: Handler, w: WorkStep)
    requires Inner(w) && Ready(h, w) && PathAgrees(c, ms, h)
    ensures Grows(ms, NewMessages(ms, h, w))
  {
  }

  function Moved(c: Config, s: State, i: nat, w: WorkStep): Handler
    requires i in s.handlers && Inner(w) && Ready(s.handlers[i], w)
  {
    s.handlers[i].(pc := NextPc(c, s, s.handlers[i], w))
  }

  lemma MovedAgrees(c: Config, s: State, i: nat, w: WorkStep)
    requires i in s.handlers && Inner(w) && Ready(s.handlers[i], w) && PathAgrees(c, s.messages, s.handlers[i])
    ensures PathAgrees(c, NewMessages(s.messages, s.handlers[i], w), Moved(c, s, i, w))
  {
  }

  /** No step of one handler touches a row another handler has locked. */
  lemma LockedRowKept(c: Config, s: State, i: nat, w: WorkStep, j: nat)
    requires WorkEnabled(s, i, w) && Inner(w) && RowLocks(s.handlers)
    requires j in s.handlers && j != i && s.handlers[j].payload.Ids?
    requires HoldsRow(s.handlers[j], s.handlers[j].payload.message)
    ensures Lookup(NewMessages(s.messages, s.handlers[i], w), s.handlers[j].payload)
            == Lookup(s.messages, s.handlers[j].payload)
  {
    var h, g := s.handlers[i], s.handlers[j];
    if w.CommitDead? && h.pc.updated {
      assert HoldsRow(h, h.payload.message);
    }
  }

  lemma OthersAgree(c: Config, s: State, i: nat, w: WorkStep, j: nat)
    requires WorkEnabled(s, i, w) && Inner(w) && RowLocks(s.handlers)
    requires PathsAgree(c, s.messages, s.handlers) && j in s.handlers && j != i
    ensures PathAgrees(c, NewMessages(s.messages, s.handlers[i], w), s.handlers[j])
  {
    var h, g := s.handlers[i], s.handlers[j];
    assert PathAgrees(c, s.messages, h) && PathAgrees(c, s.messages, g);
    MessagesGrow(c, s.messages, h, w);
    if g.payload.Ids? && HoldsRow(g, g.payload.message) {
      LockedRowKept(c, s, i, w, j);
    }
  }

  lemma PathsWork(c: Config, s: State, i: nat, w: WorkStep)
    requires PathsAgree(c, s.messages, s.handlers) && RowLocks(s.handlers) && WorkEnabled(s, i, w)
    ensures var t := NextWork(c, s, i, w); PathsAgree(c, t.messages, t.handlers)
  {
    var t := NextWork(c, s, i, w);
    if Inner(w) {
      MovedAgrees(c, s, i, w);
      forall j | j in t.handlers ensures PathAgrees(c, t.messages, t.handlers[j]) {
        if j != i { OthersAgree(c, s, i, w, j); }
      }
    }
  }

  lemma PathsWorld(c: Config, s: State, w: WorldStep)
    requires PathsAgree(c, s.messages, s.handlers) && WorldEnabled(s, w)
    ensures var t := NextWorld(s, w); PathsAgree(c, t.messages, t.handlers)
  {
    var t := NextWorld(s, w);
    forall j | j in t.handlers ensures PathAgrees(c, t.messages, t.handlers[j]) {
      assert PathAgrees(c, s.messages, s.handlers[j]);
    }
  }

  lemma RowLocksWork(c: Config, s: State, i: nat, w: WorkStep)
    requires RowLocks(s.handlers) && WorkEnabled(s, i, w)
    ensures RowLocks(NextWork(c, s, i, w).handlers)
  {
    hide NewMessages;
    var t := NextWork(c, s, i, w);
    forall j, k, m | j in t.handlers && k in t.handlers && HoldsRow(t.handlers[j], m) && HoldsRow(t.handlers[k], m)
      ensures j == k
    {
      // only SetDead takes a row lock, and it waits for the row to be free
      assert j != i ==> t.handlers[j] == s.handlers[j];
      assert k != i ==> t.handlers[k] == s.handlers[k];
    }
  }

  lemma PathsStep(c: Config, s: State, step: Step)
    requires PathsAgree(c, s.messages, s.handlers) && RowLocks(s.handlers) && Enabled(s, step)
    ensures PathsAgree(c, Next(c, s, step).messages, Next(c, s, step).handlers)
  {
    hide NextWorld, NextWork, PathsAgree, RowLocks;
    match step
    case World(w) => PathsWorld(c, s, w);
    case Relay(t, r) =>
    case Work(i, w) => PathsWork(c, s, i, w);
  }

  lemma RowLocksStep(c: Config, s: State, step: Step)
    requires RowLocks(s.handlers) && Enabled(s, step)
    ensures RowLocks(Next(c, s, step).handlers)
  {
    hide NextWork, RowLocks;
    match step
    case World(w) =>
    case Relay(t, r) =>
    case Work(i, w) => RowLocksWork(c, s, i, w);
  }

  // ----- events and the tasks that carry them -------------------------------------------------

  ghost predicate EventsAgree(ms: map<Uuid, Message>, es: map<Uuid, Event>) {
    forall e | e in es :: es[e].payload.Ids? && Lookup(ms, es[e].payload).Some?
  }

  /** A task works on the event it claimed, and every claim ever made was of an event. */
  ghost predicate TasksAgree(es: map<Uuid, Event>, ts: map<nat, Task>, leases: map<nat, Uuid>) {
    && (forall t | t in ts :: t in leases && leases[t] == ts[t].event)
    && (forall t | t in leases :: leases[t] in es)
  }

  lemma EventsRelay(s: State, t: nat, r: RelayStep)
    requires RelayEnabled(s, t, r) && EventsAgree(s.messages, s.events)
    ensures EventsAgree(s.messages, NextRelay(s, t, r).events)
  {
  }

  lemma WorldGrows(s: State, w: WorldStep)
    requires WorldEnabled(s, w)
    ensures Grows(s.messages, NextWorld(s, w).messages)
  {
  }

  lemma EventsWorld(s: State, w: WorldStep)
    requires WorldEnabled(s, w) && EventsAgree(s.messages, s.events)
    ensures EventsAgree(NextWorld(s, w).messages, NextWorld(s, w).events)
  {
  }

  lemma EventsStep(c: Config, s: State, step: Step)
    requires Enabled(s, step) && EventsAgree(s.messages, s.events) && Grows(s.messages, Next(c, s, step).messages)
    ensures EventsAgree(Next(c, s, step).messages, Next(c, s, step).events)
  {
    hide NextWorld, NextRelay, NextWork;
    match step
    case World(w) => EventsWorld(s, w);
    case Relay(t, r) => EventsRelay(s, t, r);
    case Work(i, w) =>
  }

  lemma TasksRelay(s: State, t: nat, r: RelayStep)
    requires RelayEnabled(s, t, r) && TasksAgree(s.events, s.tasks, s.leases)
    ensures var u := NextRelay(s, t, r); TasksAgree(u.events, u.tasks, u.leases)
  {
  }

  lemma TasksStep(c: Config, s: State, step: Step)
    requires Enabled(s, step) && TasksAgree(s.events, s.tasks, s.leases)
    ensures TasksAgree(Next(c, s, step).events, Next(c, s, step).tasks, Next(c, s, step).leases)
  {
    hide NextRelay, NextWork;
    match step
    case World(w) =>
    case Relay(t, r) => TasksRelay(s, t, r);
    case Work(i, w) =>
  }

  // ----- together -------------------------------------------------------------------------------

  ghost predicate Wf(c: Config, s: State) {
    && HoldersAgree(s.copies, s.handlers)
    && PathsAgree(c, s.messages, s.handlers)
    && RowLocks(s.handlers)
    && EventsAgree(s.messages, s.events)
    && TasksAgree(s.events, s.tasks, s.leases)
  }

  /** Messages only ever gain rows and leave `accepted`, whatever the step. */
  lemma WorkGrows(c: Config, s: State, i: nat, w: WorkStep)
    requires WorkEnabled(s, i, w) && PathsAgree(c, s.messages, s.handlers)
    ensures Grows(s.messages, NextWork(c, s, i, w).messages)
  {
    hide NewMessages, NextPc, Unblocked;
    if Inner(w) {
      assert PathAgrees(c, s.messages, s.handlers[i]);
      MessagesGrow(c, s.messages, s.handlers[i], w);
    }
  }

  lemma StepGrows(c: Config, s: State, step: Step)
    requires Enabled(s, step) && PathsAgree(c, s.messages, s.handlers)
    ensures Grows(s.messages, Next(c, s, step).messages)
  {
    hide NextWorld, NextRelay, NextWork, PathsAgree;
    match step
    case World(w) => WorldGrows(s, w);
    case Relay(t, r) =>
    case Work(i, w) => WorkGrows(c, s, i, w);
  }

  lemma WfStep(c: Config, s: State, step: Step)
    requires Wf(c, s) && Enabled(s, step)
    ensures Wf(c, Next(c, s, step))
  {
    hide NextWorld, NextRelay, NextWork, HoldersAgree, PathsAgree, RowLocks, EventsAgree, TasksAgree, Grows;
    HoldersStep(c, s, step);
    StepGrows(c, s, step);
    EventsStep(c, s, step);
    TasksStep(c, s, step);
    PathsStep(c, s, step);
    RowLocksStep(c, s, step);
  }
}
