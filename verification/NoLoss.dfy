/** No accepted message is ever lost, whatever crashes, fails or is duplicated. */
module NoLoss {
  import opened Base
  import opened Pipeline
  import opened Wellformed

  /** The message is finished, or some copy carrying its own ids is still with the broker. */
  ghost predicate Covered(ms: map<Uuid, Message>, copies: map<nat, Copy>, m: Uuid)
    requires m in ms
  {
    Terminal(ms[m].status) || exists cp :: cp in copies && About(copies[cp].payload, ms[m].account, m)
  }

  ghost predicate HasPendingEvent(es: map<Uuid, Event>, a: Uuid, m: Uuid) {
    exists e :: e in es && es[e].status == Pending && About(es[e].payload, a, m)
  }

  ghost predicate NothingLost(s: State) {
    forall m | m in s.messages ::
      Covered(s.messages, s.copies, m) || HasPendingEvent(s.events, s.messages[m].account, m)
  }

  /** The handler will ack unless something still fails, or has seen its update match no row. */
  predicate Committed(pc: Pc) {
    pc == Settling(false) || pc == DeadPublish
    || (pc.DeadInsert? && !pc.updated) || (pc.DeadCommit? && !pc.updated)
  }

  /** Such a handler's message, if there is one, is finished. */
  predicate AckSafe(ms: map<Uuid, Message>, h: Handler) {
    Committed(h.pc) && h.payload.Ids? && Lookup(ms, h.payload).Some? ==> Terminal(Lookup(ms, h.payload).value)
  }

  ghost predicate AcksSafe(ms: map<Uuid, Message>, hs: map<nat, Handler>) {
    forall i | i in hs :: AckSafe(ms, hs[i])
  }

  ghost predicate MarkSafe(s: State, e: Uuid)
    requires e in s.events
  {
    var p := s.events[e].payload;
    p.Ids? && p.message in s.messages && Covered(s.messages, s.copies, p.message)
  }

  /** A relay that is marking an event published has put a copy on the queue before. */
  ghost predicate MarksSafe(s: State) {
    forall t | t in s.tasks && (s.tasks[t].pc.Mark? || s.tasks[t].pc.Recheck?) && s.tasks[t].event in s.events ::
      MarkSafe(s, s.tasks[t].event)
  }

  ghost predicate Inv(c: Config, s: State) {
    Wf(c, s) && NothingLost(s) && AcksSafe(s.messages, s.handlers) && MarksSafe(s)
  }

  // ----- acks ---------------------------------------------------------------------------------

  lemma AckSafeMoved(c: Config, s: State, i: nat, w: WorkStep)
    requires i in s.handlers && Inner(w) && Ready(s.handlers[i], w)
    requires PathAgrees(c, s.messages, s.handlers[i]) && AckSafe(s.messages, s.handlers[i])
    ensures AckSafe(NewMessages(s.messages, s.handlers[i], w), Moved(c, s, i, w))
  {
  }

  lemma AcksWork(c: Config, s: State, i: nat, w: WorkStep)
    requires WorkEnabled(s, i, w) && AcksSafe(s.messages, s.handlers)
    requires PathsAgree(c, s.messages, s.handlers)
    ensures AcksSafe(NextWork(c, s, i, w).messages, NextWork(c, s, i, w).handlers)
  {
    var t := NextWork(c, s, i, w);
    if Inner(w) {
      AckSafeMoved(c, s, i, w);
      MessagesGrow(c, s.messages, s.handlers[i], w);
      forall j | j in t.handlers ensures AckSafe(t.messages, t.handlers[j]) {
        if j != i {
          hide NewMessages, NextPc;
          assert AckSafe(s.messages, s.handlers[j]);
        }
      }
    }
  }

  lemma AcksWorld(s: State, w: WorldStep)
    requires WorldEnabled(s, w) && AcksSafe(s.messages, s.handlers)
    ensures AcksSafe(NextWorld(s, w).messages, s.handlers)
  {
    forall j | j in s.handlers ensures AckSafe(NextWorld(s, w).messages, s.handlers[j]) {
      assert AckSafe(s.messages, s.handlers[j]);
    }
  }

  lemma AcksStep(c: Config, s: State, step: Step)
    requires Enabled(s, step) && AcksSafe(s.messages, s.handlers) && PathsAgree(c, s.messages, s.handlers)
    ensures AcksSafe(Next(c, s, step).messages, Next(c, s, step).handlers)
  {
    hide NextWorld, NextRelay, NextWork, AcksSafe, PathsAgree;
    match step
    case World(w) => AcksWorld(s, w);
    case Relay(t, r) =>
    case Work(i, w) => AcksWork(c, s, i, w);
  }

  // ----- coverage ------------------------------------------------------------------------------

  /** A copy with the message's own ids survives everything but an ack, and an ack is safe. */
  lemma CopySurvivesWork(c: Config, s: State, i: nat, w: WorkStep, m: Uuid)
    requires WorkEnabled(s, i, w) && m in s.messages && Covered(s.messages, s.copies, m)
    requires HoldersAgree(s.copies, s.handlers) && AcksSafe(s.messages, s.handlers)
    requires Grows(s.messages, NextWork(c, s, i, w).messages)
    ensures Covered(NextWork(c, s, i, w).messages, NextWork(c, s, i, w).copies, m)
  {
    var t := NextWork(c, s, i, w);
    if !Terminal(s.messages[m].status) {
      var cp :| cp in s.copies && About(s.copies[cp].payload, s.messages[m].account, m);
      hide NewMessages, NextPc;
      assert HolderAgrees(cp, s.copies[cp], s.handlers);
      if w.Settle? {
        assert AckSafe(s.messages, s.handlers[i]);
      }
      assert cp in t.copies && t.copies[cp].payload == s.copies[cp].payload;
    }
  }

  lemma CoveredStep(c: Config, s: State, step: Step, m: Uuid)
    requires Enabled(s, step) && m in s.messages && Covered(s.messages, s.copies, m)
    requires Wf(c, s) && AcksSafe(s.messages, s.handlers)
    ensures m in Next(c, s, step).messages && Covered(Next(c, s, step).messages, Next(c, s, step).copies, m)
  {
    StepGrows(c, s, step);
    match step
    case World(w) => CopySurvivesWorld(s, w, m);
    case Relay(t, r) => CopySurvivesRelay(s, t, r, m);
    case Work(i, w) => CopySurvivesWork(c, s, i, w, m);
  }

  lemma CopySurvivesWorld(s: State, w: WorldStep, m: Uuid)
    requires WorldEnabled(s, w) && m in s.messages && Covered(s.messages, s.copies, m)
    requires Grows(s.messages, NextWorld(s, w).messages)
    ensures Covered(NextWorld(s, w).messages, NextWorld(s, w).copies, m)
  {
    if !Terminal(s.messages[m].status) {
      var cp :| cp in s.copies && About(s.copies[cp].payload, s.messages[m].account, m);
      assert cp in NextWorld(s, w).copies;
    }
  }

  lemma CopySurvivesRelay(s: State, t: nat, r: RelayStep, m: Uuid)
    requires RelayEnabled(s, t, r) && m in s.messages && Covered(s.messages, s.copies, m)
    ensures Covered(s.messages, NextRelay(s, t, r).copies, m)
  {
    if !Terminal(s.messages[m].status) {
      var cp :| cp in s.copies && About(s.copies[cp].payload, s.messages[m].account, m);
      assert cp in NextRelay(s, t, r).copies;
    }
  }

  // ----- relays --------------------------------------------------------------------------------

  /** A task that is marking was marking before, or has just published. */
  lemma RelayTasks(s: State, t: nat, r: RelayStep, k: nat)
    requires RelayEnabled(s, t, r)
    requires k in NextRelay(s, t, r).tasks && (NextRelay(s, t, r).tasks[k].pc.Mark? || NextRelay(s, t, r).tasks[k].pc.Recheck?)
    ensures k in s.tasks && NextRelay(s, t, r).tasks[k].event == s.tasks[k].event
    ensures (r.PublishCopy? && k == t && r.io == Done) || s.tasks[k].pc.Mark? || s.tasks[k].pc.Recheck?
  {
  }

  /** Publishing puts the copy there; nothing a relay does later takes it away. */
  lemma MarkSafeRelay(c: Config, s: State, t: nat, r: RelayStep, k: nat)
    requires Wf(c, s) && MarksSafe(s) && RelayEnabled(s, t, r)
    requires var u := NextRelay(s, t, r);
             k in u.tasks && (u.tasks[k].pc.Mark? || u.tasks[k].pc.Recheck?) && u.tasks[k].event in u.events
    ensures MarkSafe(NextRelay(s, t, r), NextRelay(s, t, r).tasks[k].event)
  {
    hide HoldersAgree, PathsAgree, RowLocks, NextTaskPc;
    var u := NextRelay(s, t, r);
    RelayTasks(s, t, r, k);
    var p := s.events[s.tasks[k].event].payload;
    assert u.events[u.tasks[k].event].payload == p;
    if r.PublishCopy? && k == t {
      assert About(u.copies[r.copy].payload, s.messages[p.message].account, p.message);
    } else {
      CopySurvivesRelay(s, t, r, p.message);
    }
  }

  lemma MarksRelay(c: Config, s: State, t: nat, r: RelayStep)
    requires Wf(c, s) && MarksSafe(s) && RelayEnabled(s, t, r)
    ensures MarksSafe(NextRelay(s, t, r))
  {
    hide NextRelay, Wf;
    var u := NextRelay(s, t, r);
    forall k | k in u.tasks && (u.tasks[k].pc.Mark? || u.tasks[k].pc.Recheck?) && u.tasks[k].event in u.events
      ensures MarkSafe(u, u.tasks[k].event)
    {
      MarkSafeRelay(c, s, t, r, k);
    }
  }

  lemma MarksStep(c: Config, s: State, step: Step)
    requires Wf(c, s) && MarksSafe(s) && AcksSafe(s.messages, s.handlers) && Enabled(s, step)
    ensures MarksSafe(Next(c, s, step))
  {
    var u := Next(c, s, step);
    if step.Relay? {
      MarksRelay(c, s, step.task, step.relay);
    } else {
      forall k | k in u.tasks && (u.tasks[k].pc.Mark? || u.tasks[k].pc.Recheck?) && u.tasks[k].event in u.events
        ensures MarkSafe(u, u.tasks[k].event)
      {
        hide NextWork, NextRelay;
        var p := s.events[s.tasks[k].event].payload;
        assert u.events[u.tasks[k].event].payload == p;
        CoveredStep(c, s, step, p.message);
      }
    }
  }

  // ----- nothing is lost -----------------------------------------------------------------------

  /** A pending event stops being pending only once its message is covered. */
  lemma PendingSurvives(c: Config, s: State, step: Step, m: Uuid)
    requires Enabled(s, step) && m in s.messages && Inv(c, s)
    requires HasPendingEvent(s.events, s.messages[m].account, m)
    ensures m in Next(c, s, step).messages
    ensures Covered(Next(c, s, step).messages, Next(c, s, step).copies, m)
            || HasPendingEvent(Next(c, s, step).events, s.messages[m].account, m)
  {
    StepGrows(c, s, step);
    var u := Next(c, s, step);
    var e :| e in s.events && s.events[e].status == Pending && About(s.events[e].payload, s.messages[m].account, m);
    if step.Relay? && step.relay.MarkPublished? && s.tasks[step.task].event == e {
      CoveredStep(c, s, step, m);
    } else {
      PendingKept(c, s, step, e);
    }
  }

  lemma PendingKept(c: Config, s: State, step: Step, e: Uuid)
    requires Enabled(s, step) && e in s.events && s.events[e].status == Pending
    requires !(step.Relay? && step.relay.MarkPublished? && s.tasks[step.task].event == e)
    ensures var es := Next(c, s, step).events;
            e in es && es[e].status == Pending && es[e].payload == s.events[e].payload
  {
    hide NextWork, NextRelay;
    match step
    case World(w) =>
    case Relay(t, r) => PendingKeptRelay(s, t, r, e);
    case Work(i, w) =>
  }

  lemma PendingKeptRelay(s: State, t: nat, r: RelayStep, e: Uuid)
    requires RelayEnabled(s, t, r) && e in s.events && s.events[e].status == Pending
    requires !(r.MarkPublished? && s.tasks[t].event == e)
    ensures var es := NextRelay(s, t, r).events;
            e in es && es[e].status == Pending && es[e].payload == s.events[e].payload
  {
    hide NextTaskPc, SetTask;
  }

  lemma NothingLostStep(c: Config, s: State, step: Step)
    requires Enabled(s, step) && Inv(c, s)
    ensures NothingLost(Next(c, s, step))
  {
    var u := Next(c, s, step);
    StepGrows(c, s, step);
    forall m | m in u.messages
      ensures Covered(u.messages, u.copies, m) || HasPendingEvent(u.events, u.messages[m].account, m)
    {
      hide NextWork, NextRelay, NextWorld;
      if m in s.messages {
        if Covered(s.messages, s.copies, m) {
          CoveredStep(c, s, step, m);
        } else {
          PendingSurvives(c, s, step, m);
        }
      } else {
        NewMessageIsPending(c, s, step, m);
      }
    }
  }

  /** Messages appear only with a committed send, which writes the event in the same transaction. */
  lemma NewMessageIsPending(c: Config, s: State, step: Step, m: Uuid)
    requires Enabled(s, step) && Wf(c, s) && m !in s.messages && m in Next(c, s, step).messages
    ensures HasPendingEvent(Next(c, s, step).events, Next(c, s, step).messages[m].account, m)
  {
    hide NextWorld, NextWork, NextRelay, PathsAgree, Unblocked, HasPendingEvent;
    match step
    case World(w) =>
      AcceptIsPending(s, w, m);
    case Relay(t, r) =>
    case Work(i, w) =>
      NoNewMessages(c, s, i, w, m);
  }

  lemma AcceptIsPending(s: State, w: WorldStep, m: Uuid)
    requires WorldEnabled(s, w) && m !in s.messages && m in NextWorld(s, w).messages
    ensures HasPendingEvent(NextWorld(s, w).events, NextWorld(s, w).messages[m].account, m)
  {
    hide FreshMessage;
    assert w.Accept? && About(NextWorld(s, w).events[w.event].payload, w.account, m);
  }

  lemma NoNewMessages(c: Config, s: State, i: nat, w: WorkStep, m: Uuid)
    requires WorkEnabled(s, i, w) && PathsAgree(c, s.messages, s.handlers) && m in NextWork(c, s, i, w).messages
    ensures m in s.messages
  {
    if Inner(w) {
      assert PathAgrees(c, s.messages, s.handlers[i]);
    }
  }

  lemma InvStep(c: Config, s: State, step: Step)
    requires Inv(c, s) && Enabled(s, step)
    ensures Inv(c, Next(c, s, step))
  {
    hide NextWork, NextRelay, NextWorld, HoldersAgree, PathsAgree, RowLocks, EventsAgree, TasksAgree;
    hide NothingLost, AcksSafe, MarksSafe;
    WfStep(c, s, step);
    AcksStep(c, s, step);
    MarksStep(c, s, step);
    NothingLostStep(c, s, step);
  }

  lemma {:induction false} InvRun(c: Config, s: State, trace: seq<Step>, t: State)
    requires Inv(c, s) && Run(c, s, trace, t)
    ensures Inv(c, t)
    decreases |trace|
  {
    hide Inv, Enabled, Next;
    if trace != [] {
      InvStep(c, s, trace[0]);
      InvRun(c, Next(c, s, trace[0]), trace[1..], t);
    }
  }

  lemma InvReachable(c: Config, s: State)
    requires Reachable(c, s)
    ensures Inv(c, s)
  {
    hide Run, Enabled, Next;
    var trace :| Run(c, Init(), trace, s);
    InvRun(c, Init(), trace, s);
  }

  lemma {:induction false} InvGrows(c: Config, s: State, trace: seq<Step>, t: State)
    requires Inv(c, s) && Run(c, s, trace, t)
    ensures Grows(s.messages, t.messages)
    decreases |trace|
  {
    if trace != [] {
      hide Enabled, Next;
      InvStep(c, s, trace[0]);
      StepGrows(c, s, trace[0]);
      InvGrows(c, Next(c, s, trace[0]), trace[1..], t);
    }
  }

  // ----- main results ---------------------------------------------------------------------------

  /** Every message still accepted has a pending outbox event, or a copy with its own ids that
      the broker has not been told to forget. */
  lemma AcceptedIsNeverLost(c: Config, s: State, m: Uuid)
    requires Reachable(c, s) && m in s.messages && s.messages[m].status == Accepted
    ensures HasPendingEvent(s.events, s.messages[m].account, m)
            || exists cp :: cp in s.copies && About(s.copies[cp].payload, s.messages[m].account, m)
  {
    InvReachable(c, s);
  }

  /** When the outbox and the queues have drained, every message is finished. */
  lemma DrainedMeansFinished(c: Config, s: State)
    requires Reachable(c, s)
    requires s.copies == map[] && forall e | e in s.events :: s.events[e].status == Published
    ensures forall m | m in s.messages :: Terminal(s.messages[m].status)
  {
    forall m | m in s.messages ensures Terminal(s.messages[m].status) {
      if s.messages[m].status == Accepted {
        AcceptedIsNeverLost(c, s, m);
      }
    }
  }

  /** Over a whole run rows are never removed or reassigned, and a finished message stays as it is. */
  lemma TerminalForever(c: Config, s: State, trace: seq<Step>, t: State, m: Uuid)
    requires Reachable(c, s) && Run(c, s, trace, t) && m in s.messages
    ensures m in t.messages && t.messages[m].account == s.messages[m].account
    ensures Terminal(s.messages[m].status) ==> t.messages[m] == s.messages[m]
  {
    InvReachable(c, s);
    InvGrows(c, s, trace, t);
  }
}
