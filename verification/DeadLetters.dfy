/** A dead-lettered message is never without its copy, and when dead-lettering can happen at all. */
module DeadLetters {
  import opened Base
  import opened Pipeline
  import opened Wellformed
  import NoLoss

  /** The payload is on the DLQ, or a copy of it whose attempts still reach the maximum is with the broker. */
  ghost predicate Backed(c: Config, dlq: multiset<Payload>, copies: map<nat, Copy>, p: Payload) {
    p in dlq || exists cp :: cp in copies && copies[cp].payload == p
                             && ShouldDeadLetter(c, copies[cp].redelivered, copies[cp].deaths)
  }

  ghost predicate HandlersBacked(c: Config, s: State) {
    forall i | i in s.handlers && s.handlers[i].payload.Ids? && Deadly(c, s.handlers[i]) ::
      && Backed(c, s.dlq, s.copies, s.handlers[i].payload)
      && (s.handlers[i].pc == Settling(false) && c.dlqSet ==> s.handlers[i].payload in s.dlq)
  }

  ghost predicate StatusBacked(c: Config, s: State, m: Uuid)
    requires m in s.messages
  {
    s.messages[m].status == DeadLettered ==>
      exists p :: About(p, s.messages[m].account, m) && Backed(c, s.dlq, s.copies, p)
  }

  ghost predicate StatusesBacked(c: Config, s: State) {
    forall m | m in s.messages :: StatusBacked(c, s, m)
  }

  /** Nothing on the DLQ is still accepted. */
  ghost predicate DlqFinished(s: State) {
    forall p | p in s.dlq && p.Ids? && Lookup(s.messages, p).Some? :: Terminal(Lookup(s.messages, p).value)
  }

  ghost predicate Inv(c: Config, s: State) {
    NoLoss.Inv(c, s) && HandlersBacked(c, s) && StatusesBacked(c, s) && DlqFinished(s)
  }

  /** Requeueing, disconnecting and further deaths only raise the attempt count of a copy. */
  lemma AttemptsNeverFall(c: Config, redelivered: bool, deaths: int, redelivered': bool, deaths': int)
    requires redelivered ==> redelivered'
    requires deaths <= deaths'
    ensures Attempts(redelivered, deaths) <= Attempts(redelivered', deaths')
    ensures ShouldDeadLetter(c, redelivered, deaths) ==> ShouldDeadLetter(c, redelivered', deaths')
  {
  }

  /** A copy is forgotten only by the ack of a handler that saw the same headers; if those reach
      the maximum, that handler has put the payload on the DLQ. */
  lemma BackedWork(c: Config, s: State, i: nat, w: WorkStep, p: Payload)
    requires HoldersAgree(s.copies, s.handlers) && HandlersBacked(c, s) && c.dlqSet
    requires WorkEnabled(s, i, w) && p.Ids? && Backed(c, s.dlq, s.copies, p)
    ensures Backed(c, NextWork(c, s, i, w).dlq, NextWork(c, s, i, w).copies, p)
  {
    hide NewMessages, NextPc, NewClaims, NewCalls, NewResumed, Unblocked;
    var t := NextWork(c, s, i, w);
    if p !in s.dlq {
      var cp :| cp in s.copies && s.copies[cp].payload == p && ShouldDeadLetter(c, s.copies[cp].redelivered, s.copies[cp].deaths);
      assert HolderAgrees(cp, s.copies[cp], s.handlers);
      if cp in t.copies {
        AttemptsNeverFall(c, s.copies[cp].redelivered, s.copies[cp].deaths, t.copies[cp].redelivered, t.copies[cp].deaths);
      }
    }
  }

  lemma BackedStep(c: Config, s: State, step: Step, p: Payload)
    requires HoldersAgree(s.copies, s.handlers) && HandlersBacked(c, s) && c.dlqSet
    requires Enabled(s, step) && p.Ids? && Backed(c, s.dlq, s.copies, p)
    ensures Backed(c, Next(c, s, step).dlq, Next(c, s, step).copies, p)
  {
    match step
    case World(w) => BackedWorld(c, s, w, p);
    case Relay(t, r) => BackedRelay(c, s, t, r, p);
    case Work(i, w) => BackedWork(c, s, i, w, p);
  }

  lemma BackedWorld(c: Config, s: State, w: WorldStep, p: Payload)
    requires WorldEnabled(s, w) && Backed(c, s.dlq, s.copies, p)
    ensures Backed(c, NextWorld(s, w).dlq, NextWorld(s, w).copies, p)
  {
    if p !in s.dlq {
      var cp :| cp in s.copies && s.copies[cp].payload == p && ShouldDeadLetter(c, s.copies[cp].redelivered, s.copies[cp].deaths);
      var x := NextWorld(s, w).copies[cp];
      AttemptsNeverFall(c, s.copies[cp].redelivered, s.copies[cp].deaths, x.redelivered, x.deaths);
    }
  }

  lemma BackedRelay(c: Config, s: State, t: nat, r: RelayStep, p: Payload)
    requires RelayEnabled(s, t, r) && Backed(c, s.dlq, s.copies, p)
    ensures Backed(c, s.dlq, NextRelay(s, t, r).copies, p)
  {
    if p !in s.dlq {
      var cp :| cp in s.copies && s.copies[cp].payload == p && ShouldDeadLetter(c, s.copies[cp].redelivered, s.copies[cp].deaths);
      assert cp in NextRelay(s, t, r).copies && NextRelay(s, t, r).copies[cp] == s.copies[cp];
    }
  }

  /** The only way to an ack on the dead-letter path is a confirmed publish to the DLQ. */
  lemma DeadAck(c: Config, s: State, h: Handler, w: WorkStep)
    requires Inner(w) && Ready(h, w) && PathAgrees(c, s.messages, h) && c.dlqSet && h.payload.Ids? && Deadly(c, h)
    requires NextPc(c, s, h, w) == Settling(false)
    ensures w == PublishDead(Done)
  {
  }

  lemma HandlersWork(c: Config, s: State, i: nat, w: WorkStep)
    requires HoldersAgree(s.copies, s.handlers) && HandlersBacked(c, s) && c.dlqSet && WorkEnabled(s, i, w)
    requires PathsAgree(c, s.messages, s.handlers)
    ensures HandlersBacked(c, NextWork(c, s, i, w))
  {
    hide NewMessages, NextPc, NewClaims, NewCalls, NewResumed, HoldersAgree, Settled, Unblocked, Backed;
    var t := NextWork(c, s, i, w);
    forall j | j in t.handlers && t.handlers[j].payload.Ids? && Deadly(c, t.handlers[j])
      ensures Backed(c, t.dlq, t.copies, t.handlers[j].payload)
      ensures t.handlers[j].pc == Settling(false) ==> t.handlers[j].payload in t.dlq
    {
      var p := t.handlers[j].payload;
      if w.Receive? && j == i {
        Received(c, s, i, w.copy);
      } else {
        BackedWork(c, s, i, w, p);
        if j == i {
          assert PathAgrees(c, s.messages, s.handlers[i]);
          if t.handlers[i].pc == Settling(false) { DeadAck(c, s, s.handlers[i], w); }
        }
      }
    }
  }

  lemma Received(c: Config, s: State, i: nat, cp: nat)
    requires WorkEnabled(s, i, Receive(cp)) && ShouldDeadLetter(c, s.copies[cp].redelivered, s.copies[cp].deaths)
    ensures Backed(c, s.dlq, NextReceive(s, i, cp).copies, s.copies[cp].payload)
  {
    assert cp in NextReceive(s, i, cp).copies && NextReceive(s, i, cp).copies[cp].payload == s.copies[cp].payload;
  }

  lemma HandlersStep(c: Config, s: State, step: Step)
    requires HoldersAgree(s.copies, s.handlers) && HandlersBacked(c, s) && c.dlqSet && Enabled(s, step)
    requires PathsAgree(c, s.messages, s.handlers)
    ensures HandlersBacked(c, Next(c, s, step))
  {
    hide NextWorld, NextRelay, NextWork, HoldersAgree, PathsAgree, Backed;
    if step.Work? {
      HandlersWork(c, s, step.worker, step.work);
    } else {
      var t := Next(c, s, step);
      forall j | j in t.handlers && t.handlers[j].payload.Ids? && Deadly(c, t.handlers[j])
        ensures Backed(c, t.dlq, t.copies, t.handlers[j].payload)
      {
        BackedStep(c, s, step, t.handlers[j].payload);
      }
    }
  }

  /** Only the commit of a dead letter sets the status, and only its own handler puts anything on the DLQ. */
  lemma DeadStatusMoves(c: Config, s: State, i: nat, w: WorkStep, m: Uuid)
    requires i in s.handlers && Ready(s.handlers[i], w) && Inner(w) && PathAgrees(c, s.messages, s.handlers[i])
    requires m in NewMessages(s.messages, s.handlers[i], w)
    requires NewMessages(s.messages, s.handlers[i], w)[m].status == DeadLettered
    requires m !in s.messages || s.messages[m].status != DeadLettered
    ensures var h := s.handlers[i];
            Deadly(c, h) && About(h.payload, NewMessages(s.messages, h, w)[m].account, m)
  {
  }

  lemma StatusStep(c: Config, s: State, step: Step, m: Uuid)
    requires Inv(c, s) && c.dlqSet && Enabled(s, step) && m in Next(c, s, step).messages
    ensures StatusBacked(c, Next(c, s, step), m)
  {
    var t := Next(c, s, step);
    StepGrows(c, s, step);
    if t.messages[m].status == DeadLettered {
      if m in s.messages && s.messages[m].status == DeadLettered {
        assert StatusBacked(c, s, m);
        var p :| About(p, s.messages[m].account, m) && Backed(c, s.dlq, s.copies, p);
        BackedStep(c, s, step, p);
      } else {
        NewlyDead(c, s, step, m);
        var p := s.handlers[step.worker].payload;
        BackedStep(c, s, step, p);
      }
    }
  }

  lemma NewlyDead(c: Config, s: State, step: Step, m: Uuid)
    requires Inv(c, s) && Enabled(s, step) && m in Next(c, s, step).messages
    requires Next(c, s, step).messages[m].status == DeadLettered
    requires m !in s.messages || s.messages[m].status != DeadLettered
    ensures step.Work? && step.worker in s.handlers && Deadly(c, s.handlers[step.worker])
    ensures About(s.handlers[step.worker].payload, Next(c, s, step).messages[m].account, m)
  {
    assert step.Work? && step.worker in s.handlers ==> PathAgrees(c, s.messages, s.handlers[step.worker]);
    hide NextWorld, NextRelay, NextWork, Inv;
    match step
    case World(w) => WorldNeverDead(s, w, m);
    case Relay(t, r) =>
    case Work(i, w) => WorkDead(c, s, i, w, m);
  }

  lemma WorldNeverDead(s: State, w: WorldStep, m: Uuid)
    requires WorldEnabled(s, w) && m in NextWorld(s, w).messages && NextWorld(s, w).messages[m].status == DeadLettered
    ensures m in s.messages && s.messages[m].status == DeadLettered
  {
    hide FreshMessage;
  }

  lemma WorkDead(c: Config, s: State, i: nat, w: WorkStep, m: Uuid)
    requires WorkEnabled(s, i, w) && (i in s.handlers ==> PathAgrees(c, s.messages, s.handlers[i]))
    requires m in NextWork(c, s, i, w).messages && NextWork(c, s, i, w).messages[m].status == DeadLettered
    requires m !in s.messages || s.messages[m].status != DeadLettered
    ensures i in s.handlers && Deadly(c, s.handlers[i])
    ensures About(s.handlers[i].payload, NextWork(c, s, i, w).messages[m].account, m)
  {
    hide NewCalls, NewClaims, NewDlq, NewResumed, NewMessages, NextPc, Settled, Unblocked;
    DeadStatusMoves(c, s, i, w, m);
  }

  lemma DlqStep(c: Config, s: State, step: Step)
    requires Inv(c, s) && Enabled(s, step)
    ensures DlqFinished(Next(c, s, step))
  {
    StepGrows(c, s, step);
    var t := Next(c, s, step);
    forall p | p in t.dlq && p.Ids? && Lookup(t.messages, p).Some?
      ensures Terminal(Lookup(t.messages, p).value)
    {
      DlqEntry(c, s, step, p);
    }
  }

  lemma DlqEntry(c: Config, s: State, step: Step, p: Payload)
    requires Inv(c, s) && Enabled(s, step) && Grows(s.messages, Next(c, s, step).messages)
    requires p in Next(c, s, step).dlq && p.Ids? && Lookup(Next(c, s, step).messages, p).Some?
    ensures Terminal(Lookup(Next(c, s, step).messages, p).value)
  {
    if p in s.dlq {
      OldEntry(c, s, step, p);
    } else {
      hide NextWorld, NextRelay, NewCalls, NewClaims, NewResumed, NextPc, Settled, HandlersBacked, StatusesBacked, DlqFinished;
      assert step.Work? && step.work.PublishDead?;
      assert NoLoss.AckSafe(s.messages, s.handlers[step.worker]);
    }
  }

  lemma OldEntry(c: Config, s: State, step: Step, p: Payload)
    requires Inv(c, s) && Enabled(s, step) && Grows(s.messages, Next(c, s, step).messages)
    requires p in s.dlq && p.Ids? && Lookup(Next(c, s, step).messages, p).Some?
    ensures Terminal(Lookup(Next(c, s, step).messages, p).value)
  {
    if p.message !in s.messages {
      // a message row only appears with a fresh id
      NoNewRow(c, s, step, p.message);
    }
  }

  lemma NewRow(s: State, w: WorldStep, m: Uuid)
    requires WorldEnabled(s, w) && m !in s.messages && m in NextWorld(s, w).messages
    ensures FreshMessage(s, m)
  {
    hide FreshMessage;
  }

  lemma NoNewRow(c: Config, s: State, step: Step, m: Uuid)
    requires PathsAgree(c, s.messages, s.handlers) && Enabled(s, step) && m !in s.messages && m in Next(c, s, step).messages
    ensures FreshMessage(s, m)
  {
    hide NextWorld, NextRelay, NextWork, FreshMessage, PathsAgree;
    match step
    case World(w) => NewRow(s, w, m);
    case Relay(t, r) =>
    case Work(i, w) => NoLoss.NoNewMessages(c, s, i, w, m);
  }

  lemma InvStep(c: Config, s: State, step: Step)
    requires Inv(c, s) && c.dlqSet && Enabled(s, step)
    ensures Inv(c, Next(c, s, step))
  {
    NoLoss.InvStep(c, s, step);
    HandlersStep(c, s, step);
    DlqStep(c, s, step);
    hide Next, HandlersBacked, StatusBacked, DlqFinished, NoLoss.Inv;
    forall m | m in Next(c, s, step).messages ensures StatusBacked(c, Next(c, s, step), m) {
      StatusStep(c, s, step, m);
    }
  }

  lemma {:induction false} InvRun(c: Config, s: State, trace: seq<Step>, t: State)
    requires Inv(c, s) && c.dlqSet && Run(c, s, trace, t)
    ensures Inv(c, t)
    decreases |trace|
  {
    hide Inv, Enabled, Next;
    if trace != [] {
      InvStep(c, s, trace[0]);
      InvRun(c, Next(c, s, trace[0]), trace[1..], t);
    }
  }

  // ----- main results -----------------------------------------------------------------------------

  /** Whatever fails between the status commit and the DLQ publish, a dead-lettered message is on
      the DLQ, or a copy of it that must be dead-lettered again is still with the broker. */
  lemma DeadLetterKeepsItsCopy(c: Config, s: State, m: Uuid)
    requires c.dlqSet && Reachable(c, s) && m in s.messages && s.messages[m].status == DeadLettered
    ensures (exists p :: p in s.dlq && About(p, s.messages[m].account, m))
            || exists cp :: cp in s.copies && About(s.copies[cp].payload, s.messages[m].account, m)
                            && ShouldDeadLetter(c, s.copies[cp].redelivered, s.copies[cp].deaths)
  {
    var trace :| Run(c, Init(), trace, s);
    hide Run, Enabled, Next;
    InvRun(c, Init(), trace, s);
    assert StatusBacked(c, s, m);
  }

  /** The DLQ never holds a message that is still to be delivered. */
  lemma DlqHoldsOnlyFinished(c: Config, s: State, p: Payload)
    requires c.dlqSet && Reachable(c, s) && p in s.dlq && p.Ids? && Lookup(s.messages, p).Some?
    ensures Terminal(Lookup(s.messages, p).value)
  {
    var trace :| Run(c, Init(), trace, s);
    hide Run, Enabled, Next;
    InvRun(c, Init(), trace, s);
  }
}
