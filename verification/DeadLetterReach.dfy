/** When a message can be dead-lettered at all on the queues as they are declared: without a
    dead-letter exchange no copy ever carries an x-death header, and a redelivery counts as one
    attempt however often it happens. */
module DeadLetterReach {
  import opened Base
  import opened Pipeline
  import opened Wellformed
  import DeadLetters
  import NoLoss

  /** The broker never adds x-death records. */
  predicate Plain(step: Step) {
    match step
    case World(Stray(_, _, _, d)) => d <= 0
    case World(RaiseDeaths(_, n)) => n == 0
    case _ => true
  }

  ghost predicate PlainRun(c: Config, s: State, trace: seq<Step>, t: State)
    decreases |trace|
  {
    if trace == [] then s == t
    else Enabled(s, trace[0]) && Plain(trace[0]) && PlainRun(c, Next(c, s, trace[0]), trace[1..], t)
  }

  ghost predicate PlainReachable(c: Config, s: State) {
    exists trace :: PlainRun(c, Init(), trace, s)
  }

  // ----- unless the maximum is one, never -----------------------------------------------------------

  ghost predicate NoDeaths(copies: map<nat, Copy>, hs: map<nat, Handler>) {
    && (forall cp | cp in copies :: copies[cp].deaths <= 0)
    && (forall i | i in hs :: hs[i].deaths <= 0)
  }

  ghost predicate NothingDead(s: State) {
    (forall m | m in s.messages :: s.messages[m].status != DeadLettered) && s.dlq == multiset{}
  }

  ghost predicate Inv(c: Config, s: State) {
    NoLoss.Inv(c, s) && NoDeaths(s.copies, s.handlers) && NothingDead(s)
  }

  lemma NoDeathsWork(c: Config, s: State, i: nat, w: WorkStep)
    requires NoDeaths(s.copies, s.handlers) && WorkEnabled(s, i, w)
    ensures NoDeaths(NextWork(c, s, i, w).copies, NextWork(c, s, i, w).handlers)
  {
    hide NewMessages, NextPc, NewClaims, NewCalls, NewResumed, NewDlq;
  }

  lemma NoDeathsWorld(s: State, w: WorldStep)
    requires NoDeaths(s.copies, s.handlers) && WorldEnabled(s, w) && Plain(World(w))
    ensures NoDeaths(NextWorld(s, w).copies, s.handlers)
  {
    hide FreshMessage;
  }

  lemma NoDeathsRelay(s: State, t: nat, r: RelayStep)
    requires NoDeaths(s.copies, s.handlers) && RelayEnabled(s, t, r)
    ensures NoDeaths(NextRelay(s, t, r).copies, s.handlers)
  {
    hide NextTaskPc, SetTask, NewEvent;
  }

  lemma NoDeathsStep(c: Config, s: State, step: Step)
    requires NoDeaths(s.copies, s.handlers) && Enabled(s, step) && Plain(step)
    ensures NoDeaths(Next(c, s, step).copies, Next(c, s, step).handlers)
  {
    hide NextWorld, NextRelay, NextWork, NoDeaths, Plain;
    match step
    case World(w) => NoDeathsWorld(s, w);
    case Relay(t, r) => NoDeathsRelay(s, t, r);
    case Work(i, w) => NoDeathsWork(c, s, i, w);
  }

  lemma NothingDeadStep(c: Config, s: State, step: Step)
    requires Inv(c, s) && Enabled(s, step) && c.maxAttempts != 1
    ensures NothingDead(Next(c, s, step))
  {
    var t := Next(c, s, step);
    forall m | m in t.messages ensures t.messages[m].status != DeadLettered {
      if t.messages[m].status == DeadLettered {
        assert step.Work? && step.worker in s.handlers ==> PathAgrees(c, s.messages, s.handlers[step.worker]);
        hide NextWorld, NextRelay, NextWork, NoLoss.Inv;
        match step
        case World(w) => DeadLetters.WorldNeverDead(s, w, m);
        case Relay(k, r) =>
        case Work(i, w) => DeadLetters.WorkDead(c, s, i, w, m);
      }
    }
    NothingOnDlq(c, s, step);
  }

  lemma NothingOnDlq(c: Config, s: State, step: Step)
    requires Inv(c, s) && Enabled(s, step) && c.maxAttempts != 1
    ensures Next(c, s, step).dlq == multiset{}
  {
    assert step.Work? && step.worker in s.handlers ==> PathAgrees(c, s.messages, s.handlers[step.worker]);
    hide NoLoss.Inv, NextWorld, NextRelay, NewMessages, NextPc, NewClaims, NewCalls, NewResumed, Settled, Unblocked;
  }

  lemma {:induction false} InvRun(c: Config, s: State, trace: seq<Step>, t: State)
    requires Inv(c, s) && c.maxAttempts != 1 && PlainRun(c, s, trace, t)
    ensures Inv(c, t)
    decreases |trace|
  {
    hide Enabled, Next, NoLoss.Inv, NoDeaths, NothingDead;
    if trace != [] {
      NoLoss.InvStep(c, s, trace[0]);
      NoDeathsStep(c, s, trace[0]);
      NothingDeadStep(c, s, trace[0]);
      InvRun(c, Next(c, s, trace[0]), trace[1..], t);
    }
  }

  // ----- with a maximum of one, after a single redelivery ------------------------------------------

  lemma {:induction false} PlainConcat(c: Config, s: State, a: seq<Step>, t: State, step: Step)
    requires PlainRun(c, s, a, t) && Enabled(t, step) && Plain(step)
    ensures PlainRun(c, s, a + [step], Next(c, t, step))
    decreases |a|
  {
    hide Enabled, Next, Plain;
    if a == [] {
      assert a + [step] == [step] && [step][1..] == [];
    } else {
      assert (a + [step])[1..] == a[1..] + [step];
      PlainConcat(c, Next(c, s, a[0]), a[1..], t, step);
    }
  }

  lemma PlainNext(c: Config, s: State, step: Step) returns (t: State)
    requires PlainReachable(c, s) && Enabled(s, step) && Plain(step)
    ensures t == Next(c, s, step) && PlainReachable(c, t)
  {
    hide Enabled, Next, Plain, PlainRun;
    var trace :| PlainRun(c, Init(), trace, s);
    PlainConcat(c, Init(), trace, s, step);
    t := Next(c, s, step);
  }

  lemma Leased(c: Config) returns (s: State)
    ensures PlainReachable(c, s) && s.handlers == map[] && s.copies == map[] && s.published == map[]
    ensures s.messages == map[0 := Message(0, Accepted)] && s.claims == {}
    ensures s.tasks == map[0 := Task(0, 30, Check)] && s.events == map[0 := Event(Sample(), Pending, Some(30), 0, 0)]
  {
    s := Init();
    assert PlainRun(c, s, [], s);
    hide PlainReachable, PlainRun, NextWork, WorkEnabled;
    s := PlainNext(c, s, World(Accept(0, 0, 0, Standard)));
    s := PlainNext(c, s, Relay(0, Lease(0, 30)));
  }

  lemma Queued(c: Config) returns (s: State)
    ensures PlainReachable(c, s) && FreshWorker(s, 0) && s.handlers == map[]
    ensures s.messages == map[0 := Message(0, Accepted)] && s.claims == {}
    ensures s.copies == map[0 := Copy(Standard, Sample(), false, 0, None)]
  {
    s := Leased(c);
    hide PlainReachable, PlainRun, NextWork, WorkEnabled, NextWorld, WorldEnabled;
    s := PlainNext(c, s, Relay(0, CheckPublished(true)));
    s := PlainNext(c, s, Relay(0, PublishCopy(0, Done)));
  }

  lemma NobodyBlocks(s: State, h: Handler, w: WorkStep)
    requires s.handlers == map[0 := h] && Ready(h, w)
    ensures Unblocked(s, h, w)
  {
  }

  /** One step inside a lone handler's work. */
  lemma Onward(c: Config, s: State, h: Handler, w: WorkStep) returns (t: State)
    requires PlainReachable(c, s) && s.handlers == map[0 := h] && Inner(w) && Ready(h, w)
    ensures PlainReachable(c, t) && t.handlers == map[0 := h.(pc := NextPc(c, s, h, w))]
    ensures t.messages == NewMessages(s.messages, h, w) && t.claims == NewClaims(s.claims, h, w) && t.copies == s.copies
  {
    NobodyBlocks(s, h, w);
    t := PlainNext(c, s, Work(0, w));
    hide Ready, Unblocked, NextPc, NewMessages, NewClaims, NewCalls, NewResumed, NewDlq, PlainReachable, PlainRun;
  }

  lemma Redelivered(c: Config) returns (s: State)
    ensures PlainReachable(c, s) && s.handlers == map[]
    ensures s.messages == map[0 := Message(0, Accepted)] && s.claims == {}
    ensures s.copies == map[0 := Copy(Standard, Sample(), true, 0, None)]
  {
    s := Queued(c);
    hide PlainReachable, PlainRun, NextWorld, NextRelay, WorldEnabled, RelayEnabled;
    s := PlainNext(c, s, Work(0, Receive(0)));
    s := Onward(c, s, s.handlers[0], Refuse);
    s := PlainNext(c, s, Work(0, Settle(true)));
  }

  lemma Doomed(c: Config) returns (s: State)
    requires c.maxAttempts == 1
    ensures PlainReachable(c, s) && s.messages == map[0 := Message(0, Accepted)] && s.claims == {}
    ensures s.handlers == map[0 := Handler(0, Sample(), true, 0, DeadUpdate)]
  {
    s := Redelivered(c);
    hide PlainReachable, PlainRun, NextWorld, NextRelay, WorldEnabled, RelayEnabled;
    s := PlainNext(c, s, Work(0, Receive(0)));
    s := Onward(c, s, s.handlers[0], Decode);
  }

  lemma Updated(c: Config) returns (s: State)
    requires c.maxAttempts == 1
    ensures PlainReachable(c, s) && s.messages == map[0 := Message(0, Accepted)] && s.claims == {}
    ensures s.handlers == map[0 := Handler(0, Sample(), true, 0, DeadInsert(true))]
  {
    s := Doomed(c);
    hide NextWork, WorkEnabled, PlainReachable, PlainRun, NextWorld, NextRelay, WorldEnabled, RelayEnabled;
    s := Onward(c, s, s.handlers[0], SetDead(true));
  }

  lemma Locked(c: Config) returns (s: State)
    requires c.maxAttempts == 1
    ensures PlainReachable(c, s) && s.messages == map[0 := Message(0, Accepted)]
    ensures s.handlers == map[0 := Handler(0, Sample(), true, 0, DeadCommit(true, true))]
  {
    s := Updated(c);
    hide NextWork, WorkEnabled, PlainReachable, PlainRun, NextWorld, NextRelay, WorldEnabled, RelayEnabled;
    s := Onward(c, s, s.handlers[0], InsertDead(true));
  }

  lemma Killed(c: Config) returns (s: State)
    requires c.maxAttempts == 1
    ensures PlainReachable(c, s) && 0 in s.messages && s.messages[0].status == DeadLettered
  {
    s := Locked(c);
    hide NextWork, WorkEnabled, PlainReachable, PlainRun, NextWorld, NextRelay, WorldEnabled, RelayEnabled;
    s := Onward(c, s, s.handlers[0], CommitDead(Done));
  }

  // ----- main result -----------------------------------------------------------------------------------

  /** On the declared queues a message can become `dead_lettered` exactly when the configured
      maximum is one. In particular with the default maximum of five it never does. */
  lemma DeadLetteringIffMaximumIsOne(c: Config)
    ensures (exists s, m :: PlainReachable(c, s) && m in s.messages && s.messages[m].status == DeadLettered)
            <==> c.maxAttempts == 1
  {
    if c.maxAttempts == 1 {
      var s := Killed(c);
    } else {
      forall s, m | PlainReachable(c, s) && m in s.messages ensures s.messages[m].status != DeadLettered {
        var trace :| PlainRun(c, Init(), trace, s);
        hide PlainRun, Next, Enabled;
        InvRun(c, Init(), trace, s);
      }
    }
  }
}
