/** Nothing gets stuck: whatever has happened, every accepted message can still be finished. */
module Recovery {
  import opened Base
  import opened Pipeline
  import opened Wellformed
  import NoLoss

  /** Some continuation of the run gives the message this status. */
  ghost predicate CanBecome(c: Config, s: State, m: Uuid, st: Status) {
    exists trace, t :: Run(c, s, trace, t) && m in t.messages && t.messages[m].status == st
  }

  /** It can be sent, or it is due for the DLQ and can get there. */
  ghost predicate CanFinish(c: Config, s: State, m: Uuid) {
    CanBecome(c, s, m, Sent) || CanBecome(c, s, m, DeadLettered)
  }

  lemma Became(c: Config, s: State, m: Uuid, st: Status)
    requires m in s.messages && s.messages[m].status == st
    ensures CanBecome(c, s, m, st)
  {
    assert Run(c, s, [], s);
  }

  lemma Before(c: Config, s: State, step: Step, m: Uuid, st: Status)
    requires Enabled(s, step) && CanBecome(c, Next(c, s, step), m, st)
    ensures CanBecome(c, s, m, st)
  {
    hide Enabled, Next;
    var trace, t :| Run(c, Next(c, s, step), trace, t) && m in t.messages && t.messages[m].status == st;
    assert ([step] + trace)[1..] == trace;
    assert Run(c, s, [step] + trace, t);
  }

  lemma After(c: Config, s: State, step: Step, m: Uuid)
    requires Enabled(s, step) && CanFinish(c, Next(c, s, step), m)
    ensures CanFinish(c, s, m)
  {
    hide Enabled, Next, CanBecome;
    if CanBecome(c, Next(c, s, step), m, Sent) { Before(c, s, step, m, Sent); } else { Before(c, s, step, m, DeadLettered); }
  }

  // ----- a lone handler ---------------------------------------------------------------------------

  /** One handler is left, it works on the message, and the message is still accepted. */
  predicate Alone(s: State, i: nat, h: Handler, m: Uuid) {
    s.handlers == map[i := h] && h.payload.Ids? && h.payload.message == m && Lookup(s.messages, h.payload) == Some(Accepted)
  }

  lemma NobodyBlocks(s: State, i: nat, h: Handler, w: WorkStep)
    requires s.handlers == map[i := h] && Ready(h, w)
    ensures Unblocked(s, h, w)
  {
  }

  lemma Advance(c: Config, s: State, i: nat, h: Handler, m: Uuid, w: WorkStep)
    requires Alone(s, i, h, m) && Inner(w) && Ready(h, w)
    ensures WorkEnabled(s, i, w)
    ensures NewMessages(s.messages, h, w) == s.messages ==>
              Alone(Next(c, s, Work(i, w)), i, h.(pc := NextPc(c, s, h, w)), m)
    ensures Next(c, s, Work(i, w)).messages == NewMessages(s.messages, h, w)
  {
    hide Ready, Unblocked, Lookup, NextPc, NewMessages, NewClaims, NewCalls, NewResumed, NewDlq;
    NobodyBlocks(s, i, h, w);
    var t := NextWork(c, s, i, w);
    assert t.handlers == map[i := h.(pc := NextPc(c, s, h, w))];
  }

  /** One step of a lone handler that leaves the message alone. */
  lemma Onward(c: Config, s: State, i: nat, h: Handler, m: Uuid, w: WorkStep, goal: Status) returns (t: State, g: Handler)
    requires Alone(s, i, h, m) && Inner(w) && Ready(h, w) && NewMessages(s.messages, h, w) == s.messages
    ensures t == Next(c, s, Work(i, w)) && g == h.(pc := NextPc(c, s, h, w)) && Alone(t, i, g, m)
    ensures CanBecome(c, t, m, goal) ==> CanBecome(c, s, m, goal)
  {
    Advance(c, s, i, h, m, w);
    hide NextPc, NewMessages, Next, CanBecome, Alone;
    t, g := Next(c, s, Work(i, w)), h.(pc := NextPc(c, s, h, w));
    if CanBecome(c, t, m, goal) { Before(c, s, Work(i, w), m, goal); }
  }

  /** Its last step, one that finishes the message. */
  lemma Finishes(c: Config, s: State, i: nat, h: Handler, m: Uuid, w: WorkStep, st: Status)
    requires Alone(s, i, h, m) && Inner(w) && Ready(h, w) && Terminal(st)
    requires NewMessages(s.messages, h, w) == s.messages[m := Message(h.payload.account, st)]
    ensures CanBecome(c, s, m, st)
  {
    Advance(c, s, i, h, m, w);
    hide NextPc, NewMessages, Next, CanBecome, Alone;
    Became(c, Next(c, s, Work(i, w)), m, st);
    Before(c, s, Work(i, w), m, st);
  }

  lemma Marking(c: Config, s: State, i: nat, h: Handler, m: Uuid)
    requires Alone(s, i, h, m) && h.pc.MarkSent?
    ensures CanBecome(c, s, m, Sent)
  {
    hide CanBecome, Next;
    Finishes(c, s, i, h, m, SetSent(Done), Sent);
  }

  lemma Calls(c: Config, s: State, i: nat, h: Handler, m: Uuid)
    requires Alone(s, i, h, m) && h.pc == Operate
    ensures CanBecome(c, s, m, Sent)
  {
    hide CanBecome, Next, Alone;
    AloneFacts(s, i, h, m);
    var t, g := Onward(c, s, i, h, m, CallOperator, Sent);
    AloneFacts(t, i, g, m);
    t, g := Onward(c, t, i, g, m, Answer(Success), Sent);
    Marking(c, t, i, g, m);
  }

  lemma AloneFacts(s: State, i: nat, h: Handler, m: Uuid)
    requires Alone(s, i, h, m)
    ensures h.payload.Ids? && h.payload.message == m && Lookup(s.messages, h.payload) == Some(Accepted)
  {
  }

  /** Whether the claim row is there or not, a redelivered copy gets the message sent. */
  lemma Claiming(c: Config, s: State, i: nat, h: Handler, m: Uuid)
    requires Alone(s, i, h, m) && h.pc == ClaimRead && h.redelivered
    ensures CanBecome(c, s, m, Sent)
  {
    hide CanBecome, Next, Alone;
    AloneFacts(s, i, h, m);
    var t, g := Onward(c, s, i, h, m, ReadStatus(true), Sent);
    AloneFacts(t, i, g, m);
    var u, k := Onward(c, t, i, g, m, InsertClaim(true), Sent);
    AloneFacts(u, i, k, m);
    if k.pc == ClaimReread {
      u, k := Onward(c, u, i, k, m, ReadStatus(true), Sent);
      Marking(c, u, i, k, m);
    } else {
      u, k := Onward(c, u, i, k, m, CommitClaim(Done), Sent);
      Calls(c, u, i, k, m);
    }
  }

  lemma Burying(c: Config, s: State, i: nat, h: Handler, m: Uuid)
    requires Alone(s, i, h, m) && h.pc == DeadUpdate
    ensures CanBecome(c, s, m, DeadLettered)
  {
    hide CanBecome, Next, Alone;
    AloneFacts(s, i, h, m);
    var t, g := Onward(c, s, i, h, m, SetDead(true), DeadLettered);
    AloneFacts(t, i, g, m);
    t, g := Onward(c, t, i, g, m, InsertDead(true), DeadLettered);
    AloneFacts(t, i, g, m);
    Finishes(c, t, i, g, m, CommitDead(Done), DeadLettered);
  }

  /** A redelivered copy is enough: its attempt count says whether the message is buried or sent. */
  lemma Decoding(c: Config, s: State, i: nat, h: Handler, m: Uuid)
    requires Alone(s, i, h, m) && h.pc == Received && h.redelivered
    ensures CanBecome(c, s, m, if Deadly(c, h) then DeadLettered else Sent)
  {
    hide CanBecome, Next, Alone;
    AloneFacts(s, i, h, m);
    var goal := if Deadly(c, h) then DeadLettered else Sent;
    var t, g := Onward(c, s, i, h, m, Decode, goal);
    if g.pc == DeadUpdate { Burying(c, t, i, g, m); } else { Claiming(c, t, i, g, m); }
  }

  // ----- getting there ------------------------------------------------------------------------------

  lemma {:induction false} Above(used: set<nat>) returns (n: nat)
    ensures forall k | k in used :: k < n
  {
    Inhabited(used);
    if used == {} {
      n := 0;
    } else {
      var x :| x in used;
      n := Above(used - {x});
      assert forall k | k in used :: k == x || k in used - {x};
      if n <= x { n := x + 1; }
    }
  }

  /** No handler is left, and the message is still accepted. */
  predicate Quiet(s: State, m: Uuid) { s.handlers == map[] && m in s.messages && s.messages[m].status == Accepted }

  predicate CopyOf(s: State, cp: nat, m: Uuid) {
    m in s.messages && cp in s.copies && About(s.copies[cp].payload, s.messages[m].account, m)
  }

  lemma FreshHand(s: State) returns (i: nat)
    requires s.handlers == map[]
    ensures FreshWorker(s, i)
  {
    var holders := set cp | cp in s.copies && s.copies[cp].holder.Some? :: s.copies[cp].holder.value;
    i := Above(holders);
    forall cp | cp in s.copies ensures s.copies[cp].holder != Some(i) {
      if s.copies[cp].holder.Some? { assert s.copies[cp].holder.value in holders; }
    }
  }

  lemma Redelivered(c: Config, s: State, m: Uuid, cp: nat)
    requires Quiet(s, m) && CopyOf(s, cp, m) && s.copies[cp].holder == None && s.copies[cp].redelivered
    ensures CanFinish(c, s, m)
  {
    var i := FreshHand(s);
    var step := Work(i, Receive(cp));
    var t := Next(c, s, step);
    assert Alone(t, i, t.handlers[i], m);
    hide CanFinish, Next, Alone;
    Decoding(c, t, i, t.handlers[i], m);
    After(c, s, step, m);
  }

  lemma TakenBack(c: Config, s: State, m: Uuid, cp: nat)
    requires Quiet(s, m) && CopyOf(s, cp, m) && s.copies[cp].holder.Some?
    ensures CanFinish(c, s, m)
  {
    var step := World(Disconnect(cp));
    var t := Next(c, s, step);
    hide CanFinish;
    Redelivered(c, t, m, cp);
    After(c, s, step, m);
  }

  /** A copy nobody holds is taken by a handler that crashes, which leaves it held by nobody alive. */
  lemma Queued(c: Config, s: State, m: Uuid, cp: nat)
    requires Quiet(s, m) && CopyOf(s, cp, m)
    ensures CanFinish(c, s, m)
  {
    hide CanFinish;
    if s.copies[cp].holder.Some? {
      TakenBack(c, s, m, cp);
    } else {
      var i := FreshHand(s);
      var t := Next(c, s, Work(i, Receive(cp)));
      var u := Next(c, t, Work(i, Crash));
      assert u.handlers == map[];
      hide Next;
      TakenBack(c, u, m, cp);
      After(c, t, Work(i, Crash), m);
      After(c, s, Work(i, Receive(cp)), m);
    }
  }

  /** The lease of a claim the relay still has in hand. */
  predicate InHand(s: State, t: nat, e: Uuid, pc: TaskPc, m: Uuid) {
    && Quiet(s, m) && e in s.events && s.events[e].status == Pending && About(s.events[e].payload, s.messages[m].account, m)
    && t in s.tasks && s.tasks[t].event == e && s.tasks[t].pc == pc
  }

  lemma Publishes(c: Config, s: State, t: nat, e: Uuid, m: Uuid)
    requires InHand(s, t, e, Publish, m)
    ensures CanFinish(c, s, m)
  {
    var cp := Above(s.copies.Keys + s.published.Keys);
    var step := Relay(t, PublishCopy(cp, Done));
    var u := Next(c, s, step);
    assert CopyOf(u, cp, m);
    hide CanFinish, Next;
    Queued(c, u, m, cp);
    After(c, s, step, m);
  }

  lemma Checks(c: Config, s: State, t: nat, e: Uuid, m: Uuid)
    requires InHand(s, t, e, Check, m)
    ensures CanFinish(c, s, m)
  {
    var step := Relay(t, CheckPublished(true));
    var u := Next(c, s, step);
    assert InHand(u, t, e, Publish, m);
    hide CanFinish, Next;
    Publishes(c, u, t, e, m);
    After(c, s, step, m);
  }

  lemma Leasing(c: Config, s: State, e: Uuid, m: Uuid)
    requires Quiet(s, m) && e in s.events && About(s.events[e].payload, s.messages[m].account, m) && Leasable(s, e)
    ensures CanFinish(c, s, m)
  {
    var t := Above(s.leases.Keys + s.tasks.Keys);
    var step := Relay(t, Lease(e, 0));
    var u := Next(c, s, step);
    assert InHand(u, t, e, Check, m);
    hide CanFinish, Next;
    Checks(c, u, t, e, m);
    After(c, s, step, m);
  }

  /** A lock left behind runs out. */
  lemma Waiting(c: Config, s: State, e: Uuid, m: Uuid)
    requires Quiet(s, m) && e in s.events && s.events[e].status == Pending && About(s.events[e].payload, s.messages[m].account, m)
    ensures CanFinish(c, s, m)
  {
    var delta: nat := if s.events[e].lockedUntil.Some? && s.events[e].lockedUntil.value >= s.now
                      then s.events[e].lockedUntil.value - s.now + 1 else 0;
    var step := World(Tick(delta));
    var u := Next(c, s, step);
    hide CanFinish, Next;
    Leasing(c, u, e, m);
    After(c, s, step, m);
  }

  lemma WhenQuiet(c: Config, s: State, m: Uuid)
    requires Quiet(s, m) && NoLoss.NothingLost(s)
    ensures CanFinish(c, s, m)
  {
    hide CanFinish;
    if e :| e in s.events && s.events[e].status == Pending && About(s.events[e].payload, s.messages[m].account, m) {
      Waiting(c, s, e, m);
    } else {
      assert NoLoss.Covered(s.messages, s.copies, m) || NoLoss.HasPendingEvent(s.events, s.messages[m].account, m);
      var cp :| cp in s.copies && About(s.copies[cp].payload, s.messages[m].account, m);
      Queued(c, s, m, cp);
    }
  }

  /** All handlers crash, one after the other. */
  lemma {:induction false} Crashing(c: Config, s: State, m: Uuid)
    requires m in s.messages && s.messages[m].status == Accepted && NoLoss.NothingLost(s)
    ensures CanFinish(c, s, m)
    decreases |s.handlers|
  {
    hide CanFinish, NoLoss.NothingLost;
    if s.handlers == map[] {
      WhenQuiet(c, s, m);
    } else {
      Inhabited(s.handlers.Keys);
      var i :| i in s.handlers;
      var t := Next(c, s, Work(i, Crash));
      CrashKeeps(c, s, i);
      assert |t.handlers| < |s.handlers|;
      Crashing(c, t, m);
      After(c, s, Work(i, Crash), m);
    }
  }

  lemma CrashKeeps(c: Config, s: State, i: nat)
    requires i in s.handlers && NoLoss.NothingLost(s)
    ensures var t := Next(c, s, Work(i, Crash));
            NoLoss.NothingLost(t) && t.messages == s.messages && t.handlers == s.handlers - {i}
            && |t.handlers| < |s.handlers|
  {
    hide NewCalls;
    var t := Next(c, s, Work(i, Crash));
    assert t.handlers.Keys == s.handlers.Keys - {i};
    assert |t.handlers.Keys| == |t.handlers| && |s.handlers.Keys| == |s.handlers|;
  }

  /** From every reachable state, after any crashes, failures and duplicates, every message that is
      still accepted can be sent, or buried when its copy has used up its attempts. */
  lemma NothingGetsStuck(c: Config, s: State, m: Uuid)
    requires Reachable(c, s) && m in s.messages
    ensures Terminal(s.messages[m].status) || CanFinish(c, s, m)
  {
    hide CanFinish, Reachable;
    NoLoss.InvReachable(c, s);
    if s.messages[m].status == Accepted { Crashing(c, s, m); }
  }
}
