/** When `sent` does mean that the operator accepted the message exactly once. */
module SentProvenance {
  import opened Base
  import opened Pipeline
  import opened Wellformed
  import NoLoss
  import opened OperatorCalls

  predicate For(p: Payload, m: Uuid) { p.Ids? && p.message == m }

  predicate NoCopyFor(copies: map<nat, Copy>, m: Uuid) {
    forall cp | cp in copies :: !For(copies[cp].payload, m)
  }

  /** The handler has claimed the message and not yet settled what the operator said. */
  predicate MidClaim(pc: Pc) { pc.Operate? || pc.Calling? || pc.Release? || pc.MarkFailed? }

  /** The seven ways in which a claim row can come to stand for a message the operator has not
      accepted: a copy from outside; a second copy while one is with the broker; the broker taking
      a copy from a live handler; a crash between the claim and the operator's answer being
      settled; a claim that commits but reports failure; a failed release; a failed mark-failed. */
  datatype Mishap = StrayCopy | SecondCopy | TakenFromLive | CrashMidClaim | ClaimUnsure | ReleaseFailed | MarkFailedFailed

  function MishapOf(s: State, step: Step, m: Uuid): Option<Mishap>
    requires Enabled(s, step)
  {
    match step
    case World(Stray(_, _, p, _)) => if For(p, m) then Some(StrayCopy) else None
    case World(Disconnect(cp)) =>
      if For(s.copies[cp].payload, m) && s.copies[cp].holder.value in s.handlers then Some(TakenFromLive) else None
    case World(_) => None
    case Relay(t, PublishCopy(_, io)) =>
      if io.Applied() && For(s.events[s.tasks[t].event].payload, m) && !NoCopyFor(s.copies, m)
      then Some(SecondCopy) else None
    case Relay(_, _) => None
    case Work(i, w) =>
      if w.Receive? || !For(s.handlers[i].payload, m) then None
      else if w == CommitClaim(Unsure) then Some(ClaimUnsure)
      else if w == DropClaim(Refused) then Some(ReleaseFailed)
      else if w == SetFailed(Refused) then Some(MarkFailedFailed)
      else if w.Crash? && MidClaim(s.handlers[i].pc) then Some(CrashMidClaim)
      else None
  }

  predicate Clean(s: State, step: Step, m: Uuid)
    requires Enabled(s, step)
  {
    MishapOf(s, step, m) == None
  }

  ghost predicate CleanRun(c: Config, s: State, trace: seq<Step>, t: State, m: Uuid)
    decreases |trace|
  {
    if trace == [] then s == t
    else Enabled(s, trace[0]) && Clean(s, trace[0], m) && CleanRun(c, Next(c, s, trace[0]), trace[1..], t, m)
  }

  // ----- one copy, one handler -------------------------------------------------------------------

  /** One copy of the message at most, with its own ids, held by whatever handler works on it. */
  ghost predicate OneCopy(ms: map<Uuid, Message>, copies: map<nat, Copy>, hs: map<nat, Handler>, m: Uuid) {
    && (forall a, b | a in copies && b in copies && For(copies[a].payload, m) && For(copies[b].payload, m) :: a == b)
    && (forall a | a in copies && For(copies[a].payload, m) :: Lookup(ms, copies[a].payload).Some?)
    && (forall i | i in hs && For(hs[i].payload, m) ::
          hs[i].copy in copies && copies[hs[i].copy].holder == Some(i) && copies[hs[i].copy].payload == hs[i].payload)
  }

  lemma OneHandler(s: State, m: Uuid, i: nat, j: nat)
    requires OneCopy(s.messages, s.copies, s.handlers, m)
    requires i in s.handlers && j in s.handlers && For(s.handlers[i].payload, m) && For(s.handlers[j].payload, m)
    ensures i == j
  {
  }

  lemma OneCopyWork(c: Config, s: State, i: nat, w: WorkStep, m: Uuid)
    requires OneCopy(s.messages, s.copies, s.handlers, m) && WorkEnabled(s, i, w)
    requires Grows(s.messages, NextWork(c, s, i, w).messages)
    ensures var t := NextWork(c, s, i, w); OneCopy(t.messages, t.copies, t.handlers, m)
  {
    hide NewMessages, NextPc, NewClaims, NewCalls, NewResumed;
  }

  lemma OneCopyWorld(s: State, w: WorldStep, m: Uuid)
    requires OneCopy(s.messages, s.copies, s.handlers, m) && WorldEnabled(s, w) && Clean(s, World(w), m)
    ensures var t := NextWorld(s, w); OneCopy(t.messages, t.copies, t.handlers, m)
  {
  }

  lemma OneCopyRelay(s: State, t: nat, r: RelayStep, m: Uuid)
    requires OneCopy(s.messages, s.copies, s.handlers, m) && RelayEnabled(s, t, r) && Clean(s, Relay(t, r), m)
    requires EventsAgree(s.messages, s.events)
    ensures var u := NextRelay(s, t, r); OneCopy(u.messages, u.copies, u.handlers, m)
  {
    hide NextTaskPc, SetTask, NewEvent;
  }

  // ----- what an existing claim means ----------------------------------------------------------------

  ghost predicate ClaimMeans(s: State, m: Uuid) {
    && (m in s.claims && m in s.messages && s.messages[m].status == Accepted ==>
          (exists i :: i in s.handlers && Owns(s.handlers[i], m)) || LastIs(CallsOf(s.calls, m), Returned(Success)))
    && (forall i | i in s.handlers && For(s.handlers[i].payload, m) ::
          && (s.handlers[i].pc.ClaimReread? ==> m in s.claims)
          && (s.handlers[i].pc == MarkSent(true) ==> LastIs(CallsOf(s.calls, m), Returned(Success))))
    && (m in s.messages && s.messages[m].status == Sent ==> LastIs(CallsOf(s.calls, m), Returned(Success)))
  }

  ghost predicate Inv(c: Config, s: State, m: Uuid) {
    && NoLoss.Inv(c, s) && OperatorCalls.Inv(c, s)
    && OneCopy(s.messages, s.copies, s.handlers, m) && ClaimMeans(s, m)
  }

  /** The same, read off the one handler that works on the message. */
  predicate LocalMeans(ms: map<Uuid, Message>, claims: set<Uuid>, cs: seq<Call>, h: Handler, m: Uuid) {
    && (m in claims && m in ms && ms[m].status == Accepted ==> Owns(h, m) || LastIs(cs, Returned(Success)))
    && (h.pc.ClaimReread? ==> m in claims)
    && (h.pc == MarkSent(true) ==> LastIs(cs, Returned(Success)))
    && (m in ms && ms[m].status == Sent ==> LastIs(cs, Returned(Success)))
  }

  lemma LocalStep(c: Config, s: State, i: nat, w: WorkStep, m: Uuid)
    requires WorkEnabled(s, i, w) && Inner(w) && Clean(s, Work(i, w), m) && For(s.handlers[i].payload, m)
    requires PathAgrees(c, s.messages, s.handlers[i]) && NoLoss.AckSafe(s.messages, s.handlers[i])
    requires PlaceMatches(s.calls, i, s.handlers[i]) && Lookup(s.messages, s.handlers[i].payload).Some?
    requires LocalMeans(s.messages, s.claims, CallsOf(s.calls, m), s.handlers[i], m)
    ensures LocalMeans(NewMessages(s.messages, s.handlers[i], w), NewClaims(s.claims, s.handlers[i], w),
                       CallsOf(NewCalls(s.calls, i, s.handlers[i], w), m), Moved(c, s, i, w), m)
  {
  }

  lemma LocalFacts(c: Config, s: State, i: nat, m: Uuid)
    requires Inv(c, s, m) && i in s.handlers && For(s.handlers[i].payload, m)
    ensures forall j | j in s.handlers && For(s.handlers[j].payload, m) :: j == i
    ensures PathAgrees(c, s.messages, s.handlers[i]) && NoLoss.AckSafe(s.messages, s.handlers[i])
    ensures PlaceMatches(s.calls, i, s.handlers[i]) && Lookup(s.messages, s.handlers[i].payload).Some?
    ensures LocalMeans(s.messages, s.claims, CallsOf(s.calls, m), s.handlers[i], m)
  {
  }

  lemma LocalLift(s: State, i: nat, m: Uuid)
    requires i in s.handlers && forall j | j in s.handlers && For(s.handlers[j].payload, m) :: j == i
    requires LocalMeans(s.messages, s.claims, CallsOf(s.calls, m), s.handlers[i], m)
    ensures ClaimMeans(s, m)
  {
  }

  lemma MeansOwnInner(c: Config, s: State, i: nat, w: WorkStep, m: Uuid)
    requires Inv(c, s, m) && WorkEnabled(s, i, w) && Inner(w) && Clean(s, Work(i, w), m)
    requires For(s.handlers[i].payload, m)
    ensures ClaimMeans(NextWork(c, s, i, w), m)
  {
    hide Inv, NewMessages, NewClaims, NewCalls, NextPc, NewDlq, NewResumed, Unblocked, Ready, LocalMeans, ClaimMeans;
    LocalFacts(c, s, i, m);
    LocalStep(c, s, i, w, m);
    LocalLift(NextWork(c, s, i, w), i, m);
  }

  /** The handler that leaves was not mid-claim, so the claim it may leave behind is backed. */
  lemma MeansLeaving(c: Config, s: State, i: nat, w: WorkStep, m: Uuid)
    requires Inv(c, s, m) && WorkEnabled(s, i, w) && (w.Settle? || w.Crash?) && Clean(s, Work(i, w), m)
    requires For(s.handlers[i].payload, m)
    ensures ClaimMeans(NextWork(c, s, i, w), m)
  {
    hide Inv, Settled, NewResumed, NewDlq, NewMessages, NewClaims, NextPc;
    LocalFacts(c, s, i, m);
  }

  /** A step of a handler that takes, returns or drops a copy. */
  lemma MeansOuter(c: Config, s: State, i: nat, w: WorkStep, m: Uuid)
    requires Inv(c, s, m) && WorkEnabled(s, i, w) && !Inner(w) && Clean(s, Work(i, w), m)
    ensures ClaimMeans(NextWork(c, s, i, w), m)
  {
    assert ClaimMeans(s, m);
    hide Inv, ClaimMeans, Settled, NewResumed, NewDlq, NewMessages, NewClaims, NextPc;
    if !w.Receive? && For(s.handlers[i].payload, m) {
      MeansLeaving(c, s, i, w, m);
    } else {
      OthersMean(s, NextWork(c, s, i, w), m);
    }
  }

  /** A change that leaves the message, its claim, its calls and its handlers alone. */
  lemma OthersMean(s: State, t: State, m: Uuid)
    requires ClaimMeans(s, m) && CallsOf(t.calls, m) == CallsOf(s.calls, m)
    requires m in t.messages ==> (m in s.messages && t.messages[m] == s.messages[m]) || (t.messages[m].status == Accepted && m !in s.claims)
    requires m in t.claims <==> m in s.claims
    requires forall i | i in s.handlers && For(s.handlers[i].payload, m) :: i in t.handlers && t.handlers[i] == s.handlers[i]
    requires forall i | i in t.handlers && For(t.handlers[i].payload, m) ::
               t.handlers[i].pc == Received || (i in s.handlers && t.handlers[i] == s.handlers[i])
    ensures ClaimMeans(t, m)
  {
    if i :| i in s.handlers && Owns(s.handlers[i], m) {
      assert i in t.handlers && Owns(t.handlers[i], m);
    }
  }

  lemma OtherInner(c: Config, s: State, i: nat, w: WorkStep, m: Uuid)
    requires WorkEnabled(s, i, w) && Inner(w) && !For(s.handlers[i].payload, m)
    ensures var t := NextWork(c, s, i, w);
            && CallsOf(t.calls, m) == CallsOf(s.calls, m) && (m in t.claims <==> m in s.claims)
            && (m in t.messages ==> m in s.messages && t.messages[m] == s.messages[m])
            && (forall j | j in s.handlers && For(s.handlers[j].payload, m) :: j in t.handlers && t.handlers[j] == s.handlers[j])
            && (forall j | j in t.handlers && For(t.handlers[j].payload, m) :: j in s.handlers && t.handlers[j] == s.handlers[j])
  {
    hide NextPc, NewResumed, NewDlq;
  }

  lemma MeansOtherInner(c: Config, s: State, i: nat, w: WorkStep, m: Uuid)
    requires Inv(c, s, m) && WorkEnabled(s, i, w) && Inner(w) && !For(s.handlers[i].payload, m)
    ensures ClaimMeans(NextWork(c, s, i, w), m)
  {
    assert ClaimMeans(s, m);
    OtherInner(c, s, i, w, m);
    hide Inv, ClaimMeans, NextWork;
    OthersMean(s, NextWork(c, s, i, w), m);
  }

  lemma MeansWorld(c: Config, s: State, w: WorldStep, m: Uuid)
    requires Inv(c, s, m) && WorldEnabled(s, w)
    ensures ClaimMeans(NextWorld(s, w), m)
  {
    assert ClaimMeans(s, m);
    hide Inv, ClaimMeans;
    OthersMean(s, NextWorld(s, w), m);
  }

  lemma InvStep(c: Config, s: State, step: Step, m: Uuid)
    requires Inv(c, s, m) && Enabled(s, step) && Clean(s, step, m)
    ensures Inv(c, Next(c, s, step), m)
  {
    NoLoss.InvStep(c, s, step);
    OperatorCalls.InvStep(c, s, step);
    StepGrows(c, s, step);
    match step
    case World(w) =>
      OneCopyWorld(s, w, m);
      MeansWorld(c, s, w, m);
    case Relay(t, r) =>
      OneCopyRelay(s, t, r, m);
      OthersMean(s, NextRelay(s, t, r), m);
    case Work(i, w) =>
      OneCopyWork(c, s, i, w, m);
      MeansWork(c, s, i, w, m);
  }

  lemma MeansWork(c: Config, s: State, i: nat, w: WorkStep, m: Uuid)
    requires Inv(c, s, m) && WorkEnabled(s, i, w) && Clean(s, Work(i, w), m)
    ensures ClaimMeans(NextWork(c, s, i, w), m)
  {
    if !Inner(w) {
      MeansOuter(c, s, i, w, m);
    } else if For(s.handlers[i].payload, m) {
      MeansOwnInner(c, s, i, w, m);
    } else {
      MeansOtherInner(c, s, i, w, m);
    }
  }

  lemma {:induction false} InvRun(c: Config, s: State, trace: seq<Step>, t: State, m: Uuid)
    requires Inv(c, s, m) && CleanRun(c, s, trace, t, m)
    ensures Inv(c, t, m)
    decreases |trace|
  {
    hide Inv, Enabled, Next, Clean;
    if trace != [] {
      InvStep(c, s, trace[0], m);
      InvRun(c, Next(c, s, trace[0]), trace[1..], t, m);
    }
  }

  /** In a run with none of the seven mishaps for the message, `sent` means exactly one success,
      and it is the operator's last word. */
  lemma SentMeansDelivered(c: Config, trace: seq<Step>, s: State, m: Uuid)
    requires CleanRun(c, Init(), trace, s, m)
    requires m in s.messages && s.messages[m].status == Sent
    ensures LastIs(CallsOf(s.calls, m), Returned(Success))
    ensures Count(CallsOf(s.calls, m), Returned(Success)) == 1
  {
    hide CleanRun, Enabled, Next;
    InvRun(c, Init(), trace, s, m);
    DecisiveOnce(CallsOf(s.calls, m), Returned(Success));
  }
}
