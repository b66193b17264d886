/** handleDelivery and what it calls, statement by statement, as one handler among all the others:
    everybody else may move between any two calls, and any call may fail. */
module Worker {
  import opened Base
  import opened Pipeline
  import opened Shared
  import opened Wellformed
  import NoLoss
  import OperatorCalls

  datatype Delivery = Delivery(copy: nat, payload: Payload, redelivered: bool, deaths: int)

  datatype Claim = Acquired | AlreadyDone | InProgress | Resume

  predicate At(s: State, i: nat, d: Delivery, pc: Pc) {
    i in s.handlers && s.handlers[i] == Handler(d.copy, d.payload, d.redelivered, d.deaths, pc)
  }

  /** There is nothing left to do for the payload: it decodes to no message, or the message it
      names does not exist for its account, or that message's status is final. */
  predicate NothingLeft(ms: map<Uuid, Message>, p: Payload) {
    p == Malformed || (match Lookup(ms, p) case None => true case Some(st) => Terminal(st))
  }

  predicate DueForDeadLetter(c: Config, d: Delivery) { ShouldDeadLetter(c, d.redelivered, d.deaths) }

  /** What a claim decision leaves the handler to do. */
  function ClaimPc(claim: Claim, ok: bool): Pc {
    if !ok then Settling(true)
    else match claim
      case Acquired => Operate
      case AlreadyDone => Settling(false)
      case InProgress => Settling(true)
      case Resume => MarkSent(true)
  }

  lemma StepMoves(c: Config, s: State, i: nat, w: WorkStep)
    requires WorkEnabled(s, i, w) && Inner(w)
    ensures var t := Next(c, s, Work(i, w));
            i in t.handlers && t.handlers[i] == s.handlers[i].(pc := NextPc(c, s, s.handlers[i], w))
  {
    hide NextPc, NewMessages, NewClaims, NewCalls, NewResumed, NewDlq;
  }

  /** Reading, or inserting a row not yet committed, changes nothing anybody else can see. */
  lemma ReadsOnly(c: Config, s: State, i: nat, w: WorkStep)
    requires WorkEnabled(s, i, w) && (w.ReadStatus? || w.InsertClaim? || w.InsertDead?)
    ensures var t := Next(c, s, Work(i, w));
            && t.messages == s.messages && t.claims == s.claims
            && (forall j | j in t.handlers && j != i :: j in s.handlers && t.handlers[j] == s.handlers[j])
  {
    hide NextPc, NewCalls, NewResumed, NewDlq;
  }

  lemma StepLeaves(c: Config, s: State, i: nat, w: WorkStep)
    requires WorkEnabled(s, i, w) && w.Settle?
    ensures var t := Next(c, s, Work(i, w));
            i !in t.handlers && t.messages == s.messages && t.copies == Settled(s.copies, i, s.handlers[i], w.ok)
  {
    hide Settled;
  }

  /** Until a handler is gone its message cannot be created, so what it acks stays finished. */
  lemma AckIsSafe(c: Config, s: State, i: nat, d: Delivery)
    requires Reachable(c, s) && At(s, i, d, Settling(false))
    ensures NothingLeft(s.messages, d.payload)
  {
    hide Reachable;
    NoLoss.InvReachable(c, s);
    assert NoLoss.AckSafe(s.messages, s.handlers[i]);
  }

  /** A handler with a claim of its own: the row is committed, and nobody else has it or is inserting it. */
  predicate OwnsAlone(s: State, i: nat, m: Uuid) {
    m in s.claims && forall j | j in s.handlers && j != i :: !OperatorCalls.Owns(s.handlers[j], m) && !HoldsKey(s.handlers[j], m)
  }

  lemma ClaimIsItsOwn(c: Config, s: State, i: nat, d: Delivery)
    requires Reachable(c, s) && At(s, i, d, Operate) && d.payload.Ids?
    ensures OwnsAlone(s, i, d.payload.message)
  {
    hide Reachable;
    OperatorCalls.InvReachable(c, s);
    assert OperatorCalls.Owns(s.handlers[i], d.payload.message);
    hide Wf, OperatorCalls.CallsAgree, OperatorCalls.StatusesBacked;
  }

  /** The copy is on its queue again for anybody to take, marked redelivered. */
  predicate PutBack(s: State, d: Delivery) {
    && d.copy in s.copies && s.copies[d.copy].holder == None && s.copies[d.copy].redelivered
    && s.copies[d.copy].payload == d.payload
  }

  lemma HeldCopy(c: Config, s: State, i: nat, d: Delivery, pc: Pc)
    requires Reachable(c, s) && At(s, i, d, pc) && d.copy in s.copies && s.copies[d.copy].holder == Some(i)
    ensures s.copies[d.copy].payload == d.payload
  {
    hide Reachable;
    NoLoss.InvReachable(c, s);
    assert HolderAgrees(d.copy, s.copies[d.copy], s.handlers);
  }

  // ----- what a handler did, and why it answers as it does -----------------------------------------

  /** A call of the handler's that failed, reported failure although it took effect, or was cut short
      while it waited for a lock. Releasing the claim is not among them: its result changes nothing. */
  predicate Stumbles(w: WorkStep) {
    match w
    case ReadStatus(ok) => !ok
    case InsertClaim(ok) => !ok
    case CommitClaim(io) => io != Done
    case SetSent(io) => io != Done
    case SetFailed(io) => io != Done
    case SetDead(ok) => !ok
    case InsertDead(ok) => !ok
    case CommitDead(io) => io != Done
    case PublishDead(io) => io != Done
    case _ => false
  }

  predicate Stumbled(log: seq<Found>) { exists k :: 0 <= k < |log| && Stumbles(log[k].step) }

  predicate Did(log: seq<Found>, w: WorkStep) { exists k :: 0 <= k < |log| && log[k].step == w }

  /** How often the operator was called. */
  function CallsIn(log: seq<Found>): nat {
    if log == [] then 0 else CallsIn(log[..|log| - 1]) + (if Last(log).step.CallOperator? then 1 else 0)
  }

  function RowAt(f: Found, d: Delivery): Option<Status>
    requires d.payload.Ids?
  {
    Lookup(f.state.messages, d.payload)
  }

  predicate ClaimFreeAt(f: Found, d: Delivery)
    requires d.payload.Ids?
  {
    d.payload.message !in f.state.claims
  }

  /** A copy on its first delivery met a claim that is not its own, for a message still accepted. */
  predicate MetClaim(log: seq<Found>, d: Delivery) {
    && !d.redelivered && d.payload.Ids? && |log| > 3
    && log[2].step == InsertClaim(true) && !ClaimFreeAt(log[2], d)
    && log[3].step == ReadStatus(true) && RowAt(log[3], d) == Some(Accepted)
  }

  /** What was found decides what is done, as long as no call fails: the claim is tried only for an
      accepted message; whoever gets it calls the operator once and does what the answer asks for; a
      redelivered copy that finds it taken marks the message sent without calling; nobody else does. */
  ghost predicate Course(c: Config, d: Delivery, log: seq<Found>) {
    if d.payload == Malformed then CallsIn(log) == 0 && forall k | 1 <= k < |log| :: log[k].step.Settle?
    else if DueForDeadLetter(c, d) then
      && CallsIn(log) == 0
      && (!Stumbled(log) ==> Did(log, CommitDead(Done)) && (c.dlqSet ==> Did(log, PublishDead(Done))))
    else !Stumbled(log) ==>
      && |log| > 1 && log[1].step == ReadStatus(true)
      && (RowAt(log[1], d) != Some(Accepted) ==> CallsIn(log) == 0 && !Did(log, SetSent(Done)))
      && (RowAt(log[1], d) == Some(Accepted) ==>
            && |log| > 3 && log[2].step == InsertClaim(true)
            && (if ClaimFreeAt(log[2], d) then CallsIn(log) == 1 && Answered(log)
                else CallsIn(log) == 0 && log[3].step == ReadStatus(true)
                     && (Did(log, SetSent(Done)) <==> d.redelivered && RowAt(log[3], d) == Some(Accepted))))
  }

  /** One answer came, and was acted on. */
  ghost predicate Answered(log: seq<Found>) { exists out :: AnsweredWith(log, out) }

  ghost predicate AnsweredWith(log: seq<Found>, out: Outcome) {
    && (forall o :: Did(log, Answer(o)) <==> o == out)
    && (match out
        case Success => Did(log, SetSent(Done))
        case Permanent => Did(log, SetFailed(Done))
        case Transient => exists io :: Did(log, DropClaim(io)))
  }

  /** Why a delivery is put back. */
  ghost predicate Excused(log: seq<Found>, d: Delivery) {
    Stumbled(log) || Did(log, Answer(Transient)) || MetClaim(log, d)
  }

  // ----- putting logs together -----------------------------------------------------------------------

  lemma {:induction false} CallsJoin(a: seq<Found>, b: seq<Found>)
    ensures CallsIn(a + b) == CallsIn(a) + CallsIn(b)
    decreases |b|
  {
    if b == [] {
      assert a + b == a;
    } else {
      var before := b[..|b| - 1];
      CallsJoin(a, before);
      assert (a + b)[..|a + b| - 1] == a + before;
    }
  }

  lemma Joined(a: seq<Found>, b: seq<Found>)
    ensures Stumbled(a + b) <==> Stumbled(a) || Stumbled(b)
    ensures forall w :: Did(a + b, w) <==> Did(a, w) || Did(b, w)
    ensures CallsIn(a + b) == CallsIn(a) + CallsIn(b)
  {
    hide Stumbles;
    CallsJoin(a, b);
    assert forall k | 0 <= k < |a| :: (a + b)[k] == a[k];
    assert forall k | 0 <= k < |b| :: (a + b)[|a| + k] == b[k];
    forall w ensures Did(a + b, w) <==> Did(a, w) || Did(b, w) {
      if Did(b, w) {
        var k :| 0 <= k < |b| && b[k].step == w;
        assert (a + b)[|a| + k].step == w;
      }
    }
    if Stumbled(b) {
      var k :| 0 <= k < |b| && Stumbles(b[k].step);
      assert Stumbles((a + b)[|a| + k].step);
    }
    if Stumbled(a) {
      var k :| 0 <= k < |a| && Stumbles(a[k].step);
      assert Stumbles((a + b)[k].step);
    }
  }

  lemma Single(f: Found)
    ensures Stumbled([f]) <==> Stumbles(f.step)
    ensures forall w :: Did([f], w) <==> f.step == w
    ensures CallsIn([f]) == if f.step.CallOperator? then 1 else 0
  {
    assert [f][0] == f;
    assert [f][..0] == [];
  }

  /** The steps of a claim. */
  predicate OnlyClaims(log: seq<Found>) {
    forall k | 0 <= k < |log| :: log[k].step.ReadStatus? || log[k].step.InsertClaim? || log[k].step.CommitClaim?
  }

  /** What the claim transaction found and decided. */
  predicate ClaimCourse(d: Delivery, log: seq<Found>, claim: Claim)
    requires d.payload.Ids?
  {
    && |log| > 0 && log[0].step == ReadStatus(true)
    && (RowAt(log[0], d) != Some(Accepted) ==> |log| == 1 && claim == AlreadyDone)
    && (RowAt(log[0], d) == Some(Accepted) ==>
          && |log| == 3 && log[1].step == InsertClaim(true)
          && (if ClaimFreeAt(log[1], d) then claim == Acquired
              else log[2].step == ReadStatus(true)
                   && claim == if RowAt(log[2], d) != Some(Accepted) then AlreadyDone
                               else if d.redelivered then Resume else InProgress))
  }

  lemma {:induction false} OnlyClaimsFacts(log: seq<Found>)
    ensures OnlyClaims(log) ==>
              CallsIn(log) == 0 && forall w: WorkStep | w.Answer? || w.SetSent? || w.SetFailed? || w.DropClaim? :: !Did(log, w)
  {
    if log != [] {
      var before := log[..|log| - 1];
      OnlyClaimsFacts(before);
      assert log == before + [Last(log)];
      Joined(before, [Last(log)]);
      Single(Last(log));
    }
  }

  /** A claim decision that ends the delivery. */
  lemma DecidedByClaim(c: Config, d: Delivery, f: Found, claims: seq<Found>, claim: Claim)
    requires d.payload.Ids? && !DueForDeadLetter(c, d) && f.step == Decode
    requires OnlyClaims(claims) && !Stumbled(claims) && ClaimCourse(d, claims, claim)
    requires claim == AlreadyDone || claim == InProgress
    ensures Course(c, d, [f] + claims)
    ensures Excused([f] + claims, d) <==> claim == InProgress
  {
    hide Lookup, Stumbled, Did, CallsIn;
    Single(f);
    Joined([f], claims);
    OnlyClaimsFacts(claims);
    assert |claims| == 3 ==> ([f] + claims)[2] == claims[1] && ([f] + claims)[3] == claims[2];
  }

  /** The claim, or a call before it, failed. */
  lemma StumbledEarly(c: Config, d: Delivery, f: Found, claims: seq<Found>)
    requires d.payload.Ids? && !DueForDeadLetter(c, d) && f.step == Decode && Stumbled(claims)
    ensures Course(c, d, [f] + claims) && Excused([f] + claims, d)
  {
    hide Stumbled, Did, CallsIn;
    Joined([f], claims);
  }

  /** The claim was won, or resumed, and then the message was marked, or the claim given back. */
  lemma ClaimedAndMarked(c: Config, d: Delivery, f: Found, claims: seq<Found>, claim: Claim, ops: seq<Found>, last: Found)
    requires d.payload.Ids? && !DueForDeadLetter(c, d) && f.step == Decode
    requires OnlyClaims(claims) && !Stumbled(claims) && ClaimCourse(d, claims, claim)
    requires claim == Acquired || claim == Resume
    requires claim == Resume ==> ops == [] && last.step.SetSent?
    requires claim == Acquired ==>
               && |ops| == 2 && ops[0].step == CallOperator && ops[1].step.Answer?
               && (match ops[1].step.outcome
                   case Success => last.step.SetSent?
                   case Permanent => last.step.SetFailed?
                   case Transient => last.step.DropClaim?)
    ensures var log := [f] + claims + ops + [last];
            && Course(c, d, log)
            && (Excused(log, d) <==> Stumbles(last.step) || last.step.DropClaim?)
  {
    hide Lookup, Stumbled, Did, CallsIn;
    var log := [f] + claims + ops + [last];
    Single(f);
    Single(last);
    Joined([f], claims);
    Joined([f] + claims, ops);
    Joined([f] + claims + ops, [last]);
    OnlyClaimsFacts(claims);
    OpsFacts(ops);
    assert |claims| > 0 ==> log[1] == claims[0];
    assert |claims| == 3 ==> log[2] == claims[1] && log[3] == claims[2];
    if last.step.DropClaim? { assert Did(log, DropClaim(last.step.io)); }
    if claim == Acquired && !Stumbles(last.step) { assert AnsweredWith(log, ops[1].step.outcome); }
  }

  lemma OpsFacts(ops: seq<Found>)
    requires ops == [] || (|ops| == 2 && ops[0].step == CallOperator && ops[1].step.Answer?)
    ensures !Stumbled(ops) && CallsIn(ops) == |ops| / 2
    ensures forall w :: Did(ops, w) <==> ops != [] && (w == CallOperator || w == ops[1].step)
  {
    if ops != [] {
      assert ops == [ops[0]] + [ops[1]];
      Joined([ops[0]], [ops[1]]);
      Single(ops[0]);
      Single(ops[1]);
    }
  }

  /** The steps of a burial. */
  predicate OnlyDead(log: seq<Found>) {
    forall k | 0 <= k < |log| ::
      log[k].step.SetDead? || log[k].step.InsertDead? || log[k].step.CommitDead? || log[k].step.PublishDead?
  }

  lemma {:induction false} OnlyDeadFacts(log: seq<Found>)
    ensures OnlyDead(log) ==> CallsIn(log) == 0 && !Did(log, Answer(Transient))
  {
    if log != [] {
      var before := log[..|log| - 1];
      OnlyDeadFacts(before);
      assert log == before + [Last(log)];
      Joined(before, [Last(log)]);
      Single(Last(log));
    }
  }

  lemma Buried(c: Config, d: Delivery, f: Found, dead: seq<Found>)
    requires d.payload.Ids? && DueForDeadLetter(c, d) && f.step == Decode && OnlyDead(dead)
    requires !Stumbled(dead) ==> Did(dead, CommitDead(Done)) && (c.dlqSet ==> Did(dead, PublishDead(Done)))
    ensures Course(c, d, [f] + dead)
    ensures Excused([f] + dead, d) <==> Stumbled(dead)
  {
    hide Stumbled, Did, CallsIn;
    Single(f);
    Joined([f], dead);
    OnlyDeadFacts(dead);
    assert |dead| > 1 ==> ([f] + dead)[2] == dead[1];
  }

  lemma Unreadable(c: Config, d: Delivery, f: Found)
    requires d.payload == Malformed && f.step == Decode
    ensures Course(c, d, [f]) && !Excused([f], d)
  {
    Single(f);
  }

  lemma AnsweredStays(log: seq<Found>, more: seq<Found>)
    requires Answered(log) && forall w: WorkStep | !w.Settle? :: Did(more, w) <==> Did(log, w)
    ensures Answered(more)
  {
    hide Did;
    var out :| AnsweredWith(log, out);
    assert AnsweredWith(more, out);
  }

  /** The deferred ack or nack adds nothing that matters. */
  lemma SettledAfter(c: Config, d: Delivery, log: seq<Found>, f: Found)
    requires f.step.Settle? && |log| > 0
    ensures Course(c, d, log) ==> Course(c, d, log + [f])
    ensures Course(c, d, log) ==> (Excused(log + [f], d) <==> Excused(log, d))
  {
    hide Lookup, Stumbled, Did, CallsIn;
    Single(f);
    Joined(log, [f]);
    var more := log + [f];
    assert forall k | 0 <= k < |log| :: more[k] == log[k];
    if Answered(log) { AnsweredStays(log, more); }
    hide Answered;
  }

  lemma OneStumble(f: Found)
    ensures Stumbled([f]) <==> Stumbles(f.step)
  {
    Single(f);
  }

  lemma TwoStumbles(f: Found, g: Found)
    ensures Stumbled([f] + [g]) <==> Stumbles(f.step) || Stumbles(g.step)
  {
    Joined([f], [g]);
    Single(f);
    Single(g);
  }

  lemma ThreeStumbles(f: Found, g: Found, h: Found)
    ensures Stumbled([f] + [g] + [h]) <==> Stumbles(f.step) || Stumbles(g.step) || Stumbles(h.step)
  {
    TwoStumbles(f, g);
    Joined([f] + [g], [h]);
    Single(h);
  }

  /** From its first read on, a handler's message exists. */
  lemma RowIsThere(c: Config, s: State, i: nat, d: Delivery, pc: Pc)
    requires Reachable(c, s) && At(s, i, d, pc) && (pc.MarkSent? || pc == MarkFailed) && d.payload.Ids?
    ensures Lookup(s.messages, d.payload).Some?
  {
    hide Reachable;
    NoLoss.InvReachable(c, s);
    assert PathAgrees(c, s.messages, s.handlers[i]);
  }

  /** A mark that reported success left its status, unless it found another final one. */
  ghost predicate Marked(s: State, f: Found, d: Delivery) {
    d.payload.Ids? && (f.step.SetSent? || f.step.SetFailed?) && f.step.io == Done ==>
      && RowAt(f, d).Some?
      && Lookup(s.messages, d.payload)
         == if RowAt(f, d) == Some(Accepted) then Some(if f.step.SetSent? then Sent else Failed) else RowAt(f, d)
  }

  ghost predicate AllMarked(s: State, log: seq<Found>, d: Delivery) { forall k | 0 <= k < |log| :: Marked(s, log[k], d) }

  lemma AllMarkedJoin(s: State, a: seq<Found>, b: seq<Found>, d: Delivery)
    requires AllMarked(s, a, d) && AllMarked(s, b, d)
    ensures AllMarked(s, a + b, d)
  {
    hide Marked;
  }

  lemma NoneMarked(s: State, log: seq<Found>, d: Delivery)
    requires forall k | 0 <= k < |log| :: !log[k].step.SetSent? && !log[k].step.SetFailed?
    ensures AllMarked(s, log, d)
  {
    hide Lookup;
  }

  /** What is there to see of it afterwards. */
  ghost predicate Shows(c: Config, s: State, log: seq<Found>, d: Delivery) {
    && AllMarked(s, log, d)
    && (d.payload.Ids? ==>
          forall out | out != Transient && Did(log, Answer(out)) ::
            CallsOf(s.calls, d.payload.message) != [] && Last(CallsOf(s.calls, d.payload.message)) == Returned(out))
    && (d.payload.Ids? && Did(log, PublishDead(Done)) ==> d.payload in s.dlq)
  }

  lemma ShowsNothing(c: Config, s: State, log: seq<Found>, d: Delivery)
    requires d.payload == Malformed
    ensures Shows(c, s, log, d)
  {
  }

  lemma ShowsClaims(c: Config, s: State, f: Found, claims: seq<Found>, d: Delivery)
    requires f.step == Decode && OnlyClaims(claims)
    ensures Shows(c, s, [f] + claims, d)
  {
    var log := [f] + claims;
    assert forall k | 1 <= k < |log| :: log[k] == claims[k - 1];
    hide Lookup;
  }

  lemma ShowsBurial(c: Config, s: State, f: Found, dead: seq<Found>, d: Delivery)
    requires f.step == Decode && OnlyDead(dead) && (Did(dead, PublishDead(Done)) ==> d.payload in s.dlq)
    ensures Shows(c, s, [f] + dead, d)
  {
    var log := [f] + dead;
    assert forall k | 1 <= k < |log| :: log[k] == dead[k - 1];
    if Did(log, PublishDead(Done)) {
      var k :| 0 <= k < |log| && log[k].step == PublishDead(Done);
      assert dead[k - 1].step == PublishDead(Done);
    }
    hide Lookup;
  }

  lemma ShowsMarks(c: Config, s: State, f: Found, claims: seq<Found>, ops: seq<Found>, last: Found, d: Delivery)
    requires d.payload.Ids? && f.step == Decode && OnlyClaims(claims) && Marked(s, last, d)
    requires last.step.SetSent? || last.step.SetFailed? || last.step.DropClaim?
    requires ops == [] || (|ops| == 2 && ops[0].step == CallOperator && ops[1].step.Answer?
                           && (ops[1].step.outcome != Transient ==>
                                 CallsOf(s.calls, d.payload.message) != []
                                 && Last(CallsOf(s.calls, d.payload.message)) == Returned(ops[1].step.outcome)))
    ensures Shows(c, s, [f] + claims + ops + [last], d)
  {
    hide Marked, Stumbled, Did, CallsIn;
    Single(f);
    Single(last);
    Joined([f], claims);
    Joined([f] + claims, ops);
    Joined([f] + claims + ops, [last]);
    OnlyClaimsFacts(claims);
    OpsFacts(ops);
    OnlyClaimsNoDead(claims);
    NoneMarked(s, [f], d);
    NoneMarked(s, claims, d);
    NoneMarked(s, ops, d);
    AllMarkedJoin(s, [f], claims, d);
    AllMarkedJoin(s, [f] + claims, ops, d);
    AllMarkedJoin(s, [f] + claims + ops, [last], d);
  }

  lemma OnlyClaimsNoDead(log: seq<Found>)
    ensures OnlyClaims(log) ==> !Did(log, PublishDead(Done))
  {
  }

  lemma MarkedStays(s: State, t: State, f: Found, d: Delivery)
    requires Marked(s, f, d) && Later(s, t)
    ensures Marked(t, f, d)
  {
    hide CallsOf;
  }

  lemma ShowsStays(c: Config, s: State, t: State, log: seq<Found>, d: Delivery)
    requires Shows(c, s, log, d) && Later(s, t)
    ensures Shows(c, t, log, d)
  {
    forall k | 0 <= k < |log| ensures Marked(t, log[k], d) {
      assert Marked(s, log[k], d);
      MarkedStays(s, t, log[k], d);
    }
    hide Marked, Did, Grows;
  }

  lemma ShowsSettled(c: Config, s: State, log: seq<Found>, f: Found, d: Delivery)
    requires Shows(c, s, log, d) && f.step.Settle?
    ensures Shows(c, s, log + [f], d)
  {
    hide Marked, Did;
    Single(f);
    Joined(log, [f]);
    NoneMarked(s, [f], d);
    AllMarkedJoin(s, log, [f], d);
  }

  /** A delivery none of whose calls fails, of an accepted message whose claim is free: the operator is
      called exactly once, and the copy is acked unless the answer was transient. A success leaves the
      message `sent` and a refusal leaves it `failed`, unless it was finished otherwise before the mark;
      and the answer is the operator's last word. */
  lemma SmoothDelivery(c: Config, s: State, log: seq<Found>, d: Delivery) returns (out: Outcome)
    requires Course(c, d, log) && Shows(c, s, log, d) && !Stumbled(log)
    requires d.payload.Ids? && !DueForDeadLetter(c, d)
    requires RowAtStart(log, d) == Some(Accepted) && FreeWhenTried(log, d)
    ensures CallsIn(log) == 1 && Did(log, Answer(out)) && (Excused(log, d) <==> out == Transient)
    ensures out != Transient ==>
              && CallsOf(s.calls, d.payload.message) != []
              && Last(CallsOf(s.calls, d.payload.message)) == Returned(out)
              && exists f :: f in log && f.step == (if out == Success then SetSent(Done) else SetFailed(Done))
                   && RowAt(f, d).Some?
                   && Lookup(s.messages, d.payload)
                      == if RowAt(f, d) == Some(Accepted) then Some(if out == Success then Sent else Failed) else RowAt(f, d)
  {
    hide Stumbled, CallsIn, Lookup;
    out :| AnsweredWith(log, out);
    if out != Transient {
      var w := if out == Success then SetSent(Done) else SetFailed(Done);
      assert Did(log, w);
      var k :| 0 <= k < |log| && log[k].step == w;
      assert Marked(s, log[k], d);
      assert log[k] in log;
    }
  }

  predicate FreeWhenTried(log: seq<Found>, d: Delivery)
    requires d.payload.Ids?
  {
    |log| > 2 && ClaimFreeAt(log[2], d)
  }

  function RowAtStart(log: seq<Found>, d: Delivery): Option<Status>
    requires d.payload.Ids?
  {
    if |log| > 1 then RowAt(log[1], d) else None
  }

  lemma UndecodableIsAcked(c: Config, d: Delivery, log: seq<Found>)
    requires Course(c, d, log) && |log| > 0 && log[0].step == Decode
    ensures d.payload == Malformed ==> !Excused(log, d)
  {
    hide CallsIn;
  }

  class Processor {
    const world: World
    const id: nat

    constructor (world: World, id: nat)
      ensures this.world == world && this.id == id
    {
      this.world, this.id := world, id;
    }

    /** What this handler has done since the system began. */
    ghost function Steps(): seq<Found>
      reads world
    {
      Log(world.config, Init(), world.history, id)
    }

    /** The run has gone on, this handler has done what is in `log`, and nothing final was undone. */
    twostate predicate Went(log: seq<Found>)
      reads world
    {
      && world.Valid() && old(world.history) <= world.history
      && Steps() == old(Steps()) + log && Later(old(world.s), world.s)
    }

    lemma Chained(s: State, before: seq<Found>, t: State, a: seq<Found>, middle: seq<Found>, b: seq<Found>)
      requires middle == before + a && Steps() == middle + b && Later(s, t) && Later(t, world.s)
      ensures Steps() == before + (a + b) && Later(s, world.s)
    {
      hide Log;
      LaterChain(s, t, world.s);
      assert before + a + b == before + (a + b);
    }

    /** This handler takes one step. */
    method Act(w: WorkStep) returns (ghost f: Found)
      requires world.Valid() && Inner(w) && WorkEnabled(world.s, id, w)
      modifies world
      ensures Went([f]) && f == Found(w, old(world.s))
      ensures world.s == Next(world.config, old(world.s), Work(id, w))
      ensures id in world.s.handlers
      ensures world.s.handlers[id]
              == old(world.s).handlers[id].(pc := NextPc(world.config, old(world.s), old(world.s).handlers[id], w))
    {
      hide WorkEnabled, NextPc, Next, Run, Inner, Log, Later, Reachable;
      f := Found(w, world.s);
      StepMoves(world.config, world.s, id, w);
      world.IsReachable();
      StepIsLater(world.config, world.s, Work(id, w));
      LogSnoc(world.config, Init(), world.history, world.s, Work(id, w), id);
      world.Step(Work(id, w));
    }

    /** Everybody else moves. */
    method Wait(d: Delivery, ghost pc: Pc)
      requires world.Valid() && At(world.s, id, d, pc)
      modifies world
      ensures Went([]) && At(world.s, id, d, pc)
    {
      hide Run, Log, Later;
      world.Others(Handling(id));
    }

    /** Everybody else has moved, then this handler took a step. */
    lemma WaitedAndDid(s: State, before: seq<Found>, t: State, f: Found)
      requires Steps() == before + [f] && Later(s, t) && Later(t, world.s)
      ensures Steps() == before + [f] && Later(s, world.s)
    {
      LaterChain(s, t, world.s);
    }

    // ----- database calls ---------------------------------------------------------------------------

    /** GetByAccountAndIDTx; None is an error, Some(None) is not found. */
    method GetMessage(d: Delivery, ghost pc: Pc) returns (row: Option<Option<Status>>, ghost f: Found)
      requires world.Valid() && At(world.s, id, d, pc) && (pc == ClaimRead || pc == ClaimReread) && d.payload.Ids?
      modifies world
      ensures Went([f]) && f.step == ReadStatus(row.Some?)
      ensures At(world.s, id, d,
                 if row == None then Settling(true)
                 else if row.value == None || Terminal(row.value.value) then Settling(false)
                 else if pc == ClaimRead then ClaimInsert
                 else if d.redelivered then MarkSent(true) else Settling(true))
      ensures row.Some? ==> row.value == RowAt(f, d) == Lookup(world.s.messages, d.payload)
    {
      hide Run, Next, Log, Later;
      Wait(d, pc);
      var ok: bool := *;
      ghost var before := world.s;
      row := if ok then Some(Lookup(world.s.messages, d.payload)) else None;
      f := Act(ReadStatus(ok));
      ReadsOnly(world.config, before, id, ReadStatus(ok));
      WaitedAndDid(old(world.s), old(Steps()), before, f);
    }

    /** INSERT ... ON CONFLICT DO NOTHING into the claims, in the transaction of a claim or of a dead
        letter. While another open transaction holds the key the insert waits; a wait cut short fails. */
    method MarkProcessedIfNew(d: Delivery, ghost pc: Pc) returns (ok: bool, inserted: bool, ghost f: Found)
      requires world.Valid() && At(world.s, id, d, pc) && (pc == ClaimInsert || pc.DeadInsert?) && d.payload.Ids?
      modifies world
      ensures Went([f]) && f.step == if pc == ClaimInsert then InsertClaim(ok) else InsertDead(ok)
      ensures pc == ClaimInsert ==>
                At(world.s, id, d, if !ok then Settling(true) else if inserted then ClaimCommit else ClaimReread)
      ensures pc.DeadInsert? ==> At(world.s, id, d, if !ok then Settling(true) else DeadCommit(pc.updated, inserted))
      // the row is new exactly when none is committed, and then nobody else is inserting one
      ensures ok ==> (inserted <==> ClaimFreeAt(f, d)) && (inserted <==> d.payload.message !in world.s.claims)
      ensures inserted ==> forall j | j in world.s.handlers && j != id :: !HoldsKey(world.s.handlers[j], d.payload.message)
    {
      hide Run, Next, Log, Later;
      Wait(d, pc);
      ghost var before := world.s;
      ok := *;
      ok := ok && KeyFree(world.s.handlers, d.payload.message);
      inserted := ok && d.payload.message !in world.s.claims;
      if world.s.handlers[id].pc == ClaimInsert {
        f := Act(InsertClaim(ok));
        ReadsOnly(world.config, before, id, InsertClaim(ok));
      } else {
        f := Act(InsertDead(ok));
        ReadsOnly(world.config, before, id, InsertDead(ok));
      }
      WaitedAndDid(old(world.s), old(Steps()), before, f);
    }

    method CommitClaimTx(d: Delivery) returns (ok: bool, ghost f: Found)
      requires world.Valid() && At(world.s, id, d, ClaimCommit) && d.payload.Ids?
      modifies world
      ensures Went([f]) && f.step.CommitClaim? && (ok <==> f.step.io == Done)
      ensures At(world.s, id, d, if ok then Operate else Settling(true))
      ensures ok ==> d.payload.message in world.s.claims
    {
      hide Run, Log, Later, NewMessages, NewCalls, NewResumed, NewDlq;
      Wait(d, ClaimCommit);
      ghost var before := world.s;
      var io: Io := *;
      ok := io == Done;
      f := Act(CommitClaim(io));
      WaitedAndDid(old(world.s), old(Steps()), before, f);
    }

    /** The claim transaction: read, insert, and after a conflict read again. */
    method ClaimDelivery(d: Delivery) returns (claim: Claim, ok: bool, ghost log: seq<Found>)
      requires world.Valid() && At(world.s, id, d, ClaimRead) && d.payload.Ids?
      modifies world
      ensures Went(log) && At(world.s, id, d, ClaimPc(claim, ok))
      ensures OnlyClaims(log) && (ok <==> !Stumbled(log)) && (ok ==> ClaimCourse(d, log, claim))
      ensures ok && claim == Acquired ==> OwnsAlone(world.s, id, d.payload.message)
      ensures ok && claim == AlreadyDone ==> NothingLeft(world.s.messages, d.payload)
      ensures claim == Resume ==> d.redelivered
    {
      hide Run, At, Log, Later, ClaimCourse, OnlyClaims, Stumbled;
      claim, ok, log := DecideClaim(d);
      world.IsReachable();
      if ok && claim == Acquired { ClaimIsItsOwn(world.config, world.s, id, d); }
      if ok && claim == AlreadyDone { AckIsSafe(world.config, world.s, id, d); }
    }

    method DecideClaim(d: Delivery) returns (claim: Claim, ok: bool, ghost log: seq<Found>)
      requires world.Valid() && At(world.s, id, d, ClaimRead) && d.payload.Ids?
      modifies world
      ensures Went(log) && At(world.s, id, d, ClaimPc(claim, ok))
      ensures OnlyClaims(log) && (ok <==> !Stumbled(log)) && (ok ==> ClaimCourse(d, log, claim))
      ensures claim == Resume ==> d.redelivered
    {
      hide Run, At, Log, Later, Lookup, Stumbled;
      var row, f := GetMessage(d, ClaimRead);
      log := [f];
      OneStumble(f);
      if row == None { return InProgress, false, log; }
      if row.value == None { return AlreadyDone, true, log; }
      if Terminal(row.value.value) { return AlreadyDone, true, log; }
      ghost var s1, l1 := world.s, Steps();
      ghost var rest;
      claim, ok, rest := InsertOrReread(d);
      Chained(old(world.s), old(Steps()), s1, log, l1, rest);
      Joined([f], rest);
      log := [f] + rest;
    }

    method InsertOrReread(d: Delivery) returns (claim: Claim, ok: bool, ghost log: seq<Found>)
      requires world.Valid() && At(world.s, id, d, ClaimInsert) && d.payload.Ids?
      modifies world
      ensures Went(log) && At(world.s, id, d, ClaimPc(claim, ok))
      ensures OnlyClaims(log) && (ok <==> !Stumbled(log))
      ensures ok ==> |log| == 2 && log[0].step == InsertClaim(true)
                     && (if ClaimFreeAt(log[0], d) then claim == Acquired
                         else log[1].step == ReadStatus(true)
                              && claim == if RowAt(log[1], d) != Some(Accepted) then AlreadyDone
                                          else if d.redelivered then Resume else InProgress)
      ensures claim == Resume ==> d.redelivered
    {
      hide Run, At, Log, Later, Lookup, Stumbled;
      var done, inserted, f := MarkProcessedIfNew(d, ClaimInsert);
      log := [f];
      OneStumble(f);
      if !done { return InProgress, false, log; }
      ghost var s1, l1, g := world.s, Steps(), f;
      if inserted {
        var committed;
        committed, g := CommitClaimTx(d);
        Chained(old(world.s), old(Steps()), s1, log, l1, [g]);
        log := log + [g];
        TwoStumbles(f, g);
        if !committed { return InProgress, false, log; }
        return Acquired, true, log;
      }
      var row;
      row, g := GetMessage(d, ClaimReread);
      Chained(old(world.s), old(Steps()), s1, log, l1, [g]);
      log := log + [g];
      TwoStumbles(f, g);
      if row == None { return InProgress, false, log; }
      if row.value == None { return AlreadyDone, true, log; }
      if Terminal(row.value.value) { return AlreadyDone, true, log; }
      if d.redelivered { return Resume, true, log; }
      return InProgress, true, log;
    }

    method ReleaseClaim(d: Delivery) returns (ok: bool, ghost f: Found)
      requires world.Valid() && At(world.s, id, d, Release) && d.payload.Ids?
      modifies world
      ensures Went([f]) && f.step.DropClaim? && (ok <==> f.step.io == Done) && At(world.s, id, d, Settling(true))
      ensures f.step.io.Applied() ==> d.payload.message !in world.s.claims
    {
      hide Run, Log, Later, NewMessages, NewCalls, NewResumed, NewDlq;
      Wait(d, Release);
      ghost var before := world.s;
      var io: Io := *;
      ok := io == Done;
      f := Act(DropClaim(io));
      WaitedAndDid(old(world.s), old(Steps()), before, f);
    }

    /** The guarded update in a transaction of its own: whether it failed, and whether it matched. */
    method SetStatus(d: Delivery, st: Status, ghost pc: Pc) returns (ok: bool, updated: bool, ghost f: Found)
      requires world.Valid() && At(world.s, id, d, pc) && d.payload.Ids?
      requires (st == Sent && pc.MarkSent?) || (st == Failed && pc == MarkFailed)
      modifies world
      ensures Went([f]) && (if st == Sent then f.step.SetSent? else f.step.SetFailed?) && (ok <==> f.step.io == Done)
      ensures At(world.s, id, d, Settling(!ok))
      ensures ok ==> (updated <==> RowAt(f, d) == Some(Accepted)) && RowAt(f, d).Some?
      ensures ok ==> Lookup(world.s.messages, d.payload) == if updated then Some(st) else RowAt(f, d)
      ensures ok ==> NothingLeft(world.s.messages, d.payload)
    {
      hide Run, Log, Later, NewClaims, NewCalls, NewResumed, NewDlq;
      Wait(d, pc);
      ghost var before := world.s;
      world.IsReachable();
      RowIsThere(world.config, world.s, id, d, pc);
      var io: Io := *;
      if !RowFree(world.s.handlers, d.payload.message) { io := Refused; }
      ok := io == Done;
      updated := Lookup(world.s.messages, d.payload) == Some(Accepted);
      if st == Sent { f := Act(SetSent(io)); } else { f := Act(SetFailed(io)); }
      WaitedAndDid(old(world.s), old(Steps()), before, f);
    }

    method MarkDeadLetteredIfAccepted(d: Delivery) returns (ok: bool, updated: bool, ghost f: Found)
      requires world.Valid() && At(world.s, id, d, DeadUpdate) && d.payload.Ids?
      modifies world
      ensures Went([f]) && f.step == SetDead(ok)
      ensures At(world.s, id, d, if ok then DeadInsert(updated) else Settling(true))
      ensures ok ==> (updated <==> Lookup(world.s.messages, d.payload) == Some(Accepted))
    {
      hide Run, Log, Later, NewClaims, NewCalls, NewResumed, NewDlq;
      Wait(d, DeadUpdate);
      ghost var before := world.s;
      ok := *;
      ok := ok && RowFree(world.s.handlers, d.payload.message);
      updated := ok && Lookup(world.s.messages, d.payload) == Some(Accepted);
      f := Act(SetDead(ok));
      WaitedAndDid(old(world.s), old(Steps()), before, f);
    }

    method CommitDeadTx(d: Delivery, updated: bool, inserted: bool) returns (ok: bool, ghost f: Found)
      requires world.Valid() && At(world.s, id, d, DeadCommit(updated, inserted)) && d.payload.Ids?
      modifies world
      ensures Went([f]) && f.step.CommitDead? && (ok <==> f.step.io == Done)
      ensures At(world.s, id, d, if !ok then Settling(true) else if world.config.dlqSet then DeadPublish else Settling(false))
      ensures ok && updated ==> Lookup(world.s.messages, d.payload) == Some(DeadLettered)
      ensures ok && inserted ==> d.payload.message in world.s.claims
    {
      hide Run, Log, Later, NewCalls, NewResumed, NewDlq;
      Wait(d, DeadCommit(updated, inserted));
      ghost var before := world.s;
      var io: Io := *;
      ok := io == Done;
      f := Act(CommitDead(io));
      WaitedAndDid(old(world.s), old(Steps()), before, f);
    }

    method PublishToDlq(d: Delivery) returns (ok: bool, ghost f: Found)
      requires world.Valid() && At(world.s, id, d, DeadPublish) && d.payload.Ids?
      modifies world
      ensures Went([f]) && f.step.PublishDead? && (ok <==> f.step.io == Done)
      ensures At(world.s, id, d, Settling(!ok))
      ensures ok ==> d.payload in world.s.dlq
    {
      hide Run, Log, Later, NewClaims, NewCalls, NewResumed, NewMessages;
      Wait(d, DeadPublish);
      ghost var before := world.s;
      var io: Io := *;
      ok := io == Done;
      f := Act(PublishDead(io));
      WaitedAndDid(old(world.s), old(Steps()), before, f);
    }

    /** One transaction for the status and the claim, then the copy to the dead-letter queue. */
    method DeadLetter(d: Delivery) returns (ok: bool, ghost log: seq<Found>)
      requires world.Valid() && At(world.s, id, d, DeadUpdate) && d.payload.Ids?
      modifies world
      ensures Went(log) && At(world.s, id, d, Settling(!ok))
      ensures OnlyDead(log) && (ok <==> !Stumbled(log))
      ensures ok ==> Did(log, CommitDead(Done)) && (world.config.dlqSet ==> Did(log, PublishDead(Done)))
      ensures Did(log, PublishDead(Done)) ==> d.payload in world.s.dlq
      ensures ok ==> NothingLeft(world.s.messages, d.payload)
    {
      hide Run, At, Log, Later, OnlyDead, Stumbled, Did;
      ok, log := Bury(d);
      world.IsReachable();
      if ok { AckIsSafe(world.config, world.s, id, d); }
    }

    method Bury(d: Delivery) returns (ok: bool, ghost log: seq<Found>)
      requires world.Valid() && At(world.s, id, d, DeadUpdate) && d.payload.Ids?
      modifies world
      ensures Went(log) && At(world.s, id, d, Settling(!ok))
      ensures OnlyDead(log) && (ok <==> !Stumbled(log))
      ensures ok ==> Did(log, CommitDead(Done)) && (world.config.dlqSet ==> Did(log, PublishDead(Done)))
      ensures Did(log, PublishDead(Done)) ==> d.payload in world.s.dlq
    {
      hide Run, At, Log, Later, Stumbled, Did;
      var committed;
      committed, log := BuryTx(d);
      if !committed { return false, log; }
      if world.config.dlqSet {
        ghost var s1, l1, tx := world.s, Steps(), log;
        var published, k := PublishToDlq(d);
        Chained(old(world.s), old(Steps()), s1, log, l1, [k]);
        Joined(tx, [k]);
        Single(k);
        log := tx + [k];
        return published, log;
      }
      return true, log;
    }

    method BuryTx(d: Delivery) returns (ok: bool, ghost log: seq<Found>)
      requires world.Valid() && At(world.s, id, d, DeadUpdate) && d.payload.Ids?
      modifies world
      ensures Went(log) && OnlyDead(log) && (ok <==> !Stumbled(log))
      ensures At(world.s, id, d, if !ok then Settling(true) else if world.config.dlqSet then DeadPublish else Settling(false))
      ensures !Did(log, PublishDead(Done)) && (ok ==> Did(log, CommitDead(Done)))
    {
      hide Run, At, Log, Later, Stumbled;
      var marked, updated, f := MarkDeadLetteredIfAccepted(d);
      log := [f];
      OneStumble(f);
      if !marked { return false, log; }
      ghost var s1, l1 := world.s, Steps();
      var recorded, inserted, g := MarkProcessedIfNew(d, DeadInsert(updated));
      Chained(old(world.s), old(Steps()), s1, log, l1, [g]);
      log := log + [g];
      TwoStumbles(f, g);
      if !recorded { return false, log; }
      ghost var s2, l2 := world.s, Steps();
      var committed, h := CommitDeadTx(d, updated, inserted);
      Chained(old(world.s), old(Steps()), s2, log, l2, [h]);
      log := log + [h];
      ThreeStumbles(f, g, h);
      assert log[2] == h;
      return committed, log;
    }

    /** The operator is called, and everybody else moves while it works. An open circuit is a
        transient error without a call having gone out. */
    method CallOperator(d: Delivery) returns (out: Outcome, ghost log: seq<Found>)
      requires world.Valid() && At(world.s, id, d, Operate) && d.payload.Ids?
      modifies world
      ensures Went(log) && |log| == 2 && log[0].step == WorkStep.CallOperator && log[1].step == Answer(out)
      ensures At(world.s, id, d, AfterAnswer(out))
      ensures CallsOf(world.s.calls, d.payload.message) != []
      ensures Last(CallsOf(world.s.calls, d.payload.message)) == Returned(out)
    {
      hide Run, At, Log, Later;
      var f := BeginCall(d);
      ghost var s1, l1 := world.s, Steps();
      ghost var g;
      out, g := AwaitAnswer(d);
      log := [f] + [g];
      Chained(old(world.s), old(Steps()), s1, [f], l1, [g]);
    }

    method BeginCall(d: Delivery) returns (ghost f: Found)
      requires world.Valid() && At(world.s, id, d, Operate) && d.payload.Ids?
      modifies world
      ensures Went([f]) && f.step == WorkStep.CallOperator && At(world.s, id, d, Calling)
    {
      hide Run, Log, Later, NewMessages, NewClaims, NewCalls, NewResumed, NewDlq;
      Wait(d, Operate);
      ghost var before := world.s;
      f := Act(WorkStep.CallOperator);
      WaitedAndDid(old(world.s), old(Steps()), before, f);
    }

    method AwaitAnswer(d: Delivery) returns (out: Outcome, ghost f: Found)
      requires world.Valid() && At(world.s, id, d, Calling) && d.payload.Ids?
      modifies world
      ensures Went([f]) && f.step == Answer(out) && At(world.s, id, d, AfterAnswer(out))
      ensures CallsOf(world.s.calls, d.payload.message) != []
      ensures Last(CallsOf(world.s.calls, d.payload.message)) == Returned(out)
    {
      hide Run, Log, Later, NewMessages, NewClaims, NewResumed, NewDlq;
      Wait(d, Calling);
      ghost var before := world.s;
      out := *;
      f := Act(Answer(out));
      WaitedAndDid(old(world.s), old(Steps()), before, f);
    }

    // ----- the delivery -------------------------------------------------------------------------------

    /** Decoding and the attempt count decide the path. */
    method Decode(d: Delivery) returns (ghost f: Found)
      requires world.Valid() && At(world.s, id, d, Received)
      modifies world
      ensures Went([f]) && f.step == WorkStep.Decode
      ensures At(world.s, id, d,
                 if d.payload == Malformed then Settling(false)
                 else if DueForDeadLetter(world.config, d) then DeadUpdate else ClaimRead)
    {
      hide Run, Log, Later, NewMessages, NewClaims, NewCalls, NewResumed, NewDlq;
      Wait(d, Received);
      ghost var before := world.s;
      f := Act(WorkStep.Decode);
      WaitedAndDid(old(world.s), old(Steps()), before, f);
    }

    /** The body of handleDelivery up to the deferred ack or nack: whether to requeue. */
    method Process(d: Delivery) returns (requeue: bool, ghost log: seq<Found>)
      requires world.Valid() && At(world.s, id, d, Received)
      modifies world
      ensures Went(log) && |log| > 0 && log[0].step == WorkStep.Decode && At(world.s, id, d, Settling(requeue))
      // it is put back only for a reason, and what it did follows from what it found
      ensures requeue <==> Excused(log, d)
      ensures Course(world.config, d, log)
      ensures Shows(world.config, world.s, log, d)
    {
      hide Run, At, Log, Later, Course, Excused, Shows, Stumbled, Did, OnlyClaims, ClaimCourse, OnlyDead;
      requeue := false;
      var f := Decode(d);
      log := [f];
      if d.payload == Malformed {
        Unreadable(world.config, d, f);
        ShowsNothing(world.config, world.s, log, d);
        return;
      }
      ghost var s1, l1 := world.s, Steps();
      if DueForDeadLetter(world.config, d) {
        var buried, dead := DeadLetter(d);
        Chained(old(world.s), old(Steps()), s1, [f], l1, dead);
        log := [f] + dead;
        Buried(world.config, d, f, dead);
        ShowsBurial(world.config, world.s, f, dead, d);
        if !buried { requeue := true; }
        return;
      }
      var claim, ok, claims := ClaimDelivery(d);
      Chained(old(world.s), old(Steps()), s1, [f], l1, claims);
      log := [f] + claims;
      ShowsClaims(world.config, world.s, f, claims, d);
      if !ok {
        StumbledEarly(world.config, d, f, claims);
        requeue := true;
        return;
      }
      if claim == AlreadyDone || claim == InProgress {
        DecidedByClaim(world.config, d, f, claims, claim);
        requeue := claim == InProgress;
        return;
      }
      ghost var s2, l2 := world.s, Steps();
      ghost var rest;
      requeue, rest := Deliver(d, claim);
      Chained(old(world.s), old(Steps()), s2, log, l2, rest);
      ghost var ops, last := rest[..|rest| - 1], Last(rest);
      assert rest == ops + [last];
      assert log + rest == [f] + claims + ops + [last];
      ClaimedAndMarked(world.config, d, f, claims, claim, ops, last);
      ShowsMarks(world.config, world.s, f, claims, ops, last, d);
      log := log + rest;
    }

    /** With the claim in hand, or resumed: call the operator unless resumed, and mark or release. */
    method Deliver(d: Delivery, claim: Claim) returns (requeue: bool, ghost log: seq<Found>)
      requires world.Valid() && d.payload.Ids? && (claim == Acquired || claim == Resume)
      requires At(world.s, id, d, ClaimPc(claim, true))
      modifies world
      ensures Went(log) && |log| == (if claim == Resume then 1 else 3) && At(world.s, id, d, Settling(requeue))
      ensures requeue <==> Stumbles(Last(log).step) || Last(log).step.DropClaim?
      ensures claim == Resume ==> Last(log).step.SetSent?
      ensures claim == Acquired ==>
                && log[0].step == WorkStep.CallOperator && log[1].step.Answer?
                && (match log[1].step.outcome
                    case Success => Last(log).step.SetSent?
                    case Permanent => Last(log).step.SetFailed?
                    case Transient => Last(log).step.DropClaim?)
                && (log[1].step.outcome != Transient ==>
                      CallsOf(world.s.calls, d.payload.message) != []
                      && Last(CallsOf(world.s.calls, d.payload.message)) == Returned(log[1].step.outcome))
      ensures Marked(world.s, Last(log), d)
    {
      hide Run, At, Log;
      log := [];
      LaterStart(world.s);
      ghost var f;
      if claim != Resume {
        var out;
        out, log := CallOperator(d);
        ghost var s1, l1 := world.s, Steps();
        if out == Permanent {
          var marked, updated;
          marked, updated, f := SetStatus(d, Failed, MarkFailed);
          Chained(old(world.s), old(Steps()), s1, log, l1, [f]);
          log := log + [f];
          return !marked, log;
        }
        if out == Transient {
          var released;
          released, f := ReleaseClaim(d);
          Chained(old(world.s), old(Steps()), s1, log, l1, [f]);
          log := log + [f];
          return true, log;
        }
      }
      ghost var s1, l1, ops := world.s, Steps(), log;
      var marked, updated;
      marked, updated, f := SetStatus(d, Sent, MarkSent(claim == Resume));
      Chained(old(world.s), old(Steps()), s1, ops, l1, [f]);
      log := ops + [f];
      return !marked, log;
    }

    /** The deferred call: it may fail, and it settles nothing when the copy has been taken back. */
    method Settle(d: Delivery, requeue: bool) returns (settled: bool, ghost f: Found)
      requires world.Valid() && At(world.s, id, d, Settling(requeue))
      modifies world
      ensures Went([f]) && f.step.Settle? && id !in world.s.handlers
      ensures !requeue ==> NothingLeft(world.s.messages, d.payload)
      ensures settled ==> if requeue then PutBack(world.s, d) else d.copy !in world.s.copies
      ensures settled <==> f.step.ok && d.copy in f.state.copies && f.state.copies[d.copy].holder == Some(id)
    {
      hide Run, Log, Later;
      Wait(d, Settling(requeue));
      ghost var before := world.s;
      world.IsReachable();
      if !requeue { AckIsSafe(world.config, world.s, id, d); }
      settled := d.copy in world.s.copies && world.s.copies[d.copy].holder == Some(id);
      if settled { HeldCopy(world.config, world.s, id, d, Settling(requeue)); }
      var ok: bool := *;
      settled := settled && ok;
      StepLeaves(world.config, world.s, id, WorkStep.Settle(ok));
      StepIsLater(world.config, world.s, Work(id, WorkStep.Settle(ok)));
      LogSnoc(world.config, Init(), world.history, world.s, Work(id, WorkStep.Settle(ok)), id);
      f := Found(WorkStep.Settle(ok), world.s);
      hide Next;
      world.Step(Work(id, WorkStep.Settle(ok)));
      WaitedAndDid(old(world.s), old(Steps()), before, f);
    }

    /** A delivery is put back only for a reason: one of its own calls failed, the operator's answer was
        transient, or, on its first delivery, it met somebody else's claim; in every other case it is
        acknowledged, and then nothing is left to do for it. What it does follows from what it finds, as
        Course says, whatever the other handlers, the relays and the broker do in between; and the whole
        of it is a run of the state machine. `settled` says that the ack or nack reached the broker while
        the copy was still this handler's, `log` is all that was done. */
    method HandleDelivery(d: Delivery) returns (acked: bool, settled: bool, ghost log: seq<Found>)
      requires world.Valid() && At(world.s, id, d, Received)
      modifies world
      ensures Went(log) && id !in world.s.handlers
      ensures acked <==> !Excused(log, d)
      ensures Course(world.config, d, log) && Shows(world.config, world.s, log, d)
      ensures d.payload == Malformed ==> acked
      ensures acked ==> NothingLeft(world.s.messages, d.payload)
      ensures settled ==> if acked then d.copy !in world.s.copies else PutBack(world.s, d)
    {
      hide Run, At, Log, Course, Excused, Shows, Later;
      var requeue;
      requeue, log := Process(d);
      ghost var s1, l1 := world.s, Steps();
      ghost var f;
      settled, f := Settle(d, requeue);
      Chained(old(world.s), old(Steps()), s1, log, l1, [f]);
      ShowsStays(world.config, s1, world.s, log, d);
      ShowsSettled(world.config, world.s, log, f, d);
      SettledAfter(world.config, d, log, f);
      log := log + [f];
      acked := !requeue;
      UndecodableIsAcked(world.config, d, log);
    }

    /** One goroutine of RunConsumer: a copy is delivered, waits for a token, and is handled; when
        the context ends first it is put back unread. */
    method OnDelivery(cp: nat, acquired: bool) returns (acked: bool, settled: bool, ghost log: seq<Found>)
      requires world.Valid() && FreshWorker(world.s, id) && cp in world.s.copies && world.s.copies[cp].holder == None
      modifies world
      ensures world.Valid() && old(world.history) <= world.history && id !in world.s.handlers
      ensures Steps() == old(Steps()) + [Found(Receive(cp), old(world.s))] + log
      ensures var x := old(world.s.copies[cp]);
              var d := Delivery(cp, x.payload, x.redelivered, x.deaths);
              && (acked <==> acquired && !Excused(log, d))
              && (acquired ==> Course(world.config, d, log) && Shows(world.config, world.s, log, d))
              && (!acquired ==> |log| == 2 && log[0].step == WorkStep.Refuse && log[1].step.Settle?)
              && (acked ==> NothingLeft(world.s.messages, d.payload))
              && (settled ==> if acked then cp !in world.s.copies else PutBack(world.s, d))
    {
      hide Run, Log, Course, Excused, Shows, Later;
      var x := world.s.copies[cp];
      var d := Delivery(cp, x.payload, x.redelivered, x.deaths);
      LogSnoc(world.config, Init(), world.history, world.s, Work(id, Receive(cp)), id);
      world.Step(Work(id, Receive(cp)));
      hide Next;
      if !acquired {
        var f := Refuse(d);
        ghost var g;
        settled, g := Settle(d, true);
        return false, settled, [f] + [g];
      }
      acked, settled, log := HandleDelivery(d);
    }

    method Refuse(d: Delivery) returns (ghost f: Found)
      requires world.Valid() && At(world.s, id, d, Received)
      modifies world
      ensures Went([f]) && f.step == WorkStep.Refuse && At(world.s, id, d, Settling(true))
    {
      hide Run, Log, Later, NewMessages, NewClaims, NewCalls, NewResumed, NewDlq;
      Wait(d, Received);
      ghost var before := world.s;
      f := Act(WorkStep.Refuse);
      WaitedAndDid(old(world.s), old(Steps()), before, f);
    }
  }
}
