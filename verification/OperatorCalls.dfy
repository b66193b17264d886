/** The claim row as a mutex: who may call the operator, and what the calls of one message look like. */
module OperatorCalls {
  import opened Base
  import opened Pipeline
  import opened Wellformed

  // ----- ownership of the claim row -----------------------------------------------------------

  /** The handler inserted the claim row, committed it, and has neither lost nor deleted it. */
  predicate Owns(h: Handler, m: Uuid) {
    h.payload.Ids? && h.payload.message == m &&
    (h.pc.Operate? || h.pc.Calling? || h.pc.Release? || h.pc.MarkFailed? || h.pc == MarkSent(false))
  }

  /** At most one owner, and only of a committed row; an uncommitted row has one inserter and
      excludes a committed one. */
  ghost predicate Exclusive(claims: set<Uuid>, hs: map<nat, Handler>) {
    && (forall i, m | i in hs && Owns(hs[i], m) :: m in claims)
    && (forall i, j, m | i in hs && j in hs && Owns(hs[i], m) && Owns(hs[j], m) :: i == j)
    && (forall i, m | i in hs && HoldsKey(hs[i], m) :: m !in claims)
    && (forall i, j, m | i in hs && j in hs && HoldsKey(hs[i], m) && HoldsKey(hs[j], m) :: i == j)
  }

  /** What one inner step does to ownership: only CommitClaim gains it, only an owner deletes. */
  lemma OwnershipMoves(c: Config, s: State, i: nat, w: WorkStep, m: Uuid)
    requires i in s.handlers && Inner(w) && Ready(s.handlers[i], w)
    ensures var h, g := s.handlers[i], Moved(c, s, i, w);
            && (Owns(g, m) ==> Owns(h, m) || (HoldsKey(h, m) && m in NewClaims(s.claims, h, w)))
            && (HoldsKey(g, m) ==> HoldsKey(h, m) || (m !in s.claims && (w == InsertClaim(true) || w == InsertDead(true))))
            && (m in s.claims && m !in NewClaims(s.claims, h, w) ==> Owns(h, m) && !Owns(g, m))
            && (m !in s.claims && m in NewClaims(s.claims, h, w) ==> HoldsKey(h, m) && !HoldsKey(g, m))
  {
  }

  lemma ExclusiveInner(c: Config, s: State, i: nat, w: WorkStep)
    requires Exclusive(s.claims, s.handlers) && WorkEnabled(s, i, w) && Inner(w)
    ensures Exclusive(NewClaims(s.claims, s.handlers[i], w), s.handlers[i := Moved(c, s, i, w)])
  {
    var h := s.handlers[i];
    var claims, hs := NewClaims(s.claims, h, w), s.handlers[i := Moved(c, s, i, w)];
    forall m {
      OwnershipMoves(c, s, i, w, m);
    }
    hide NewClaims, NextPc;
  }

  lemma ExclusiveStep(c: Config, s: State, step: Step)
    requires Exclusive(s.claims, s.handlers) && Enabled(s, step)
    ensures Exclusive(Next(c, s, step).claims, Next(c, s, step).handlers)
  {
    hide NextWorld, NextRelay, NextWork, Exclusive;
    match step
    case World(w) =>
    case Relay(t, r) =>
    case Work(i, w) => ExclusiveWork(c, s, i, w);
  }

  lemma ExclusiveWork(c: Config, s: State, i: nat, w: WorkStep)
    requires Exclusive(s.claims, s.handlers) && WorkEnabled(s, i, w)
    ensures Exclusive(NextWork(c, s, i, w).claims, NextWork(c, s, i, w).handlers)
  {
    if Inner(w) {
      hide Exclusive, NextPc, NewMessages, NewClaims;
      ExclusiveInner(c, s, i, w);
    } else {
      hide NewCalls, Settled;
    }
  }

  // ----- the calls of one message --------------------------------------------------------------

  predicate LastIs(cs: seq<Call>, x: Call) { cs != [] && Last(cs) == x }

  /** Nothing has been decided: no call yet, or the latest came back as a transient failure. */
  predicate Undecided(cs: seq<Call>) { cs == [] || Last(cs) == Returned(Transient) }

  /** Every call but the latest came back as a transient failure. In particular no call was made
      while another was in flight, and none after a success, a refusal or a crash. */
  predicate OneAtATime(cs: seq<Call>) {
    forall k :: 0 <= k < |cs| - 1 ==> cs[k] == Returned(Transient)
  }

  /** What an owner's place in the code says about the latest call. */
  predicate PlaceMatches(calls: map<Uuid, seq<Call>>, i: nat, h: Handler) {
    h.payload.Ids? ==>
      var cs := CallsOf(calls, h.payload.message);
      && (h.pc.Operate? ==> Undecided(cs))
      && (h.pc.Calling? ==> LastIs(cs, InFlight(i)))
      && (h.pc.Release? ==> LastIs(cs, Returned(Transient)))
      && (h.pc.MarkFailed? ==> LastIs(cs, Returned(Permanent)))
      && (h.pc == MarkSent(false) ==> LastIs(cs, Returned(Success)))
  }

  ghost predicate CallsAgree(claims: set<Uuid>, calls: map<Uuid, seq<Call>>, hs: map<nat, Handler>) {
    && (forall m | m in calls :: OneAtATime(calls[m]))
    && (forall m | m in calls :: !Undecided(calls[m]) ==> m in claims)
    && (forall m | m in calls && calls[m] != [] && Last(calls[m]).InFlight? ::
          var i := Last(calls[m]).worker;
          i in hs && hs[i].pc == Calling && hs[i].payload.Ids? && hs[i].payload.message == m)
    && (forall i | i in hs :: PlaceMatches(calls, i, hs[i]))
  }

  /** Only the owner's own steps touch the calls of its message. */
  lemma OthersKeepPlace(c: Config, s: State, i: nat, w: WorkStep, j: nat)
    requires Exclusive(s.claims, s.handlers) && CallsAgree(s.claims, s.calls, s.handlers)
    requires WorkEnabled(s, i, w) && !w.Receive? && j in s.handlers && j != i
    ensures PlaceMatches(NewCalls(s.calls, i, s.handlers[i], w), j, s.handlers[j])
  {
    var h, g := s.handlers[i], s.handlers[j];
    assert PlaceMatches(s.calls, j, g);
    if h.payload.Ids? && g.payload.Ids? && h.payload.message == g.payload.message {
      var m := h.payload.message;
      if NewCalls(s.calls, i, h, w) != s.calls {
        assert Owns(h, m);
        assert !Owns(g, m);
      }
    }
  }

  lemma OwnPlaceMatches(c: Config, s: State, i: nat, w: WorkStep)
    requires Exclusive(s.claims, s.handlers) && CallsAgree(s.claims, s.calls, s.handlers)
    requires WorkEnabled(s, i, w) && Inner(w)
    ensures PlaceMatches(NewCalls(s.calls, i, s.handlers[i], w), i, Moved(c, s, i, w))
  {
    var h := s.handlers[i];
    assert PlaceMatches(s.calls, i, h);
    if w.CommitClaim? {
      assert HoldsKey(h, h.payload.message);
    }
  }

  /** The sequence of one message under one step of handler `i`. */
  lemma SequenceMoves(s: State, i: nat, w: WorkStep, m: Uuid)
    requires Exclusive(s.claims, s.handlers) && CallsAgree(s.claims, s.calls, s.handlers)
    requires WorkEnabled(s, i, w) && !w.Receive? && !w.Settle?
    ensures var cs, cs' := CallsOf(s.calls, m), CallsOf(NewCalls(s.calls, i, s.handlers[i], w), m);
            && OneAtATime(cs')
            && (cs' != cs ==> Owns(s.handlers[i], m) && (Undecided(cs) || Last(cs) == InFlight(i)))
            && (!Undecided(cs') && cs' != [] && Last(cs').InFlight? && Last(cs') != InFlight(i) ==> cs' == cs)
            && (cs' != [] && Last(cs') == InFlight(i) ==> (w.CallOperator? && Owns(s.handlers[i], m)) || (cs' == cs && !w.Crash?))
  {
    var h := s.handlers[i];
    assert PlaceMatches(s.calls, i, h);
    if m in s.calls { assert OneAtATime(s.calls[m]); }
  }

  lemma CallsInner(c: Config, s: State, i: nat, w: WorkStep)
    requires Exclusive(s.claims, s.handlers) && CallsAgree(s.claims, s.calls, s.handlers)
    requires WorkEnabled(s, i, w) && Inner(w)
    ensures CallsAgree(NewClaims(s.claims, s.handlers[i], w), NewCalls(s.calls, i, s.handlers[i], w),
                       s.handlers[i := Moved(c, s, i, w)])
  {
    var h := s.handlers[i];
    var claims, calls, hs := NewClaims(s.claims, h, w), NewCalls(s.calls, i, h, w), s.handlers[i := Moved(c, s, i, w)];
    OwnPlaceMatches(c, s, i, w);
    forall j | j in hs ensures PlaceMatches(calls, j, hs[j]) {
      if j != i { OthersKeepPlace(c, s, i, w, j); }
    }
    forall m | m in calls
      ensures OneAtATime(calls[m]) && (!Undecided(calls[m]) ==> m in claims)
      ensures calls[m] != [] && Last(calls[m]).InFlight? ==>
                var k := Last(calls[m]).worker;
                k in hs && hs[k].pc == Calling && hs[k].payload.Ids? && hs[k].payload.message == m
    {
      SequenceMoves(s, i, w, m);
      OwnershipMoves(c, s, i, w, m);
      assert PlaceMatches(s.calls, i, h);
    }
  }

  lemma CallsOuter(c: Config, s: State, i: nat, w: WorkStep)
    requires Exclusive(s.claims, s.handlers) && CallsAgree(s.claims, s.calls, s.handlers)
    requires WorkEnabled(s, i, w) && !Inner(w)
    ensures var t := NextWork(c, s, i, w); CallsAgree(t.claims, t.calls, t.handlers)
  {
    var t := NextWork(c, s, i, w);
    if w.Crash? {
      forall j | j in t.handlers ensures PlaceMatches(t.calls, j, t.handlers[j]) {
        OthersKeepPlace(c, s, i, w, j);
      }
      forall m | m in t.calls
        ensures OneAtATime(t.calls[m]) && (!Undecided(t.calls[m]) ==> m in t.claims)
        ensures t.calls[m] != [] && Last(t.calls[m]).InFlight? ==>
                  var k := Last(t.calls[m]).worker;
                  k in t.handlers && t.handlers[k].pc == Calling
                  && t.handlers[k].payload.Ids? && t.handlers[k].payload.message == m
      {
        SequenceMoves(s, i, w, m);
        assert PlaceMatches(s.calls, i, s.handlers[i]);
      }
    } else {
      hide Settled, OneAtATime;
      forall j | j in t.handlers ensures PlaceMatches(t.calls, j, t.handlers[j]) {
        assert j in s.handlers ==> PlaceMatches(s.calls, j, s.handlers[j]);
      }
    }
  }

  lemma CallsStep(c: Config, s: State, step: Step)
    requires Exclusive(s.claims, s.handlers) && CallsAgree(s.claims, s.calls, s.handlers) && Enabled(s, step)
    ensures CallsAgree(Next(c, s, step).claims, Next(c, s, step).calls, Next(c, s, step).handlers)
  {
    hide NextWorld, NextRelay, Exclusive, CallsAgree, NewCalls, NewClaims, NewMessages, NextPc;
    if step.Work? {
      if Inner(step.work) {
        CallsInner(c, s, step.worker, step.work);
      } else {
        CallsOuter(c, s, step.worker, step.work);
      }
    }
  }

  // ----- statuses and the calls behind them --------------------------------------------------------

  predicate ResumeNoted(resumed: set<Uuid>, h: Handler) {
    h.pc == MarkSent(true) && h.payload.Ids? ==> h.payload.message in resumed
  }

  /** `failed` means the operator refused; `sent` means it accepted, or a redelivered copy resumed. */
  predicate StatusBacked(st: Status, cs: seq<Call>, resumed: bool) {
    && (st == Failed ==> LastIs(cs, Returned(Permanent)))
    && (st == Sent ==> LastIs(cs, Returned(Success)) || resumed)
  }

  ghost predicate StatusesBacked(s: State) {
    && (forall m | m in s.messages :: StatusBacked(s.messages[m].status, CallsOf(s.calls, m), m in s.resumed))
    && (forall i | i in s.handlers :: ResumeNoted(s.resumed, s.handlers[i]))
  }

  ghost predicate Inv(c: Config, s: State) {
    && Wf(c, s)
    && Exclusive(s.claims, s.handlers)
    && CallsAgree(s.claims, s.calls, s.handlers)
    && StatusesBacked(s)
  }

  /** Once decided, the calls of a message never change again. */
  lemma DecidedForever(c: Config, s: State, step: Step, m: Uuid)
    requires Exclusive(s.claims, s.handlers) && CallsAgree(s.claims, s.calls, s.handlers) && Enabled(s, step)
    requires !Undecided(CallsOf(s.calls, m)) && !Last(CallsOf(s.calls, m)).InFlight?
    ensures CallsOf(Next(c, s, step).calls, m) == CallsOf(s.calls, m)
  {
    hide NextWorld, NextRelay, Exclusive, CallsAgree, NewCalls, NewClaims, NewMessages, NextPc;
    if step.Work? && !step.work.Receive? && !step.work.Settle? {
      SequenceMoves(s, step.worker, step.work, m);
    }
  }

  lemma StatusMoves(c: Config, s: State, i: nat, w: WorkStep, m: Uuid)
    requires WorkEnabled(s, i, w) && Inner(w) && PlaceMatches(s.calls, i, s.handlers[i])
    requires ResumeNoted(s.resumed, s.handlers[i])
    requires m in NewMessages(s.messages, s.handlers[i], w)
    ensures var st := NewMessages(s.messages, s.handlers[i], w)[m].status;
            (m in s.messages && st == s.messages[m].status)
            || st == DeadLettered || StatusBacked(st, CallsOf(s.calls, m), m in s.resumed)
  {
  }

  lemma StatusesInner(c: Config, s: State, i: nat, w: WorkStep)
    requires Inv(c, s) && WorkEnabled(s, i, w) && Inner(w)
    ensures StatusesBacked(NextWork(c, s, i, w))
  {
    hide NextWork, ResumeNoted, StatusBacked, Inv;
    var t := NextWork(c, s, i, w);
    forall m | m in t.messages
      ensures StatusBacked(t.messages[m].status, CallsOf(t.calls, m), m in t.resumed)
    {
      StatusInner(c, s, i, w, m);
    }
    ResumesInner(c, s, i, w);
  }

  lemma StatusInner(c: Config, s: State, i: nat, w: WorkStep, m: Uuid)
    requires Inv(c, s) && WorkEnabled(s, i, w) && Inner(w) && m in NextWork(c, s, i, w).messages
    ensures var t := NextWork(c, s, i, w); StatusBacked(t.messages[m].status, CallsOf(t.calls, m), m in t.resumed)
  {
    hide NextPc, NewMessages, NewClaims, NewCalls, NewDlq, Wf;
    assert PlaceMatches(s.calls, i, s.handlers[i]) && ResumeNoted(s.resumed, s.handlers[i]);
    StatusMoves(c, s, i, w, m);
    var cs := CallsOf(s.calls, m);
    if !Undecided(cs) && !Last(cs).InFlight? {
      assert CallsOf(Next(c, s, Work(i, w)).calls, m) == cs by { DecidedForever(c, s, Work(i, w), m); }
    }
  }

  lemma ResumesInner(c: Config, s: State, i: nat, w: WorkStep)
    requires Inv(c, s) && WorkEnabled(s, i, w) && Inner(w)
    ensures var t := NextWork(c, s, i, w);
            forall j | j in t.handlers :: ResumeNoted(t.resumed, t.handlers[j])
  {
    hide NewMessages, NewClaims, NewCalls, NewDlq, Wf, Exclusive, CallsAgree;
    var t := NextWork(c, s, i, w);
    forall j | j in t.handlers ensures ResumeNoted(t.resumed, t.handlers[j]) {
      assert ResumeNoted(s.resumed, s.handlers[j]);
    }
  }

  lemma OutsideKeepsStatuses(c: Config, s: State, step: Step)
    requires Enabled(s, step) && (step.Work? ==> !Inner(step.work))
    ensures var t := Next(c, s, step);
            && t.resumed == s.resumed
            && (forall m | m in t.messages :: t.messages[m].status == Accepted || (m in s.messages && t.messages[m] == s.messages[m]))
            && (forall j | j in t.handlers :: t.handlers[j].pc == Received || (j in s.handlers && t.handlers[j] == s.handlers[j]))
  {
    hide NextWorld, NextRelay, NextWork;
    match step
    case World(w) => WorldMessages(s, w);
    case Relay(t, r) =>
    case Work(i, w) => OuterHandlers(c, s, i, w);
  }

  lemma WorldMessages(s: State, w: WorldStep)
    requires WorldEnabled(s, w)
    ensures var ms := NextWorld(s, w).messages;
            forall m | m in ms :: ms[m].status == Accepted || (m in s.messages && ms[m] == s.messages[m])
  {
  }

  lemma OuterHandlers(c: Config, s: State, i: nat, w: WorkStep)
    requires WorkEnabled(s, i, w) && !Inner(w)
    ensures var hs := NextWork(c, s, i, w).handlers;
            forall j | j in hs :: hs[j].pc == Received || (j in s.handlers && hs[j] == s.handlers[j])
  {
    hide NewCalls, Settled;
  }

  lemma StatusesOutside(c: Config, s: State, step: Step)
    requires Inv(c, s) && Enabled(s, step) && (step.Work? ==> !Inner(step.work))
    ensures StatusesBacked(Next(c, s, step))
  {
    hide Next, Wf, Exclusive, CallsAgree;
    OutsideKeepsStatuses(c, s, step);
    var t := Next(c, s, step);
    forall m | m in t.messages
      ensures StatusBacked(t.messages[m].status, CallsOf(t.calls, m), m in t.resumed)
    {
      if !Undecided(CallsOf(s.calls, m)) && !Last(CallsOf(s.calls, m)).InFlight? {
        DecidedForever(c, s, step, m);
      }
    }
    forall j | j in t.handlers ensures ResumeNoted(t.resumed, t.handlers[j]) {
      assert j in s.handlers ==> ResumeNoted(s.resumed, s.handlers[j]);
    }
  }

  lemma InvStep(c: Config, s: State, step: Step)
    requires Inv(c, s) && Enabled(s, step)
    ensures Inv(c, Next(c, s, step))
  {
    hide NextWork, NextRelay, NextWorld, Wf, Exclusive, CallsAgree, StatusesBacked;
    WfStep(c, s, step);
    ExclusiveStep(c, s, step);
    CallsStep(c, s, step);
    if step.Work? && Inner(step.work) {
      StatusesInner(c, s, step.worker, step.work);
    } else {
      StatusesOutside(c, s, step);
    }
  }

  lemma {:induction false} InvRun(c: Config, s: State, trace: seq<Step>, t: State)
    requires Inv(c, s) && Run(c, s, trace, t)
    ensures Inv(c, t)
    decreases |trace|
  {
    hide Inv, Enabled, Next;
    if trace != [] {
      InvStep(c, s, trace[0]);
      InvRun(c, Next(c, s, trace[0]), trace[1..], t);
    }
  }

  lemma InvReachable(c: Config, s: State)
    requires Reachable(c, s)
    ensures Inv(c, s)
  {
    hide Run, Enabled, Next;
    var trace :| Run(c, Init(), trace, s);
    InvRun(c, Init(), trace, s);
  }

  // ----- main results ---------------------------------------------------------------------------------

  function Count(cs: seq<Call>, x: Call): nat {
    if cs == [] then 0 else (if Last(cs) == x then 1 else 0) + Count(cs[..|cs| - 1], x)
  }

  lemma {:induction false} TransientPrefix(cs: seq<Call>, x: Call)
    requires x != Returned(Transient) && forall k :: 0 <= k < |cs| ==> cs[k] == Returned(Transient)
    ensures Count(cs, x) == 0
  {
    if cs != [] { TransientPrefix(cs[..|cs| - 1], x); }
  }

  lemma DecisiveOnce(cs: seq<Call>, x: Call)
    requires OneAtATime(cs) && x != Returned(Transient)
    ensures Count(cs, x) == if LastIs(cs, x) then 1 else 0
  {
    if cs != [] { TransientPrefix(cs[..|cs| - 1], x); }
  }

  /** In every reachable state the calls for one message never overlapped, and their results are
      transient failures followed by at most one success, refusal, crash or call still running. */
  lemma OperatorCallsNeverOverlap(c: Config, s: State, m: Uuid)
    requires Reachable(c, s)
    ensures OneAtATime(CallsOf(s.calls, m))
    ensures forall i, j | i in s.handlers && j in s.handlers && s.handlers[i].pc == Calling && s.handlers[j].pc == Calling
                          && s.handlers[i].payload.Ids? && s.handlers[i].payload.message == m
                          && s.handlers[j].payload.Ids? && s.handlers[j].payload.message == m :: i == j
    ensures Count(CallsOf(s.calls, m), Returned(Success)) + Count(CallsOf(s.calls, m), Returned(Permanent)) <= 1
  {
    InvReachable(c, s);
    hide Wf, StatusesBacked;
    assert forall i | i in s.handlers && s.handlers[i].pc == Calling && s.handlers[i].payload.Ids?
                      && s.handlers[i].payload.message == m :: Owns(s.handlers[i], m);
    DecisiveOnce(CallsOf(s.calls, m), Returned(Success));
    DecisiveOnce(CallsOf(s.calls, m), Returned(Permanent));
  }

  /** A call is made only by the handler that inserted the claim row; while it holds the row no
      other handler can have inserted it, and the row is committed. */
  lemma CallersOwnTheClaim(c: Config, s: State, i: nat, m: Uuid)
    requires Reachable(c, s) && i in s.handlers && WorkEnabled(s, i, CallOperator)
    requires s.handlers[i].payload.message == m
    ensures m in s.claims && Undecided(CallsOf(s.calls, m))
    ensures forall j | j in s.handlers && j != i :: !Owns(s.handlers[j], m) && !HoldsKey(s.handlers[j], m)
  {
    InvReachable(c, s);
    assert Owns(s.handlers[i], m);
    assert PlaceMatches(s.calls, i, s.handlers[i]);
  }

  /** What a final status tells about the operator. `failed` is exact; `sent` is exact unless a
      redelivered copy resumed an existing claim. */
  lemma FinalStatusIsBacked(c: Config, s: State, m: Uuid)
    requires Reachable(c, s) && m in s.messages
    ensures s.messages[m].status == Failed ==>
              Count(CallsOf(s.calls, m), Returned(Permanent)) == 1 && Count(CallsOf(s.calls, m), Returned(Success)) == 0
    ensures s.messages[m].status == Sent ==>
              Count(CallsOf(s.calls, m), Returned(Success)) == 1 || m in s.resumed
  {
    InvReachable(c, s);
    var cs := CallsOf(s.calls, m);
    assert StatusBacked(s.messages[m].status, cs, m in s.resumed);
    DecisiveOnce(cs, Returned(Success));
    DecisiveOnce(cs, Returned(Permanent));
  }
}
