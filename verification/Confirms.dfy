/** Publishing under a mutex on one confirm channel: any number of calls, each with a context that
    may be cancelled, confirms arriving late, and a channel that may close. */
module Confirms {
  import opened Base

  /** Where a call to Publish stands. Nil remembers whose confirm it took from the channel. */
  datatype Call =
    | Queued               // waiting for the mutex
    | Entered              // holds it, before the cancellation check
    | Checked              // past the check
    | Awaiting             // published, waiting for a confirm
    | Nil(consumed: nat)
    | Failed

  /** A publish on the channel and the broker's verdict on it, once it has come. */
  datatype Confirm = Confirm(owner: nat, verdict: Option<bool>)

  /** `fifo` holds the publishes whose confirms nobody has taken yet: the client library hands
      confirms over in publish order. `acked` are the calls whose message the broker has accepted. */
  datatype Channel = Channel(context: map<nat, nat>, calls: map<nat, Call>, fifo: seq<Confirm>,
                             cancelled: set<nat>, closed: bool, acked: set<nat>)

  datatype Action =
    | Begin(context: nat)
    | Enter
    | Check
    | Publish
    | PublishFails(leavesConfirm: bool)
    | Take                 // a confirm arrives on the channel
    | GiveUp               // ctx.Done() while waiting
    | Broker(at: nat, ack: bool)
    | Cancel(context: nat)
    | Close

  predicate Holds(x: Call) { x.Entered? || x.Checked? || x.Awaiting? }

  predicate MutexFree(s: Channel) { forall c | c in s.calls :: !Holds(s.calls[c]) }

  predicate Cancelled(s: Channel, c: nat) { c in s.context && s.context[c] in s.cancelled }

  predicate Can(s: Channel, c: nat, a: Action) {
    match a
    case Begin(_) => c !in s.calls
    case Enter => c in s.calls && s.calls[c].Queued? && MutexFree(s)
    case Check => c in s.calls && s.calls[c].Entered?
    case Publish => c in s.calls && s.calls[c].Checked? && !s.closed
    case PublishFails(_) => c in s.calls && s.calls[c].Checked?
    case Take => c in s.calls && s.calls[c].Awaiting? && (s.closed || (s.fifo != [] && s.fifo[0].verdict.Some?))
    case GiveUp => c in s.calls && s.calls[c].Awaiting? && Cancelled(s, c)
    case Broker(at, _) => at < |s.fifo| && s.fifo[at].verdict == None
    case Cancel(_) => true
    case Close => true
  }

  /** An open channel yields the oldest confirm; a closed one yields those already there and then
      zero values, which are no acknowledgement. */
  function TakeConfirm(s: Channel, c: nat): Channel
    requires Can(s, c, Take)
  {
    if s.fifo == [] || s.fifo[0].verdict == None then s.(calls := s.calls[c := Failed])
    else
      var head := s.fifo[0];
      s.(calls := s.calls[c := if head.verdict.value then Nil(head.owner) else Failed], fifo := s.fifo[1..])
  }

  function Do(s: Channel, c: nat, a: Action): Channel
    requires Can(s, c, a)
  {
    match a
    case Begin(context) => s.(calls := s.calls[c := Queued], context := s.context[c := context])
    case Enter => s.(calls := s.calls[c := Entered])
    case Check => s.(calls := s.calls[c := if Cancelled(s, c) then Failed else Checked])
    case Publish => s.(calls := s.calls[c := Awaiting], fifo := s.fifo + [Confirm(c, None)])
    case PublishFails(leaves) =>
      s.(calls := s.calls[c := Failed], fifo := if leaves then s.fifo + [Confirm(c, None)] else s.fifo)
    case Take => TakeConfirm(s, c)
    case GiveUp => s.(calls := s.calls[c := Failed])
    case Broker(at, ack) =>
      s.(fifo := s.fifo[at := s.fifo[at].(verdict := Some(ack))],
         acked := if ack then s.acked + {s.fifo[at].owner} else s.acked)
    case Cancel(context) => s.(cancelled := s.cancelled + {context})
    case Close => s.(closed := true)
  }

  datatype Event = Event(call: nat, action: Action)

  ghost predicate Leads(s: Channel, run: seq<Event>, u: Channel)
    decreases |run|
  {
    if run == [] then s == u
    else Can(s, run[0].call, run[0].action) && Leads(Do(s, run[0].call, run[0].action), run[1..], u)
  }

  const OPENED := Channel(map[], map[], [], {}, false, {})

  /** One cancellation for everybody, and no confirm for a publish that reported an error. */
  predicate Tame(run: seq<Event>, context: nat) {
    forall k | 0 <= k < |run| :: TameAction(run[k].action, context)
  }

  // ----- every run ----------------------------------------------------------------------------------

  ghost predicate OneHolder(calls: map<nat, Call>) {
    forall c, d | c in calls && d in calls && Holds(calls[c]) && Holds(calls[d]) :: c == d
  }

  predicate HasPublished(s: Channel, c: nat) { c in s.calls && (s.calls[c].Awaiting? || s.calls[c].Nil? || s.calls[c].Failed?) }

  /** Only calls that have tried to publish have confirms in the channel. */
  ghost predicate OwnersPublished(s: Channel) {
    forall k | 0 <= k < |s.fifo| :: HasPublished(s, s.fifo[k].owner)
  }

  /** Verdicts in the channel are the broker's, and whoever returned nil took an ack. */
  ghost predicate Honest(s: Channel) {
    && (forall k | 0 <= k < |s.fifo| && s.fifo[k].verdict == Some(true) :: s.fifo[k].owner in s.acked)
    && (forall c | c in s.calls && s.calls[c].Nil? :: s.calls[c].consumed in s.acked)
  }

  ghost predicate Sound(s: Channel) { OneHolder(s.calls) && OwnersPublished(s) && Honest(s) }

  lemma SoundStep(s: Channel, c: nat, a: Action)
    requires Sound(s) && Can(s, c, a)
    ensures Sound(Do(s, c, a))
  {
    HonestStep(s, c, a);
    OwnersStep(s, c, a);
  }

  lemma HonestStep(s: Channel, c: nat, a: Action)
    requires OneHolder(s.calls) && Honest(s) && Can(s, c, a)
    ensures OneHolder(Do(s, c, a).calls) && Honest(Do(s, c, a))
  {
  }

  lemma OwnersStep(s: Channel, c: nat, a: Action)
    requires OwnersPublished(s) && Can(s, c, a)
    ensures OwnersPublished(Do(s, c, a))
  {
  }

  function Owners(fifo: seq<Confirm>): seq<nat> { seq(|fifo|, k requires 0 <= k < |fifo| => fifo[k].owner) }

  predicate Returned(s: Channel, c: nat) { c in s.calls && (s.calls[c].Nil? || s.calls[c].Failed?) }

  lemma WhileWaiting(s: Channel, d: nat, a: Action, c: nat)
    requires OneHolder(s.calls) && Can(s, d, a)
    ensures c in s.calls && s.calls[c].Awaiting? ==>
              || (c in Do(s, d, a).calls && Do(s, d, a).calls[c].Awaiting? && Owners(Do(s, d, a).fifo) == Owners(s.fifo))
              || Returned(Do(s, d, a), c)
    ensures Returned(s, c) ==> Returned(Do(s, d, a), c)
  {
  }

  /** While a call waits for its confirm nobody publishes and nobody takes a confirm. */
  lemma {:induction false} StillWaiting(s: Channel, run: seq<Event>, t: Channel, c: nat)
    requires Sound(s) && Leads(s, run, t) && c in t.calls && t.calls[c].Awaiting?
    requires Returned(s, c) || (c in s.calls && s.calls[c].Awaiting?)
    ensures !Returned(s, c) && Owners(t.fifo) == Owners(s.fifo)
    decreases |run|
  {
    hide Do, Can, Sound;
    if run != [] {
      var u := Do(s, run[0].call, run[0].action);
      SoundStep(s, run[0].call, run[0].action);
      assert OneHolder(s.calls) by { SoundHolds(s); }
      WhileWaiting(s, run[0].call, run[0].action, c);
      StillWaiting(u, run[1..], t, c);
    }
  }

  lemma SoundHolds(s: Channel)
    requires Sound(s)
    ensures OneHolder(s.calls)
  {
  }

  /** Whatever happens in between, a call that returns nil took its own confirm if and only if no
      stale confirm was in the channel when it published. */
  lemma OwnConfirmIffNoneStale(s: Channel, c: nat, run: seq<Event>, t: Channel)
    requires Sound(s) && Can(s, c, Publish)
    requires Leads(Do(s, c, Publish), run, t) && Can(t, c, Take) && TakeConfirm(t, c).calls[c].Nil?
    ensures TakeConfirm(t, c).calls[c] == Nil(c) <==> s.fifo == []
  {
    SoundStep(s, c, Publish);
    var u := Do(s, c, Publish);
    StillWaiting(u, run, t, c);
    assert Owners(u.fifo)[0] == u.fifo[0].owner && Owners(t.fifo)[0] == t.fifo[0].owner;
    if s.fifo != [] {
      assert u.fifo[0] == s.fifo[0];
      assert HasPublished(s, s.fifo[0].owner);
    }
  }

  // ----- one shared cancellation --------------------------------------------------------------------

  predicate OneContext(s: Channel, context: nat) {
    forall c | c in s.calls :: c in s.context && s.context[c] == context
  }

  /** Past the check there is no stale confirm, and only a call's own confirm while it waits. */
  ghost predicate NoneStale(s: Channel) {
    && (forall c | c in s.calls && s.calls[c].Checked? :: s.fifo == [] || s.closed)
    && (forall c | c in s.calls && s.calls[c].Awaiting? :: |s.fifo| == 1 && s.fifo[0].owner == c)
    && (forall c | c in s.calls && s.calls[c].Nil? :: s.calls[c] == Nil(c))
  }

  predicate SomeoneWaits(s: Channel) { exists c :: c in s.calls && s.calls[c].Awaiting? }

  /** Confirms are left behind only by a cancellation or a closed channel. */
  ghost predicate LeftBehind(s: Channel, context: nat) {
    s.fifo != [] ==> context in s.cancelled || s.closed || SomeoneWaits(s)
  }

  ghost predicate TameInv(s: Channel, context: nat) {
    OneHolder(s.calls) && OneContext(s, context) && NoneStale(s) && LeftBehind(s, context)
  }

  predicate TameAction(a: Action, context: nat) {
    (a.Begin? ==> a.context == context) && (a.PublishFails? ==> !a.leavesConfirm)
  }

  lemma NoneStaleStep(s: Channel, context: nat, c: nat, a: Action)
    requires TameInv(s, context) && Can(s, c, a) && TameAction(a, context)
    ensures NoneStale(Do(s, c, a))
  {
    if a.Check? && SomeoneWaits(s) {
      var d :| d in s.calls && s.calls[d].Awaiting?;
      assert Holds(s.calls[c]) && Holds(s.calls[d]);
    }
  }

  lemma LeftBehindStep(s: Channel, context: nat, c: nat, a: Action)
    requires TameInv(s, context) && Can(s, c, a) && TameAction(a, context)
    ensures LeftBehind(Do(s, c, a), context)
  {
    var t := Do(s, c, a);
    if SomeoneWaits(s) {
      var d :| d in s.calls && s.calls[d].Awaiting?;
      if d in t.calls && t.calls[d].Awaiting? { assert SomeoneWaits(t); }
    }
    if a.Publish? { assert t.calls[c].Awaiting?; }
  }

  lemma TameStep(s: Channel, context: nat, c: nat, a: Action)
    requires TameInv(s, context) && Can(s, c, a) && TameAction(a, context)
    ensures TameInv(Do(s, c, a), context)
  {
    NoneStaleStep(s, context, c, a);
    LeftBehindStep(s, context, c, a);
    OneHolderStep(s, c, a);
    hide NoneStale, LeftBehind, OneHolder;
  }

  lemma OneHolderStep(s: Channel, c: nat, a: Action)
    requires OneHolder(s.calls) && Can(s, c, a)
    ensures OneHolder(Do(s, c, a).calls)
  {
  }

  lemma {:induction false} TameRun(s: Channel, context: nat, run: seq<Event>, t: Channel)
    requires TameInv(s, context) && Sound(s) && Leads(s, run, t) && Tame(run, context)
    ensures TameInv(t, context) && Sound(t)
    decreases |run|
  {
    hide Do, Can, Sound, TameInv;
    if run != [] {
      TameStep(s, context, run[0].call, run[0].action);
      SoundStep(s, run[0].call, run[0].action);
      TameRun(Do(s, run[0].call, run[0].action), context, run[1..], t);
    }
  }

  /** When all callers share one cancellation and a publish that errors leaves no confirm behind,
      every Publish that returns nil took the broker's ack of its own message. */
  lemma NilMeansOwnAck(context: nat, run: seq<Event>, t: Channel, c: nat)
    requires Leads(OPENED, run, t) && Tame(run, context)
    requires c in t.calls && t.calls[c].Nil?
    ensures t.calls[c] == Nil(c) && c in t.acked
  {
    TameRun(OPENED, context, run, t);
  }

  /** And the other way round: under the same conditions a waiting call whose message the broker has
      answered takes that answer, an ack as nil and a refusal as an error. */
  lemma AnswerIsTaken(context: nat, run: seq<Event>, t: Channel, c: nat)
    requires Leads(OPENED, run, t) && Tame(run, context)
    requires c in t.calls && t.calls[c].Awaiting? && |t.fifo| > 0 && t.fifo[0].verdict.Some?
    ensures Can(t, c, Take) && t.fifo[0].owner == c
    ensures TakeConfirm(t, c).calls[c] == if t.fifo[0].verdict.value then Nil(c) else Failed
  {
    TameRun(OPENED, context, run, t);
  }

  // ----- each condition is needed --------------------------------------------------------------------

  lemma {:induction false} Then(s: Channel, run: seq<Event>, t: Channel, c: nat, a: Action)
      returns (more: seq<Event>, u: Channel)
    requires Leads(s, run, t) && Can(t, c, a)
    ensures u == Do(t, c, a) && more == run + [Event(c, a)] && Leads(s, more, u)
    decreases |run|
  {
    hide Do, Can;
    more, u := run + [Event(c, a)], Do(t, c, a);
    if run == [] {
      assert more[1..] == [];
    } else {
      assert more[1..] == run[1..] + [Event(c, a)];
      var _, _ := Then(Do(s, run[0].call, run[0].action), run[1..], t, c, a);
    }
  }

  /** Two callers, the first of which has left a confirm behind. */
  predicate FirstLeftItsConfirm(s: Channel) {
    && 1 in s.context && 2 in s.context && !Cancelled(s, 2)
    && s.calls == map[1 := Failed, 2 := Queued] && s.fifo == [Confirm(1, None)] && !s.closed && 2 !in s.acked
  }

  /** The second caller then takes it, though the broker refuses its own message. */
  lemma SecondTakesIt(run: seq<Event>, s: Channel) returns (run': seq<Event>, t: Channel)
    requires Leads(OPENED, run, s) && FirstLeftItsConfirm(s)
    ensures Leads(OPENED, run', t) && 2 in t.calls && t.calls[2] == Nil(1) && 2 !in t.acked
    ensures |run'| == |run| + 6 && run'[..|run|] == run
    ensures forall k | |run| <= k < |run'| :: !run'[k].action.PublishFails? && !run'[k].action.Begin?
  {
    hide Leads;
    run', t := Then(OPENED, run, s, 2, Enter);
    run', t := Then(OPENED, run', t, 2, Check);
    run', t := Then(OPENED, run', t, 2, Publish);
    run', t := Then(OPENED, run', t, 0, Broker(0, true));
    run', t := Then(OPENED, run', t, 0, Broker(1, false));
    run', t := Then(OPENED, run', t, 2, Take);
  }

  lemma TwoCallers(other: nat) returns (run: seq<Event>, s: Channel)
    ensures Leads(OPENED, run, s)
    ensures |run| == 4 && run[0] == Event(1, Begin(0)) && run[1] == Event(2, Begin(other))
    ensures run[2] == Event(1, Enter) && run[3] == Event(1, Check)
    ensures s == Channel(map[1 := 0, 2 := other], map[1 := Checked, 2 := Queued], [], {}, false, {})
  {
    assert Leads(OPENED, [], OPENED);
    hide Leads;
    run, s := Then(OPENED, [], OPENED, 1, Begin(0));
    run, s := Then(OPENED, run, s, 2, Begin(other));
    run, s := Then(OPENED, run, s, 1, Enter);
    run, s := Then(OPENED, run, s, 1, Check);
  }

  /** Separate contexts: the first caller gives up, the second takes its confirm and returns nil
      while the broker has refused the second message. */
  lemma SeparateContextsMixUp() returns (run: seq<Event>, t: Channel)
    ensures Leads(OPENED, run, t)
    ensures forall k | 0 <= k < |run| :: !run[k].action.PublishFails?
    ensures 2 in t.calls && t.calls[2] == Nil(1) && 2 !in t.acked
  {
    hide Leads;
    var before, s := TwoCallers(5);
    before, s := Then(OPENED, before, s, 1, Publish);
    before, s := Then(OPENED, before, s, 0, Cancel(0));
    before, s := Then(OPENED, before, s, 1, GiveUp);
    run, t := SecondTakesIt(before, s);
    assert forall k | 0 <= k < |before| :: run[k] == run[..|before|][k];
  }

  /** One context, but a publish that errors leaves its confirm behind: the next caller takes it. */
  lemma LeftoverConfirmMixesUp() returns (run: seq<Event>, t: Channel)
    ensures Leads(OPENED, run, t)
    ensures forall k | 0 <= k < |run| && run[k].action.Begin? :: run[k].action.context == 0
    ensures 2 in t.calls && t.calls[2] == Nil(1) && 2 !in t.acked
  {
    hide Leads;
    var before, s := TwoCallers(0);
    before, s := Then(OPENED, before, s, 1, PublishFails(true));
    run, t := SecondTakesIt(before, s);
    assert forall k | 0 <= k < |before| :: run[k] == run[..|before|][k];
  }
}
