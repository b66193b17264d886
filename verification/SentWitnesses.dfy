/** Each of the seven mishaps alone is enough: one run per mishap in which nothing else goes wrong
    for the message, the operator never accepts it, and it still ends as `sent`. */
module SentWitnesses {
  import opened Base
  import opened Pipeline
  import opened OperatorCalls
  import opened SentProvenance

  /** The mishaps that befell message `m` along a run, in order. */
  ghost function Mishaps(c: Config, s: State, trace: seq<Step>, m: Uuid): seq<Mishap>
    decreases |trace|
  {
    if trace == [] || !Enabled(s, trace[0]) then []
    else
      var k := MishapOf(s, trace[0], m);
      (if k == None then [] else [k.value]) + Mishaps(c, Next(c, s, trace[0]), trace[1..], m)
  }

  /** Some run from the empty system reaches `s` with exactly these mishaps for `m`. */
  ghost predicate Gets(c: Config, s: State, m: Uuid, ks: seq<Mishap>) {
    exists trace :: Run(c, Init(), trace, s) && Mishaps(c, Init(), trace, m) == ks
  }

  lemma {:induction false} MishapsSnoc(c: Config, s: State, trace: seq<Step>, t: State, step: Step, m: Uuid)
    requires Run(c, s, trace, t) && Enabled(t, step)
    ensures var k := MishapOf(t, step, m);
            Mishaps(c, s, trace + [step], m) == Mishaps(c, s, trace, m) + (if k == None then [] else [k.value])
    decreases |trace|
  {
    hide Enabled, Next, MishapOf;
    if trace == [] {
      assert trace + [step] == [step] && [step][1..] == [];
    } else {
      assert (trace + [step])[1..] == trace[1..] + [step];
      MishapsSnoc(c, Next(c, s, trace[0]), trace[1..], t, step, m);
    }
  }

  lemma Gains(c: Config, s: State, step: Step, m: Uuid, ks: seq<Mishap>)
    requires Gets(c, s, m, ks) && Enabled(s, step)
    ensures var k := MishapOf(s, step, m);
            Gets(c, Next(c, s, step), m, if k == None then ks else ks + [k.value])
  {
    hide Enabled, Next, MishapOf, Run, Mishaps;
    var trace :| Run(c, Init(), trace, s) && Mishaps(c, Init(), trace, m) == ks;
    RunSnoc(c, Init(), trace, s, step);
    MishapsSnoc(c, Init(), trace, s, step, m);
    assert ks + [] == ks;
  }

  lemma Slip(c: Config, s: State, step: Step, m: Uuid, k: Mishap)
    requires Gets(c, s, m, []) && Enabled(s, step) && MishapOf(s, step, m) == Some(k)
    ensures Gets(c, Next(c, s, step), m, [k])
  {
    hide Enabled, Next, MishapOf, Gets;
    Gains(c, s, step, m, []);
    assert [] + [k] == [k];
  }

  // ----- the shared beginning ---------------------------------------------------------------------

  function C0(): Config { Config(5, true) }

  /** One message, one copy, one worker that has inserted the claim row. */
  function Inserted(): State {
    State(0, map[0 := Message(0, Accepted)], {}, map[0 := Event(Sample(), Pending, Some(30), 0, 0)],
          map[0 := Copy(Standard, Sample(), false, 0, Some(0))], multiset{},
          map[0 := Handler(0, Sample(), false, 0, ClaimCommit)], map[0 := Task(0, 30, Mark(0))],
          map[], {}, map[0 := 0], map[0 := 0])
  }

  lemma Start(c: Config, m: Uuid)
    ensures Gets(c, Init(), m, [])
  {
    assert Run(c, Init(), [], Init()) && Mishaps(c, Init(), [], m) == [];
  }

  lemma Leased() returns (s: State)
    ensures Gets(C0(), s, 0, [])
    ensures s == Inserted().(handlers := map[], copies := map[], published := map[], tasks := map[0 := Task(0, 30, Check)])
  {
    hide Run, Mishaps, Gets, NextWork, WorkEnabled;
    s := Init();
    Start(C0(), 0);
    Gains(C0(), s, World(Accept(0, 0, 0, Standard)), 0, []);
    s := Next(C0(), s, World(Accept(0, 0, 0, Standard)));
    Gains(C0(), s, Relay(0, Lease(0, 30)), 0, []);
    s := Next(C0(), s, Relay(0, Lease(0, 30)));
  }

  lemma Published() returns (s: State)
    ensures Gets(C0(), s, 0, [])
    ensures s == Inserted().(handlers := map[], copies := map[0 := Copy(Standard, Sample(), false, 0, None)])
  {
    s := Leased();
    hide Run, Mishaps, Gets, NextWork, WorkEnabled, NextWorld, WorldEnabled;
    Gains(C0(), s, Relay(0, CheckPublished(true)), 0, []);
    s := Next(C0(), s, Relay(0, CheckPublished(true)));
    Gains(C0(), s, Relay(0, PublishCopy(0, Done)), 0, []);
    s := Next(C0(), s, Relay(0, PublishCopy(0, Done)));
  }

  /** A step that moves one handler's program counter and nothing else. */
  lemma Move(s: State, i: nat, w: WorkStep, pc: Pc, ks: seq<Mishap>) returns (t: State)
    requires Gets(C0(), s, 0, ks) && WorkEnabled(s, i, w) && !pc.MarkSent?
    requires w.Decode? || w.ReadStatus? || w.InsertClaim?
    requires NextPc(C0(), s, s.handlers[i], w) == pc
    ensures Gets(C0(), t, 0, ks)
    ensures t == s.(handlers := s.handlers[i := s.handlers[i].(pc := pc)])
  {
    hide Run, Mishaps, Gets;
    Gains(C0(), s, Work(i, w), 0, ks);
    t := Next(C0(), s, Work(i, w));
  }

  lemma Take(s: State, i: nat, cp: nat, ks: seq<Mishap>) returns (t: State)
    requires Gets(C0(), s, 0, ks) && FreshWorker(s, i)
    requires cp in s.copies && s.copies[cp].payload == Sample() && s.copies[cp].holder == None && s.copies[cp].deaths == 0
    ensures Gets(C0(), t, 0, ks)
    ensures t == s.(copies := s.copies[cp := s.copies[cp].(holder := Some(i))],
                    handlers := s.handlers[i := Handler(cp, Sample(), s.copies[cp].redelivered, 0, ClaimRead)])
  {
    hide Run, Mishaps, Gets, NextRelay, RelayEnabled, NextWorld, WorldEnabled;
    Gains(C0(), s, Work(i, Receive(cp)), 0, ks);
    var u := Next(C0(), s, Work(i, Receive(cp)));
    t := Move(u, i, Decode, ClaimRead, ks);
    assert t.handlers == s.handlers[i := t.handlers[i]];
  }

  /** A worker that takes a waiting copy decodes it, reads the message and tries the claim row. */
  lemma TryClaim(s: State, i: nat, cp: nat, ks: seq<Mishap>) returns (t: State)
    requires Gets(C0(), s, 0, ks) && FreshWorker(s, i) && KeyFree(s.handlers, 0)
    requires cp in s.copies && s.copies[cp].payload == Sample() && s.copies[cp].holder == None && s.copies[cp].deaths == 0
    requires 0 in s.messages && s.messages[0] == Message(0, Accepted)
    ensures Gets(C0(), t, 0, ks)
    ensures t == s.(copies := s.copies[cp := s.copies[cp].(holder := Some(i))],
                    handlers := s.handlers[i := Handler(cp, Sample(), s.copies[cp].redelivered, 0,
                                                        if 0 in s.claims then ClaimReread else ClaimCommit)])
  {
    hide Run, Mishaps, Gets, NextRelay, RelayEnabled, NextWorld, WorldEnabled, NextWork;
    t := Take(s, i, cp, ks);
    t := Move(t, i, ReadStatus(true), ClaimInsert, ks);
    t := Move(t, i, InsertClaim(true), if 0 in s.claims then ClaimReread else ClaimCommit, ks);
    assert t.handlers == s.handlers[i := t.handlers[i]];
  }

  lemma ReadsResume(s: State, i: nat, cp: nat, ks: seq<Mishap>) returns (t: State)
    requires Gets(C0(), s, 0, ks) && i in s.handlers && s.handlers[i] == Handler(cp, Sample(), true, 0, ClaimReread)
    requires 0 in s.messages && s.messages[0] == Message(0, Accepted)
    ensures Gets(C0(), t, 0, ks) && t.messages == s.messages && t.calls == s.calls
    ensures t.handlers == s.handlers[i := Handler(cp, Sample(), true, 0, MarkSent(true))]
  {
    Gains(C0(), s, Work(i, ReadStatus(true)), 0, ks);
    t := Next(C0(), s, Work(i, ReadStatus(true)));
    hide Run, Mishaps, Gets, NewClaims, NewDlq, NewMessages;
  }

  /** A redelivered copy that meets the claim row marks the message sent without calling anyone. */
  lemma Resume(s: State, i: nat, cp: nat, ks: seq<Mishap>) returns (t: State)
    requires Gets(C0(), s, 0, ks) && FreshWorker(s, i) && KeyFree(s.handlers, 0) && RowFree(s.handlers, 0)
    requires cp in s.copies && s.copies[cp] == Copy(Standard, Sample(), true, 0, None)
    requires 0 in s.messages && s.messages[0] == Message(0, Accepted) && 0 in s.claims
    ensures Gets(C0(), t, 0, ks)
    ensures 0 in t.messages && t.messages[0].status == Sent && t.calls == s.calls
  {
    hide Run, Mishaps, Gets, NextRelay, RelayEnabled, NextWorld, WorldEnabled;
    t := TryClaim(s, i, cp, ks);
    t := ReadsResume(t, i, cp, ks);
    Gains(C0(), t, Work(i, SetSent(Done)), 0, ks);
    t := Next(C0(), t, Work(i, SetSent(Done)));
    hide NewClaims, NewDlq, NextPc;
  }

  /** Worker 0 holds the claim and is about to call the operator. */
  function Claimed(): State {
    State(0, map[0 := Message(0, Accepted)], {0}, map[0 := Event(Sample(), Pending, Some(30), 0, 0)],
          map[0 := Copy(Standard, Sample(), false, 0, Some(0))], multiset{},
          map[0 := Handler(0, Sample(), false, 0, Operate)], map[0 := Task(0, 30, Mark(0))],
          map[], {}, map[0 := 0], map[0 := 0])
  }

  lemma Inserting()
    ensures Gets(C0(), Inserted(), 0, [])
  {
    hide Run, Mishaps, Gets, NextRelay, RelayEnabled, NextWorld, WorldEnabled;
    var s := Published();
    s := TryClaim(s, 0, 0, []);
    assert s == Inserted();
  }

  lemma Claiming()
    ensures Gets(C0(), Claimed(), 0, [])
  {
    hide Run, Mishaps, Gets, NextRelay, RelayEnabled, NextWorld, WorldEnabled;
    Inserting();
    Gains(C0(), Inserted(), Work(0, CommitClaim(Done)), 0, []);
    assert Next(C0(), Inserted(), Work(0, CommitClaim(Done))) == Claimed();
  }

  /** What every witness shows. */
  ghost predicate FalselySent(k: Mishap) {
    exists s :: Gets(C0(), s, 0, [k]) && 0 in s.messages && s.messages[0].status == Sent
                && Count(CallsOf(s.calls, 0), Returned(Success)) == 0
  }

  // ----- one run per mishap ---------------------------------------------------------------------------

  lemma ClaimUnsureAlone()
    ensures FalselySent(ClaimUnsure)
  {
    hide Run, Mishaps, Gets, NextRelay, RelayEnabled, NextWorld, WorldEnabled;
    Inserting();
    var s := Inserted();
    Slip(C0(), s, Work(0, CommitClaim(Unsure)), 0, ClaimUnsure);
    s := Next(C0(), s, Work(0, CommitClaim(Unsure)));
    s := PutBack(s, 0, 0, [ClaimUnsure]);
    s := Resume(s, 1, 0, [ClaimUnsure]);
  }

  lemma CrashMidClaimAlone()
    ensures FalselySent(CrashMidClaim)
  {
    hide Run, Mishaps, Gets, NextRelay, RelayEnabled;
    Claiming();
    var s := Claimed();
    Slip(C0(), s, Work(0, Crash), 0, CrashMidClaim);
    s := Next(C0(), s, Work(0, Crash));
    Gains(C0(), s, World(Disconnect(0)), 0, [CrashMidClaim]);
    s := Next(C0(), s, World(Disconnect(0)));
    s := Resume(s, 1, 0, [CrashMidClaim]);
  }

  lemma TakenFromLiveAlone()
    ensures FalselySent(TakenFromLive)
  {
    hide Run, Mishaps, Gets, NextRelay, RelayEnabled;
    Claiming();
    var s := Claimed();
    Slip(C0(), s, World(Disconnect(0)), 0, TakenFromLive);
    s := Next(C0(), s, World(Disconnect(0)));
    s := Resume(s, 1, 0, [TakenFromLive]);
  }

  /** Worker 0 holds the claim and has the operator's answer. */
  function Told(out: Outcome): State {
    State(0, map[0 := Message(0, Accepted)], {0}, map[0 := Event(Sample(), Pending, Some(30), 0, 0)],
          map[0 := Copy(Standard, Sample(), false, 0, Some(0))], multiset{},
          map[0 := Handler(0, Sample(), false, 0, AfterAnswer(out))], map[0 := Task(0, 30, Mark(0))],
          map[0 := [Returned(out)]], {}, map[0 := 0], map[0 := 0])
  }

  function Ringing(): State {
    Claimed().(handlers := map[0 := Handler(0, Sample(), false, 0, Calling)], calls := map[0 := [InFlight(0)]])
  }

  lemma Rings()
    ensures WorkEnabled(Claimed(), 0, CallOperator) && MishapOf(Claimed(), Work(0, CallOperator), 0) == None
    ensures NextWork(C0(), Claimed(), 0, CallOperator) == Ringing()
  {
    assert CallsOf(Claimed().calls, 0) + [InFlight(0)] == [InFlight(0)];
    assert NextWork(C0(), Claimed(), 0, CallOperator).handlers == Ringing().handlers;
  }

  lemma Answers(out: Outcome)
    ensures WorkEnabled(Ringing(), 0, Answer(out)) && MishapOf(Ringing(), Work(0, Answer(out)), 0) == None
    ensures NextWork(C0(), Ringing(), 0, Answer(out)) == Told(out)
  {
    assert SetLast([InFlight(0)], Returned(out)) == [Returned(out)];
    assert NextWork(C0(), Ringing(), 0, Answer(out)).handlers == Told(out).handlers;
    assert NextWork(C0(), Ringing(), 0, Answer(out)).calls == Told(out).calls;
  }

  lemma Answering(out: Outcome)
    ensures Gets(C0(), Told(out), 0, [])
  {
    hide Run, Mishaps, Gets, NextWork, WorkEnabled, MishapOf;
    Claiming();
    Rings();
    Gains(C0(), Claimed(), Work(0, CallOperator), 0, []);
    Answers(out);
    Gains(C0(), Ringing(), Work(0, Answer(out)), 0, []);
  }

  lemma ReleaseFailedAlone()
    ensures FalselySent(ReleaseFailed)
  {
    hide Run, Mishaps, Gets, NextRelay, RelayEnabled, NextWorld, WorldEnabled;
    Answering(Transient);
    var s := Told(Transient);
    assert Count([Returned(Transient)], Returned(Success)) == 0;
    Slip(C0(), s, Work(0, DropClaim(Refused)), 0, ReleaseFailed);
    s := Next(C0(), s, Work(0, DropClaim(Refused)));
    s := PutBack(s, 0, 0, [ReleaseFailed]);
    s := Resume(s, 1, 0, [ReleaseFailed]);
  }

  lemma MarkFailedFailedAlone()
    ensures FalselySent(MarkFailedFailed)
  {
    hide Run, Mishaps, Gets, NextRelay, RelayEnabled, NextWorld, WorldEnabled;
    Answering(Permanent);
    var s := Told(Permanent);
    assert Count([Returned(Permanent)], Returned(Success)) == 0;
    Slip(C0(), s, Work(0, SetFailed(Refused)), 0, MarkFailedFailed);
    s := Next(C0(), s, Work(0, SetFailed(Refused)));
    s := PutBack(s, 0, 0, [MarkFailedFailed]);
    s := Resume(s, 1, 0, [MarkFailedFailed]);
  }

  /** The first relay and worker 0 as they are, and a second copy waiting on the queue. */
  ghost predicate Duplicated(s: State) {
    && s.copies == map[0 := Copy(Standard, Sample(), false, 0, Some(0)), 1 := Copy(Standard, Sample(), false, 0, None)]
    && s.handlers == Claimed().handlers && s.messages == Claimed().messages && s.claims == {0} && s.calls == map[]
  }

  lemma Rereads(s: State, ks: seq<Mishap>) returns (t: State)
    requires Gets(C0(), s, 0, ks) && Duplicated(s)
    ensures Gets(C0(), t, 0, ks)
    ensures t == s.(copies := s.copies[1 := Copy(Standard, Sample(), false, 0, Some(1))],
                    handlers := s.handlers[1 := Handler(1, Sample(), false, 0, Settling(true))])
  {
    hide Run, Mishaps, Gets, NextWork, NextWorld, NextRelay, WorldEnabled, RelayEnabled;
    t := TryClaim(s, 1, 1, ks);
    t := Move(t, 1, ReadStatus(true), Settling(true), ks);
  }

  /** The duplicate first meets the claim undelivered and is requeued, ... */
  lemma Bounced(s: State, ks: seq<Mishap>) returns (t: State)
    requires Gets(C0(), s, 0, ks) && Duplicated(s)
    ensures Gets(C0(), t, 0, ks)
    ensures t == s.(copies := map[0 := Copy(Standard, Sample(), false, 0, Some(0)), 1 := Copy(Standard, Sample(), true, 0, None)])
  {
    hide Run, Mishaps, Gets, NextWork, NextWorld, NextRelay, WorldEnabled, RelayEnabled;
    t := Rereads(s, ks);
    hide NextPc, WorkEnabled;
    t := PutBack(t, 1, 1, ks);
    assert t.handlers == s.handlers;
  }

  /** ... and then comes back redelivered. */
  lemma Bounce(s: State, ks: seq<Mishap>) returns (t: State)
    requires Gets(C0(), s, 0, ks) && Duplicated(s)
    ensures Gets(C0(), t, 0, ks) && 0 in t.messages && t.messages[0].status == Sent && t.calls == map[]
  {
    hide Run, Mishaps, Gets, NextWork, NextWorld, NextRelay, WorldEnabled, RelayEnabled;
    t := Bounced(s, ks);
    t := Resume(t, 2, 1, ks);
  }

  lemma PutBack(s: State, i: nat, cp: nat, ks: seq<Mishap>) returns (t: State)
    requires Gets(C0(), s, 0, ks) && i in s.handlers && s.handlers[i].pc == Settling(true) && s.handlers[i].copy == cp
    requires cp in s.copies && s.copies[cp].holder == Some(i)
    ensures Gets(C0(), t, 0, ks)
    ensures t == s.(handlers := s.handlers - {i}, copies := s.copies[cp := Requeued(s.copies[cp])])
  {
    hide Run, Mishaps, Gets;
    Gains(C0(), s, Work(i, Settle(true)), 0, ks);
    t := Next(C0(), s, Work(i, Settle(true)));
  }

  lemma StrayCopyAlone()
    ensures FalselySent(StrayCopy)
  {
    hide Run, Mishaps, Gets, NextRelay, RelayEnabled, NextWork, WorkEnabled;
    Claiming();
    var s := Claimed();
    Slip(C0(), s, World(Stray(1, Standard, Sample(), 0)), 0, StrayCopy);
    s := Next(C0(), s, World(Stray(1, Standard, Sample(), 0)));
    s := Bounce(s, [StrayCopy]);
  }

  /** The first relay dies before marking; its lease runs out and a second relay publishes again. */
  lemma SecondCopyAlone()
    ensures FalselySent(SecondCopy)
  {
    var s := LeasedAgain();
    hide Run, Mishaps, Gets, NextWork, WorkEnabled, NextWorld, WorldEnabled;
    Gains(C0(), s, Relay(1, CheckPublished(true)), 0, []);
    s := Next(C0(), s, Relay(1, CheckPublished(true)));
    Slip(C0(), s, Relay(1, PublishCopy(1, Done)), 0, SecondCopy);
    s := Next(C0(), s, Relay(1, PublishCopy(1, Done)));
    s := Bounce(s, [SecondCopy]);
  }

  lemma LeasedAgain() returns (s: State)
    ensures Gets(C0(), s, 0, [])
    ensures s == Claimed().(now := 31, tasks := map[1 := Task(0, 61, Check)], leases := map[0 := 0, 1 := 0],
                            events := map[0 := Event(Sample(), Pending, Some(61), 0, 0)])
  {
    hide Run, Mishaps, Gets, NextWork, WorkEnabled;
    Claiming();
    s := Claimed();
    Gains(C0(), s, Relay(0, Abandon), 0, []);
    s := Next(C0(), s, Relay(0, Abandon));
    Gains(C0(), s, World(Tick(31)), 0, []);
    s := Next(C0(), s, World(Tick(31)));
    Gains(C0(), s, Relay(1, Lease(0, 30)), 0, []);
    s := Next(C0(), s, Relay(1, Lease(0, 30)));
  }

  /** None of the seven conditions of SentMeansDelivered can be dropped. */
  lemma EveryMishapMatters(k: Mishap)
    ensures FalselySent(k)
  {
    match k
    case StrayCopy => StrayCopyAlone();
    case SecondCopy => SecondCopyAlone();
    case TakenFromLive => TakenFromLiveAlone();
    case CrashMidClaim => CrashMidClaimAlone();
    case ClaimUnsure => ClaimUnsureAlone();
    case ReleaseFailed => ReleaseFailedAlone();
    case MarkFailedFailed => MarkFailedFailedAlone();
  }

  // ----- the exact condition ----------------------------------------------------------------------------

  predicate Only(ks: seq<Mishap>, permitted: set<Mishap>) { forall k | k in ks :: k in permitted }

  lemma OnlyNone(ks: seq<Mishap>)
    ensures Only(ks, {}) ==> ks == []
  {
    if ks != [] { assert ks[0] in ks; }
  }

  /** In every run, of any configuration, in which nothing but the permitted mishaps befalls a message,
      `sent` means that the operator accepted it exactly once. */
  ghost predicate SentIsTrue(permitted: set<Mishap>) {
    forall c, s, m, ks | Gets(c, s, m, ks) && Only(ks, permitted) && m in s.messages && s.messages[m].status == Sent ::
      Count(CallsOf(s.calls, m), Returned(Success)) == 1
  }

  lemma {:induction false} NoMishapIsClean(c: Config, s: State, trace: seq<Step>, t: State, m: Uuid)
    requires Run(c, s, trace, t) && Mishaps(c, s, trace, m) == []
    ensures CleanRun(c, s, trace, t, m)
    decreases |trace|
  {
    hide Enabled, Next, MishapOf;
    if trace != [] {
      NoMishapIsClean(c, Next(c, s, trace[0]), trace[1..], t, m);
    }
  }

  lemma WithoutMishaps(c: Config, s: State, m: Uuid)
    requires Gets(c, s, m, []) && m in s.messages && s.messages[m].status == Sent
    ensures Count(CallsOf(s.calls, m), Returned(Success)) == 1
  {
    hide Run, Mishaps, CleanRun;
    var trace :| Run(c, Init(), trace, s) && Mishaps(c, Init(), trace, m) == [];
    NoMishapIsClean(c, Init(), trace, s, m);
    SentMeansDelivered(c, trace, s, m);
  }

  /** `sent` can be trusted if and only if none of the seven mishaps can happen. */
  lemma SentIsTrueIffNoMishap(permitted: set<Mishap>)
    ensures SentIsTrue(permitted) <==> permitted == {}
  {
    hide Gets, Count, CallsOf;
    if permitted == {} {
      forall c, s, m, ks | Gets(c, s, m, ks) && Only(ks, permitted) && m in s.messages && s.messages[m].status == Sent
        ensures Count(CallsOf(s.calls, m), Returned(Success)) == 1
      {
        OnlyNone(ks);
        WithoutMishaps(c, s, m);
      }
    } else {
      var k: Mishap :| k in permitted;
      EveryMishapMatters(k);
      var s :| Gets(C0(), s, 0, [k]) && 0 in s.messages && s.messages[0].status == Sent
               && Count(CallsOf(s.calls, 0), Returned(Success)) == 0;
      assert Only([k], permitted);
    }
  }
}
