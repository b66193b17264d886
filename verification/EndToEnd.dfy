/** The services and the delivery pipeline over one database: what a transaction commits is what the
    relays and workers then find, so a message that was charged is never lost. */
module EndToEnd {
  import opened Base
  import opened Pipeline
  import opened Wellformed
  import Money
  import Transactions
  import NoLoss
  import Shared

  /** `pipe` holds the same message and event rows as `sys`, with the columns delivery uses. */
  datatype Joint = Joint(sys: Transactions.Sys, pipe: State)

  datatype JointStep =
    | Transact(tx: nat, step: Transactions.TxStep)
    | Deliver(move: Step)

  /** A commit that takes effect and adds a message. */
  predicate Accepting(s: Transactions.Sys, t: nat, step: Transactions.TxStep) {
    && step.Commit? && step.io.Applied() && t in s.txs && s.txs[t].req.Send?
    && s.txs[t].delta != Transactions.NO_ROWS
  }

  function AcceptOf(req: Money.Request): WorldStep
    requires req.Send?
  {
    Accept(req.account, req.message, req.event, req.kind)
  }

  /** Messages are only added by commits, and a new id is in nobody's hands yet. */
  predicate JointEnabled(j: Joint, step: JointStep) {
    match step
    case Transact(t, st) =>
      Transactions.TxEnabled(j.sys, t, st)
      && (Accepting(j.sys, t, st) ==> FreshMessage(j.pipe, j.sys.txs[t].req.message) && j.sys.txs[t].req.event !in j.pipe.events)
    case Deliver(x) => Enabled(j.pipe, x) && !(x.World? && x.world.Accept?)
  }

  function JointNext(c: Config, j: Joint, step: JointStep): Joint
    requires JointEnabled(j, step)
  {
    match step
    case Transact(t, st) =>
      Joint(Transactions.TxNext(j.sys, t, st),
            if Accepting(j.sys, t, st) then Next(c, j.pipe, World(AcceptOf(j.sys.txs[t].req))) else j.pipe)
    case Deliver(x) => j.(pipe := Next(c, j.pipe, x))
  }

  ghost predicate JointRun(c: Config, j: Joint, steps: seq<JointStep>, k: Joint)
    decreases |steps|
  {
    if steps == [] then j == k
    else JointEnabled(j, steps[0]) && JointRun(c, JointNext(c, j, steps[0]), steps[1..], k)
  }

  ghost predicate JointReachable(c: Config, accounts: set<Uuid>, j: Joint) {
    exists steps :: JointRun(c, Joint(Transactions.InitSys(accounts), Init()), steps, j)
  }

  // ----- the two views agree ------------------------------------------------------------------------

  predicate SameMessages(ms: map<Uuid, Money.Sms>, rows: map<Uuid, Message>) {
    ms.Keys == rows.Keys && forall m | m in ms :: rows[m].account == ms[m].account
  }

  predicate SameEvents(outbox: map<Uuid, Payload>, es: map<Uuid, Event>) {
    outbox.Keys == es.Keys && forall e | e in outbox :: es[e].payload == outbox[e]
  }

  ghost predicate Agree(j: Joint) {
    SameMessages(j.sys.db.messages, j.pipe.messages) && SameEvents(j.sys.db.outbox, j.pipe.events)
  }

  ghost predicate JointInv(c: Config, accounts: set<Uuid>, j: Joint) {
    Transactions.Inv(Money.Opened(accounts), j.sys) && NoLoss.Inv(c, j.pipe) && Agree(j)
  }

  /** What a commit adds, read off the rows the whole request writes. */
  lemma CommitRows(db: Money.Db, x: Transactions.Tx)
    requires Transactions.InStep(db, x) && x.pc.Committing?
    ensures var db' := Transactions.Overlay(db, x.delta);
            if x.req.Send? && x.delta != Transactions.NO_ROWS then
              && db'.messages == db.messages[x.req.message := Money.Sms(x.req.account, x.req.kind, x.req.key)]
              && db'.outbox == db.outbox[x.req.event := Ids(x.req.account, x.req.message, x.req.kind)]
              && x.req.message !in db.messages && x.req.event !in db.outbox
            else db'.messages == db.messages && db'.outbox == db.outbox
  {
    hide Money.Wrap64;
    if x.delta != Transactions.NO_ROWS {
      if x.req.Send? { Transactions.CommitSendRows(db, x); } else { Transactions.CommitTopupRows(db, x); }
    }
  }

  lemma AcceptAgrees(c: Config, j: Joint, req: Money.Request, db': Money.Db)
    requires Agree(j) && req.Send? && WorldEnabled(j.pipe, AcceptOf(req))
    requires db'.messages == j.sys.db.messages[req.message := Money.Sms(req.account, req.kind, req.key)]
    requires db'.outbox == j.sys.db.outbox[req.event := Ids(req.account, req.message, req.kind)]
    ensures var pipe' := Next(c, j.pipe, World(AcceptOf(req)));
            SameMessages(db'.messages, pipe'.messages) && SameEvents(db'.outbox, pipe'.events)
  {
    hide FreshMessage;
  }

  lemma TransactAgrees(c: Config, accounts: set<Uuid>, j: Joint, t: nat, st: Transactions.TxStep)
    requires JointInv(c, accounts, j) && JointEnabled(j, Transact(t, st))
    ensures Agree(JointNext(c, j, Transact(t, st)))
  {
    hide NoLoss.Inv, Next, FreshMessage, Transactions.InStep, SameMessages, SameEvents;
    if st.Commit? && st.io.Applied() {
      var x := j.sys.txs[t];
      assert Transactions.InStep(j.sys.db, x);
      CommitRows(j.sys.db, x);
      hide Transactions.Overlay;
      if Accepting(j.sys, t, st) { AcceptAgrees(c, j, x.req, Transactions.Overlay(j.sys.db, x.delta)); }
    } else {
      Transactions.AbortLeavesNoTrace(j.sys, t, st);
      hide Transactions.TxNext;
    }
  }

  lemma WorkKeepsKeys(c: Config, s: State, i: nat, w: WorkStep)
    requires WorkEnabled(s, i, w) && PathsAgree(c, s.messages, s.handlers)
    ensures NextWork(c, s, i, w).messages.Keys == s.messages.Keys
  {
    if Inner(w) { assert PathAgrees(c, s.messages, s.handlers[i]); }
    hide NextPc, NewClaims, NewCalls, NewResumed, NewDlq;
  }

  lemma RelayKeepsKeys(s: State, t: nat, r: RelayStep)
    requires RelayEnabled(s, t, r)
    ensures NextRelay(s, t, r).events.Keys == s.events.Keys
  {
    hide NextTaskPc, NewEvent, SetTask, FreshCopy;
  }

  /** Delivery never adds, removes or readdresses a row. */
  lemma DeliveryKeepsRows(c: Config, s: State, x: Step)
    requires Enabled(s, x) && !(x.World? && x.world.Accept?) && Wf(c, s)
    ensures Next(c, s, x).messages.Keys == s.messages.Keys && Grows(s.messages, Next(c, s, x).messages)
    ensures Next(c, s, x).events.Keys == s.events.Keys && Shared.EventsStay(s.events, Next(c, s, x).events)
  {
    StepGrows(c, s, x);
    match x {
      case World(w) => WorldKeepsRows(s, w);
      case Relay(t, r) => RelayKeepsKeys(s, t, r); Shared.RelayKeepsPayloads(s, t, r);
      case Work(i, w) => WorkKeepsKeys(c, s, i, w);
    }
    hide NextWorld, NextRelay, NextWork, Grows, HoldersAgree, PathsAgree, RowLocks, EventsAgree, TasksAgree;
  }

  lemma WorldKeepsRows(s: State, w: WorldStep)
    requires WorldEnabled(s, w) && !w.Accept?
    ensures NextWorld(s, w).messages == s.messages && NextWorld(s, w).events == s.events
  {
  }

  lemma JointInvStep(c: Config, accounts: set<Uuid>, j: Joint, step: JointStep)
    requires JointInv(c, accounts, j) && JointEnabled(j, step)
    ensures JointInv(c, accounts, JointNext(c, j, step))
  {
    match step {
      case Transact(t, st) =>
        Transactions.TxInvStep(Money.Opened(accounts), j.sys, t, st);
        TransactAgrees(c, accounts, j, t, st);
        if Accepting(j.sys, t, st) { NoLoss.InvStep(c, j.pipe, World(AcceptOf(j.sys.txs[t].req))); }
      case Deliver(x) =>
        NoLoss.InvStep(c, j.pipe, x);
        DeliveryKeepsRows(c, j.pipe, x);
    }
    hide NoLoss.Inv, Next, Transactions.Inv, Transactions.TxNext, Transactions.TxEnabled, FreshMessage, Enabled;
  }

  lemma {:induction false} JointInvRun(c: Config, accounts: set<Uuid>, j: Joint, steps: seq<JointStep>, k: Joint)
    requires JointInv(c, accounts, j) && JointRun(c, j, steps, k)
    ensures JointInv(c, accounts, k)
    decreases |steps|
  {
    hide JointInv, JointNext, JointEnabled;
    if steps != [] {
      JointInvStep(c, accounts, j, steps[0]);
      JointInvRun(c, accounts, JointNext(c, j, steps[0]), steps[1..], k);
    }
  }

  // ----- main results ---------------------------------------------------------------------------------

  /** One and only one `send` ledger row for the message, charging its cost to its account. */
  ghost predicate Charged(db: Money.Db, m: Uuid)
    requires m in db.messages
  {
    exists k :: 0 <= k < |db.ledger|
      && db.ledger[k] == Money.Entry(db.messages[m].account, -Money.COST, Money.SendReason, Some(m))
      && forall j | 0 <= j < |db.ledger| && Money.IsRowOf(db.ledger[j], m) :: j == k
  }

  /** In every state of services and delivery together: a message exists if and only if it was
      charged, exactly once, and it is finished, or waits in the outbox, or a copy with its own ids
      is still with the broker. */
  lemma ChargedIsNeverLost(c: Config, accounts: set<Uuid>, j: Joint, m: Uuid)
    requires JointReachable(c, accounts, j)
    ensures m in j.pipe.messages <==> m in j.sys.db.messages
    ensures m in j.sys.db.messages ==>
              && Charged(j.sys.db, m)
              && (Terminal(j.pipe.messages[m].status)
                  || NoLoss.HasPendingEvent(j.pipe.events, j.sys.db.messages[m].account, m)
                  || exists cp :: cp in j.pipe.copies && About(j.pipe.copies[cp].payload, j.sys.db.messages[m].account, m))
  {
    var init := Joint(Transactions.InitSys(accounts), Init());
    var steps :| JointRun(c, init, steps, j);
    InitInv(c, accounts);
    JointInvRun(c, accounts, init, steps, j);
    hide JointReachable, JointRun, Transactions.AllInStep, Transactions.Separate, Wf, NoLoss.AcksSafe, NoLoss.MarksSafe;
    if m in j.sys.db.messages {
      Money.ReplayValid(accounts, j.sys.log);
      ChargedOnce(j.sys.db, m);
      hide Money.Valid, Charged;
    }
  }

  lemma InitInv(c: Config, accounts: set<Uuid>)
    ensures JointInv(c, accounts, Joint(Transactions.InitSys(accounts), Init()))
  {
  }

  lemma ChargedOnce(db: Money.Db, m: Uuid)
    requires Money.Valid(db) && m in db.messages
    ensures Charged(db, m)
  {
    var k :| 0 <= k < |db.ledger| && Money.IsRowOf(db.ledger[k], m);
    assert db.ledger[k] == Money.Entry(db.messages[m].account, -Money.COST, Money.SendReason, Some(m));
    hide Money.BalancesExact, Money.OutboxBijective, Money.KeysComplete;
  }
}
