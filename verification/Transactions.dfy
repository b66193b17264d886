/** Any number of Send and Topup transactions, interleaved statement by statement under row locks
    and READ COMMITTED, with any statement and any commit free to fail. */
module Transactions {
  import opened Base
  import opened Pipeline
  import opened Money

  /** Rows a transaction has written and not committed. */
  datatype Delta = Delta(balances: map<Uuid, int>, ledger: seq<Entry>, messages: map<Uuid, Sms>,
                         outbox: map<Uuid, Payload>, keys: map<Key, Snapshot>)

  /** The statement the transaction is about to run. */
  datatype TxPc =
    | Claiming                  // ClaimOrGet: insert of the key row
    | ReadingKey                // ClaimOrGet: read after the conflict, the insert rolled back
    | Replaying(message: Uuid)  // the stored response is the result; nothing to write
    | Locking                   // SELECT ... FOR UPDATE on the account
    | Deducting(seen: int)      // DeductLockedBalance, or `balance += amount` for a topup
    | Recording                 // ledger row
    | Creating                  // message row
    | Queueing                  // outbox row
    | Storing                   // UpdateSnapshot
    | Committing(reply: Reply)

  datatype Tx = Tx(req: Request, pc: TxPc, delta: Delta)

  /** `log` lists the transactions that committed, in commit order, with what each computed;
      `answers` what callers were told. */
  datatype Sys = Sys(db: Db, txs: map<nat, Tx>, log: seq<Request>, replies: seq<Reply>, answers: set<(Request, Reply)>)

  const NO_ROWS := Delta(map[], [], map[], map[], map[])

  function Overlay(db: Db, d: Delta): Db {
    Db(db.balances + d.balances, db.ledger + d.ledger, db.messages + d.messages, db.outbox + d.outbox, db.keys + d.keys)
  }

  function InitSys(accounts: set<Uuid>): Sys { Sys(Opened(accounts), map[], [], [], {}) }

  // ----- locks ------------------------------------------------------------------------------------------

  /** The row lock on the account, taken by SELECT ... FOR UPDATE and kept to the end. */
  predicate HoldsAccount(x: Tx, a: Uuid) {
    x.req.account == a && (x.pc.Deducting? || x.pc.Recording? || x.pc.Creating? || x.pc.Queueing? || x.pc.Storing?
                           || (x.pc.Committing? && x.delta != NO_ROWS))
  }

  predicate HoldsKeyRow(x: Tx, k: Key) { k in x.delta.keys }

  predicate AccountFree(txs: map<nat, Tx>, t: nat, a: Uuid) {
    forall u | u in txs && u != t :: !HoldsAccount(txs[u], a)
  }

  predicate KeyRowFree(txs: map<nat, Tx>, t: nat, k: Key) {
    forall u | u in txs && u != t :: !HoldsKeyRow(txs[u], k)
  }

  // ----- steps --------------------------------------------------------------------------------------------

  datatype TxStep =
    | Begin(req: Request)
    | Statement                 // the next statement succeeds or its result denies the request
    | Fail                      // the next statement, or the connection, fails: rollback
    | Commit(io: Io)

  /** Random ids are never drawn twice. */
  predicate FreshIds(s: Sys, req: Request) {
    req.Send? ==>
      && req.message !in s.db.messages && req.event !in s.db.outbox
      && forall u | u in s.txs && s.txs[u].req.Send? :: s.txs[u].req.message != req.message && s.txs[u].req.event != req.event
  }

  predicate StatementReady(s: Sys, t: nat)
    requires t in s.txs
  {
    var x := s.txs[t];
    match x.pc
    case Claiming => x.req.Send? && (KeyOf(x.req).Some? ==> KeyRowFree(s.txs, t, KeyOf(x.req).value))
    case ReadingKey => x.req.Send? && KeyOf(x.req).Some?
    case Replaying(_) => true
    case Locking => AccountFree(s.txs, t, x.req.account)
    case Deducting(_) => x.req.account in s.db.balances
    case Recording => true
    case Creating => x.req.Send?
    case Queueing => x.req.Send?
    case Storing => x.req.Send?
    case Committing(_) => false
  }

  predicate TxEnabled(s: Sys, t: nat, step: TxStep) {
    match step
    case Begin(req) => t !in s.txs && IsInt64(req) && (req.Topup? ==> req.amount > 0) && FreshIds(s, req)
    case Statement => t in s.txs && StatementReady(s, t)
    case Fail => t in s.txs
    case Commit(_) => t in s.txs && s.txs[t].pc.Committing?
  }

  /** Where the next statement leaves the transaction: on to the next one with more rows written,
      or denied, which rolls it back. */
  datatype StatementResult = Go(tx: Tx) | Deny(error: Error)

  function View(db: Db, d: Delta, a: Uuid): int
    requires a in db.balances
  {
    if a in d.balances then d.balances[a] else db.balances[a]
  }

  function NextClaim(db: Db, x: Tx): StatementResult
    requires x.req.Send?
  {
    if KeyOf(x.req) == None then Go(x.(pc := Locking))
    else if KeyOf(x.req).value in db.keys then Go(x.(pc := ReadingKey))
    else Go(x.(pc := Locking, delta := x.delta.(keys := x.delta.keys[KeyOf(x.req).value := Placeholder])))
  }

  function NextReadKey(db: Db, x: Tx): StatementResult
    requires x.req.Send? && KeyOf(x.req).Some?
  {
    if KeyOf(x.req).value !in db.keys then Deny(NotFound)
    else match db.keys[KeyOf(x.req).value]
      case Completed(m) => Go(x.(pc := Replaying(m)))
      case Placeholder => Deny(InProgress)
  }

  function NextLock(db: Db, x: Tx): StatementResult {
    if x.req.account !in db.balances then Deny(NotFound)
    else if x.req.Send? && db.balances[x.req.account] < COST then Deny(InsufficientBalance)
    else Go(x.(pc := Deducting(db.balances[x.req.account])))
  }

  /** A topup adds to the balance it read when it locked the row; a send reads the row again. */
  function NextDeduct(db: Db, x: Tx): StatementResult
    requires x.req.account in db.balances && x.pc.Deducting?
  {
    var a := x.req.account;
    if x.req.Send? then
      var b := View(db, x.delta, a);
      if b < COST then Deny(InsufficientBalance)
      else Go(x.(pc := Recording, delta := x.delta.(balances := x.delta.balances[a := b - COST])))
    else
      var b := Wrap64(x.pc.seen + x.req.amount);
      if b < 0 then Deny(CheckViolation)
      else Go(x.(pc := Recording, delta := x.delta.(balances := x.delta.balances[a := b])))
  }

  function NextRecord(x: Tx): StatementResult {
    if x.req.Send? then
      Go(x.(pc := Creating,
            delta := x.delta.(ledger := x.delta.ledger + [Entry(x.req.account, -COST, SendReason, Some(x.req.message))])))
    else
      Go(x.(pc := Committing(NewBalance(if x.req.account in x.delta.balances then x.delta.balances[x.req.account] else 0)),
            delta := x.delta.(ledger := x.delta.ledger + [Entry(x.req.account, x.req.amount, TopupReason, None)])))
  }

  function NextCreate(x: Tx): StatementResult
    requires x.req.Send?
  {
    Go(x.(pc := Queueing,
          delta := x.delta.(messages := x.delta.messages[x.req.message := Sms(x.req.account, x.req.kind, x.req.key)])))
  }

  function NextQueue(x: Tx): StatementResult
    requires x.req.Send?
  {
    Go(x.(pc := Storing,
          delta := x.delta.(outbox := x.delta.outbox[x.req.event := Ids(x.req.account, x.req.message, x.req.kind)])))
  }

  /** UpdateSnapshot finds the row this transaction inserted, or no row at all. */
  function NextStore(x: Tx): StatementResult
    requires x.req.Send?
  {
    if KeyOf(x.req) == None then Go(x.(pc := Committing(Receipt(x.req.message))))
    else if KeyOf(x.req).value !in x.delta.keys then Deny(NotFound)
    else Go(x.(pc := Committing(Receipt(x.req.message)),
               delta := x.delta.(keys := x.delta.keys[KeyOf(x.req).value := Completed(x.req.message)])))
  }

  function NextStatement(s: Sys, t: nat): StatementResult
    requires t in s.txs && StatementReady(s, t)
  {
    var x := s.txs[t];
    match x.pc
    case Claiming => NextClaim(s.db, x)
    case ReadingKey => NextReadKey(s.db, x)
    case Replaying(m) => Go(x.(pc := Committing(Receipt(m))))
    case Locking => NextLock(s.db, x)
    case Deducting(_) => NextDeduct(s.db, x)
    case Recording => NextRecord(x)
    case Creating => NextCreate(x)
    case Queueing => NextQueue(x)
    case Storing => NextStore(x)
  }

  function Abort(s: Sys, t: nat, e: Error): Sys
    requires t in s.txs
  {
    s.(txs := s.txs - {t}, answers := s.answers + {(s.txs[t].req, Denied(e))})
  }

  function DoCommit(s: Sys, t: nat, io: Io): Sys
    requires t in s.txs && s.txs[t].pc.Committing?
  {
    if io == Refused then Abort(s, t, Broken)
    else
      var x := s.txs[t];
      Sys(Overlay(s.db, x.delta), s.txs - {t}, s.log + [x.req], s.replies + [x.pc.reply],
          s.answers + {(x.req, if io == Done then x.pc.reply else Denied(Broken))})
  }

  function TxNext(s: Sys, t: nat, step: TxStep): Sys
    requires TxEnabled(s, t, step)
  {
    match step
    case Begin(req) => s.(txs := s.txs[t := Tx(req, if req.Send? then Claiming else Locking, NO_ROWS)])
    case Statement =>
      (match NextStatement(s, t)
       case Go(x) => s.(txs := s.txs[t := x])
       case Deny(e) => Abort(s, t, e))
    case Fail => Abort(s, t, Broken)
    case Commit(io) => DoCommit(s, t, io)
  }

  datatype TxEvent = TxEvent(tx: nat, step: TxStep)

  ghost predicate TxRun(s: Sys, trace: seq<TxEvent>, u: Sys)
    decreases |trace|
  {
    if trace == [] then s == u
    else TxEnabled(s, trace[0].tx, trace[0].step)
         && TxRun(TxNext(s, trace[0].tx, trace[0].step), trace[1..], u)
  }

  ghost predicate TxReachable(accounts: set<Uuid>, s: Sys) {
    exists trace :: TxRun(InitSys(accounts), trace, s)
  }

  // ----- what an open transaction knows ------------------------------------------------------------------

  function ClaimedKeys(req: Request): map<Key, Snapshot> {
    if req.Send? && KeyOf(req).Some? then map[KeyOf(req).value := Placeholder] else map[]
  }

  /** Neither the ids nor the key are in the committed rows. */
  predicate Unused(db: Db, req: Request) {
    req.Send? ==> req.message !in db.messages && req.event !in db.outbox
  }

  predicate Unclaimed(db: Db, req: Request) {
    req.Send? && KeyOf(req).Some? ==> KeyOf(req).value !in db.keys
  }

  function BalanceAfter(db: Db, req: Request): int
    requires req.account in db.balances
  {
    if req.Send? then db.balances[req.account] - COST else Wrap64(db.balances[req.account] + req.amount)
  }

  predicate Funded(db: Db, req: Request) {
    req.account in db.balances && BalanceAfter(db, req) >= 0
  }

  function LedgerRow(req: Request): Entry {
    if req.Send? then Entry(req.account, -COST, SendReason, Some(req.message))
    else Entry(req.account, req.amount, TopupReason, None)
  }

  function MessageRows(req: Request): map<Uuid, Sms>
    requires req.Send?
  {
    map[req.message := Sms(req.account, req.kind, req.key)]
  }

  function EventRows(req: Request): map<Uuid, Payload>
    requires req.Send?
  {
    map[req.event := Ids(req.account, req.message, req.kind)]
  }

  /** Past the balance update: what is committed now is exactly what the rows were computed from. */
  predicate Charged(db: Db, x: Tx) {
    Unclaimed(db, x.req) && Funded(db, x.req)
  }

  /** The rows written so far are those the whole transaction would write if it ran alone now. */
  predicate InStep(db: Db, x: Tx) {
    && Unused(db, x.req)
    && (x.req.Topup? ==> x.req.amount > 0)
    && match x.pc
       case Claiming => x.req.Send? && x.delta == NO_ROWS
       case ReadingKey => x.req.Send? && KeyOf(x.req).Some? && x.delta == NO_ROWS && KeyOf(x.req).value in db.keys
       case Replaying(m) =>
         x.req.Send? && KeyOf(x.req).Some? && x.delta == NO_ROWS
         && KeyOf(x.req).value in db.keys && db.keys[KeyOf(x.req).value] == Completed(m)
       case Locking => Unclaimed(db, x.req) && x.delta == NO_ROWS.(keys := ClaimedKeys(x.req))
       case Deducting(seen) =>
         && Unclaimed(db, x.req) && x.delta == NO_ROWS.(keys := ClaimedKeys(x.req))
         && x.req.account in db.balances && db.balances[x.req.account] == seen
       case Recording =>
         Charged(db, x) && x.delta == Delta(map[x.req.account := BalanceAfter(db, x.req)], [], map[], map[], ClaimedKeys(x.req))
       case Creating =>
         Charged(db, x) && x.req.Send?
         && x.delta == Delta(map[x.req.account := BalanceAfter(db, x.req)], [LedgerRow(x.req)], map[], map[], ClaimedKeys(x.req))
       case Queueing =>
         Charged(db, x) && x.req.Send?
         && x.delta == Delta(map[x.req.account := BalanceAfter(db, x.req)], [LedgerRow(x.req)], MessageRows(x.req),
                             map[], ClaimedKeys(x.req))
       case Storing =>
         Charged(db, x) && x.req.Send?
         && x.delta == Delta(map[x.req.account := BalanceAfter(db, x.req)], [LedgerRow(x.req)], MessageRows(x.req),
                             EventRows(x.req), ClaimedKeys(x.req))
       case Committing(reply) =>
         if x.delta == NO_ROWS then
           x.req.Send? && KeyOf(x.req).Some? && KeyOf(x.req).value in db.keys
           && reply.Receipt? && db.keys[KeyOf(x.req).value] == Completed(reply.message)
         else
           && Charged(db, x)
           && x.delta == Delta(map[x.req.account := BalanceAfter(db, x.req)], [LedgerRow(x.req)],
                               if x.req.Send? then MessageRows(x.req) else map[],
                               if x.req.Send? then EventRows(x.req) else map[],
                               if x.req.Send? && KeyOf(x.req).Some? then map[KeyOf(x.req).value := Completed(x.req.message)] else map[])
           && reply == (if x.req.Send? then Receipt(x.req.message) else NewBalance(BalanceAfter(db, x.req)))
  }

  /** Row locks, key rows and drawn ids belong to one open transaction each. */
  ghost predicate Separate(txs: map<nat, Tx>) {
    forall t, u | t in txs && u in txs && t != u ::
      && (forall a :: !(HoldsAccount(txs[t], a) && HoldsAccount(txs[u], a)))
      && (forall k :: !(HoldsKeyRow(txs[t], k) && HoldsKeyRow(txs[u], k)))
      && (txs[t].req.Send? && txs[u].req.Send? ==>
            txs[t].req.message != txs[u].req.message && txs[t].req.event != txs[u].req.event)
  }

  ghost predicate AllInStep(db: Db, txs: map<nat, Tx>) {
    forall t | t in txs :: InStep(db, txs[t])
  }

  // ----- one statement -----------------------------------------------------------------------------------

  lemma StatementInStep(s: Sys, t: nat)
    requires t in s.txs && StatementReady(s, t) && InStep(s.db, s.txs[t]) && NextStatement(s, t).Go?
    ensures InStep(s.db, NextStatement(s, t).tx)
    ensures NextStatement(s, t).tx.req == s.txs[t].req
  {
  }

  /** A statement takes a lock only when no other open transaction holds it. */
  lemma StatementLocks(s: Sys, t: nat)
    requires t in s.txs && StatementReady(s, t) && NextStatement(s, t).Go? && InStep(s.db, s.txs[t])
    ensures var x, y := s.txs[t], NextStatement(s, t).tx;
            && y.req == x.req
            && (forall a | HoldsAccount(y, a) && !HoldsAccount(x, a) :: AccountFree(s.txs, t, a))
            && (forall k | HoldsKeyRow(y, k) && !HoldsKeyRow(x, k) :: KeyRowFree(s.txs, t, k))
  {
  }

  lemma StatementSeparate(s: Sys, t: nat)
    requires t in s.txs && StatementReady(s, t) && Separate(s.txs) && NextStatement(s, t).Go? && InStep(s.db, s.txs[t])
    ensures Separate(s.txs[t := NextStatement(s, t).tx])
  {
    StatementLocks(s, t);
    hide NextStatement, StatementReady, HoldsAccount, HoldsKeyRow, InStep;
  }

  lemma BeginSeparate(s: Sys, t: nat, req: Request)
    requires TxEnabled(s, t, Begin(req)) && Separate(s.txs)
    ensures Separate(TxNext(s, t, Begin(req)).txs)
  {
  }

  // ----- commits -----------------------------------------------------------------------------------------

  lemma CommitSendRows(db: Db, x: Tx)
    requires InStep(db, x) && x.pc.Committing? && x.delta != NO_ROWS && x.req.Send?
    ensures ApplySend(db, x.req) == (SendRows(db, x.req), x.pc.reply) && x.pc.reply.Receipt?
    ensures Overlay(db, x.delta) == SendRows(db, x.req)
  {
    var d, db' := x.delta, SendRows(db, x.req);
    assert db.balances + d.balances == db'.balances;
    assert db.messages + d.messages == db'.messages;
    assert db.outbox + d.outbox == db'.outbox;
    assert db.keys + d.keys == db'.keys;
  }

  lemma CommitTopupRows(db: Db, x: Tx)
    requires InStep(db, x) && x.pc.Committing? && x.delta != NO_ROWS && x.req.Topup?
    ensures ApplyTopup(db, x.req) == (Overlay(db, x.delta), x.pc.reply) && x.pc.reply.NewBalance?
  {
    hide Wrap64;
    var d, db' := x.delta, ApplyTopup(db, x.req).0;
    assert db.balances + d.balances == db'.balances;
    assert db.messages + d.messages == db'.messages;
    assert db.outbox + d.outbox == db'.outbox;
    assert db.keys + d.keys == db'.keys;
  }

  /** A transaction that reaches its commit has computed what it would compute running alone now. */
  lemma CommitIsApply(db: Db, x: Tx)
    requires InStep(db, x) && x.pc.Committing?
    ensures Apply(db, x.req) == (Overlay(db, x.delta), x.pc.reply) && Succeeded(x.pc.reply)
  {
    if x.delta == NO_ROWS {
      assert Overlay(db, x.delta) == db;
    } else {
      hide InStep, ApplySend, ApplyTopup, SendRows, Overlay;
      if x.req.Send? { CommitSendRows(db, x); } else { CommitTopupRows(db, x); }
    }
  }

  /** Another transaction's commit does not disturb what an open one has read and written. */
  lemma CommitKeepsOthers(db: Db, x: Tx, y: Tx)
    requires InStep(db, x) && x.pc.Committing? && InStep(db, y)
    requires forall a :: !(HoldsAccount(x, a) && HoldsAccount(y, a))
    requires forall k :: !(HoldsKeyRow(x, k) && HoldsKeyRow(y, k))
    requires x.req.Send? && y.req.Send? ==> x.req.message != y.req.message && x.req.event != y.req.event
    ensures InStep(Overlay(db, x.delta), y)
  {
    hide Wrap64, InStep, HoldsAccount, HoldsKeyRow;
    if x.delta == NO_ROWS {
      assert Overlay(db, x.delta) == db;
    } else {
      CommitterHolds(db, x);
      hide Overlay;
      OthersRows(db, x, y);
      InStepKept(db, Overlay(db, x.delta), y);
    }
  }

  lemma CommitterHolds(db: Db, x: Tx)
    requires InStep(db, x) && x.pc.Committing? && x.delta != NO_ROWS
    ensures HoldsAccount(x, x.req.account)
  {
    hide InStep;
  }

  /** The committed rows changed, but not those the transaction has locked or waits to use. */
  ghost predicate RowsKept(db: Db, db': Db, y: Tx) {
    && Unused(db', y.req)
    && (HoldsAccount(y, y.req.account) && y.req.account in db.balances ==>
          y.req.account in db'.balances && db'.balances[y.req.account] == db.balances[y.req.account])
    && (forall k | k in db.keys :: k in db'.keys && db'.keys[k] == db.keys[k])
    && (Unclaimed(db, y.req) && (y.req.Send? && KeyOf(y.req).Some? ==> KeyOf(y.req).value in y.delta.keys) ==> Unclaimed(db', y.req))
  }

  lemma InStepKept(db: Db, db': Db, y: Tx)
    requires InStep(db, y) && RowsKept(db, db', y)
    ensures InStep(db', y)
  {
    hide Wrap64;
  }

  lemma OthersRows(db: Db, x: Tx, y: Tx)
    requires InStep(db, x) && x.pc.Committing? && x.delta != NO_ROWS && InStep(db, y)
    requires !HoldsAccount(y, x.req.account)
    requires forall k :: !(HoldsKeyRow(x, k) && HoldsKeyRow(y, k))
    requires x.req.Send? && y.req.Send? ==> x.req.message != y.req.message && x.req.event != y.req.event
    ensures RowsKept(db, Overlay(db, x.delta), y)
  {
    hide Wrap64;
    if y.req.Send? && KeyOf(y.req).Some? {
      assert HoldsKeyRow(x, KeyOf(y.req).value) || KeyOf(y.req).value !in x.delta.keys;
      assert KeyOf(y.req).value in y.delta.keys ==> HoldsKeyRow(y, KeyOf(y.req).value);
    }
  }

  // ----- denials -----------------------------------------------------------------------------------------

  /** A statement that denies a request does so as the whole request would be denied running alone now. */
  lemma DenialIsApply(db: Db, s: Sys, t: nat)
    requires s.db == db && t in s.txs && StatementReady(s, t) && InStep(db, s.txs[t]) && KeysComplete(db)
    requires NextStatement(s, t).Deny?
    ensures Apply(db, s.txs[t].req) == (db, Denied(NextStatement(s, t).error)) && NextStatement(s, t).error != Broken
  {
    hide Wrap64;
  }

  // ----- runs ----------------------------------------------------------------------------------------------

  /** The committed rows, and every reply, are those of running the committed transactions alone,
      one after the other, in commit order. */
  ghost predicate Serial(start: Db, s: Sys) {
    && s.db == Replay(start, s.log)
    && |s.replies| == |s.log|
    && (forall k | 0 <= k < |s.log| :: IsInt64(s.log[k]) && s.replies[k] == ReplyAt(start, s.log, k))
    && (forall q | q in s.answers && Succeeded(q.1) :: exists k :: 0 <= k < |s.log| && s.log[k] == q.0 && s.replies[k] == q.1)
  }

  ghost predicate Inv(start: Db, s: Sys) {
    && AllInStep(s.db, s.txs) && Separate(s.txs) && Serial(start, s)
    && forall t | t in s.txs :: IsInt64(s.txs[t].req)
  }

  lemma CommitSerial(start: Db, s: Sys, t: nat, io: Io)
    requires Inv(start, s) && TxEnabled(s, t, Commit(io)) && io.Applied()
    ensures Serial(start, TxNext(s, t, Commit(io)))
  {
    var x := s.txs[t];
    var u := TxNext(s, t, Commit(io));
    assert InStep(s.db, x);
    CommitIsApply(s.db, x);
    ReplaySnoc(start, s.log, x.req);
    assert u.replies == s.replies + [Apply(s.db, x.req).1] && u.db == Apply(s.db, x.req).0;
    hide Overlay, InStep, Apply, TxNext, AllInStep, Separate;
    SerialMore(start, s, u, x.req);
  }

  lemma SerialMore(start: Db, s: Sys, u: Sys, req: Request)
    requires Serial(start, s) && IsInt64(req) && u.db == Apply(s.db, req).0
    requires u.log == s.log + [req] && u.replies == s.replies + [Apply(s.db, req).1]
    requires forall q | q in u.answers && Succeeded(q.1) :: q in s.answers || q == (req, Apply(s.db, req).1)
    ensures Serial(start, u)
  {
    hide Apply, ReplyAt;
    ReplaySnoc(start, s.log, req);
    forall k | 0 <= k < |u.log| ensures IsInt64(u.log[k]) && u.replies[k] == ReplyAt(start, u.log, k) {
      LogAt(start, s.log, req, k);
    }
    forall q | q in u.answers && Succeeded(q.1) ensures exists k :: 0 <= k < |u.log| && u.log[k] == q.0 && u.replies[k] == q.1 {
      if q in s.answers {
        var k :| 0 <= k < |s.log| && s.log[k] == q.0 && s.replies[k] == q.1;
        assert u.log[k] == q.0 && u.replies[k] == q.1;
      } else {
        assert u.log[|s.log|] == q.0 && u.replies[|s.log|] == q.1;
      }
    }
  }

  lemma LogAt(start: Db, log: seq<Request>, req: Request, k: nat)
    requires k <= |log|
    ensures ReplyAt(start, log + [req], k) == if k < |log| then ReplyAt(start, log, k) else Apply(Replay(start, log), req).1
  {
    assert (log + [req])[..k] == log[..k];
    assert log[..|log|] == log;
    hide Apply, Replay;
  }

  lemma CommitInStep(s: Sys, t: nat, io: Io)
    requires AllInStep(s.db, s.txs) && Separate(s.txs) && TxEnabled(s, t, Commit(io)) && io.Applied()
    ensures AllInStep(TxNext(s, t, Commit(io)).db, TxNext(s, t, Commit(io)).txs)
  {
    hide InStep, Overlay;
    forall u | u in s.txs && u != t ensures InStep(Overlay(s.db, s.txs[t].delta), s.txs[u]) {
      assert InStep(s.db, s.txs[t]) && InStep(s.db, s.txs[u]);
      CommitKeepsOthers(s.db, s.txs[t], s.txs[u]);
    }
  }

  lemma StatementInv(start: Db, s: Sys, t: nat)
    requires Inv(start, s) && TxEnabled(s, t, Statement)
    ensures Inv(start, TxNext(s, t, Statement))
  {
    assert InStep(s.db, s.txs[t]);
    if NextStatement(s, t).Go? {
      StatementInStep(s, t);
      StatementSeparate(s, t);
      Replaced(start, s, t, NextStatement(s, t).tx);
    } else {
      Removed(start, s, Abort(s, t, NextStatement(s, t).error), t, NextStatement(s, t).error);
    }
    hide NextStatement, InStep, Separate, Serial, StatementReady, Inv;
  }

  lemma Replaced(start: Db, s: Sys, t: nat, x: Tx)
    requires Inv(start, s) && t in s.txs && x.req == s.txs[t].req && InStep(s.db, x) && Separate(s.txs[t := x])
    ensures Inv(start, s.(txs := s.txs[t := x]))
  {
    hide InStep, Separate, Serial;
    SerialKept(start, s, s.(txs := s.txs[t := x]));
  }

  lemma Removed(start: Db, s: Sys, u: Sys, t: nat, e: Error)
    requires Inv(start, s) && t in s.txs && u == Abort(s, t, e)
    ensures Inv(start, u)
  {
    SeparateRemove(s.txs, t);
    hide InStep, Separate, Serial;
    SerialKept(start, s, u);
  }

  /** A rollback leaves the committed rows and the log alone, and answers with an error. */
  lemma SerialKept(start: Db, s: Sys, u: Sys)
    requires Serial(start, s) && u.db == s.db && u.log == s.log && u.replies == s.replies
    requires forall q | q in u.answers :: q in s.answers || !Succeeded(q.1)
    ensures Serial(start, u)
  {
  }

  lemma TxInvStep(start: Db, s: Sys, t: nat, step: TxStep)
    requires Inv(start, s) && TxEnabled(s, t, step)
    ensures Inv(start, TxNext(s, t, step))
  {
    match step
    case Begin(req) =>
      BeginInv(start, s, t, req);
    case Statement =>
      StatementInv(start, s, t);
    case Fail =>
      Removed(start, s, Abort(s, t, Broken), t, Broken);
    case Commit(io) =>
      CommitInv(start, s, t, io);
  }

  lemma BeginInv(start: Db, s: Sys, t: nat, req: Request)
    requires Inv(start, s) && TxEnabled(s, t, Begin(req))
    ensures Inv(start, TxNext(s, t, Begin(req)))
  {
    BeginSeparate(s, t, req);
    hide Separate, Serial;
    SerialKept(start, s, TxNext(s, t, Begin(req)));
  }

  lemma SeparateRemove(txs: map<nat, Tx>, t: nat)
    requires Separate(txs)
    ensures Separate(txs - {t})
  {
    hide HoldsAccount, HoldsKeyRow;
  }

  lemma CommitInv(start: Db, s: Sys, t: nat, io: Io)
    requires Inv(start, s) && TxEnabled(s, t, Commit(io))
    ensures Inv(start, TxNext(s, t, Commit(io)))
  {
    var u := TxNext(s, t, Commit(io));
    assert u.txs == s.txs - {t};
    SeparateRemove(s.txs, t);
    if io.Applied() {
      CommitInStep(s, t, io);
      CommitSerial(start, s, t, io);
    } else {
      SerialKept(start, s, u);
    }
    hide InStep, Separate, Serial, Overlay;
  }

  lemma {:induction false} TxInvRun(start: Db, s: Sys, trace: seq<TxEvent>, u: Sys)
    requires Inv(start, s) && TxRun(s, trace, u)
    ensures Inv(start, u)
    decreases |trace|
  {
    hide Inv, TxNext, TxEnabled;
    if trace != [] {
      TxInvStep(start, s, trace[0].tx, trace[0].step);
      TxInvRun(start, TxNext(s, trace[0].tx, trace[0].step), trace[1..], u);
    }
  }

  lemma TxInvReachable(accounts: set<Uuid>, s: Sys)
    requires TxReachable(accounts, s)
    ensures Inv(Opened(accounts), s)
  {
    hide TxRun;
    var trace :| TxRun(InitSys(accounts), trace, s);
    TxInvRun(Opened(accounts), InitSys(accounts), trace, s);
  }

  // ----- denials, over runs --------------------------------------------------------------------------------

  function ReplyAfter(start: Db, log: seq<Request>, k: nat, req: Request): Reply
    requires k <= |log|
  {
    Apply(Replay(start, log[..k]), req).1
  }

  /** The reply is the one the whole request gets running alone after some of the commits. */
  ghost predicate RepliedAlone(start: Db, log: seq<Request>, req: Request, reply: Reply) {
    exists k :: 0 <= k <= |log| && ReplyAfter(start, log, k, req) == reply
  }

  ghost predicate DenialsSerial(start: Db, s: Sys) {
    forall q | q in s.answers && q.1.Denied? && q.1.error != Broken :: RepliedAlone(start, s.log, q.0, q.1)
  }

  lemma RepliedAloneStays(start: Db, log: seq<Request>, more: Request, req: Request, reply: Reply)
    requires RepliedAlone(start, log, req, reply)
    ensures RepliedAlone(start, log + [more], req, reply)
  {
    hide Apply, Replay;
    var k :| 0 <= k <= |log| && ReplyAfter(start, log, k, req) == reply;
    assert (log + [more])[..k] == log[..k];
    assert ReplyAfter(start, log + [more], k, req) == reply;
  }

  lemma RepliedNow(start: Db, s: Sys, req: Request)
    requires Serial(start, s)
    ensures RepliedAlone(start, s.log, req, Apply(s.db, req).1)
  {
    hide Apply, Replay;
    assert s.log[..|s.log|] == s.log;
    assert ReplyAfter(start, s.log, |s.log|, req) == Apply(s.db, req).1;
  }

  lemma DenyStep(start: Db, s: Sys, t: nat)
    requires Inv(start, s) && DenialsSerial(start, s) && KeysComplete(s.db) && TxEnabled(s, t, Statement)
    ensures DenialsSerial(start, TxNext(s, t, Statement))
  {
    assert InStep(s.db, s.txs[t]);
    if NextStatement(s, t).Deny? { DenialIsApply(s.db, s, t); }
    RepliedNow(start, s, s.txs[t].req);
    hide NextStatement, StatementReady, InStep, Separate, Serial, RepliedAlone, Apply;
  }

  lemma CommitDenials(start: Db, s: Sys, t: nat, io: Io)
    requires Inv(start, s) && DenialsSerial(start, s) && TxEnabled(s, t, Commit(io))
    ensures DenialsSerial(start, TxNext(s, t, Commit(io)))
  {
    var x, u := s.txs[t], TxNext(s, t, Commit(io));
    assert InStep(s.db, x);
    CommitIsApply(s.db, x);
    hide InStep, Separate, Serial, RepliedAlone, Apply, Overlay;
    forall q | q in u.answers && q.1.Denied? && q.1.error != Broken ensures RepliedAlone(start, u.log, q.0, q.1) {
      assert q in s.answers;
      if io.Applied() { RepliedAloneStays(start, s.log, x.req, q.0, q.1); }
    }
  }

  lemma DenialsStep(start: Db, s: Sys, t: nat, step: TxStep)
    requires Inv(start, s) && DenialsSerial(start, s) && KeysComplete(s.db) && TxEnabled(s, t, step)
    ensures DenialsSerial(start, TxNext(s, t, step))
  {
    hide Inv, RepliedAlone, FreshIds;
    match step
    case Begin(req) =>
    case Statement => DenyStep(start, s, t);
    case Fail =>
    case Commit(io) => CommitDenials(start, s, t, io);
  }

  lemma {:induction false} DenialsRun(accounts: set<Uuid>, s: Sys, trace: seq<TxEvent>, u: Sys)
    requires Inv(Opened(accounts), s) && DenialsSerial(Opened(accounts), s) && TxRun(s, trace, u)
    ensures DenialsSerial(Opened(accounts), u)
    decreases |trace|
  {
    hide DenialsSerial, TxNext, TxEnabled, AllInStep, Separate, BalancesExact, LedgerBijective, OutboxBijective, KeysComplete;
    if trace != [] {
      ReplayValid(accounts, s.log);
      DenialsStep(Opened(accounts), s, trace[0].tx, trace[0].step);
      TxInvStep(Opened(accounts), s, trace[0].tx, trace[0].step);
      DenialsRun(accounts, TxNext(s, trace[0].tx, trace[0].step), trace[1..], u);
    }
  }

  // ----- main results -----------------------------------------------------------------------------------------

  /** Serializability: whatever the interleaving and the failures, the committed rows are those of
      running the committed transactions alone in commit order, and every success a caller was
      told is the reply of one of them in that serial run. */
  lemma Serializable(accounts: set<Uuid>, s: Sys)
    requires TxReachable(accounts, s)
    ensures s.db == Replay(Opened(accounts), s.log)
    ensures forall req, reply | (req, reply) in s.answers && Succeeded(reply) ::
              exists k :: 0 <= k < |s.log| && s.log[k] == req && reply == ReplyAt(Opened(accounts), s.log, k)
  {
    TxInvReachable(accounts, s);
    forall req, reply | (req, reply) in s.answers && Succeeded(reply)
      ensures exists k :: 0 <= k < |s.log| && s.log[k] == req && reply == ReplyAt(Opened(accounts), s.log, k)
    {
      var q := (req, reply);
      var k :| 0 <= k < |s.log| && s.log[k] == q.0 && s.replies[k] == q.1;
    }
  }

  /** Denials are serial too: every refusal a caller was told, other than that something broke, is the
      reply of the whole request run alone after some of the committed transactions. */
  lemma DenialsAreSerial(accounts: set<Uuid>, s: Sys, req: Request, e: Error)
    requires TxReachable(accounts, s) && (req, Denied(e)) in s.answers && e != Broken
    ensures RepliedAlone(Opened(accounts), s.log, req, Denied(e))
  {
    var trace :| TxRun(InitSys(accounts), trace, s);
    hide TxRun;
    DenialsRun(accounts, InitSys(accounts), trace, s);
    var q := (req, Denied(e));
    assert q in s.answers;
  }

  /** No interleaving makes or loses money, and messages, `send` ledger rows, outbox events and keys
      match one to one in every committed state. */
  lemma MoneyConserved(accounts: set<Uuid>, s: Sys)
    requires TxReachable(accounts, s)
    ensures Valid(s.db)
  {
    TxInvReachable(accounts, s);
    ReplayValid(accounts, s.log);
  }

  /** Over any interleaving of sends that share an account and a key: all that succeed answer with
      one and the same message, and at most one message is ever committed for the key. */
  lemma AtMostOncePerKey(accounts: set<Uuid>, s: Sys, p: Request, x: Reply, q: Request, y: Reply)
    requires TxReachable(accounts, s) && (p, x) in s.answers && (q, y) in s.answers && Succeeded(x) && Succeeded(y)
    requires p.Send? && q.Send? && KeyOf(p).Some? && KeyOf(p) == KeyOf(q)
    ensures x == y && x.Receipt? && x.message in s.db.messages
    ensures forall m | m in s.db.messages && s.db.messages[m].account == p.account && s.db.messages[m].key == p.key :: m == x.message
  {
    hide TxReachable, Apply, Replay, BalancesExact, LedgerBijective, OutboxBijective, ReplyAt;
    MoneyConserved(accounts, s);
    Serializable(accounts, s);
    var start := Opened(accounts);
    var i :| 0 <= i < |s.log| && s.log[i] == p && x == ReplyAt(start, s.log, i);
    var j :| 0 <= j < |s.log| && s.log[j] == q && y == ReplyAt(start, s.log, j);
    if i < j {
      SameKeySameMessage(start, s.log, i, j);
    } else if j < i {
      SameKeySameMessage(start, s.log, j, i);
    }
    SuccessCommits(start, s.log, i);
  }

  /** After a successful send with a key, the key names the message it answered with, for good. */
  lemma SuccessCommits(start: Db, log: seq<Request>, i: nat)
    requires i < |log| && log[i].Send? && KeyOf(log[i]).Some? && Succeeded(ReplyAt(start, log, i))
    ensures ReplyAt(start, log, i).Receipt?
    ensures KeyOf(log[i]).value in Replay(start, log).keys
            && Replay(start, log).keys[KeyOf(log[i]).value] == Completed(ReplyAt(start, log, i).message)
  {
    assert log[..i + 1] == log[..i] + [log[i]];
    ReplaySnoc(start, log[..i], log[i]);
    assert log[..|log|] == log;
    KeysStay(start, log, i + 1, |log|, KeyOf(log[i]).value);
  }

  /** A read of a committed key never finds the placeholder, so `in progress` is never answered. */
  lemma InProgressUnreachable(accounts: set<Uuid>, s: Sys, t: nat)
    requires TxReachable(accounts, s) && TxEnabled(s, t, Statement)
    ensures NextStatement(s, t) != Deny(InProgress)
  {
    MoneyConserved(accounts, s);
  }

  /** Only a commit that takes effect changes committed rows: a transaction that fails anywhere
      leaves no trace and its key is free again. */
  lemma AbortLeavesNoTrace(s: Sys, t: nat, step: TxStep)
    requires TxEnabled(s, t, step) && !(step.Commit? && step.io.Applied())
    ensures TxNext(s, t, step).db == s.db && TxNext(s, t, step).log == s.log
    ensures t !in TxNext(s, t, step).txs && t in s.txs && s.txs[t].req.Send? && KeyOf(s.txs[t].req).Some?
            && HoldsKeyRow(s.txs[t], KeyOf(s.txs[t].req).value) && Separate(s.txs)
            ==> KeyRowFree(TxNext(s, t, step).txs, t, KeyOf(s.txs[t].req).value)
  {
  }
}
