/** Send and Topup as the services run them, statement by statement, each one transaction among any
    number of others that move between its statements; any statement and the commit may fail. */
module Services {
  import opened Base
  import opened Pipeline
  import opened Money
  import opened Transactions

  predicate Open(s: Sys, t: nat, x: Tx) { t in s.txs && s.txs[t] == x }

  /** The last thing that happened is that the transaction failed, or that its commit did not report success. */
  predicate Cut(history: seq<TxEvent>, t: nat) {
    history != [] && Last(history).tx == t
    && (Last(history).step.Fail? || (Last(history).step.Commit? && Last(history).step.io != Done))
  }

  /** The transaction is gone, the caller has its error, and none of its rows is there; and the error is
      the one the whole request gets running alone now, unless something broke. */
  predicate Rejected(s: Sys, history: seq<TxEvent>, t: nat, req: Request, e: Error) {
    && t !in s.txs && (req, Denied(e)) in s.answers && Unused(s.db, req)
    && (e == Broken <==> Cut(history, t))
    && (e != Broken ==> Apply(s.db, req) == (s.db, Denied(e)))
  }

  predicate IsCommitOf(e: TxEvent, t: nat) { e.tx == t && e.step.Commit? && e.step.io.Applied() }

  /** No commit of the transaction has taken effect since. */
  ghost predicate NeverCommits(history: seq<TxEvent>, since: nat, t: nat) {
    forall k | since <= k < |history| :: !IsCommitOf(history[k], t)
  }

  /** What a request came to: it committed and did what it would have done alone; or it was denied for
      the reason it would be denied alone now; or its transaction was cut, and that is the only way to
      the answer that something broke. Denied, no commit of it took effect and none of its rows is
      there, unless only the report of its commit was lost, and it is there as a whole. */
  ghost predicate CameTo(s: Sys, history: seq<TxEvent>, since: nat, t: nat, req: Request, reply: Reply, before: Db) {
    && t !in s.txs && (req, reply) in s.answers
    && (reply == Denied(Broken) <==> Cut(history, t))
    && (reply.Denied? && reply.error != Broken ==> Apply(s.db, req) == (s.db, reply))
    && (Succeeded(reply) ==> Valid(before) && Apply(before, req) == (s.db, reply))
    && (reply.Denied? ==>
          || (NeverCommits(history, since, t) && Unused(s.db, req))
          || (reply.error == Broken && Valid(before) && Succeeded(Apply(before, req).1) && Apply(before, req).0 == s.db))
  }

  predicate HasMessage(db: Db, account: Uuid, m: Uuid) { m in db.messages && db.messages[m].account == account }

  predicate NamedBy(db: Db, k: Key, m: Uuid) { k in db.keys && db.keys[k] == Completed(m) }

  lemma Denial(s: Sys, history: seq<TxEvent>, since: nat, t: nat, req: Request, e: Error, before: Db)
    requires Rejected(s, history, t, req, e) && NeverCommits(history, since, t)
    ensures CameTo(s, history, since, t, req, Denied(e), before)
  {
  }

  lemma StillNoCommit(since: nat, before: seq<TxEvent>, after: seq<TxEvent>, t: nat)
    requires since <= |before| && before <= after
    requires NeverCommits(before, since, t) && NeverCommits(after, |before|, t)
    ensures NeverCommits(after, since, t)
  {
  }

  lemma RefusedCommit(since: nat, history: seq<TxEvent>, t: nat)
    requires NeverCommits(history, since, t)
    ensures NeverCommits(history + [TxEvent(t, Commit(Refused))], since, t)
  {
  }

  lemma OthersLeave(s: Sys, u: nat, step: TxStep, t: nat)
    requires TxEnabled(s, u, step) && u != t
    ensures (t in TxNext(s, u, step).txs <==> t in s.txs) && (t in s.txs ==> TxNext(s, u, step).txs[t] == s.txs[t])
    ensures s.answers <= TxNext(s, u, step).answers
  {
    hide NextStatement, Overlay;
  }

  lemma {:induction false} TxRunSnoc(s: Sys, trace: seq<TxEvent>, u: Sys, t: nat, step: TxStep)
    requires TxRun(s, trace, u) && TxEnabled(u, t, step)
    ensures TxRun(s, trace + [TxEvent(t, step)], TxNext(u, t, step))
    decreases |trace|
  {
    hide TxEnabled, TxNext;
    var more := trace + [TxEvent(t, step)];
    if trace == [] {
      assert more[1..] == [];
    } else {
      assert more[1..] == trace[1..] + [TxEvent(t, step)];
      TxRunSnoc(TxNext(s, trace[0].tx, trace[0].step), trace[1..], u, t, step);
    }
  }

  lemma StillUnused(accounts: set<Uuid>, s: Sys, t: nat)
    requires Inv(Opened(accounts), s) && t in s.txs
    ensures Unused(s.db, s.txs[t].req)
  {
    assert InStep(s.db, s.txs[t]);
  }

  /** Why a send may be refused, on the rows committed when it is: no such account, or less than the cost
      of one message in it, and then its key has not been used. */
  predicate SendRefusal(db: Db, account: Uuid, key: Option<string>, e: Error) {
    && (e == NotFound || e == InsufficientBalance)
    && (e == NotFound <==> account !in db.balances)
    && (e == InsufficientBalance ==> account in db.balances && db.balances[account] < 1)
    && (key.Some? ==> Key(account, key.value) !in db.keys)
  }

  /** Why a topup may be: no such account, or a sum that does not fit. */
  predicate TopupRefusal(db: Db, account: Uuid, amount: int, e: Error) {
    if account !in db.balances then e == NotFound else e == CheckViolation && db.balances[account] + amount > INT64_MAX
  }

  lemma RefusalReasons(accounts: set<Uuid>, s: Sys, history: seq<TxEvent>, since: nat, t: nat, req: Request, reply: Reply, before: Db)
    requires Inv(Opened(accounts), s) && CameTo(s, history, since, t, req, reply, before) && IsInt64(req)
    requires reply.Denied? && reply.error != Broken && (req.Topup? ==> req.amount > 0)
    ensures req.Send? ==> SendRefusal(s.db, req.account, req.key, reply.error)
    ensures req.Topup? ==> TopupRefusal(s.db, req.account, req.amount, reply.error)
  {
    ReplayValid(accounts, s.log);
    hide Apply, AllInStep, Separate, LedgerBijective, OutboxBijective;
    if req.Send? {
      NeverInBoth(s.db, req, reply);
    } else {
      TopupSucceedsIff(s.db, req);
      hide BalancesExact;
      ApplyTopupErrors(s.db, req);
    }
  }

  lemma ApplyTopupErrors(db: Db, req: Request)
    requires req.Topup? && req.amount > 0 && Apply(db, req).1.Denied?
    ensures Apply(db, req).1.error in {NotFound, CheckViolation}
  {
  }

  lemma NeverInBoth(db: Db, req: Request, reply: Reply)
    requires KeysComplete(db) && req.Send? && Apply(db, req).1 == reply && reply.Denied?
    requires req.message !in db.messages && req.event !in db.outbox
    ensures SendRefusal(db, req.account, req.key, reply.error)
  {
    SendSucceedsIff(db, req);
  }

  lemma DeniedAsAlone(accounts: set<Uuid>, s: Sys, t: nat)
    requires Inv(Opened(accounts), s) && t in s.txs && StatementReady(s, t)
    ensures NextStatement(s, t).Deny? ==>
              && Apply(s.db, s.txs[t].req) == (s.db, Denied(NextStatement(s, t).error))
              && NextStatement(s, t).error != Broken
  {
    hide NextStatement, StatementReady, InStep, Apply, Separate, BalancesExact, LedgerBijective, OutboxBijective, KeysComplete;
    ReplayValid(accounts, s.log);
    assert InStep(s.db, s.txs[t]);
    if NextStatement(s, t).Deny? { DenialIsApply(s.db, s, t); }
  }

  /** What the lock read is still what the row holds, and the transaction has not written it yet. */
  lemma LockedRowIsSeen(accounts: set<Uuid>, s: Sys, t: nat)
    requires TxReachable(accounts, s) && t in s.txs && s.txs[t].pc.Deducting?
    ensures s.txs[t].req.account in s.db.balances && View(s.db, s.txs[t].delta, s.txs[t].req.account) == s.txs[t].pc.seen
  {
    TxInvReachable(accounts, s);
    assert InStep(s.db, s.txs[t]);
  }

  class Database {
    const accounts: set<Uuid>
    var s: Sys
    ghost var history: seq<TxEvent>

    constructor (accounts: set<Uuid>)
      ensures Valid() && this.accounts == accounts && s == InitSys(accounts)
    {
      this.accounts := accounts;
      s, history := InitSys(accounts), [];
    }

    ghost predicate Valid()
      reads this
    {
      TxRun(InitSys(accounts), history, s)
    }

    /** What every state the database can be in satisfies. */
    lemma Holds()
      requires Valid()
      ensures Inv(Opened(accounts), s)
    {
      hide TxRun;
      TxInvReachable(accounts, s);
    }

    method Step(t: nat, step: TxStep)
      requires Valid() && TxEnabled(s, t, step)
      modifies this
      ensures Valid() && s == TxNext(old(s), t, step) && history == old(history) + [TxEvent(t, step)]
    {
      hide TxRun, TxEnabled, TxNext;
      TxRunSnoc(InitSys(accounts), history, s, t, step);
      history := history + [TxEvent(t, step)];
      s := TxNext(s, t, step);
    }

    /** Any statements of any other transactions, in any order. */
    method Others(t: nat)
      requires Valid()
      modifies this
      ensures Valid() && old(history) <= history && NeverCommits(history, |old(history)|, t)
      ensures (t in s.txs <==> t in old(s).txs) && (t in s.txs ==> s.txs[t] == old(s).txs[t])
    {
      hide TxRun, TxEnabled, TxNext;
      var k, n: int := 0, *;
      while k < n
        invariant Valid() && old(history) <= history && NeverCommits(history, |old(history)|, t)
        invariant (t in s.txs <==> t in old(s).txs) && (t in s.txs ==> s.txs[t] == old(s).txs[t])
      {
        var event: TxEvent := *;
        if event.tx != t && TxEnabled(s, event.tx, event.step) {
          OthersLeave(s, event.tx, event.step, t);
          Step(event.tx, event.step);
        }
        k := k + 1;
      }
    }
  }

  /** ClaimOrGet: the key is this transaction's, or somebody else's row was found. */
  datatype ClaimResult = Claimed | Existing(snapshot: Snapshot) | ClaimFailed(error: Error)

  class Services {
    const db: Database

    constructor (db: Database)
      ensures this.db == db
    {
      this.db := db;
    }

    /** The run has gone on, without a commit of this transaction. */
    twostate predicate Moved(t: nat)
      reads db
    {
      db.Valid() && old(db.history) <= db.history && NeverCommits(db.history, |old(db.history)|, t)
    }

    /** Everybody else moves, then the statement is about to run; or it fails, or its wait for a
        lock is cut short, and the transaction is rolled back. */
    method Attempt(t: nat, x: Tx) returns (ready: bool)
      requires db.Valid() && Open(db.s, t, x) && !x.pc.Committing?
      modifies db
      ensures Moved(t)
      ensures ready ==> Open(db.s, t, x) && StatementReady(db.s, t)
      ensures !ready ==> Rejected(db.s, db.history, t, x.req, Broken)
    {
      hide TxRun, StatementReady;
      db.Others(t);
      ready := *;
      ready := ready && StatementReady(db.s, t);
      if !ready {
        db.Holds();
        StillUnused(db.accounts, db.s, t);
        db.Step(t, Fail);
        assert Last(db.history) == TxEvent(t, Fail);
      }
    }

    /** One statement of the transaction; its result has been computed by the caller. */
    method Run(t: nat, x: Tx)
      requires db.Valid() && Open(db.s, t, x) && StatementReady(db.s, t)
      modifies db
      ensures Moved(t) && db.s.db == old(db.s.db)
      ensures var result := NextStatement(old(db.s), t);
              match result
              case Go(y) => Open(db.s, t, y)
              case Deny(e) => Rejected(db.s, db.history, t, x.req, e)
    {
      hide TxRun, StatementReady, NextStatement, Apply;
      db.Holds();
      StillUnused(db.accounts, db.s, t);
      DeniedAsAlone(db.accounts, db.s, t);
      db.Step(t, Statement);
      assert Last(db.history) == TxEvent(t, Statement);
    }

    // ----- repositories -------------------------------------------------------------------------

    /** Insert of the placeholder under a savepoint; on a conflict back to the savepoint and a read. */
    method ClaimOrGet(t: nat, x: Tx) returns (r: ClaimResult, y: Tx)
      requires db.Valid() && Open(db.s, t, x) && x.pc.Claiming? && x.req.Send? && KeyOf(x.req).Some?
      modifies db
      ensures Moved(t)
      ensures match r
              case Claimed => Open(db.s, t, y) && y.pc.Locking? && y.req == x.req
              case Existing(snapshot) => snapshot.Completed? && Open(db.s, t, y) && y == x.(pc := Replaying(snapshot.message))
              case ClaimFailed(e) => Rejected(db.s, db.history, t, x.req, e)
    {
      hide TxRun;
      y := x;
      var ready := Attempt(t, x);
      if !ready { return ClaimFailed(Broken), x; }
      var k := KeyOf(x.req).value;
      var conflict := k in db.s.db.keys;
      y := if conflict then x.(pc := ReadingKey) else NextClaim(db.s.db, x).tx;
      Run(t, x);
      if !conflict { return Claimed, y; }
      ready := Attempt(t, y);
      if !ready { return ClaimFailed(Broken), x; }
      if k !in db.s.db.keys {
        Run(t, y);
        return ClaimFailed(NotFound), x;
      }
      var snapshot := db.s.db.keys[k];
      Run(t, y);
      // what is found is committed, and no placeholder ever is
      if snapshot == Placeholder { return ClaimFailed(InProgress), x; }
      return Existing(snapshot), x.(pc := Replaying(snapshot.message));
    }

    /** SELECT ... FOR UPDATE, and for a send the comparison with the cost. */
    method LockAccount(t: nat, x: Tx) returns (denied: Option<Error>, balance: int, y: Tx)
      requires db.Valid() && Open(db.s, t, x) && x.pc.Locking?
      modifies db
      ensures Moved(t)
      ensures match denied
              case None => Open(db.s, t, y) && y == x.(pc := Deducting(balance)) && (x.req.Send? ==> balance >= COST)
              case Some(e) => Rejected(db.s, db.history, t, x.req, e)
    {
      hide TxRun;
      balance, y := 0, x;
      var ready := Attempt(t, x);
      if !ready { return Some(Broken), 0, x; }
      if x.req.account !in db.s.db.balances {
        Run(t, x);
        return Some(NotFound), 0, x;
      }
      balance := db.s.db.balances[x.req.account];
      y := x.(pc := Deducting(balance));
      Run(t, x);
      if x.req.Send? && balance < COST { return Some(InsufficientBalance), balance, x; }
      return None, balance, y;
    }

    /** DeductLockedBalance reads the row again; a topup adds to the row it has locked. Saving a
        negative balance violates the CHECK. */
    method UpdateBalance(t: nat, x: Tx) returns (denied: Option<Error>, balance: int, y: Tx)
      requires db.Valid() && Open(db.s, t, x) && x.pc.Deducting?
      modifies db
      ensures Moved(t)
      ensures match denied
              case None =>
                Open(db.s, t, y) && y.pc.Recording? && y.req == x.req
                && x.req.account in y.delta.balances && y.delta.balances[x.req.account] == balance
                && balance == (if x.req.Send? then x.pc.seen - COST else Wrap64(x.pc.seen + x.req.amount)) && balance >= 0
              case Some(e) => Rejected(db.s, db.history, t, x.req, e)
    {
      hide TxRun, Wrap64;
      balance, y := 0, x;
      var ready := Attempt(t, x);
      if !ready { return Some(Broken), 0, x; }
      var a := x.req.account;
      LockedRowIsSeen(db.accounts, db.s, t);
      if x.req.Send? {
        balance := View(db.s.db, x.delta, a);
        if balance < COST {
          Run(t, x);
          return Some(InsufficientBalance), balance, x;
        }
        balance := balance - COST;
      } else {
        balance := Wrap64(x.pc.seen + x.req.amount);
      }
      y := x.(pc := Recording, delta := x.delta.(balances := x.delta.balances[a := balance]));
      Run(t, x);
      if x.req.Topup? && balance < 0 { return Some(CheckViolation), balance, x; }
      return None, balance, y;
    }

    /** The ledger row: minus the cost for a send, the amount for a topup. */
    method CreateEntry(t: nat, x: Tx) returns (ok: bool, y: Tx)
      requires db.Valid() && Open(db.s, t, x) && x.pc.Recording? && x.req.account in x.delta.balances
      modifies db
      ensures Moved(t)
      ensures ok ==> Open(db.s, t, y) && y.req == x.req && y.delta == x.delta.(ledger := x.delta.ledger + [LedgerRow(x.req)])
                     && y.pc == if x.req.Send? then Creating else Committing(NewBalance(x.delta.balances[x.req.account]))
      ensures !ok ==> Rejected(db.s, db.history, t, x.req, Broken)
    {
      hide TxRun;
      y := x;
      ok := Attempt(t, x);
      if !ok { return; }
      y := NextRecord(x).tx;
      Run(t, x);
    }

    method CreateMessage(t: nat, x: Tx) returns (ok: bool, y: Tx)
      requires db.Valid() && Open(db.s, t, x) && x.pc.Creating? && x.req.Send?
      modifies db
      ensures Moved(t)
      ensures ok ==> Open(db.s, t, y) && y.req == x.req && y.pc == Queueing
                     && y.delta == x.delta.(messages := x.delta.messages + MessageRows(x.req))
      ensures !ok ==> Rejected(db.s, db.history, t, x.req, Broken)
    {
      hide TxRun;
      y := x;
      ok := Attempt(t, x);
      if !ok { return; }
      y := NextCreate(x).tx;
      Run(t, x);
    }

    /** The pending event, in the same transaction as the message. */
    method CreateEvent(t: nat, x: Tx) returns (ok: bool, y: Tx)
      requires db.Valid() && Open(db.s, t, x) && x.pc.Queueing? && x.req.Send?
      modifies db
      ensures Moved(t)
      ensures ok ==> Open(db.s, t, y) && y.req == x.req && y.pc == Storing
                     && y.delta == x.delta.(outbox := x.delta.outbox + EventRows(x.req))
      ensures !ok ==> Rejected(db.s, db.history, t, x.req, Broken)
    {
      hide TxRun;
      y := x;
      ok := Attempt(t, x);
      if !ok { return; }
      y := NextQueue(x).tx;
      Run(t, x);
    }

    /** UpdateSnapshot, when there is a key: this transaction's own row is always found. */
    method StoreResponse(t: nat, x: Tx) returns (ok: bool, y: Tx)
      requires db.Valid() && Open(db.s, t, x) && x.pc.Storing? && x.req.Send?
      modifies db
      ensures Moved(t)
      ensures ok ==> Open(db.s, t, y) && y.req == x.req && y.pc == Committing(Receipt(x.req.message))
      ensures !ok ==> Rejected(db.s, db.history, t, x.req, Broken)
    {
      hide TxRun;
      y := x;
      ok := Attempt(t, x);
      if !ok { return; }
      OwnKeyIsThere(db.accounts, db.s, t);
      y := NextStore(x).tx;
      Run(t, x);
    }

    /** Replaying a stored response writes nothing more. */
    method ReplayResponse(t: nat, x: Tx) returns (ok: bool, y: Tx)
      requires db.Valid() && Open(db.s, t, x) && x.pc.Replaying?
      modifies db
      ensures Moved(t)
      ensures ok ==> Open(db.s, t, y) && y == x.(pc := Committing(Receipt(x.pc.message)))
      ensures !ok ==> Rejected(db.s, db.history, t, x.req, Broken)
    {
      hide TxRun;
      y := x;
      ok := Attempt(t, x);
      if !ok { return; }
      y := x.(pc := Committing(Receipt(x.pc.message)));
      Run(t, x);
    }

    /** COMMIT. When it takes effect, the rows are those of the whole transaction run alone on the
        rows committed just before; when it does not, nothing has changed. */
    method Finish(t: nat, x: Tx, ghost since: nat) returns (reply: Reply, ghost before: Db)
      requires db.Valid() && Open(db.s, t, x) && x.pc.Committing?
      requires since <= |db.history| && NeverCommits(db.history, since, t)
      modifies db
      ensures db.Valid() && old(db.history) <= db.history
      ensures reply == x.pc.reply || reply == Denied(Broken)
      ensures CameTo(db.s, db.history, since, t, x.req, reply, before)
    {
      hide TxRun, Overlay, Apply, Valid, TxNext, InStep, Inv, Unused, NeverCommits;
      ghost var h0 := db.history;
      db.Others(t);
      before := db.s.db;
      db.Holds();
      StillUnused(db.accounts, db.s, t);
      StillNoCommit(since, h0, db.history, t);
      var io: Io := *;
      CommitsAlone(db.accounts, db.s, t, io);
      ghost var h1 := db.history;
      reply := if io == Done then x.pc.reply else Denied(Broken);
      db.Step(t, Commit(io));
      assert Last(db.history) == TxEvent(t, Commit(io));
      if io == Refused { RefusedCommit(since, h1, t); }
    }

    method Start(req: Request) returns (t: nat, x: Tx)
      requires db.Valid() && IsInt64(req) && (req.Topup? ==> req.amount > 0) && FreshIds(db.s, req)
      modifies db
      ensures Moved(t) && x == Tx(req, if req.Send? then Claiming else Locking, NO_ROWS) && Open(db.s, t, x)
    {
      hide TxRun;
      t := UnusedNat(db.s.txs.Keys);
      db.Step(t, Begin(req));
      x := Tx(req, if req.Send? then Claiming else Locking, NO_ROWS);
    }

    /** uuid.New, twice. */
    method DrawIds(account: Uuid, key: Option<string>, kind: Kind) returns (req: Request)
      requires db.Valid()
      ensures req.Send? && req.account == account && req.key == key && req.kind == kind && FreshIds(db.s, req)
    {
      var sends := set u | u in db.s.txs && db.s.txs[u].req.Send?;
      var message := UnusedNat(db.s.db.messages.Keys + set u | u in sends :: db.s.txs[u].req.message);
      var event := UnusedNat(db.s.db.outbox.Keys + set u | u in sends :: db.s.txs[u].req.event);
      req := Request.Send(account, key, kind, message, event);
      forall u | u in db.s.txs && db.s.txs[u].req.Send?
        ensures db.s.txs[u].req.message != message && db.s.txs[u].req.event != event
      {
        assert u in sends;
      }
    }

    /** SMSService.Send after its input has been checked: lock, deduct, write, store, commit. */
    method SendRows(t: nat, x: Tx, ghost since: nat) returns (reply: Reply, ghost before: Db)
      requires db.Valid() && Open(db.s, t, x) && x.pc.Locking? && x.req.Send?
      requires since <= |db.history| && NeverCommits(db.history, since, t)
      modifies db
      ensures db.Valid() && old(db.history) <= db.history
      ensures CameTo(db.s, db.history, since, t, x.req, reply, before)
    {
      hide TxRun, Apply, Valid, Unused, CameTo, Open, Rejected, IsCommitOf;
      before := db.s.db;
      var denied, balance, y := LockAccount(t, x);
      if denied.Some? { Denial(db.s, db.history, since, t, x.req, denied.value, before); return Denied(denied.value), before; }
      denied, balance, y := UpdateBalance(t, y);
      if denied.Some? { Denial(db.s, db.history, since, t, x.req, denied.value, before); return Denied(denied.value), before; }
      var ok;
      ok, y := CreateEntry(t, y);
      if !ok { Denial(db.s, db.history, since, t, x.req, Broken, before); return Denied(Broken), before; }
      ok, y := CreateMessage(t, y);
      if !ok { Denial(db.s, db.history, since, t, x.req, Broken, before); return Denied(Broken), before; }
      ok, y := CreateEvent(t, y);
      if !ok { Denial(db.s, db.history, since, t, x.req, Broken, before); return Denied(Broken), before; }
      ok, y := StoreResponse(t, y);
      if !ok { Denial(db.s, db.history, since, t, x.req, Broken, before); return Denied(Broken), before; }
      reply, before := Finish(t, y, since);
    }

    /** SMSService.Send. `valid` is the verdict of validateSendInput; an empty key is no key. `t` is the
        transaction it ran as. */
    method Send(account: Uuid, rawKey: string, kind: Kind, valid: bool)
        returns (reply: Reply, ghost req: Request, ghost t: nat, ghost before: Db)
      requires db.Valid()
      modifies db
      ensures db.Valid() && old(db.history) <= db.history
      ensures !valid ==> reply == Denied(InvalidRequest) && db.s == old(db.s)
      ensures valid ==>
                && req.Send? && req.account == account && req.kind == kind
                && req.key == (if rawKey == "" then None else Some(rawKey))
                && CameTo(db.s, db.history, |old(db.history)|, t, req, reply, before)
      ensures Succeeded(reply) ==>
                && reply.Receipt? && HasMessage(db.s.db, account, reply.message)
                && (rawKey != "" ==> NamedBy(db.s.db, Key(account, rawKey), reply.message))
      ensures valid && reply.Denied? && !Cut(db.history, t) ==>
                SendRefusal(db.s.db, account, if rawKey == "" then None else Some(rawKey), reply.error)
    {
      reply, req, t, before := TrySend(account, rawKey, kind, valid);
      db.Holds();
      if valid && reply.Denied? && reply.error != Broken {
        RefusalReasons(db.accounts, db.s, db.history, |old(db.history)|, t, req, reply, before);
      }
    }

    method TrySend(account: Uuid, rawKey: string, kind: Kind, valid: bool)
        returns (reply: Reply, ghost req: Request, ghost t: nat, ghost before: Db)
      requires db.Valid()
      modifies db
      ensures db.Valid() && old(db.history) <= db.history
      ensures !valid ==> reply == Denied(InvalidRequest) && db.s == old(db.s)
      ensures valid ==>
                && req.Send? && req.account == account && req.kind == kind
                && req.key == (if rawKey == "" then None else Some(rawKey))
                && CameTo(db.s, db.history, |old(db.history)|, t, req, reply, before)
      ensures Succeeded(reply) ==>
                && reply.Receipt? && HasMessage(db.s.db, account, reply.message)
                && (rawKey != "" ==> NamedBy(db.s.db, Key(account, rawKey), reply.message))
    {
      hide TxRun, Valid, Unused, CameTo, Open, Rejected, IsCommitOf;
      ghost var since := |db.history|;
      before, t := db.s.db, 0;
      var key := if rawKey == "" then None else Some(rawKey);
      if !valid { return Denied(InvalidRequest), Request.Send(account, key, kind, 0, 0), 0, before; }
      var drawn := DrawIds(account, key, kind);
      req := drawn;
      var tx, x := Start(drawn);
      t := tx;
      var y := x;
      if key.Some? {
        var r;
        r, y := ClaimOrGet(tx, x);
        match r {
          case ClaimFailed(e) =>
            Denial(db.s, db.history, since, tx, drawn, e, before);
            return Denied(e), drawn, tx, before;
          case Existing(snapshot) =>
            var ok;
            ok, y := ReplayResponse(tx, y);
            if !ok { Denial(db.s, db.history, since, tx, drawn, Broken, before); return Denied(Broken), drawn, tx, before; }
            reply, before := Finish(tx, y, since);
            Receipts(db.s, db.history, since, tx, drawn, reply, before);
            return reply, drawn, tx, before;
          case Claimed =>
        }
      } else {
        y := x.(pc := Locking);
        NoKey(db.s, tx, x);
        Run(tx, x);
      }
      reply, before := SendRows(tx, y, since);
      Receipts(db.s, db.history, since, tx, drawn, reply, before);
    }

    /** AccountService.Topup. */
    method Topup(account: Uuid, amount: int) returns (reply: Reply, ghost t: nat, ghost before: Db)
      requires db.Valid() && -INT64_MAX - 1 <= amount <= INT64_MAX
      modifies db
      ensures db.Valid() && old(db.history) <= db.history
      ensures amount <= 0 ==> reply == Denied(InvalidAmount) && db.s == old(db.s)
      ensures amount > 0 ==> CameTo(db.s, db.history, |old(db.history)|, t, Request.Topup(account, amount), reply, before)
      ensures Succeeded(reply) ==>
                && reply.NewBalance? && account in db.s.db.balances && db.s.db.balances[account] == reply.balance
                && account in before.balances && reply.balance == before.balances[account] + amount
      ensures amount > 0 && reply.Denied? && !Cut(db.history, t) ==> TopupRefusal(db.s.db, account, amount, reply.error)
    {
      reply, t, before := TryTopup(account, amount);
      db.Holds();
      if amount > 0 && reply.Denied? && reply.error != Broken {
        RefusalReasons(db.accounts, db.s, db.history, |old(db.history)|, t, Request.Topup(account, amount), reply, before);
      }
    }

    method TryTopup(account: Uuid, amount: int) returns (reply: Reply, ghost t: nat, ghost before: Db)
      requires db.Valid() && -INT64_MAX - 1 <= amount <= INT64_MAX
      modifies db
      ensures db.Valid() && old(db.history) <= db.history
      ensures amount <= 0 ==> reply == Denied(InvalidAmount) && db.s == old(db.s)
      ensures amount > 0 ==> CameTo(db.s, db.history, |old(db.history)|, t, Request.Topup(account, amount), reply, before)
      ensures Succeeded(reply) ==>
                && reply.NewBalance? && account in db.s.db.balances && db.s.db.balances[account] == reply.balance
                && account in before.balances && reply.balance == before.balances[account] + amount
    {
      hide TxRun, Valid, Unused, CameTo, Open, Rejected, Apply, IsCommitOf;
      ghost var since := |db.history|;
      before, t := db.s.db, 0;
      if amount <= 0 { return Denied(InvalidAmount), 0, before; }
      var req := Request.Topup(account, amount);
      var tx, x := Start(req);
      t := tx;
      var denied, balance, y := LockAccount(tx, x);
      if denied.Some? { Denial(db.s, db.history, since, tx, req, denied.value, before); return Denied(denied.value), tx, before; }
      denied, balance, y := UpdateBalance(tx, y);
      if denied.Some? { Denial(db.s, db.history, since, tx, req, denied.value, before); return Denied(denied.value), tx, before; }
      var ok;
      ok, y := CreateEntry(tx, y);
      if !ok { Denial(db.s, db.history, since, tx, req, Broken, before); return Denied(Broken), tx, before; }
      reply, before := Finish(tx, y, since);
      Balances(db.s, db.history, since, tx, req, reply, before);
    }
  }

  lemma NoKey(s: Sys, t: nat, x: Tx)
    requires Open(s, t, x) && x.pc.Claiming? && x.req.Send? && KeyOf(x.req) == None
    ensures StatementReady(s, t) && NextStatement(s, t) == Go(x.(pc := Locking))
  {
  }

  lemma Receipts(s: Sys, history: seq<TxEvent>, since: nat, t: nat, req: Request, reply: Reply, before: Db)
    requires CameTo(s, history, since, t, req, reply, before) && req.Send?
    ensures Succeeded(reply) ==>
              && reply.Receipt? && HasMessage(s.db, req.account, reply.message)
              && (req.key.Some? ==> NamedBy(s.db, KeyOf(req).value, reply.message))
  {
    hide BalancesExact, LedgerBijective, OutboxBijective;
  }

  lemma TopupIsExact(db: Db, req: Request)
    requires Valid(db) && req.Topup? && IsInt64(req) && Succeeded(Apply(db, req).1)
    ensures req.account in db.balances && Apply(db, req).1 == NewBalance(db.balances[req.account] + req.amount)
    ensures Apply(db, req).0.balances == db.balances[req.account := db.balances[req.account] + req.amount]
  {
    hide LedgerBijective, OutboxBijective, KeysComplete, SumDeltas, SumTopups, MessagesOf, Wrap64;
    assert BalanceExact(db, req.account);
    OverflowIsRejected(db.balances[req.account], req.amount);
  }

  lemma Balances(s: Sys, history: seq<TxEvent>, since: nat, t: nat, req: Request, reply: Reply, before: Db)
    requires CameTo(s, history, since, t, req, reply, before) && req.Topup? && IsInt64(req)
    ensures Succeeded(reply) ==>
              && reply.NewBalance? && req.account in s.db.balances && s.db.balances[req.account] == reply.balance
              && req.account in before.balances && reply.balance == before.balances[req.account] + req.amount
  {
    hide Valid, Wrap64;
    if Succeeded(reply) { TopupIsExact(before, req); }
  }

  lemma OwnKeyIsThere(accounts: set<Uuid>, s: Sys, t: nat)
    requires TxReachable(accounts, s) && t in s.txs && s.txs[t].pc.Storing? && s.txs[t].req.Send?
    ensures KeyOf(s.txs[t].req).Some? ==> KeyOf(s.txs[t].req).value in s.txs[t].delta.keys
  {
    TxInvReachable(accounts, s);
    assert InStep(s.db, s.txs[t]);
  }

  lemma ItsRows(accounts: set<Uuid>, s: Sys, t: nat)
    requires Inv(Opened(accounts), s) && t in s.txs
    ensures InStep(s.db, s.txs[t])
  {
    hide InStep;
  }

  lemma CommitsAlone(accounts: set<Uuid>, s: Sys, t: nat, io: Io)
    requires Inv(Opened(accounts), s) && t in s.txs && s.txs[t].pc.Committing?
    ensures var x, u := s.txs[t], TxNext(s, t, Commit(io));
            && Valid(s.db) && Succeeded(x.pc.reply) && t !in u.txs
            && (x.req, if io == Done then x.pc.reply else Denied(Broken)) in u.answers
            && (io.Applied() ==> Apply(s.db, x.req) == (u.db, x.pc.reply))
            && (!io.Applied() ==> u.db == s.db)
  {
    hide Apply, Valid, Overlay, Separate, InStep, Replay;
    assert InStep(s.db, s.txs[t]) by { ItsRows(accounts, s, t); }
    CommitIsApply(s.db, s.txs[t]);
    ReplayValid(accounts, s.log);
  }
}
