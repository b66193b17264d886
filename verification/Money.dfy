/** Accounts, ledger, messages, outbox and idempotency keys: what one Send or Topup transaction
    does when it runs alone, and what every sequence of them keeps. */
module Money {
  import opened Base
  import opened Pipeline

  const COST: int := 1
  const INT64_RANGE: int := 0x1_0000_0000_0000_0000
  const INT64_MAX: int := 0x7FFF_FFFF_FFFF_FFFF

  /** The int64 a mathematical sum is stored as. */
  function Wrap64(x: int): int {
    var r := x % INT64_RANGE;
    if r > INT64_MAX then r - INT64_RANGE else r
  }

  datatype Reason = SendReason | TopupReason
  datatype Entry = Entry(account: Uuid, delta: int, reason: Reason, ref: Option<Uuid>)
  datatype Sms = Sms(account: Uuid, kind: Kind, key: Option<string>)
  datatype Snapshot = Placeholder | Completed(message: Uuid)
  datatype Key = Key(account: Uuid, name: string)

  /** The committed rows. Ledger rows are kept in commit order. */
  datatype Db = Db(balances: map<Uuid, int>, ledger: seq<Entry>, messages: map<Uuid, Sms>,
                   outbox: map<Uuid, Payload>, keys: map<Key, Snapshot>)

  /** `message` and `event` are the random ids drawn before the transaction starts. */
  datatype Request =
    | Send(account: Uuid, key: Option<string>, kind: Kind, message: Uuid, event: Uuid)
    | Topup(account: Uuid, amount: int)

  datatype Error = InvalidRequest | InsufficientBalance | InProgress | NotFound | InvalidAmount | CheckViolation | Duplicate | Broken

  datatype Reply = Receipt(message: Uuid) | NewBalance(balance: int) | Denied(error: Error)

  predicate Succeeded(r: Reply) { !r.Denied? }

  function KeyOf(req: Request): Option<Key>
    requires req.Send?
  {
    if req.key == None then None else Some(Key(req.account, req.key.value))
  }

  /** The rows a first send writes. */
  function SendRows(db: Db, req: Request): Db
    requires req.Send? && req.account in db.balances
  {
    Db(db.balances[req.account := db.balances[req.account] - COST],
       db.ledger + [Entry(req.account, -COST, SendReason, Some(req.message))],
       db.messages[req.message := Sms(req.account, req.kind, req.key)],
       db.outbox[req.event := Ids(req.account, req.message, req.kind)],
       if KeyOf(req) == None then db.keys else db.keys[KeyOf(req).value := Completed(req.message)])
  }

  function ApplySend(db: Db, req: Request): (Db, Reply)
    requires req.Send?
  {
    if KeyOf(req).Some? && KeyOf(req).value in db.keys then
      match db.keys[KeyOf(req).value]
      case Completed(m) => (db, Receipt(m))
      case Placeholder => (db, Denied(InProgress))
    else if req.account !in db.balances then (db, Denied(NotFound))
    else if db.balances[req.account] < COST then (db, Denied(InsufficientBalance))
    else if req.message in db.messages || req.event in db.outbox then (db, Denied(Duplicate))
    else (SendRows(db, req), Receipt(req.message))
  }

  function ApplyTopup(db: Db, req: Request): (Db, Reply)
    requires req.Topup?
  {
    if req.amount <= 0 then (db, Denied(InvalidAmount))
    else if req.account !in db.balances then (db, Denied(NotFound))
    else
      var b := Wrap64(db.balances[req.account] + req.amount);
      if b < 0 then (db, Denied(CheckViolation))
      else (db.(balances := db.balances[req.account := b],
                ledger := db.ledger + [Entry(req.account, req.amount, TopupReason, None)]), NewBalance(b))
  }

  /** One whole transaction, run alone. */
  function Apply(db: Db, req: Request): (Db, Reply) {
    if req.Send? then ApplySend(db, req) else ApplyTopup(db, req)
  }

  // ----- sums -------------------------------------------------------------------------------------

  function SumDeltas(ledger: seq<Entry>, a: Uuid): int {
    if ledger == [] then 0
    else SumDeltas(ledger[..|ledger| - 1], a) + (if Last(ledger).account == a then Last(ledger).delta else 0)
  }

  function SumTopups(ledger: seq<Entry>, a: Uuid): int {
    if ledger == [] then 0
    else SumTopups(ledger[..|ledger| - 1], a)
         + (if Last(ledger).account == a && Last(ledger).reason == TopupReason then Last(ledger).delta else 0)
  }

  lemma SumsSnoc(ledger: seq<Entry>, x: Entry, a: Uuid)
    ensures SumDeltas(ledger + [x], a) == SumDeltas(ledger, a) + (if x.account == a then x.delta else 0)
    ensures SumTopups(ledger + [x], a) == SumTopups(ledger, a) + (if x.account == a && x.reason == TopupReason then x.delta else 0)
  {
    assert (ledger + [x])[..|ledger + [x]| - 1] == ledger;
  }

  function MessagesOf(ms: map<Uuid, Sms>, a: Uuid): set<Uuid> {
    set m | m in ms && ms[m].account == a
  }

  // ----- what every committed state satisfies -----------------------------------------------------

  predicate BalanceExact(db: Db, a: Uuid)
    requires a in db.balances
  {
    && 0 <= db.balances[a] <= INT64_MAX
    && db.balances[a] == SumDeltas(db.ledger, a)
    && db.balances[a] == SumTopups(db.ledger, a) - COST * |MessagesOf(db.messages, a)|
  }

  /** Balances are int64 amounts of at least zero, equal to the exact sum of their ledger rows, and
      that sum is what was topped up less the cost of the messages. */
  ghost predicate BalancesExact(db: Db) {
    && (forall a | a in db.balances :: BalanceExact(db, a))
    && (forall m | m in db.messages :: db.messages[m].account in db.balances)
  }

  predicate IsRowOf(x: Entry, m: Uuid) { x.reason == SendReason && x.ref == Some(m) }

  /** One `send` ledger row per message, for its account and its cost, and no other `send` row. */
  ghost predicate LedgerBijective(ledger: seq<Entry>, ms: map<Uuid, Sms>) {
    && (forall k | 0 <= k < |ledger| && ledger[k].reason == SendReason ::
          ledger[k].ref.Some? && ledger[k].ref.value in ms
          && ledger[k].account == ms[ledger[k].ref.value].account && ledger[k].delta == -COST)
    && (forall j, k, m | 0 <= j < |ledger| && 0 <= k < |ledger| && IsRowOf(ledger[j], m) && IsRowOf(ledger[k], m) :: j == k)
    && (forall m | m in ms :: exists k :: 0 <= k < |ledger| && IsRowOf(ledger[k], m))
  }

  predicate IsEventOf(p: Payload, m: Uuid, x: Sms) { p == Ids(x.account, m, x.kind) }

  /** One outbox event per message, carrying the message's own ids and type, and no other event. */
  ghost predicate OutboxBijective(outbox: map<Uuid, Payload>, ms: map<Uuid, Sms>) {
    && (forall e | e in outbox :: outbox[e].Ids? && outbox[e].message in ms
          && IsEventOf(outbox[e], outbox[e].message, ms[outbox[e].message]))
    && (forall e, f | e in outbox && f in outbox && outbox[e].Ids? && outbox[f].Ids? && outbox[e].message == outbox[f].message :: e == f)
    && (forall m | m in ms :: exists e :: e in outbox && IsEventOf(outbox[e], m, ms[m]))
  }

  /** Every committed key names its one message; no placeholder is ever committed. */
  ghost predicate KeysComplete(db: Db) {
    && (forall k | k in db.keys :: db.keys[k].Completed? && db.keys[k].message in db.messages
          && db.messages[db.keys[k].message].account == k.account && db.messages[db.keys[k].message].key == Some(k.name))
    && (forall m | m in db.messages && db.messages[m].key.Some? ::
          var k := Key(db.messages[m].account, db.messages[m].key.value);
          k in db.keys && db.keys[k] == Completed(m))
  }

  ghost predicate Valid(db: Db) {
    && BalancesExact(db)
    && LedgerBijective(db.ledger, db.messages)
    && OutboxBijective(db.outbox, db.messages)
    && KeysComplete(db)
  }

  /** A sum that overflows wraps to a negative number, which the CHECK rejects: no topup ever
      commits a wrong balance. */
  lemma OverflowIsRejected(b: int, amount: int)
    requires 0 <= b <= INT64_MAX && 0 < amount <= INT64_MAX
    ensures Wrap64(b + amount) == if b + amount <= INT64_MAX then b + amount else b + amount - INT64_RANGE
    ensures Wrap64(b + amount) >= 0 <==> b + amount <= INT64_MAX
  {
  }

  predicate IsInt64(req: Request) { req.Topup? ==> -INT64_MAX - 1 <= req.amount <= INT64_MAX }

  lemma BalanceTopup(db: Db, req: Request, a: Uuid)
    requires BalancesExact(db) && req.Topup? && IsInt64(req) && a in db.balances && ApplyTopup(db, req).1.NewBalance?
    ensures BalanceExact(ApplyTopup(db, req).0, a)
  {
    assert BalanceExact(db, a) && BalanceExact(db, req.account);
    OverflowIsRejected(db.balances[req.account], req.amount);
    hide Wrap64, BalancesExact, SumDeltas, SumTopups;
    SumsSnoc(db.ledger, Entry(req.account, req.amount, TopupReason, None), a);
  }

  lemma BalanceSend(db: Db, req: Request, a: Uuid)
    requires BalancesExact(db) && req.Send? && a in db.balances && req.account in db.balances
    requires db.balances[req.account] >= COST && req.message !in db.messages
    ensures BalanceExact(SendRows(db, req), a)
  {
    assert BalanceExact(db, a);
    hide BalancesExact, SumDeltas, SumTopups, MessagesOf;
    var db' := SendRows(db, req);
    SumsSnoc(db.ledger, Entry(req.account, -COST, SendReason, Some(req.message)), a);
    MessagesOfMore(db.messages, req.message, Sms(req.account, req.kind, req.key), a);
  }

  lemma MessagesOfMore(ms: map<Uuid, Sms>, m: Uuid, row: Sms, a: Uuid)
    requires m !in ms
    ensures |MessagesOf(ms[m := row], a)| == |MessagesOf(ms, a)| + (if row.account == a then 1 else 0)
  {
    if row.account == a {
      assert MessagesOf(ms[m := row], a) == MessagesOf(ms, a) + {m};
    } else {
      assert MessagesOf(ms[m := row], a) == MessagesOf(ms, a);
    }
  }

  lemma BalanceApply(db: Db, req: Request, a: Uuid)
    requires BalancesExact(db) && IsInt64(req) && a in db.balances
    ensures a in Apply(db, req).0.balances && BalanceExact(Apply(db, req).0, a)
  {
    hide BalanceExact;
    if Apply(db, req).0 != db {
      if req.Topup? { BalanceTopup(db, req, a); } else { BalanceSend(db, req, a); }
    }
  }

  lemma BalancesApply(db: Db, req: Request)
    requires BalancesExact(db) && IsInt64(req)
    ensures BalancesExact(Apply(db, req).0)
  {
    hide BalanceExact;
    forall a | a in Apply(db, req).0.balances ensures BalanceExact(Apply(db, req).0, a) {
      BalanceApply(db, req, a);
    }
  }

  lemma LedgerGains(ledger: seq<Entry>, ms: map<Uuid, Sms>, m: Uuid, row: Sms)
    requires LedgerBijective(ledger, ms) && m !in ms
    ensures LedgerBijective(ledger + [Entry(row.account, -COST, SendReason, Some(m))], ms[m := row])
  {
    var l, ms' := ledger + [Entry(row.account, -COST, SendReason, Some(m))], ms[m := row];
    assert forall k | 0 <= k < |ledger| :: l[k] == ledger[k];
    forall n | n in ms' ensures exists k :: 0 <= k < |l| && IsRowOf(l[k], n) {
      if n == m {
        assert IsRowOf(l[|ledger|], n);
      } else {
        var k :| 0 <= k < |ledger| && IsRowOf(ledger[k], n);
        assert IsRowOf(l[k], n);
      }
    }
  }

  lemma LedgerKeeps(ledger: seq<Entry>, ms: map<Uuid, Sms>, x: Entry)
    requires LedgerBijective(ledger, ms) && x.reason == TopupReason
    ensures LedgerBijective(ledger + [x], ms)
  {
    var l := ledger + [x];
    forall n | n in ms ensures exists k :: 0 <= k < |l| && IsRowOf(l[k], n) {
      var k :| 0 <= k < |ledger| && IsRowOf(ledger[k], n);
      assert IsRowOf(l[k], n);
    }
  }

  lemma LedgerApply(db: Db, req: Request)
    requires LedgerBijective(db.ledger, db.messages)
    ensures LedgerBijective(Apply(db, req).0.ledger, Apply(db, req).0.messages)
  {
    hide LedgerBijective, Wrap64;
    if Apply(db, req).0 != db {
      if req.Send? {
        LedgerGains(db.ledger, db.messages, req.message, Sms(req.account, req.kind, req.key));
      } else {
        LedgerKeeps(db.ledger, db.messages, Entry(req.account, req.amount, TopupReason, None));
      }
    }
  }

  lemma OutboxGains(outbox: map<Uuid, Payload>, ms: map<Uuid, Sms>, e: Uuid, m: Uuid, row: Sms)
    requires OutboxBijective(outbox, ms) && m !in ms && e !in outbox
    ensures OutboxBijective(outbox[e := Ids(row.account, m, row.kind)], ms[m := row])
  {
    var outbox', ms' := outbox[e := Ids(row.account, m, row.kind)], ms[m := row];
    forall n | n in ms' ensures exists f :: f in outbox' && IsEventOf(outbox'[f], n, ms'[n]) {
      if n in ms {
        var f :| f in outbox && IsEventOf(outbox[f], n, ms[n]);
        assert IsEventOf(outbox'[f], n, ms'[n]);
      } else {
        assert IsEventOf(outbox'[e], n, ms'[n]);
      }
    }
  }

  lemma OutboxApply(db: Db, req: Request)
    requires OutboxBijective(db.outbox, db.messages)
    ensures OutboxBijective(Apply(db, req).0.outbox, Apply(db, req).0.messages)
  {
    hide OutboxBijective, Wrap64;
    if req.Send? && Apply(db, req).0 != db {
      OutboxGains(db.outbox, db.messages, req.event, req.message, Sms(req.account, req.kind, req.key));
    }
  }

  lemma KeysApply(db: Db, req: Request)
    requires KeysComplete(db)
    ensures KeysComplete(Apply(db, req).0)
  {
  }

  // ----- when a request succeeds ---------------------------------------------------------------------

  /** In a valid state a send succeeds exactly when its key has been used, or the account exists and
      holds at least the cost of one message; and an error names what was wanting. */
  lemma SendSucceedsIff(db: Db, req: Request)
    requires KeysComplete(db) && req.Send? && req.message !in db.messages && req.event !in db.outbox
    ensures var reply, replayed := Apply(db, req).1, KeyOf(req).Some? && KeyOf(req).value in db.keys;
            && (Succeeded(reply) <==> replayed || (req.account in db.balances && db.balances[req.account] >= 1))
            && (reply == Denied(NotFound) <==> !replayed && req.account !in db.balances)
            && (reply == Denied(InsufficientBalance) <==>
                  !replayed && req.account in db.balances && db.balances[req.account] < 1)
  {
  }

  /** A topup succeeds exactly when its amount is positive, the account exists and the sum fits. */
  lemma TopupSucceedsIff(db: Db, req: Request)
    requires BalancesExact(db) && req.Topup? && IsInt64(req)
    ensures var reply := Apply(db, req).1;
            && (Succeeded(reply) <==>
                  req.amount > 0 && req.account in db.balances && db.balances[req.account] + req.amount <= INT64_MAX)
            && (reply == Denied(InvalidAmount) <==> req.amount <= 0)
            && (reply == Denied(NotFound) <==> req.amount > 0 && req.account !in db.balances)
            && (reply == Denied(CheckViolation) <==>
                  req.amount > 0 && req.account in db.balances && db.balances[req.account] + req.amount > INT64_MAX)
  {
    hide SumDeltas, SumTopups, MessagesOf, Wrap64;
    if req.account in db.balances && req.amount > 0 {
      assert BalanceExact(db, req.account);
      OverflowIsRejected(db.balances[req.account], req.amount);
    }
  }

  // ----- sequences of transactions -------------------------------------------------------------------

  function Replay(db: Db, reqs: seq<Request>): Db {
    if reqs == [] then db else Apply(Replay(db, reqs[..|reqs| - 1]), Last(reqs)).0
  }

  /** Accounts that exist and hold nothing. */
  function Opened(accounts: set<Uuid>): Db {
    Db(map a | a in accounts :: 0, [], map[], map[], map[])
  }

  /** In every state any sequence of transactions leads to, no money is made or lost, messages,
      ledger rows and events match one to one, and every key is complete. */
  lemma {:induction false} ReplayValid(accounts: set<Uuid>, reqs: seq<Request>)
    requires forall k | 0 <= k < |reqs| :: IsInt64(reqs[k])
    ensures Valid(Replay(Opened(accounts), reqs))
  {
    if reqs == [] {
      forall a | a in accounts ensures MessagesOf(map[], a) == {} {}
    } else {
      var db := Replay(Opened(accounts), reqs[..|reqs| - 1]);
      ReplayValid(accounts, reqs[..|reqs| - 1]);
      BalancesApply(db, Last(reqs));
      LedgerApply(db, Last(reqs));
      OutboxApply(db, Last(reqs));
      KeysApply(db, Last(reqs));
    }
  }

  function ReplyAt(db: Db, reqs: seq<Request>, k: nat): Reply
    requires k < |reqs|
  {
    Apply(Replay(db, reqs[..k]), reqs[k]).1
  }

  lemma ReplaySnoc(db: Db, reqs: seq<Request>, req: Request)
    ensures Replay(db, reqs + [req]) == Apply(Replay(db, reqs), req).0
  {
    assert (reqs + [req])[..|reqs + [req]| - 1] == reqs;
  }

  lemma KeyKept(db: Db, req: Request, k: Key)
    requires k in db.keys
    ensures k in Apply(db, req).0.keys && Apply(db, req).0.keys[k] == db.keys[k]
  {
    hide Wrap64;
  }

  /** A committed key is never removed or rewritten by what comes later. */
  lemma {:induction false} KeysStay(db: Db, reqs: seq<Request>, i: nat, j: nat, k: Key)
    requires i <= j <= |reqs| && k in Replay(db, reqs[..i]).keys
    ensures k in Replay(db, reqs[..j]).keys && Replay(db, reqs[..j]).keys[k] == Replay(db, reqs[..i]).keys[k]
    decreases j - i
  {
    hide Apply, Replay;
    if i < j {
      KeysStay(db, reqs, i, j - 1, k);
      assert reqs[..j] == reqs[..j - 1] + [reqs[j - 1]];
      ReplaySnoc(db, reqs[..j - 1], reqs[j - 1]);
      KeyKept(Replay(db, reqs[..j - 1]), reqs[j - 1], k);
    }
  }

  /** Two sends with the same account and key that both succeed, with anything in between, answer
      with the same message. */
  lemma SameKeySameMessage(db: Db, reqs: seq<Request>, i: nat, j: nat)
    requires i < j < |reqs| && reqs[i].Send? && reqs[j].Send?
    requires KeyOf(reqs[i]).Some? && KeyOf(reqs[i]) == KeyOf(reqs[j])
    requires Succeeded(ReplyAt(db, reqs, i)) && Succeeded(ReplyAt(db, reqs, j))
    ensures ReplyAt(db, reqs, i) == ReplyAt(db, reqs, j)
  {
    var k := KeyOf(reqs[i]).value;
    assert reqs[..i + 1] == reqs[..i] + [reqs[i]];
    ReplaySnoc(db, reqs[..i], reqs[i]);
    KeysStay(db, reqs, i + 1, j, k);
  }

  /** In a valid state a key names at most one message, charged once and queued once. */
  lemma OneMessagePerKey(db: Db, a: Uuid, name: string, m: Uuid, n: Uuid)
    requires Valid(db) && m in db.messages && n in db.messages
    requires db.messages[m] == Sms(a, db.messages[m].kind, Some(name)) && db.messages[n] == Sms(a, db.messages[n].kind, Some(name))
    ensures m == n
  {
    assert db.keys[Key(a, name)] == Completed(m);
  }
}
