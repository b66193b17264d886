/** The Redis-first lookup in front of the idempotency rows, with entries filled after commits,
    evicted at any time and lost to errors. */
module IdempotencyCache {
  import opened Base
  import opened Money
  import opened Transactions
  import opened Snapshots

  const ACCEPTED: string := "accepted"

  /** The committed rows and open transactions, and the cache: texts by cache key. */
  datatype Cached = Cached(sys: Sys, cache: map<string, string>)

  datatype CacheStep =
    | Tx(tx: nat, step: TxStep)
    | Fill(req: Request, reply: Reply, io: Io)   // the cache write after a Send that returned a result
    | Evict(entry: string)                       // the TTL, memory pressure, a flush

  function Receipted(m: Uuid): Response { Response(UuidText(m), ACCEPTED) }

  predicate SmallIds(req: Request) {
    req.account < UUIDS && (req.Send? ==> req.message < UUIDS && req.event < UUIDS)
  }

  predicate CacheEnabled(s: Cached, step: CacheStep) {
    match step
    case Tx(t, st) => TxEnabled(s.sys, t, st) && (st.Begin? ==> SmallIds(st.req))
    case Fill(req, reply, _) => (req, reply) in s.sys.answers && reply.Receipt? && req.Send? && KeyOf(req).Some?
    case Evict(_) => true
  }

  function EntryFor(prefix: string, k: Key): string { CacheKey(prefix, k.account, k.name) }

  function CacheNext(prefix: string, s: Cached, step: CacheStep): Cached
    requires CacheEnabled(s, step)
  {
    match step
    case Tx(t, st) => s.(sys := TxNext(s.sys, t, st))
    case Fill(req, reply, io) =>
      if io.Applied() then s.(cache := s.cache[EntryFor(prefix, KeyOf(req).value) := Marshalled(Receipted(reply.message))])
      else s
    case Evict(entry) => s.(cache := s.cache - {entry})
  }

  ghost predicate CacheRun(prefix: string, s: Cached, steps: seq<CacheStep>, u: Cached)
    decreases |steps|
  {
    if steps == [] then s == u
    else CacheEnabled(s, steps[0]) && CacheRun(prefix, CacheNext(prefix, s, steps[0]), steps[1..], u)
  }

  ghost predicate CacheReachable(prefix: string, accounts: set<Uuid>, s: Cached) {
    exists steps :: CacheRun(prefix, Cached(InitSys(accounts), map[]), steps, s)
  }

  // ----- lookups --------------------------------------------------------------------------------------

  datatype Lookup = Found(snapshot: string) | NoRecord | LookupError

  function SnapshotText(x: Snapshot): string {
    match x case Placeholder => "{}" case Completed(m) => Stored(Receipted(m))
  }

  /** The database lookup: the source of truth. */
  function FindRow(db: Db, k: Key, ok: bool): Lookup {
    if !ok then LookupError else if k in db.keys then Found(SnapshotText(db.keys[k])) else NoRecord
  }

  /** RedisResponseCache.Get: a miss, an error and an unreadable text are all no hit. */
  function CacheGet(prefix: string, cache: map<string, string>, k: Key, ok: bool): Option<Response> {
    if ok && EntryFor(prefix, k) in cache then ParseResponse(cache[EntryFor(prefix, k)]) else None
  }

  /** CompositeLookup.FindByAccountAndKey: the cached response marshalled again, or the row. */
  function FindFirst(prefix: string, s: Cached, k: Key, redisOk: bool, dbOk: bool): Lookup {
    match CacheGet(prefix, s.cache, k, redisOk)
    case Some(r) => Found(Marshalled(r))
    case None => FindRow(s.sys.db, k, dbOk)
  }

  datatype Verdict = ReplayWith(r: Response) | Conflict | PassOn | ServerError

  /** What the middleware does with a lookup. */
  function FastPath(found: Lookup): Verdict {
    match found
    case NoRecord => PassOn
    case LookupError => ServerError
    case Found(snapshot) =>
      match ParseResponse(snapshot)
      case None => Conflict
      case Some(r) => ReplayWith(r)
  }

  // ----- invariant ----------------------------------------------------------------------------------

  /** The entry belongs to a committed, completed key and says what its row says. */
  ghost predicate Backed(prefix: string, keys: map<Key, Snapshot>, entry: string, text: string, k: Key) {
    && k in keys && k.account < UUIDS && keys[k].Completed?
    && entry == EntryFor(prefix, k) && text == Marshalled(Receipted(keys[k].message))
  }

  ghost predicate AllBacked(prefix: string, keys: map<Key, Snapshot>, cache: map<string, string>) {
    forall entry | entry in cache :: exists k :: Backed(prefix, keys, entry, cache[entry], k)
  }

  ghost predicate Drawn(s: Sys) {
    && (forall t | t in s.txs :: SmallIds(s.txs[t].req))
    && (forall q | q in s.answers :: SmallIds(q.0))
    && KeysDrawn(s.db.keys)
  }

  ghost predicate KeysDrawn(keys: map<Key, Snapshot>) {
    forall k | k in keys && keys[k].Completed? :: keys[k].message < UUIDS
  }

  ghost predicate CacheInv(prefix: string, accounts: set<Uuid>, s: Cached) {
    && Inv(Opened(accounts), s.sys) && Drawn(s.sys)
    && AllBacked(prefix, s.sys.db.keys, s.cache)
  }

  ghost predicate KeysKept(before: map<Key, Snapshot>, after: map<Key, Snapshot>) {
    forall k | k in before :: k in after && after[k] == before[k]
  }

  /** No step of any transaction removes or rewrites a committed key. */
  lemma StepKeepsKeys(start: Db, s: Sys, t: nat, step: TxStep)
    requires Inv(start, s) && TxEnabled(s, t, step)
    ensures KeysKept(s.db.keys, TxNext(s, t, step).db.keys)
  {
    if step.Commit? && step.io.Applied() {
      assert InStep(s.db, s.txs[t]);
      CommitIsApply(s.db, s.txs[t]);
      hide InStep, Overlay, Wrap64, Separate, Serial;
    } else {
      AbortLeavesNoTrace(s, t, step);
    }
  }

  lemma CommitDrawn(db: Db, x: Tx)
    requires InStep(db, x) && x.pc.Committing? && SmallIds(x.req) && KeysDrawn(db.keys)
    ensures KeysDrawn(Overlay(db, x.delta).keys)
  {
    hide Wrap64;
  }

  lemma StepDrawn(start: Db, s: Sys, t: nat, step: TxStep)
    requires Inv(start, s) && Drawn(s) && TxEnabled(s, t, step) && (step.Begin? ==> SmallIds(step.req))
    ensures Drawn(TxNext(s, t, step))
  {
    if step.Commit? {
      assert InStep(s.db, s.txs[t]);
      CommitDrawn(s.db, s.txs[t]);
    }
    if step.Statement? && NextStatement(s, t).Go? {
      assert InStep(s.db, s.txs[t]);
      StatementInStep(s, t);
    }
    hide NextStatement, InStep, StatementReady, Separate, Serial, FreshIds, Overlay, KeysDrawn, SmallIds;
  }

  lemma BackedStays(prefix: string, before: map<Key, Snapshot>, after: map<Key, Snapshot>, cache: map<string, string>)
    requires AllBacked(prefix, before, cache) && KeysKept(before, after)
    ensures AllBacked(prefix, after, cache)
  {
    hide EntryFor, Receipted, Marshalled;
    forall entry | entry in cache ensures exists k :: Backed(prefix, after, entry, cache[entry], k) {
      var k :| Backed(prefix, before, entry, cache[entry], k);
      assert Backed(prefix, after, entry, cache[entry], k);
    }
  }

  /** What a caller was told with a key is what the key's row says. */
  lemma AnswerIsCommitted(start: Db, s: Sys, req: Request, reply: Reply)
    requires Inv(start, s) && (req, reply) in s.answers && reply.Receipt? && req.Send? && KeyOf(req).Some?
    ensures KeyOf(req).value in s.db.keys && s.db.keys[KeyOf(req).value] == Completed(reply.message)
  {
    hide AllInStep, Separate;
    var q := (req, reply);
    var i :| 0 <= i < |s.log| && s.log[i] == q.0 && s.replies[i] == q.1;
    SuccessCommits(start, s.log, i);
  }

  lemma FillBacked(prefix: string, start: Db, s: Cached, req: Request, reply: Reply, io: Io)
    requires Inv(start, s.sys) && Drawn(s.sys) && AllBacked(prefix, s.sys.db.keys, s.cache)
    requires CacheEnabled(s, Fill(req, reply, io))
    ensures AllBacked(prefix, s.sys.db.keys, CacheNext(prefix, s, Fill(req, reply, io)).cache)
  {
    AnswerIsCommitted(start, s.sys, req, reply);
    assert SmallIds((req, reply).0);
    hide Inv, Drawn, EntryFor, Receipted, Marshalled;
    var s' := CacheNext(prefix, s, Fill(req, reply, io));
    var own := EntryFor(prefix, KeyOf(req).value);
    forall entry | entry in s'.cache ensures exists k :: Backed(prefix, s.sys.db.keys, entry, s'.cache[entry], k) {
      if entry == own && io.Applied() {
        assert Backed(prefix, s.sys.db.keys, entry, s'.cache[entry], KeyOf(req).value);
      } else {
        var k :| Backed(prefix, s.sys.db.keys, entry, s.cache[entry], k);
      }
    }
  }

  lemma CacheInvStep(prefix: string, accounts: set<Uuid>, s: Cached, step: CacheStep)
    requires CacheInv(prefix, accounts, s) && CacheEnabled(s, step)
    ensures CacheInv(prefix, accounts, CacheNext(prefix, s, step))
    ensures KeysKept(s.sys.db.keys, CacheNext(prefix, s, step).sys.db.keys)
  {
    var start := Opened(accounts);
    hide Inv, Drawn, TxNext, TxEnabled;
    match step
    case Tx(t, st) =>
      TxInvStep(start, s.sys, t, st);
      StepDrawn(start, s.sys, t, st);
      StepKeepsKeys(start, s.sys, t, st);
      BackedStays(prefix, s.sys.db.keys, TxNext(s.sys, t, st).db.keys, s.cache);
    case Fill(req, reply, io) =>
      FillBacked(prefix, start, s, req, reply, io);
    case Evict(entry) =>
      hide Backed;
  }

  lemma {:induction false} CacheInvRun(prefix: string, accounts: set<Uuid>, s: Cached, steps: seq<CacheStep>, u: Cached)
    requires CacheInv(prefix, accounts, s) && CacheRun(prefix, s, steps, u)
    ensures CacheInv(prefix, accounts, u) && KeysKept(s.sys.db.keys, u.sys.db.keys)
    decreases |steps|
  {
    hide CacheInv, CacheNext, CacheEnabled;
    if steps != [] {
      CacheInvStep(prefix, accounts, s, steps[0]);
      CacheInvRun(prefix, accounts, CacheNext(prefix, s, steps[0]), steps[1..], u);
    }
  }

  lemma CacheInvReachable(prefix: string, accounts: set<Uuid>, s: Cached)
    requires CacheReachable(prefix, accounts, s)
    ensures CacheInv(prefix, accounts, s)
  {
    hide CacheRun;
    var init := Cached(InitSys(accounts), map[]);
    var steps :| CacheRun(prefix, init, steps, s);
    CacheInvRun(prefix, accounts, init, steps, s);
  }

  lemma ReceiptReads(m: Uuid)
    ensures ParseResponse(Stored(Receipted(m))) == Some(Receipted(m))
    ensures ParseResponse(Marshalled(Receipted(m))) == Some(Receipted(m))
  {
    hide ParseResponse, Marshalled, Stored, UuidText;
    ResponseRoundTrip(Receipted(m));
  }

  lemma Owner(prefix: string, keys: map<Key, Snapshot>, cache: map<string, string>, k: Key)
    requires AllBacked(prefix, keys, cache) && k.account < UUIDS && EntryFor(prefix, k) in cache
    ensures k in keys && keys[k].Completed? && cache[EntryFor(prefix, k)] == Marshalled(Receipted(keys[k].message))
  {
    hide Marshalled, Receipted, CacheKey;
    var entry := EntryFor(prefix, k);
    var owner :| Backed(prefix, keys, entry, cache[entry], owner);
    CacheKeyInjective(prefix, k.account, k.name, owner.account, owner.name);
    assert owner == k;
  }

  // ----- main results -------------------------------------------------------------------------------

  /** A cache hit reads as the response in the committed row. */
  lemma HitIsTheRow(prefix: string, accounts: set<Uuid>, s: Cached, k: Key)
    requires CacheReachable(prefix, accounts, s) && k.account < UUIDS
    requires EntryFor(prefix, k) in s.cache
    ensures k in s.sys.db.keys && s.sys.db.keys[k].Completed?
    ensures CacheGet(prefix, s.cache, k, true) == Some(Receipted(s.sys.db.keys[k].message))
    ensures ParseResponse(SnapshotText(s.sys.db.keys[k])) == CacheGet(prefix, s.cache, k, true)
  {
    CacheInvReachable(prefix, accounts, s);
    hide Inv, Drawn, CacheReachable, ParseResponse, Marshalled, Stored, Receipted, EntryFor, AllBacked;
    Owner(prefix, s.sys.db.keys, s.cache, k);
    ReceiptReads(s.sys.db.keys[k].message);
  }

  predicate Hit(prefix: string, s: Cached, k: Key, redisOk: bool) { redisOk && EntryFor(prefix, k) in s.cache }

  /** The Redis-first lookup refines the database lookup: whatever was evicted and whether or not
      Redis answers, the middleware decides as it would on a working database alone, unless there is no
      hit and the database fails; a hit never depends on the database. */
  lemma LookupRefinesDatabase(prefix: string, accounts: set<Uuid>, s: Cached, k: Key, redisOk: bool, dbOk: bool)
    requires CacheReachable(prefix, accounts, s) && k.account < UUIDS
    ensures FastPath(FindFirst(prefix, s, k, redisOk, dbOk))
            == if dbOk || Hit(prefix, s, k, redisOk) then FastPath(FindRow(s.sys.db, k, true)) else ServerError
    ensures FastPath(FindFirst(prefix, s, k, redisOk, dbOk)) == ServerError <==> !dbOk && !Hit(prefix, s, k, redisOk)
    ensures Hit(prefix, s, k, redisOk) ==> FastPath(FindFirst(prefix, s, k, redisOk, dbOk)).ReplayWith?
  {
    hide CacheReachable, ParseResponse, Marshalled, Stored, Receipted, EntryFor;
    if Hit(prefix, s, k, redisOk) {
      HitIsTheRow(prefix, accounts, s, k);
      ReceiptReads(s.sys.db.keys[k].message);
    }
  }

  /** A successful send whose cache write took effect is replayed from Redis alone: with the database
      down, with the message the send answered, until the entry is evicted. */
  lemma FilledIsFound(prefix: string, accounts: set<Uuid>, s: Cached, req: Request, reply: Reply, io: Io, dbOk: bool)
    requires CacheReachable(prefix, accounts, s) && CacheEnabled(s, Fill(req, reply, io)) && io.Applied()
    ensures var u, k := CacheNext(prefix, s, Fill(req, reply, io)), KeyOf(req).value;
            && Hit(prefix, u, k, true)
            && FastPath(FindFirst(prefix, u, k, true, dbOk)) == ReplayWith(Receipted(reply.message))
  {
    hide CacheReachable, ParseResponse, Marshalled, Receipted, EntryFor, Stored;
    ReceiptReads(reply.message);
  }

  /** Only its eviction takes a hit away. */
  lemma HitStays(prefix: string, s: Cached, step: CacheStep, k: Key)
    requires CacheEnabled(s, step) && Hit(prefix, s, k, true)
    ensures step == Evict(EntryFor(prefix, k)) || Hit(prefix, CacheNext(prefix, s, step), k, true)
  {
    hide EntryFor, TxNext, TxEnabled, Marshalled;
  }

  /** The fast path agrees with Send: it replays a message exactly when the key is committed, with
      the message a Send with that key would answer, and never reports a conflict. */
  lemma FastPathAgreesWithSend(prefix: string, accounts: set<Uuid>, s: Cached, req: Request, redisOk: bool)
    requires CacheReachable(prefix, accounts, s)
    requires req.Send? && KeyOf(req).Some? && req.account < UUIDS
    ensures var verdict := FastPath(FindFirst(prefix, s, KeyOf(req).value, redisOk, true));
            && (verdict.ReplayWith? || verdict == PassOn)
            && (verdict == PassOn <==> KeyOf(req).value !in s.sys.db.keys)
            && (verdict.ReplayWith? ==>
                  && UuidOf(verdict.r.message).Some?
                  && ApplySend(s.sys.db, req) == (s.sys.db, Receipt(UuidOf(verdict.r.message).value))
                  && verdict.r.status == ACCEPTED)
  {
    hide CacheReachable, FindFirst, ParseResponse, UuidOf, UuidText, Stored, ApplySend, Inv, Drawn, AllBacked;
    var k := KeyOf(req).value;
    LookupRefinesDatabase(prefix, accounts, s, k, redisOk, true);
    CacheInvReachable(prefix, accounts, s);
    if k in s.sys.db.keys { CommittedKey(accounts, s.sys, k); RowAgreesWithSend(s.sys.db, req); }
  }

  lemma CommittedKey(accounts: set<Uuid>, s: Sys, k: Key)
    requires Inv(Opened(accounts), s) && Drawn(s) && k in s.db.keys
    ensures s.db.keys[k].Completed? && s.db.keys[k].message < UUIDS
  {
    hide BalancesExact, LedgerBijective, OutboxBijective, Separate, AllInStep, Apply, SmallIds;
    ReplayValid(accounts, s.log);
  }

  lemma RowAgreesWithSend(db: Db, req: Request)
    requires req.Send? && KeyOf(req).Some? && KeyOf(req).value in db.keys
    requires db.keys[KeyOf(req).value].Completed? && db.keys[KeyOf(req).value].message < UUIDS
    ensures var verdict := FastPath(FindRow(db, KeyOf(req).value, true));
            && verdict.ReplayWith? && verdict.r.status == ACCEPTED && UuidOf(verdict.r.message).Some?
            && ApplySend(db, req) == (db, Receipt(UuidOf(verdict.r.message).value))
  {
    hide ParseResponse, Stored, UuidOf, UuidText;
    var m := db.keys[KeyOf(req).value].message;
    ReceiptReads(m);
    UuidRoundTrip(m);
  }

  /** What was replayed once is replayed for good, from either store. */
  lemma ReplayIsForGood(prefix: string, accounts: set<Uuid>, s: Cached, steps: seq<CacheStep>, u: Cached, k: Key,
                        redisOk: bool, redisOk': bool)
    requires CacheReachable(prefix, accounts, s) && CacheRun(prefix, s, steps, u) && k.account < UUIDS
    requires FastPath(FindFirst(prefix, s, k, redisOk, true)).ReplayWith?
    ensures FastPath(FindFirst(prefix, u, k, redisOk', true)) == FastPath(FindFirst(prefix, s, k, redisOk, true))
  {
    CacheInvReachable(prefix, accounts, s);
    CacheInvRun(prefix, accounts, s, steps, u);
    LookupRefinesDatabase(prefix, accounts, s, k, redisOk, true);
    ReachableOnwards(prefix, accounts, s, steps, u);
    LookupRefinesDatabase(prefix, accounts, u, k, redisOk', true);
  }

  lemma ReachableOnwards(prefix: string, accounts: set<Uuid>, s: Cached, steps: seq<CacheStep>, u: Cached)
    requires CacheReachable(prefix, accounts, s) && CacheRun(prefix, s, steps, u)
    ensures CacheReachable(prefix, accounts, u)
  {
    hide CacheRun;
    var init := Cached(InitSys(accounts), map[]);
    var before :| CacheRun(prefix, init, before, s);
    CacheRunConcat(prefix, init, before, s, steps, u);
  }

  lemma {:induction false} CacheRunConcat(prefix: string, s: Cached, a: seq<CacheStep>, t: Cached, b: seq<CacheStep>, u: Cached)
    requires CacheRun(prefix, s, a, t) && CacheRun(prefix, t, b, u)
    ensures CacheRun(prefix, s, a + b, u)
    decreases |a|
  {
    hide CacheNext, CacheEnabled;
    if a == [] {
      assert a + b == b;
    } else {
      CacheRunConcat(prefix, CacheNext(prefix, s, a[0]), a[1..], t, b, u);
      assert (a + b)[1..] == a[1..] + b;
    }
  }
}
