/** The sliding-window limiter: a pruned sorted set standing in for the whole history of one
    account, with scores stored as doubles, and the Retry-After it answers. Instants and horizons
    are Unix nanoseconds between 2^60 and 2^61 (2006 to 2043), where doubles are 256 apart. */
module RateLimit {
  import opened Base

  const SECOND: int := 1_000_000_000
  const DEFAULT_LIMIT: int := 100
  const SPACING: int := 256
  const FIRST: int := 0x1000_0000_0000_0000    // 2^60
  const BEYOND: int := 0x2000_0000_0000_0000   // 2^61

  /** The double nearest to an integer, ties to the even one. */
  function Score(t: int): int {
    var q, r := t / SPACING, t % SPACING;
    if r < SPACING / 2 || (r == SPACING / 2 && q % 2 == 0) then q * SPACING else (q + 1) * SPACING
  }

  lemma ScoreNear(t: int)
    ensures -SPACING / 2 <= Score(t) - t <= SPACING / 2
    ensures Score(t) % SPACING == 0
  {
  }

  lemma ScoreMonotone(t: int, u: int)
    requires t <= u
    ensures Score(t) <= Score(u)
  {
    assert t / SPACING <= u / SPACING;
  }

  lemma ScoreFixed(t: int)
    ensures Score(Score(t)) == Score(t)
  {
    ScoreNear(t);
  }

  // ----- the sorted set ---------------------------------------------------------------------------

  /** ZREMRANGEBYSCORE key 0 horizon: the bound is rounded like every score. */
  function Pruned(zset: set<int>, horizon: int): set<int> {
    set t | t in zset && Score(t) > Score(horizon)
  }

  function Instants(history: seq<int>): set<int> { set t | t in history }

  /** The allowed calls a limiter with the whole history would still count at `now`. */
  function Live(history: seq<int>, horizon: int): set<int> { Pruned(Instants(history), horizon) }

  /** Allowed calls in the half-open window (from, upto]. */
  function Window(history: seq<int>, from: int, upto: int): set<int> {
    set t | t in history && from < t <= upto
  }

  ghost predicate Increasing(history: seq<int>) {
    forall j, k | 0 <= j < k < |history| :: history[j] < history[k]
  }

  ghost predicate WithinLimit(history: seq<int>, k: int, window: int, limit: int)
    requires 0 <= k < |history|
  {
    |Live(history[..k], history[k] - window) + {history[k]}| <= limit
  }

  /** Every call in the history was within the limit when it was allowed. */
  ghost predicate Admitted(history: seq<int>, window: int, limit: int) {
    forall k | 0 <= k < |history| :: WithinLimit(history, k, window, limit)
  }

  lemma SubsetSize(a: set<int>, b: set<int>)
    requires a <= b
    ensures |a| <= |b|
  {
    assert b == a + (b - a);
  }

  /** Allowing a call that the pruned set has room for keeps the whole history within the limit. */
  lemma AdmitOne(history: seq<int>, now: int, window: int, limit: int, zset: set<int>)
    requires Admitted(history, window, limit)
    requires Live(history, now - window) <= zset && |zset + {now}| <= limit
    ensures Admitted(history + [now], window, limit)
    ensures Live(history + [now], now - window) <= Live(history, now - window) + {now}
  {
    hide Score;
    var extended := history + [now];
    forall k | 0 <= k < |extended| ensures WithinLimit(extended, k, window, limit) {
      if k < |history| {
        assert WithinLimit(history, k, window, limit);
        assert extended[..k] == history[..k];
      } else {
        assert extended[..k] == history;
        SubsetSize(Live(history, now - window) + {now}, zset + {now});
      }
    }
  }

  /** No call outside the window survives pruning; pruning is exact precisely when no call inside
      it has been rounded down to the horizon. */
  lemma PruningExactIff(history: seq<int>, now: int, window: int)
    requires window >= 0 && forall t | t in Instants(history) :: t <= now
    ensures Live(history, now - window) <= Window(history, now - window, now)
    ensures Live(history, now - window) == Window(history, now - window, now)
            <==> forall t | t in Window(history, now - window, now) :: Score(t) > Score(now - window)
  {
    hide Score;
    forall t | t in Instants(history) && Score(t) > Score(now - window)
      ensures t in Window(history, now - window, now)
    {
      if t <= now - window { ScoreMonotone(t, now - window); }
    }
  }

  /** The newest call of a window, by position. */
  lemma {:induction false} Newest(history: seq<int>, from: int, upto: int) returns (k: nat)
    requires Window(history, from, upto) != {}
    ensures k < |history| && from < history[k] <= upto
    ensures Window(history, from, upto) <= Instants(history[..k + 1])
  {
    var last := |history| - 1;
    if from < history[last] <= upto {
      k := last;
      assert history[..k + 1] == history;
    } else {
      var shorter := history[..last];
      assert history == shorter + [history[last]];
      assert Window(shorter, from, upto) == Window(history, from, upto);
      k := Newest(shorter, from, upto);
      assert shorter[..k + 1] == history[..k + 1];
    }
  }

  lemma NearEnough(t: int, newest: int, from: int, window: int)
    requires from < t && newest <= from + window - SPACING
    ensures Score(t) > Score(newest - window)
  {
    assert t / SPACING >= (from + 1) / SPACING >= 0 + (newest - window + SPACING + 1) / SPACING;
  }

  lemma WindowWithin(history: seq<int>, window: int, limit: int, from: int, upto: int)
    requires Admitted(history, window, limit) && limit >= 0
    requires forall t, u | t in Window(history, from, upto) && u in Window(history, from, upto)
               :: Score(t) > Score(u - window)
    ensures |Window(history, from, upto)| <= limit
  {
    hide Score;
    var w := Window(history, from, upto);
    if w != {} {
      var k := Newest(history, from, upto);
      assert history[k] in w;
      assert WithinLimit(history, k, window, limit);
      var counted := Live(history[..k], history[k] - window) + {history[k]};
      forall t | t in w ensures t in counted {
        assert t in Instants(history[..k + 1]);
        assert history[..k + 1] == history[..k] + [history[k]];
      }
      SubsetSize(w, counted);
    }
  }

  /** The limit holds in every window shorter than the configured one by the spacing of doubles. */
  lemma WindowBound(history: seq<int>, window: int, limit: int, from: int)
    requires Admitted(history, window, limit) && limit >= 0
    ensures |Window(history, from, from + window - SPACING)| <= limit
  {
    hide Score;
    var w := Window(history, from, from + window - SPACING);
    forall t, u | t in w && u in w ensures Score(t) > Score(u - window) {
      NearEnough(t, u, from, window);
    }
    WindowWithin(history, window, limit, from, from + window - SPACING);
  }

  /** It holds in the whole configured window when every instant is a double. */
  lemma WindowBoundExact(history: seq<int>, window: int, limit: int, from: int)
    requires Admitted(history, window, limit) && limit >= 0
    requires window % SPACING == 0 && forall t | t in Instants(history) :: Score(t) == t
    ensures |Window(history, from, from + window)| <= limit
  {
    var w := Window(history, from, from + window);
    forall t, u | t in w && u in w ensures Score(t) > Score(u - window) {
      assert t in Instants(history) && u in Instants(history);
      Aligned(u, window);
    }
    WindowWithin(history, window, limit, from, from + window);
  }

  lemma Aligned(u: int, window: int)
    requires window % SPACING == 0 && Score(u) == u
    ensures Score(u - window) == u - window
  {
    ScoreNear(u);
  }

  // ----- the bound is tight ---------------------------------------------------------------------------

  /** Every instant and every horizon is in the range where doubles are 256 apart. */
  ghost predicate InRange(history: seq<int>, window: int) {
    forall k | 0 <= k < |history| :: FIRST <= history[k] - window && history[k] < BEYOND
  }

  ghost predicate Fits(history: seq<int>, from: int, length: int, limit: int) {
    |Window(history, from, from + length)| <= limit
  }

  /** Whatever calls are allowed and wherever the window starts, it holds no more than the limit. */
  ghost predicate AlwaysFits(window: int, limit: int, length: int) {
    forall history, from | Increasing(history) && Admitted(history, window, limit) && InRange(history, window)
      :: Fits(history, from, length, limit)
  }

  /** `n` calls, a nanosecond apart. */
  function Burst(t0: int, n: nat): (calls: seq<int>)
    ensures |calls| == n && forall k | 0 <= k < n :: calls[k] == t0 + k
  {
    if n == 0 then [] else Burst(t0, n - 1) + [t0 + n - 1]
  }

  /** An instant that is stored as the same double as the one 256 nanoseconds before it: one is a tie
      rounded down, the other a tie rounded up. */
  function TiedInstant(window: int): int {
    FIRST + 2 * SPACING * (window / (2 * SPACING) + 1) + SPACING / 2
  }

  lemma TiedDown(window: int)
    requires 0 < window <= FIRST / 4
    ensures Score(TiedInstant(window)) == Score(TiedInstant(window) - SPACING)
    ensures FIRST + window <= TiedInstant(window) && TiedInstant(window) + window < BEYOND
  {
    var t := TiedInstant(window);
    var q := FIRST / SPACING + 2 * (window / (2 * SPACING) + 1);
    assert t == q * SPACING + SPACING / 2 && q % 2 == 0;
    assert t / SPACING == q && t % SPACING == SPACING / 2;
    assert (t - SPACING) / SPACING == q - 1 && (t - SPACING) % SPACING == SPACING / 2;
  }

  lemma {:induction false} BurstSize(t0: int, n: nat)
    ensures |Instants(Burst(t0, n))| == n
    ensures forall t | t in Instants(Burst(t0, n)) :: t0 <= t < t0 + n
  {
    if n == 0 {
      assert Instants(Burst(t0, 0)) == {};
    } else {
      BurstSize(t0, n - 1);
      assert Instants(Burst(t0, n)) == Instants(Burst(t0, n - 1)) + {t0 + n - 1};
    }
  }

  lemma NoneAdmitted(window: int, limit: int)
    ensures Admitted([], window, limit)
  {
  }

  lemma LiveAmong(history: seq<int>, horizon: int)
    ensures Live(history, horizon) <= Instants(history)
  {
  }

  lemma OneMore(a: set<int>, x: int)
    ensures |a + {x}| <= |a| + 1
  {
  }

  /** The calls of a burst that is no longer than the limit are all allowed. */
  lemma {:induction false} BurstAdmitted(t0: int, n: nat, window: int, limit: int)
    requires n <= limit
    ensures Admitted(Burst(t0, n), window, limit)
  {
    hide Score, Admitted, Live, Instants;
    if n == 0 {
      NoneAdmitted(window, limit);
    } else {
      var before := Burst(t0, n - 1);
      BurstAdmitted(t0, n - 1, window, limit);
      BurstSize(t0, n - 1);
      LiveAmong(before, t0 + n - 1 - window);
      OneMore(Instants(before), t0 + n - 1);
      AdmitOne(before, t0 + n - 1, window, limit, Instants(before));
    }
  }

  /** So is one call more, once its horizon is stored as the double the first call is stored as. */
  lemma OneTooMany(t0: int, limit: nat, window: int, t1: int)
    requires limit > 0 && t1 >= t0 + limit && Score(t0) <= Score(t1 - window)
    ensures Admitted(Burst(t0, limit) + [t1], window, limit)
  {
    hide Score, Admitted;
    var burst := Burst(t0, limit);
    BurstAdmitted(t0, limit, window, limit);
    BurstSize(t0, limit);
    assert burst[0] == t0;
    AdmitOne(burst, t1, window, limit, Instants(burst) - {t0});
  }

  lemma BurstWindow(t0: int, n: nat, t1: int)
    requires t1 >= t0 + n
    ensures |Window(Burst(t0, n) + [t1], t0 - 1, t1)| == n + 1
  {
    BurstSize(t0, n);
    assert Window(Burst(t0, n) + [t1], t0 - 1, t1) == Instants(Burst(t0, n)) + {t1};
  }

  /** One nanosecond more than the bound, and the limit is exceeded: `limit` calls in a burst and one
      more `window - 256` after the first of them are all allowed. */
  lemma WindowBoundTight(window: int, limit: int) returns (history: seq<int>, from: int)
    requires 0 < limit && limit + SPACING < window <= FIRST / 4
    ensures Increasing(history) && Admitted(history, window, limit) && InRange(history, window)
    ensures |Window(history, from, from + (window - SPACING + 1))| == limit + 1
  {
    hide Score, Admitted, Burst, Window, TiedInstant;
    var t0 := TiedInstant(window);
    var t1 := t0 + window - SPACING;
    TiedDown(window);
    OneTooMany(t0, limit, window, t1);
    BurstWindow(t0, limit, t1);
    history, from := Burst(t0, limit) + [t1], t0 - 1;
    assert from + (window - SPACING + 1) == t1;
  }

  lemma WindowGrows(history: seq<int>, from: int, upto: int, later: int)
    requires upto <= later
    ensures |Window(history, from, upto)| <= |Window(history, from, later)|
  {
    SubsetSize(Window(history, from, upto), Window(history, from, later));
  }

  /** The limit is kept in every window of a given length if and only if that length falls short of
      the configured window by the spacing of doubles. */
  lemma WindowBoundIff(window: int, limit: int, length: int)
    requires 0 < limit && limit + SPACING < window <= FIRST / 4
    ensures AlwaysFits(window, limit, length) <==> length <= window - SPACING
  {
    hide Score, Admitted, Window;
    if length <= window - SPACING {
      forall history, from | Increasing(history) && Admitted(history, window, limit) && InRange(history, window)
        ensures Fits(history, from, length, limit)
      {
        WindowBound(history, window, limit, from);
        WindowGrows(history, from, from + length, from + window - SPACING);
      }
    } else {
      var history, from := WindowBoundTight(window, limit);
      WindowGrows(history, from, from + (window - SPACING + 1), from + length);
      assert !Fits(history, from, length, limit);
    }
  }

  // ----- Retry-After --------------------------------------------------------------------------------

  function Scores(zset: set<int>): set<int> { set t | t in zset :: Score(t) }

  /** ZRANGE key 0 0 WITHSCORES: the lowest stored score. */
  function LowestScore(zset: set<int>): (lowest: int)
    requires zset != {}
    ensures exists t :: t in zset && Score(t) == lowest
    ensures forall t | t in zset :: lowest <= Score(t)
  {
    hide Score;
    Inhabited(zset);
    var t :| t in zset;
    assert forall u | u in zset :: Score(u) in Scores(zset);
    Least(Scores(zset));
    var lowest :| lowest in Scores(zset) && forall other | other in Scores(zset) :: lowest <= other;
    lowest
  }

  lemma {:induction false} Least(scores: set<int>)
    requires scores != {}
    ensures exists lowest :: lowest in scores && forall other | other in scores :: lowest <= other
  {
    Inhabited(scores);
    var x :| x in scores;
    var rest := scores - {x};
    if rest == {} {
      assert scores == {x};
    } else {
      Least(rest);
      var y :| y in rest && forall other | other in rest :: y <= other;
      var lowest := if x < y then x else y;
      assert lowest in scores;
      forall other | other in scores ensures lowest <= other {
        assert other == x || other in rest;
      }
    }
  }

  function Larger(a: int, b: int): int { if a < b then b else a }

  /** The time until the oldest entry leaves the window, as computed a moment later, floored at a second. */
  function RetryAfter(zset: set<int>, window: int, later: int): (wait: int)
    ensures zset != {} ==> wait == Larger(SECOND, LowestScore(zset) + window - later)
    ensures zset == {} ==> wait == window
  {
    if zset == {} then window
    else
      var wait := LowestScore(zset) + window - later;
      if wait < SECOND then SECOND else wait
  }

  /** The Retry-After header: rounded up to whole seconds, at least one. */
  function HeaderSeconds(retryAfter: int): (seconds: int)
    ensures seconds >= 1 && seconds * SECOND >= retryAfter
    ensures seconds == 1 || (seconds - 1) * SECOND < retryAfter
  {
    var seconds := (retryAfter + SECOND - 1) / SECOND;
    if seconds < 1 then 1 else seconds
  }

  /** When a client that obeys the header is back at the earliest. */
  function Earliest(later: int, retryAfter: int): int { later + HeaderSeconds(retryAfter) * SECOND }

  // ----- the limiter --------------------------------------------------------------------------------

  /** EXPIRE takes whole seconds, so `window + 1s` loses its fraction; it still outlasts the window. */
  function TimeToLive(window: int): (ttl: int)
    ensures window < ttl <= window + SECOND && ttl % SECOND == 0
  {
    (window + SECOND) / SECOND * SECOND
  }

  /** How the pipeline of ZREMRANGEBYSCORE, ZADD, EXPIRE, ZCARD went: all four commands and their
      replies, or an error after some of them took effect. */
  datatype Pipeline = Ran | Broke(executed: nat)

  datatype AllowResult = Allowed | Denied(retryAfter: int) | Failed

  lemma Extend(history: seq<int>, last: int, now: int)
    requires Increasing(history) && AtMost(Instants(history), last) && last < now
    ensures Increasing(history + [now])
    ensures Instants(history + [now]) == Instants(history) + {now}
  {
    assert forall k | 0 <= k < |history| :: history[k] in Instants(history);
  }

  /** Members left behind only make the limiter stricter; without any it is exact. */
  lemma Decision(live: set<int>, leftovers: set<int>, pruned: set<int>, now: int, limit: int)
    requires live <= pruned <= live + leftovers && now !in pruned && |live| <= limit
    ensures |live + {now}| <= |pruned + {now}| && pruned + {now} - {now} == pruned
    ensures leftovers == {} ==> pruned == live && (|pruned + {now}| > limit ==> |pruned| == limit)
    ensures |pruned + {now}| > limit ==> |pruned| >= limit
  {
    SubsetSize(live + {now}, pruned + {now});
    assert pruned + {now} - {now} == pruned;
  }

  /** Live calls are held, and by a key that outlives them. */
  ghost predicate Remembers(live: set<int>, window: int, zset: set<int>, expiry: Option<int>) {
    live <= zset && (expiry.Some? ==> forall t | t in live :: t + window < expiry.value)
  }

  ghost predicate AtMost(instants: set<int>, bound: int) { forall t | t in instants :: t <= bound }

  ghost predicate Sound(history: seq<int>, leftovers: set<int>, last: int, window: int, limit: int,
                        zset: set<int>, expiry: Option<int>)
  {
    && window > 0 && limit > 0
    && Increasing(history) && Admitted(history, window, limit)
    && AtMost(Instants(history), last) && AtMost(zset, last)
    && Remembers(Live(history, last - window), window, zset, expiry)
    && zset <= Instants(history) + leftovers
  }

  /** What Redis still holds at `now`: nothing once the key has expired. */
  function Unexpired(zset: set<int>, expiry: Option<int>, now: int): set<int> {
    if expiry.Some? && expiry.value <= now then {} else zset
  }

  /** What pruning leaves of it. */
  function Kept(zset: set<int>, expiry: Option<int>, now: int, window: int): set<int> {
    Pruned(Unexpired(zset, expiry, now), now - window)
  }

  /** A call at `now` finds room: its own member included, the set is within the limit. */
  predicate HasRoom(zset: set<int>, expiry: Option<int>, now: int, window: int, limit: int) {
    |Kept(zset, expiry, now, window) + {now}| <= limit
  }

  /** The set after the first commands of the pipeline. */
  function Executed(zset: set<int>, expiry: Option<int>, now: int, window: int, executed: nat): set<int> {
    var present := Unexpired(zset, expiry, now);
    var pruned := if executed == 0 then present else Pruned(present, now - window);
    if executed > 1 then pruned + {now} else pruned
  }

  lemma ExecutedWithin(zset: set<int>, expiry: Option<int>, now: int, window: int, executed: nat)
    ensures Kept(zset, expiry, now, window) <= Executed(zset, expiry, now, window, executed) <= zset + {now}
  {
  }

  // ----- is the wait long enough? ---------------------------------------------------------------------

  lemma PrunedShrinks(zset: set<int>, horizon: int, later: int)
    requires horizon <= later
    ensures |Pruned(zset, later)| <= |Pruned(zset, horizon)|
  {
    hide Score;
    ScoreMonotone(horizon, later);
    SubsetSize(Pruned(zset, later), Pruned(zset, horizon));
  }

  lemma AllPruned(zset: set<int>, last: int, horizon: int)
    requires AtMost(zset, last) && last <= horizon
    ensures Pruned(zset, horizon) == {}
  {
    hide Score;
    forall t | t in zset ensures Score(t) <= Score(horizon) { ScoreMonotone(t, horizon); }
  }

  /** Whether the key has expired makes no difference to whether there is room. */
  lemma RoomIsPruned(zset: set<int>, expiry: Option<int>, last: int, window: int, limit: int, again: int)
    requires AtMost(zset, last) && last < again && limit > 0
    requires zset != {} && expiry.Some? ==> last + window < expiry.value
    ensures HasRoom(zset, expiry, again, window, limit) <==> |Pruned(zset, again - window)| < limit
  {
    if expiry.Some? && expiry.value <= again && zset != {} {
      AllPruned(zset, last, again - window);
    }
    hide Score;
    assert again !in zset;
  }

  /** A client that is refused and comes back alone is let in however long after the earliest time it
      comes, if and only if at that earliest time fewer than `limit` of the members the refusal left
      behind are still in the window. */
  lemma RetryIsEnoughIff(zset: set<int>, expiry: Option<int>, last: int, window: int, limit: int, earliest: int)
    requires AtMost(zset, last) && last < earliest && limit > 0
    requires zset != {} && expiry.Some? ==> last + window < expiry.value
    ensures (forall again | again >= earliest :: HasRoom(zset, expiry, again, window, limit))
            <==> |Pruned(zset, earliest - window)| < limit
  {
    hide HasRoom;
    RoomIsPruned(zset, expiry, last, window, limit, earliest);
    forall again | again >= earliest && |Pruned(zset, earliest - window)| < limit
      ensures HasRoom(zset, expiry, again, window, limit)
    {
      RoomIsPruned(zset, expiry, last, window, limit, again);
      PrunedShrinks(zset, earliest - window, again - window);
    }
  }

  /** That is so when the refusal left no more than `limit` members: the lowest of them is gone by then,
      although both it and the horizon are rounded. */
  lemma FullSetFreesOne(zset: set<int>, window: int, limit: int, later: int)
    requires |zset| <= limit && limit > 0
    ensures |Pruned(zset, Earliest(later, RetryAfter(zset, window, later)) - window)| < limit
  {
    hide Score;
    if zset != {} {
      var horizon := Earliest(later, RetryAfter(zset, window, later)) - window;
      var oldest :| oldest in zset && Score(oldest) == LowestScore(zset);
      assert horizon >= Score(oldest);
      ScoreMonotone(Score(oldest), horizon);
      ScoreFixed(oldest);
      assert Pruned(zset, horizon) <= zset - {oldest};
      SubsetSize(Pruned(zset, horizon), zset - {oldest});
    }
  }

  /** And it is so, whatever was left, when the oldest member could not be read. */
  lemma WholeWindowFreesAll(zset: set<int>, last: int, window: int, limit: int, later: int)
    requires AtMost(zset, last) && last <= later && limit > 0
    ensures |Pruned(zset, Earliest(later, window) - window)| < limit
  {
    AllPruned(zset, last, Earliest(later, window) - window);
  }

  // ----- what every call keeps --------------------------------------------------------------------------

  /** No live call is forgotten, what else is held was left behind by a fault, and every live call
      was within the limit when the newest one was allowed. */
  lemma Remembered(history: seq<int>, leftovers: set<int>, last: int, window: int, limit: int,
                   zset: set<int>, expiry: Option<int>, now: int)
    requires Sound(history, leftovers, last, window, limit, zset, expiry) && last < now
    ensures Live(history, now - window) <= Live(history, last - window)
    ensures Live(history, now - window) <= Kept(zset, expiry, now, window)
    ensures Kept(zset, expiry, now, window) <= Live(history, now - window) + leftovers
    ensures Kept(zset, expiry, now, window) <= Unexpired(zset, expiry, now) <= zset
    ensures now !in zset
    ensures |Live(history, now - window)| <= limit
  {
    hide Score;
    hide Admitted;
    var live := Live(history, now - window);
    forall t | t in live
      ensures t in Live(history, last - window) && t in Unexpired(zset, expiry, now)
    {
      ScoreMonotone(last - window, now - window);
      if t <= now - window { ScoreMonotone(t, now - window); }
      assert t in Live(history, last - window);
      assert t in zset && now < t + window;
    }
    LiveWithin(history, last, now, window, limit);
  }

  lemma LiveWithin(history: seq<int>, last: int, now: int, window: int, limit: int)
    requires Admitted(history, window, limit) && AtMost(Instants(history), last) && now >= last && limit > 0
    ensures |Live(history, now - window)| <= limit
  {
    hide Score;
    if history != [] {
      var newest := history[|history| - 1];
      assert newest in Instants(history);
      assert WithinLimit(history, |history| - 1, window, limit);
      var before := history[..|history| - 1];
      assert history == before + [newest];
      ScoreMonotone(newest - window, now - window);
      SubsetSize(Live(history, now - window), Live(before, newest - window) + {newest});
    } else {
      assert Live(history, now - window) == {};
    }
  }

  /** A call that is not allowed, whatever part of its commands took effect. */
  lemma NotAllowed(history: seq<int>, leftovers: set<int>, last: int, window: int, limit: int,
                   zset: set<int>, expiry: Option<int>, now: int,
                   leftovers': set<int>, zset': set<int>, expiry': Option<int>)
    requires Sound(history, leftovers, last, window, limit, zset, expiry) && last < now
    requires Live(history, now - window) <= zset' <= zset + {now}
    requires expiry' in {expiry, None, Some(now + TimeToLive(window))}
    requires leftovers <= leftovers' && (now in zset' ==> now in leftovers')
    ensures Sound(history, leftovers', now, window, limit, zset', expiry')
  {
    hide Score;
    hide Admitted;
    Remembered(history, leftovers, last, window, limit, zset, expiry, now);
    assert forall t | t in Live(history, now - window) :: t in Instants(history);
  }

  lemma AllowedNow(history: seq<int>, leftovers: set<int>, last: int, window: int, limit: int,
                   zset: set<int>, expiry: Option<int>, now: int, pruned: set<int>)
    requires Sound(history, leftovers, last, window, limit, zset, expiry) && last < now
    requires Live(history, now - window) <= pruned <= zset && |pruned + {now}| <= limit
    ensures Sound(history + [now], leftovers, now, window, limit, pruned + {now}, Some(now + TimeToLive(window)))
  {
    hide Score;
    hide Admitted;
    hide Increasing;
    AdmitOne(history, now, window, limit, pruned);
    Extend(history, last, now);
    assert forall t | t in Live(history + [now], now - window) :: t in Instants(history + [now]);
  }

  /** The limiter's key for one account. Calls come one at a time, at distinct instants of one clock. */
  class RedisLimiter {
    const window: int
    const limit: int
    var zset: set<int>
    var expiry: Option<int>
    ghost var history: seq<int>      // the allowed calls
    ghost var leftovers: set<int>    // calls that failed or were denied, but may have left their member behind
    ghost var last: int              // the latest call

    constructor (window: int, limit: int)
      ensures Valid() && history == [] && leftovers == {} && zset == {} && last == 0
      ensures this.window == (if window <= 0 then 1_000_000_000 else window)
      ensures this.limit == (if limit <= 0 then 100 else limit)
    {
      this.window := if window <= 0 then SECOND else window;
      this.limit := if limit <= 0 then DEFAULT_LIMIT else limit;
      zset, expiry := {}, None;
      history, leftovers, last := [], {}, 0;
    }

    ghost predicate Valid()
      reads this
    {
      Sound(history, leftovers, last, window, limit, zset, expiry)
    }

    /** The pipeline, cut short after some of its commands. A key goes with its last member. */
    method Execute(now: int, executed: nat)
      modifies this`zset, this`expiry
      ensures zset == Executed(old(zset), old(expiry), now, window, executed)
      ensures executed > 2 ==> zset == Kept(old(zset), old(expiry), now, window) + {now}
      ensures expiry in {old(expiry), None, Some(now + TimeToLive(window))}
      ensures executed > 2 ==> expiry == Some(now + TimeToLive(window))
    {
      zset := Unexpired(zset, expiry, now);
      if executed > 0 { zset := Pruned(zset, now - window); }
      if zset == {} { expiry := None; }
      if executed > 1 { zset := zset + {now}; }
      if executed > 2 { expiry := Some(now + TimeToLive(window)); }
    }

    /** Over the limit: take the call's own member out again, and look at the oldest that is left. */
    method Refuse(now: int, later: int, zrem: Io, zrange: Io) returns (r: AllowResult)
      modifies this`zset, this`expiry, this`leftovers
      ensures zset == if zrem.Applied() then old(zset) - {now} else old(zset)
      ensures leftovers == if zrem.Applied() then old(leftovers) else old(leftovers) + {now}
      ensures expiry == if zset == {} && zrem.Applied() then None else old(expiry)
      ensures r == Denied(if zrange.Done? then RetryAfter(zset, window, later) else window)
      // what the caller gains: its own member does not count against it, and it is told to wait at
      // least until the oldest member leaves the window
      ensures zrem.Applied() ==> now !in zset
      ensures zrange.Done? && zset != {} ==> r.retryAfter >= SECOND && later + r.retryAfter >= LowestScore(zset) + window
    {
      hide LowestScore;
      if zrem.Applied() {
        zset := zset - {now};
        if zset == {} { expiry := None; }
      } else {
        leftovers := leftovers + {now};
      }
      r := Denied(if zrange.Done? then RetryAfter(zset, window, later) else window);
    }

    /** An error from the pipeline: some commands may have taken effect, and the member may be left. */
    method Interrupted(now: int, executed: nat)
      requires Valid() && last < now
      modifies this
      ensures Valid() && last == now && history == old(history) && leftovers == old(leftovers) + {now}
      ensures zset == Executed(old(zset), old(expiry), now, window, executed)
    {
      hide Sound, Live, Pruned, Unexpired, Kept, Executed, TimeToLive;
      ghost var zset0, expiry0, leftovers0 := zset, expiry, leftovers;
      Remembered(history, leftovers, last, window, limit, zset, expiry, now);
      ExecutedWithin(zset, expiry, now, window, executed);
      Execute(now, executed);
      leftovers := leftovers + {now};
      NotAllowed(history, leftovers0, last, window, limit, zset0, expiry0, now, leftovers, zset, expiry);
      last := now;
    }

    method Allow(now: int, later: int, pipe: Pipeline, zrem: Io, zrange: Io) returns (r: AllowResult)
      requires Valid() && last < now <= later
      modifies this
      ensures Valid() && last == now
      ensures r.Failed? <==> pipe.Broke?
      ensures history == if r.Allowed? then old(history) + [now] else old(history)
      ensures pipe.Ran? ==> (r.Allowed? <==> HasRoom(old(zset), old(expiry), now, window, limit))
      // without faults, the decision is the one the whole history calls for
      ensures pipe.Ran? && old(leftovers) == {} ==>
                (r.Allowed? <==> |Live(old(history), now - window) + {now}| <= limit)
      // with them it may only be stricter
      ensures r.Allowed? ==> |Live(old(history), now - window) + {now}| <= limit
      // and the sorted set is the live part of the whole history
      ensures pipe.Ran? && leftovers == {} ==>
                zset == var live := Live(old(history), now - window); if r.Allowed? then live + {now} else live
      // with or without faults, what the set and its expiry become once the pipeline has gone through
      ensures pipe.Ran? ==>
                && zset == (var pruned := Kept(old(zset), old(expiry), now, window);
                            if r.Allowed? || !zrem.Applied() then pruned + {now} else pruned)
                && (zset != {} ==> expiry == Some(now + TimeToLive(window)))
      ensures old(leftovers) <= leftovers <= old(leftovers) + {now}
      ensures leftovers == old(leftovers) || pipe.Broke? || (r.Denied? && !zrem.Applied())
      // a denied client is told to wait for the oldest member, a second at least, of a set that is full
      ensures r.Denied? ==> |zset| >= limit
      ensures r.Denied? ==> r.retryAfter == if zrange.Done? then RetryAfter(zset, window, later) else window
      ensures r.Denied? && leftovers == {} ==> |zset| == limit
    {
      hide Sound, Live, Pruned, Unexpired, Kept, Executed, RetryAfter, TimeToLive;
      if pipe.Broke? {
        Interrupted(now, pipe.executed);
        return Failed;
      }
      ghost var zset0, expiry0, leftovers0, live := zset, expiry, leftovers, Live(history, now - window);
      ghost var pruned := Kept(zset, expiry, now, window);
      Remembered(history, leftovers, last, window, limit, zset, expiry, now);
      Decision(live, leftovers, pruned, now, limit);
      Execute(now, 4);
      var count := |zset|;
      if count <= limit {
        r := Allowed;
        AllowedNow(history, leftovers0, last, window, limit, zset0, expiry0, now, pruned);
        history := history + [now];
      } else {
        r := Refuse(now, later, zrem, zrange);
        NotAllowed(history, leftovers0, last, window, limit, zset0, expiry0, now, leftovers, zset, expiry);
      }
      last := now;
    }
  }

  // ----- the middleware and a client that obeys it --------------------------------------------------------

  datatype Answer = Pass | TooManyRequests(seconds: int) | InternalError

  /** The middleware: a refusal carries the wait in whole seconds, at least one. */
  method RateLimit(limiter: RedisLimiter, now: int, later: int, pipe: Pipeline, zrem: Io, zrange: Io) returns (answer: Answer)
    requires limiter.Valid() && limiter.last < now <= later
    modifies limiter
    ensures limiter.Valid() && limiter.last == now
    ensures answer.InternalError? <==> pipe.Broke?
    ensures pipe.Ran? ==>
              (answer.Pass? <==> HasRoom(old(limiter.zset), old(limiter.expiry), now, limiter.window, limiter.limit))
    ensures answer.TooManyRequests? ==>
              && answer.seconds == HeaderSeconds(if zrange.Done? then RetryAfter(limiter.zset, limiter.window, later)
                                                 else limiter.window)
              && (limiter.zset != {} && limiter.expiry.Some? ==> now + limiter.window < limiter.expiry.value)
              && (old(limiter.leftovers) == {} && zrem.Applied() ==> |limiter.zset| == limiter.limit)
              && AtMost(limiter.zset, now) && |limiter.zset| >= limiter.limit
    // the header is the least whole number of seconds, from one on, that covers the time the oldest member has left
    ensures answer.TooManyRequests? ==>
              var left := if zrange.Done? && limiter.zset != {} then LowestScore(limiter.zset) + limiter.window - later
                          else limiter.window;
              && answer.seconds >= 1 && answer.seconds * SECOND >= left
              && (answer.seconds == 1 || (answer.seconds - 1) * SECOND < left)
    // and the state it leaves behind
    ensures pipe.Ran? ==>
              && limiter.zset == (var pruned := Kept(old(limiter.zset), old(limiter.expiry), now, limiter.window);
                                  if answer.Pass? || !zrem.Applied() then pruned + {now} else pruned)
              && (limiter.zset != {} ==> limiter.expiry == Some(now + TimeToLive(limiter.window)))
  {
    hide RetryAfter, HasRoom;
    var result := limiter.Allow(now, later, pipe, zrem, zrange);
    match result
    case Failed => return InternalError;
    case Allowed => return Pass;
    case Denied(retryAfter) =>
      var seconds := (retryAfter + SECOND - 1) / SECOND;
      if seconds < 1 { seconds := 1; }
      return TooManyRequests(seconds);
  }

  /** Nor is the wait a second too long: while the lowest member is in the window, with the spacing of
      doubles to spare, a set that was full has no room. */
  lemma TooEarly(zset: set<int>, expiry: Option<int>, last: int, window: int, limit: int, again: int)
    requires AtMost(zset, last) && last < again && |zset| >= limit && zset != {}
    requires expiry.Some? ==> last + window < expiry.value
    requires again < LowestScore(zset) + window - 2 * SPACING
    ensures !HasRoom(zset, expiry, again, window, limit)
  {
    forall t | t in zset ensures Score(t) > Score(again - window) && again < t + window {
      ScoreNear(t);
      ScoreNear(again - window);
      assert LowestScore(zset) <= Score(t);
    }
    hide Score;
    Inhabited(zset);
    assert forall t | t in zset :: t <= last;
    assert Kept(zset, expiry, again, window) == zset;
  }

  /** Two calls in a row: a client is refused and comes back, with nobody in between. If it has waited
      the seconds it was told, it is let in if and only if fewer than `limit` of the members its refusal
      left are still in the window; and so it always is, unless a removal failed now or some fault had
      left a member before. If it comes a second before that, it is refused. */
  method ComeBack(limiter: RedisLimiter, now: int, later: int, zrem: Io, zrange: Io, again: int, zrem': Io, zrange': Io)
      returns (first: Answer, second: Answer, ghost left: set<int>)
    requires limiter.Valid() && limiter.last < now <= later && now < again
    modifies limiter
    ensures limiter.Valid() && !first.InternalError?
    ensures first.TooManyRequests? ==> (second.Pass? <==> |Pruned(left, again - limiter.window)| < limiter.limit)
    ensures first.TooManyRequests? && again >= later + first.seconds * SECOND ==>
              && (old(limiter.leftovers) == {} && zrem.Applied() ==> |left| == limiter.limit && second.Pass?)
              && (!zrange.Done? ==> second.Pass?)
    ensures first.TooManyRequests? && zrange.Done? ==>
              (again <= later + (first.seconds - 1) * SECOND - 2 * SPACING && first.seconds > 1 ==> second.TooManyRequests?)
  {
    hide RetryAfter, HasRoom, Pruned, Sound, Kept;
    LimitsAreSet(limiter);
    first := RateLimit(limiter, now, later, Ran, zrem, zrange);
    left, second := limiter.zset, first;
    if first.TooManyRequests? {
      RoomIsPruned(left, limiter.expiry, now, limiter.window, limiter.limit, again);
      if again >= later + first.seconds * SECOND {
        PrunedShrinks(left, later + first.seconds * SECOND - limiter.window, again - limiter.window);
        if zrange.Done? {
          if |left| <= limiter.limit { FullSetFreesOne(left, limiter.window, limiter.limit, later); }
        } else {
          WholeWindowFreesAll(left, now, limiter.window, limiter.limit, later);
        }
      } else if zrange.Done? && first.seconds > 1 && again <= later + (first.seconds - 1) * SECOND - 2 * SPACING {
        assert left != {};
        TooEarly(left, limiter.expiry, now, limiter.window, limiter.limit, again);
      }
      second := RateLimit(limiter, again, again, Ran, zrem', zrange');
    }
  }

  lemma LimitsAreSet(limiter: RedisLimiter)
    requires limiter.Valid()
    ensures limiter.limit > 0 && limiter.window > 0
  {
  }

  lemma ScoreExact(t: int)
    requires t % SPACING == 0
    ensures Score(t) == t
  {
  }

  /** The limiter's state after the first two calls of the run below. */
  lemma TwoLeft(t: int, window: int, zset: set<int>, expiry: Option<int>)
    requires t % SPACING == 0 && window == 10 * SECOND && zset == {t, t + 5 * SECOND}
    requires expiry == Some(t + 5 * SECOND + TimeToLive(window))
    ensures RetryAfter(zset, window, t + 5 * SECOND) == 5 * SECOND
    ensures !HasRoom(zset, expiry, t + 10 * SECOND, window, 1)
  {
    ScoreExact(t);
    ScoreExact(t + 5 * SECOND);
    hide Score;
    assert LowestScore(zset) == t;
    assert Kept(zset, expiry, t + 10 * SECOND, window) == {t + 5 * SECOND};
    assert t + 5 * SECOND in Kept(zset, expiry, t + 10 * SECOND, window) + {t + 10 * SECOND};
    assert |{t + 5 * SECOND} + {t + 10 * SECOND}| == 2;
  }

  lemma OneLeft(t: int, window: int, zset: set<int>, expiry: Option<int>)
    requires t % SPACING == 0 && window == 10 * SECOND && zset == {t} && expiry == Some(t + TimeToLive(window))
    ensures Kept(zset, expiry, t + 5 * SECOND, window) == {t}
    ensures !HasRoom(zset, expiry, t + 5 * SECOND, window, 1)
  {
    ScoreExact(t);
    ScoreExact(t - 5 * SECOND);
    assert |{t} + {t + 5 * SECOND}| == 2;
  }

  /** A removal that fails makes the header wrong: with a limit of one in ten seconds, a client let in
      at `t` and refused at `t` + 5 s is told five seconds, comes back then, alone, and is refused, by
      the member its own refused call has left. */
  method FailedRemovalMisleads(t: int) returns (first: Answer, second: Answer, third: Answer)
    requires FIRST <= t - 10 * SECOND && t + 10 * SECOND < BEYOND && t % SPACING == 0
    ensures first == Pass && second == TooManyRequests(5) && third.TooManyRequests?
  {
    hide RetryAfter, HasRoom, Kept, TimeToLive;
    var limiter := new RedisLimiter(10 * SECOND, 1);
    NoneLeft(t, limiter.window, limiter.expiry);
    first := RateLimit(limiter, t, t, Ran, Done, Done);
    OneLeft(t, limiter.window, limiter.zset, limiter.expiry);
    second := RateLimit(limiter, t + 5 * SECOND, t + 5 * SECOND, Ran, Refused, Done);
    TwoLeft(t, limiter.window, limiter.zset, limiter.expiry);
    third := RateLimit(limiter, t + 10 * SECOND, t + 10 * SECOND, Ran, Done, Done);
  }

  lemma NoneLeft(t: int, window: int, expiry: Option<int>)
    ensures Kept({}, expiry, t, window) == {} && HasRoom({}, expiry, t, window, 1)
  {
    assert |{} + {t}| == 1;
  }
}
