/** The two pools of handler tokens, and every run of the consumers that use them. */
module Bulkheads {
  import opened Base

  const EXPRESS: string := "sms.express"
  const DEFAULT_EXPRESS: int := 20
  const DEFAULT_STANDARD: int := 50

  /** Tokens taken from each pool. */
  datatype Pools = Pools(express: int, standard: int)

  function Of(p: Pools, queue: string): int { if queue == EXPRESS then p.express else p.standard }

  function With(p: Pools, queue: string, tokens: int): Pools {
    if queue == EXPRESS then p.(express := tokens) else p.(standard := tokens)
  }

  function Room(size: Pools, taken: Pools, queue: string): int { Of(size, queue) - Of(taken, queue) }

  /** One token more, or one less, in the queue's own pool. */
  function Taken(p: Pools, queue: string): Pools { With(p, queue, Of(p, queue) + 1) }

  function Returned(p: Pools, queue: string): Pools {
    With(p, queue, if Of(p, queue) > 0 then Of(p, queue) - 1 else 0)
  }

  /** Two buffered channels of empty values: only how many they hold matters. */
  class Bulkhead {
    const size: Pools
    var taken: Pools

    ghost predicate Valid()
      reads this
    {
      0 <= taken.express <= size.express && 0 <= taken.standard <= size.standard && size.express > 0 && size.standard > 0
    }

    constructor (expressSize: int, standardSize: int)
      ensures Valid() && taken == Pools(0, 0)
      ensures size == Pools(if expressSize <= 0 then 20 else expressSize, if standardSize <= 0 then 50 else standardSize)
    {
      size := Pools(if expressSize <= 0 then DEFAULT_EXPRESS else expressSize,
                    if standardSize <= 0 then DEFAULT_STANDARD else standardSize);
      taken := Pools(0, 0);
    }

    /** `cancelled`: the context is done, `tokenFirst`: which ready case the select takes. The call
        blocks, and is not made here, while the pool is full and the context is not done. */
    method Acquire(queue: string, cancelled: bool, tokenFirst: bool) returns (ok: bool)
      requires Valid() && (Of(taken, queue) < Of(size, queue) || cancelled)
      modifies this
      ensures Valid()
      ensures ok <==> Room(size, old(taken), queue) > 0 && (tokenFirst || !cancelled)
      ensures taken == if ok then Taken(old(taken), queue) else old(taken)
    {
      if Of(taken, queue) < Of(size, queue) && (tokenFirst || !cancelled) {
        taken := With(taken, queue, Of(taken, queue) + 1);
        return true;
      }
      return false;
    }

    /** With the pool empty the default case is taken and nothing changes. */
    method Release(queue: string)
      requires Valid()
      modifies this
      ensures Valid()
      ensures taken == Returned(old(taken), queue)
    {
      if Of(taken, queue) > 0 {
        taken := With(taken, queue, Of(taken, queue) - 1);
      }
    }
  }

  // ----- the consumers ------------------------------------------------------------------------------

  /** One goroutine per delivery: waiting for a token, or between acquire and release. */
  datatype Hall = Hall(taken: Pools, waiting: map<nat, string>, inside: map<nat, string>)

  datatype Step =
    | Arrive(handler: nat, queue: string)
    | Enter(handler: nat, queue: string)
    | TurnAway(handler: nat, queue: string)    // the context ended first: the delivery is put back
    | Leave(handler: nat, queue: string)

  predicate Can(size: Pools, s: Hall, x: Step) {
    match x
    case Arrive(h, q) => h !in s.waiting && h !in s.inside
    case Enter(h, q) => h in s.waiting && s.waiting[h] == q && h !in s.inside && Room(size, s.taken, q) > 0
    case TurnAway(h, q) => h in s.waiting && s.waiting[h] == q
    case Leave(h, q) => h in s.inside && s.inside[h] == q
  }

  function Do(s: Hall, x: Step): Hall {
    match x
    case Arrive(h, q) => s.(waiting := s.waiting[h := q])
    case Enter(h, q) => Hall(Taken(s.taken, q), s.waiting - {h}, s.inside[h := q])
    case TurnAway(h, q) => s.(waiting := s.waiting - {h})
    case Leave(h, q) => s.(taken := Returned(s.taken, q), inside := s.inside - {h})
  }

  ghost predicate Run(size: Pools, s: Hall, steps: seq<Step>, t: Hall)
    decreases |steps|
  {
    if steps == [] then s == t else Can(size, s, steps[0]) && Run(size, Do(s, steps[0]), steps[1..], t)
  }

  const EMPTY_HALL := Hall(Pools(0, 0), map[], map[])

  /** The two queues of one pool count together. */
  function Inside(inside: map<nat, string>, express: bool): set<nat> {
    set h | h in inside && (inside[h] == EXPRESS) == express
  }

  ghost predicate Counted(size: Pools, s: Hall) {
    && s.taken.express == |Inside(s.inside, true)| <= size.express
    && s.taken.standard == |Inside(s.inside, false)| <= size.standard
  }

  lemma InsideEnter(inside: map<nat, string>, h: nat, q: string)
    requires h !in inside
    ensures |Inside(inside[h := q], q == EXPRESS)| == |Inside(inside, q == EXPRESS)| + 1
    ensures Inside(inside[h := q], q != EXPRESS) == Inside(inside, q != EXPRESS)
  {
    var own := q == EXPRESS;
    assert Inside(inside[h := q], own) == Inside(inside, own) + {h};
  }

  lemma InsideLeave(inside: map<nat, string>, h: nat, q: string)
    requires h in inside && inside[h] == q
    ensures |Inside(inside - {h}, q == EXPRESS)| + 1 == |Inside(inside, q == EXPRESS)|
    ensures Inside(inside - {h}, q != EXPRESS) == Inside(inside, q != EXPRESS)
  {
    var own := q == EXPRESS;
    assert h in Inside(inside, own);
    assert Inside(inside - {h}, own) == Inside(inside, own) - {h};
  }

  lemma CountedStep(size: Pools, s: Hall, x: Step)
    requires Counted(size, s) && Can(size, s, x)
    ensures Counted(size, Do(s, x))
    ensures x.Leave? ==> Of(s.taken, x.queue) > 0
  {
    if x.Enter? { InsideEnter(s.inside, x.handler, x.queue); }
    if x.Leave? { InsideLeave(s.inside, x.handler, x.queue); }
    hide Inside;
  }

  /** In every run each pool has exactly as many tokens taken as handlers between acquire and
      release, never more than its size, and a release always finds its token. */
  lemma {:induction false} TokensAreHandlers(size: Pools, s: Hall, steps: seq<Step>, t: Hall)
    requires Counted(size, s) && Run(size, s, steps, t)
    ensures Counted(size, t)
    ensures forall h, q | Can(size, t, Leave(h, q)) :: Of(t.taken, q) > 0
    decreases |steps|
  {
    if steps == [] {
      forall h, q | Can(size, t, Leave(h, q)) ensures Of(t.taken, q) > 0 {
        CountedStep(size, t, Leave(h, q));
      }
    } else {
      CountedStep(size, s, steps[0]);
      hide Can, Do, Counted;
      TokensAreHandlers(size, Do(s, steps[0]), steps[1..], t);
    }
  }

  lemma TokensFromStart(size: Pools, steps: seq<Step>, t: Hall)
    requires size.express > 0 && size.standard > 0 && Run(size, EMPTY_HALL, steps, t)
    ensures Counted(size, t)
  {
    assert Inside(map[], true) == {} && Inside(map[], false) == {};
    TokensAreHandlers(size, EMPTY_HALL, steps, t);
  }

  // ----- isolation -----------------------------------------------------------------------------------

  /** The steps of one pool's traffic. */
  function Traffic(steps: seq<Step>, express: bool): seq<Step> {
    if steps == [] then []
    else (if (steps[0].queue == EXPRESS) == express then [steps[0]] else []) + Traffic(steps[1..], express)
  }

  predicate SameFor(a: map<nat, string>, b: map<nat, string>, express: bool) {
    && (forall h | h in a && (a[h] == EXPRESS) == express :: h in b && b[h] == a[h])
    && (forall h | h in b && (b[h] == EXPRESS) == express :: h in a && a[h] == b[h])
  }

  function PoolOf(p: Pools, express: bool): int { if express then p.express else p.standard }

  /** The two halls cannot be told apart by that pool's traffic. */
  predicate LooksSame(s: Hall, t: Hall, express: bool) {
    && PoolOf(s.taken, express) == PoolOf(t.taken, express)
    && SameFor(s.waiting, t.waiting, express) && SameFor(s.inside, t.inside, express)
  }

  /** Only that pool's handlers are here: the other traffic has been taken out. */
  predicate OnlyOf(s: Hall, express: bool) {
    && (forall h | h in s.waiting :: (s.waiting[h] == EXPRESS) == express)
    && (forall h | h in s.inside :: (s.inside[h] == EXPRESS) == express)
  }

  lemma Stutter(size: Pools, s: Hall, x: Step, u: Hall, express: bool)
    requires Can(size, s, x) && (x.queue == EXPRESS) != express && LooksSame(s, u, express)
    ensures LooksSame(Do(s, x), u, express)
  {
  }

  lemma InStep(size: Pools, s: Hall, x: Step, u: Hall, express: bool)
    requires Can(size, s, x) && (x.queue == EXPRESS) == express && LooksSame(s, u, express) && OnlyOf(u, express)
    ensures Can(size, u, x) && LooksSame(Do(s, x), Do(u, x), express) && OnlyOf(Do(u, x), express)
  {
  }

  /** Take the other pool's traffic out of any run and what is left still runs and ends with the
      same tokens, the same waiting and the same running handlers: no amount of standard traffic
      changes whether an express handler can proceed, nor the other way round. */
  lemma {:induction false} PoolsAreIsolated(size: Pools, s: Hall, steps: seq<Step>, t: Hall, u: Hall, express: bool) returns (v: Hall)
    requires Run(size, s, steps, t) && LooksSame(s, u, express) && OnlyOf(u, express)
    ensures Run(size, u, Traffic(steps, express), v) && LooksSame(t, v, express)
    ensures forall h, q | (q == EXPRESS) == express :: Can(size, t, Enter(h, q)) ==> Can(size, v, Enter(h, q))
    ensures forall q | (q == EXPRESS) == express :: Room(size, t.taken, q) == Room(size, v.taken, q)
    decreases |steps|
  {
    if steps == [] {
      v := u;
      forall h, q | (q == EXPRESS) == express && Can(size, t, Enter(h, q)) ensures Can(size, v, Enter(h, q)) {
        InStep(size, t, Enter(h, q), v, express);
      }
    } else if (steps[0].queue == EXPRESS) == express {
      InStep(size, s, steps[0], u, express);
      hide Can, Do, LooksSame, OnlyOf;
      v := PoolsAreIsolated(size, Do(s, steps[0]), steps[1..], t, Do(u, steps[0]), express);
      assert Traffic(steps, express)[1..] == Traffic(steps[1..], express);
    } else {
      Stutter(size, s, steps[0], u, express);
      hide Can, Do, LooksSame, OnlyOf;
      v := PoolsAreIsolated(size, Do(s, steps[0]), steps[1..], t, u, express);
      assert Traffic(steps, express) == Traffic(steps[1..], express);
    }
  }
}
