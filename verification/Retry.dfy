/** Counting delivery attempts from the x-death header, with Go's conversions to int. */
module Retry {
  import opened Base
  import opened Pipeline
  import opened Money

  const INT64_MIN: int := -INT64_MAX - 1

  /** A header value by its dynamic type; fractional numbers are given as reals. */
  datatype Value =
    | Int(n: int) | Int32(n: int) | Int64(n: int)
    | Uint(n: int) | Uint32(n: int) | Uint64(n: int)
    | Float(x: real)
    | Table(fields: map<string, Value>)
    | List(items: seq<Value>)
    | Other

  /** Conversion of a float to int drops the fraction, towards zero. */
  function Truncated(x: real): int { if x >= 0.0 then x.Floor else -((-x).Floor) }

  /** headerInt; a missing field reads as nil, which is no number. */
  function HeaderInt(v: Option<Value>): int {
    match v
    case None => 0
    case Some(w) =>
      match w
      case Int(n) => n
      case Int32(n) => n
      case Int64(n) => n
      case Uint(n) => Wrap64(n)
      case Uint32(n) => n
      case Uint64(n) => Wrap64(n)
      case Float(x) => Truncated(x)
      case _ => 0
  }

  function Field(fields: map<string, Value>, name: string): Option<Value> {
    if name in fields then Some(fields[name]) else None
  }

  /** The exact number of deaths the records claim: items that are no table count for nothing. */
  function Deaths(items: seq<Value>): int {
    if items == [] then 0
    else Deaths(items[..|items| - 1]) + (if Last(items).Table? then HeaderInt(Field(Last(items).fields, "count")) else 0)
  }

  function DeathsIn(headers: Option<map<string, Value>>): int {
    match headers
    case None => 0
    case Some(table) => if "x-death" in table && table["x-death"].List? then Deaths(table["x-death"].items) else 0
  }

  /** One record's count, whatever integer type it came in, is the deaths it adds; an unsigned one past
      int64 is read as the negative number of the same bits, a fraction is dropped towards zero, and
      anything else, or no count at all, adds nothing. */
  lemma OneRecord(v: Value)
    ensures var deaths := Deaths([Table(map["count" := v])]);
            && (v.Int? || v.Int32? || v.Int64? || v.Uint32? ==> deaths == v.n)
            && (v.Uint? || v.Uint64? ==>
                  && (0 <= v.n <= INT64_MAX ==> deaths == v.n)
                  && (INT64_MAX < v.n < INT64_RANGE ==> deaths == v.n - INT64_RANGE))
            && (v.Float? ==>
                  && (v.x >= 0.0 ==> deaths as real <= v.x < deaths as real + 1.0)
                  && (v.x <= 0.0 ==> deaths as real - 1.0 < v.x <= deaths as real))
            && (v.Table? || v.List? || v.Other? ==> deaths == 0)
  {
    assert [Table(map["count" := v])][..0] == [];
  }

  lemma NoCount(fields: map<string, Value>, other: Value)
    ensures "count" !in fields ==> Deaths([Table(fields)]) == 0
    ensures !other.Table? ==> Deaths([other]) == 0
  {
    assert [Table(fields)][..0] == [] && [other][..0] == [];
  }

  /** The deaths of several records add up, in any grouping. */
  lemma {:induction false} DeathsAdd(a: seq<Value>, b: seq<Value>)
    ensures Deaths(a + b) == Deaths(a) + Deaths(b)
    decreases |b|
  {
    if b == [] {
      assert a + b == a;
    } else {
      DeathsAdd(a, b[..|b| - 1]);
      assert (a + b)[..|a + b| - 1] == a + b[..|b| - 1];
    }
  }

  /** Wrapping after each addition is wrapping once at the end. */
  lemma WrapSum(a: int, b: int)
    ensures Wrap64(Wrap64(a) + b) == Wrap64(a + b)
  {
    var k := (a - Wrap64(a)) / INT64_RANGE;
    assert a == Wrap64(a) + k * INT64_RANGE;
    SameResidue(Wrap64(a) + b, k);
  }

  lemma SameResidue(x: int, k: int)
    ensures (x + k * INT64_RANGE) % INT64_RANGE == x % INT64_RANGE
  {
  }

  lemma WrapSmall(x: int)
    requires INT64_MIN <= x <= INT64_MAX
    ensures Wrap64(x) == x
  {
  }

  function Tables(items: seq<Value>): seq<map<string, Value>> {
    if items == [] then []
    else Tables(items[..|items| - 1]) + (if Last(items).Table? then [Last(items).fields] else [])
  }

  method TablesFromSlice(items: seq<Value>) returns (out: seq<map<string, Value>>)
    ensures out == Tables(items)
  {
    out := [];
    for i := 0 to |items|
      invariant out == Tables(items[..i])
    {
      assert items[..i + 1][..i] == items[..i];
      if items[i].Table? { out := out + [items[i].fields]; }
    }
    assert items[..|items|] == items;
  }

  function CountSum(tables: seq<map<string, Value>>): int {
    if tables == [] then 0 else CountSum(tables[..|tables| - 1]) + HeaderInt(Field(Last(tables), "count"))
  }

  lemma {:induction false} TablesCount(items: seq<Value>)
    ensures CountSum(Tables(items)) == Deaths(items)
  {
    if items != [] {
      TablesCount(items[..|items| - 1]);
      var before := Tables(items[..|items| - 1]);
      if Last(items).Table? {
        assert (before + [Last(items).fields])[..|before|] == before;
      } else {
        assert before + [] == before;
      }
    }
  }

  /** xDeathCount: the exact total, wrapped to an int. */
  method XDeathCount(headers: Option<map<string, Value>>) returns (total: int)
    ensures total == Wrap64(DeathsIn(headers))
  {
    total := 0;
    if headers == None || "x-death" !in headers.value || !headers.value["x-death"].List? { return; }
    var items := headers.value["x-death"].items;
    var tables := TablesFromSlice(items);
    for i := 0 to |tables|
      invariant total == Wrap64(CountSum(tables[..i]))
    {
      assert tables[..i + 1][..i] == tables[..i];
      WrapSum(CountSum(tables[..i]), HeaderInt(Field(tables[i], "count")));
      total := Wrap64(total + HeaderInt(Field(tables[i], "count")));
    }
    assert tables[..|tables|] == tables;
    TablesCount(items);
  }

  /** deliveryAttemptCount: the count the delivery state machine dead-letters by. */
  method DeliveryAttemptCount(headers: Option<map<string, Value>>, redelivered: bool) returns (attempts: int)
    ensures attempts == Attempts(redelivered, Wrap64(DeathsIn(headers)))
    ensures DeathsIn(headers) > INT64_MAX || (DeathsIn(headers) > 0 ==> attempts == DeathsIn(headers))
    ensures attempts >= 0 && (redelivered ==> attempts >= 1)
  {
    var total := XDeathCount(headers);
    if 0 <= DeathsIn(headers) <= INT64_MAX { WrapSmall(DeathsIn(headers)); }
    if total > 0 { return total; }
    if redelivered { return 1; }
    return 0;
  }

  /** shouldDeadLetter. */
  method DeadLetterDue(c: Config, headers: Option<map<string, Value>>, redelivered: bool) returns (due: bool)
    ensures due == ShouldDeadLetter(c, redelivered, Wrap64(DeathsIn(headers)))
  {
    if c.maxAttempts <= 0 { return false; }
    var attempts := DeliveryAttemptCount(headers, redelivered);
    return attempts >= c.maxAttempts;
  }

  /** A broker that adds a death record with a positive count never lowers the count, short of
      overflow; nor does requeueing, which keeps the headers and sets the redelivered flag. */
  lemma AttemptsGrow(items: seq<Value>, extra: Value, redelivered: bool)
    requires extra.Table? && HeaderInt(Field(extra.fields, "count")) >= 0
    requires INT64_MIN <= Deaths(items) && Deaths(items + [extra]) <= INT64_MAX
    ensures Deaths(items + [extra]) == Deaths(items) + HeaderInt(Field(extra.fields, "count"))
    ensures Attempts(true, Wrap64(Deaths(items + [extra]))) >= Attempts(redelivered, Wrap64(Deaths(items)))
  {
    assert (items + [extra])[..|items|] == items;
    WrapSmall(Deaths(items));
    WrapSmall(Deaths(items + [extra]));
  }

  /** What the count decides: a first delivery without deaths is never buried; one without deaths that comes
      again is buried only under a maximum of one; and with deaths, exactly when they reach the maximum. */
  lemma DueIff(c: Config, redelivered: bool, deaths: int)
    ensures deaths <= 0 && !redelivered ==> !ShouldDeadLetter(c, redelivered, deaths)
    ensures deaths <= 0 && redelivered ==> (ShouldDeadLetter(c, redelivered, deaths) <==> c.maxAttempts == 1)
    ensures deaths > 0 ==> (ShouldDeadLetter(c, redelivered, deaths) <==> 0 < c.maxAttempts <= deaths)
  {
  }

  /** An overflowing total reads as negative and the count falls back to the redelivered flag. */
  lemma OverflowForgets(items: seq<Value>)
    requires INT64_MAX < Deaths(items) <= INT64_MAX + INT64_MAX
    ensures Attempts(true, Wrap64(Deaths(items))) == 1
  {
  }
}
