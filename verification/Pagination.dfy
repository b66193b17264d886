/** Keyset pagination of the ledger and of the messages of one account: pages by
    (created_at, id) descending, and the walk a client makes along next_cursor. */
module Pagination {
  import opened Base

  const DEFAULT_LIMIT: int := 20
  const MAX_LIMIT: int := 100

  datatype Row = Row(id: Uuid, account: Uuid, at: int)

  /** The order of the listing: newest first, ties by the larger id. */
  predicate Before(x: Row, y: Row) { x.at > y.at || (x.at == y.at && x.id > y.id) }

  predicate Descending(rows: seq<Row>) {
    forall j, k | 0 <= j < k < |rows| :: Before(rows[j], rows[k])
  }

  /** `id` is the primary key. */
  predicate Keyed(table: set<Row>) {
    forall x, y | x in table && y in table && x.id == y.id :: x == y
  }

  function Rows(rows: seq<Row>): set<Row> { set x | x in rows }

  // ----- sorting ------------------------------------------------------------------------------------

  predicate IsFirst(rows: set<Row>, x: Row) { x in rows && forall y | y in rows :: y == x || Before(x, y) }

  lemma {:induction false} FirstExists(rows: set<Row>)
    requires Keyed(rows)
    ensures rows != {} ==> exists x :: IsFirst(rows, x)
  {
    if x :| x in rows {
      var rest := rows - {x};
      FirstExists(rest);
      assert forall z | z in rows :: z == x || z in rest;
      if rest == {} {
        assert IsFirst(rows, x);
      } else {
        var y :| IsFirst(rest, y);
        assert IsFirst(rows, if Before(x, y) then x else y);
      }
    } else {
      assert rows == {};
    }
  }

  lemma Nothing()
    ensures Descending([]) && Rows([]) == {}
  {
  }

  lemma PrependFirst(rows: set<Row>, x: Row, rest: seq<Row>)
    requires IsFirst(rows, x) && Descending(rest) && Rows(rest) == rows - {x}
    ensures Descending([x] + rest) && Rows([x] + rest) == rows
  {
    var l := [x] + rest;
    assert forall k | 0 <= k < |rest| :: rest[k] in Rows(rest);
    assert forall k | 1 <= k < |l| :: l[k] == rest[k - 1];
    assert Rows(l) == {x} + Rows(rest);
  }

  /** ORDER BY created_at DESC, id DESC. */
  function Listing(rows: set<Row>): (l: seq<Row>)
    requires Keyed(rows)
    ensures Descending(l) && Rows(l) == rows && |l| == |rows|
  {
    hide Descending, Rows;
    if rows == {} then Nothing(); []
    else
      FirstExists(rows);
      var x :| x in rows && IsFirst(rows, x);
      PrependFirst(rows, x, Listing(rows - {x}));
      [x] + Listing(rows - {x})
  }

  /** Sorting leaves no choice: two descending lists of the same rows are equal. */
  lemma {:induction false} DescendingUnique(a: seq<Row>, b: seq<Row>)
    requires Descending(a) && Descending(b) && Rows(a) == Rows(b)
    ensures a == b
  {
    if a == [] {
      assert forall k | 0 <= k < |b| :: b[k] in Rows(b);
    } else {
      assert a[0] in Rows(b) && (b == [] || b[0] in Rows(a));
      var i :| 0 <= i < |b| && b[i] == a[0];
      var j :| 0 <= j < |a| && a[j] == b[0];
      assert i == 0 && j == 0;
      TailRows(a);
      TailRows(b);
      DescendingUnique(a[1..], b[1..]);
      assert a == [a[0]] + a[1..] && b == [b[0]] + b[1..];
    }
  }

  lemma TailRows(a: seq<Row>)
    requires a != [] && Descending(a)
    ensures Rows(a[1..]) == Rows(a) - {a[0]} && Descending(a[1..])
  {
    forall x | x in Rows(a) && x != a[0] ensures x in Rows(a[1..]) {
      var k :| 0 <= k < |a| && a[k] == x;
      assert a[1..][k - 1] == x;
    }
    forall k | 1 <= k < |a| ensures a[k] != a[0] {
      assert Before(a[0], a[k]);
    }
  }

  // ----- one page -------------------------------------------------------------------------------------

  datatype Page = Page(items: seq<Row>) | InvalidCursor

  /** The account's rows strictly after the cursor in the order of the listing. */
  function Below(table: set<Row>, account: Uuid, cursor: Option<Row>): set<Row> {
    set x | x in table && x.account == account && (cursor.Some? ==> Before(cursor.value, x))
  }

  /** The listing from the cursor on. */
  function Ahead(table: set<Row>, account: Uuid, cursor: Option<Row>): (l: seq<Row>)
    requires Keyed(table)
    ensures Descending(l) && Rows(l) == Below(table, account, cursor)
  {
    Listing(Below(table, account, cursor))
  }

  function Take(rows: seq<Row>, limit: int): (r: seq<Row>)
    requires limit >= 0
  {
    if |rows| <= limit then rows else rows[..limit]
  }

  function RepositoryLimit(limit: int): (most: int)
    ensures 1 <= most <= 100 && (1 <= limit <= 100 ==> most == limit)
    ensures (limit <= 0 ==> most == 20) && (limit > 100 ==> most == 100)
  {
    if limit <= 0 then DEFAULT_LIMIT else if limit > MAX_LIMIT then MAX_LIMIT else limit
  }

  function Anchor(table: set<Row>, account: Uuid, id: Uuid): Option<Row>
    requires Keyed(table)
  {
    if x :| x in table && x.id == id && x.account == account then Some(x) else None
  }

  function PageSpec(table: set<Row>, account: Uuid, limit: int, cursor: Option<Row>): seq<Row>
    requires Keyed(table) && limit > 0
  {
    Take(Ahead(table, account, cursor), limit)
  }

  /** ListByAccount of the ledger and of the messages. */
  method ListByAccount(table: set<Row>, account: Uuid, limit: int, cursor: Option<Uuid>) returns (page: Page)
    requires Keyed(table)
    ensures page.InvalidCursor? <==> cursor.Some? && forall x | x in table && x.account == account :: x.id != cursor.value
    ensures page.Page? ==>
              page.items == PageSpec(table, account, RepositoryLimit(limit),
                                     if cursor == None then None else Anchor(table, account, cursor.value))
  {
    var capped := limit;
    if capped <= 0 { capped := DEFAULT_LIMIT; }
    if capped > MAX_LIMIT { capped := MAX_LIMIT; }
    var anchor: Option<Row> := None;
    if cursor.Some? {
      anchor := Anchor(table, account, cursor.value);
      if anchor == None { return InvalidCursor; }
    }
    var models := Take(Ahead(table, account, anchor), capped);
    var entries: seq<Row> := [];
    for i := 0 to |models|
      invariant entries == models[..i]
    {
      entries := entries + [models[i]];
    }
    return Page(entries);
  }

  // ----- the handler ------------------------------------------------------------------------------------

  /** What fmt takes for a space; a line break is not skipped and ends the scan. */
  predicate IsSpace(c: char) {
    c in " \t\r\U{000B}\U{000C}\U{0085}\U{00A0}\U{1680}\U{2028}\U{2029}\U{202F}\U{205F}\U{3000}"
    || '\U{2000}' <= c <= '\U{200A}'
  }

  /** What Sscanf("%d") reads: an optional sign and the leading digits, as an int64, after any blanks. */
  function ScanInt(raw: string): Option<int> {
    if raw == "" then None
    else if IsSpace(raw[0]) then ScanInt(raw[1..])
    else if raw[0] == '-' then (match ScanDigits(raw[1..]) case None => None case Some(n) => InRange(-n))
    else if raw[0] == '+' then (match ScanDigits(raw[1..]) case None => None case Some(n) => InRange(n))
    else (match ScanDigits(raw) case None => None case Some(n) => InRange(n))
  }

  function InRange(n: int): Option<int> {
    if -0x8000_0000_0000_0000 <= n <= 0x7FFF_FFFF_FFFF_FFFF then Some(n) else None
  }

  function LeadingDigits(raw: string): string {
    if raw != "" && '0' <= raw[0] <= '9' then [raw[0]] + LeadingDigits(raw[1..]) else ""
  }

  function Decimal(digits: string): int {
    if digits == "" then 0 else 10 * Decimal(digits[..|digits| - 1]) + (Last(digits) as int - '0' as int)
  }

  function ScanDigits(raw: string): Option<int> {
    if LeadingDigits(raw) == "" then None else Some(Decimal(LeadingDigits(raw)))
  }

  /** The handler's limit lies in the range where the repository's own clamp changes nothing, so a
      page is full exactly when it has as many rows as the handler asked for. */
  function ParseLimit(raw: string): (limit: int)
    ensures 1 <= limit <= MAX_LIMIT && RepositoryLimit(limit) == limit
  {
    match ScanInt(raw)
    case None => DEFAULT_LIMIT
    case Some(n) => if n <= 0 then DEFAULT_LIMIT else if n > MAX_LIMIT then MAX_LIMIT else n
  }

  /** A number as it is written. */
  function DecimalText(n: nat): (text: string)
    ensures text != "" && forall k | 0 <= k < |text| :: '0' <= text[k] <= '9'
  {
    (if n < 10 then "" else DecimalText(n / 10)) + ["0123456789"[n % 10]]
  }

  lemma {:induction false} DecimalOfText(n: nat)
    ensures Decimal(DecimalText(n)) == n
  {
    var text := DecimalText(n);
    assert "0123456789"[n % 10] as int - '0' as int == n % 10;
    if n < 10 {
      assert text[..|text| - 1] == "";
    } else {
      DecimalOfText(n / 10);
      assert text[..|text| - 1] == DecimalText(n / 10);
    }
  }

  predicate NoDigitFirst(rest: string) { rest == "" || !('0' <= rest[0] <= '9') }

  lemma {:induction false} LeadingDigitsOf(digits: string, rest: string)
    requires (forall k | 0 <= k < |digits| :: '0' <= digits[k] <= '9') && NoDigitFirst(rest)
    ensures LeadingDigits(digits + rest) == digits
  {
    if digits == "" {
      assert digits + rest == rest;
    } else {
      LeadingDigitsOf(digits[1..], rest);
      assert (digits + rest)[1..] == digits[1..] + rest;
      assert digits == [digits[0]] + digits[1..];
    }
  }

  lemma DigitIsNoSpace(c: char)
    requires '0' <= c <= '9' || c == '-'
    ensures !IsSpace(c)
  {
  }

  lemma ScanReads(n: nat, rest: string)
    requires NoDigitFirst(rest)
    ensures ScanInt(DecimalText(n) + rest) == InRange(n)
    ensures ScanInt("-" + (DecimalText(n) + rest)) == InRange(0 - n)
  {
    hide IsSpace, LeadingDigits, Decimal, DecimalText;
    var raw := DecimalText(n) + rest;
    assert raw[0] == DecimalText(n)[0];
    DigitIsNoSpace(raw[0]);
    DigitIsNoSpace('-');
    LeadingDigitsOf(DecimalText(n), rest);
    DecimalOfText(n);
    assert ("-" + raw)[1..] == raw;
  }

  /** The limit a client writes is the limit it gets, from 1 to 100; more is 100, and zero, a negative
      number, one past int64, nothing and no number are 20. What follows the digits does not matter. */
  lemma ParseLimitReads(n: nat, rest: string)
    requires NoDigitFirst(rest)
    ensures ParseLimit(DecimalText(n) + rest)
            == if n == 0 || n > 0x7FFF_FFFF_FFFF_FFFF then 20 else if n > 100 then 100 else n
    ensures ParseLimit("-" + (DecimalText(n) + rest)) == 20
  {
    ScanReads(n, rest);
    hide ScanInt, DecimalText;
  }

  lemma ParseLimitDefault(raw: string)
    requires raw == "" || (!IsSpace(raw[0]) && raw[0] != '-' && raw[0] != '+' && NoDigitFirst(raw))
    ensures ParseLimit(raw) == 20
  {
  }

  /** Blanks in front change nothing. */
  lemma ParseLimitSkips(c: char, raw: string)
    requires IsSpace(c)
    ensures ParseLimit([c] + raw) == ParseLimit(raw)
  {
    assert ([c] + raw)[1..] == raw;
  }

  datatype Reply = Items(items: seq<Row>, next: Option<Uuid>) | BadRequest

  function NextCursor(items: seq<Row>, limit: int): Option<Row> {
    if items != [] && |items| == limit then Some(Last(items)) else None
  }

  /** ListLedger and List. */
  method List(table: set<Row>, account: Uuid, rawLimit: string, cursor: Option<Uuid>) returns (reply: Reply)
    requires Keyed(table)
    ensures reply.BadRequest? <==> cursor.Some? && forall x | x in table && x.account == account :: x.id != cursor.value
    ensures reply.Items? ==>
              var anchor := if cursor == None then None else Anchor(table, account, cursor.value);
              && reply.items == PageSpec(table, account, ParseLimit(rawLimit), anchor)
              && reply.next == (match NextCursor(reply.items, ParseLimit(rawLimit)) case None => None case Some(x) => Some(x.id))
  {
    var limit := ParseLimit(rawLimit);
    var page := ListByAccount(table, account, limit, cursor);
    if page.InvalidCursor? { return BadRequest; }
    var items: seq<Row> := [];
    for i := 0 to |page.items|
      invariant items == page.items[..i]
    {
      items := items + [page.items[i]];
    }
    var next: Option<Uuid> := None;
    if |items| == limit { next := Some(items[|items| - 1].id); }
    return Items(items, next);
  }

  // ----- walking ------------------------------------------------------------------------------------------

  predicate AllKeyed(tables: seq<set<Row>>) { forall k | 0 <= k < |tables| :: Keyed(tables[k]) }

  /** The pages a client gets by following next_cursor, one table per request, until a page carries
      no cursor or the client gives up. */
  function Walk(tables: seq<set<Row>>, account: Uuid, limit: int, cursor: Option<Row>): seq<seq<Row>>
    requires limit > 0 && AllKeyed(tables)
  {
    if tables == [] then []
    else
      var items := PageSpec(tables[0], account, limit, cursor);
      match NextCursor(items, limit)
      case None => [items]
      case Some(x) => [items] + Walk(tables[1..], account, limit, Some(x))
  }

  function Flatten(pages: seq<seq<Row>>): seq<Row> {
    if pages == [] then [] else pages[0] + Flatten(pages[1..])
  }

  /** The last page said there is no more. */
  predicate Ended(pages: seq<seq<Row>>, limit: int) { pages != [] && |Last(pages)| < limit }

  /** Rows are only ever added. */
  predicate Growing(tables: seq<set<Row>>) {
    forall j, k | 0 <= j < k < |tables| :: tables[j] <= tables[k]
  }

  /** While a page is read, rows appear only above it: between one request and the next, nothing
      new lies below the cursor the first one returned. */
  predicate GrowsAbove(tables: seq<set<Row>>, account: Uuid, limit: int, cursor: Option<Row>)
    requires limit > 0 && AllKeyed(tables)
  {
    |tables| > 1 ==>
      var items := PageSpec(tables[0], account, limit, cursor);
      match NextCursor(items, limit)
      case None => true
      case Some(x) =>
        && Below(tables[1], account, Some(x)) == Below(tables[0], account, Some(x))
        && GrowsAbove(tables[1..], account, limit, Some(x))
  }

  predicate AllAfter(cursor: Option<Row>, rows: seq<Row>) {
    cursor.Some? ==> forall x | x in rows :: Before(cursor.value, x)
  }

  lemma PageFacts(table: set<Row>, account: Uuid, limit: int, cursor: Option<Row>)
    requires Keyed(table) && limit > 0
    ensures var items := PageSpec(table, account, limit, cursor);
            && Descending(items) && AllAfter(cursor, items) && |items| <= limit
            && (forall x | x in items :: x in table && x.account == account)
            && (NextCursor(items, limit) == None ==> Rows(items) == Below(table, account, cursor))
            && (NextCursor(items, limit).Some? ==>
                  forall x | x in Below(table, account, cursor) :: x in items || Before(Last(items), x))
  {
    var l := Ahead(table, account, cursor);
    var items := PageSpec(table, account, limit, cursor);
    assert forall x | x in items :: x in Rows(l);
    forall x | x in Rows(l) && NextCursor(items, limit).Some? ensures x in items || Before(Last(items), x) {
      var k :| 0 <= k < |l| && l[k] == x;
      if k < |items| { assert items[k] == x; } else { assert Before(l[|items| - 1], l[k]); }
    }
  }

  /** However the table grows between requests, no row is listed twice or out of order. */
  lemma {:induction false} NoRepeat(tables: seq<set<Row>>, account: Uuid, limit: int, cursor: Option<Row>)
    requires limit > 0 && AllKeyed(tables)
    ensures Descending(Flatten(Walk(tables, account, limit, cursor)))
    ensures AllAfter(cursor, Flatten(Walk(tables, account, limit, cursor)))
  {
    if tables != [] {
      var items := PageSpec(tables[0], account, limit, cursor);
      PageFacts(tables[0], account, limit, cursor);
      match NextCursor(items, limit)
      case None =>
        assert Flatten([items]) == items + Flatten([]);
      case Some(x) =>
        var rest := Walk(tables[1..], account, limit, Some(x));
        NoRepeat(tables[1..], account, limit, Some(x));
        assert ([items] + rest)[1..] == rest;
        AppendDescending(items, Flatten(rest), cursor);
    }
  }

  lemma AppendDescending(a: seq<Row>, b: seq<Row>, cursor: Option<Row>)
    requires a != [] && Descending(a) && Descending(b) && AllAfter(Some(Last(a)), b) && AllAfter(cursor, a)
    ensures Descending(a + b) && AllAfter(cursor, a + b)
  {
    assert Last(a) in a;
    forall j, k | 0 <= j < k < |a + b| ensures Before((a + b)[j], (a + b)[k]) {
      if j < |a| <= k {
        assert b[k - |a|] in b;
        assert Before(Last(a), b[k - |a|]);
        assert j < |a| - 1 ==> Before(a[j], Last(a));
      }
    }
  }

  /** And a walk that ends has listed every row that was there when it began. */
  lemma {:induction false} NoSkip(tables: seq<set<Row>>, account: Uuid, limit: int, cursor: Option<Row>)
    requires limit > 0 && AllKeyed(tables) && Growing(tables)
    requires Ended(Walk(tables, account, limit, cursor), limit)
    ensures forall x | x in Below(tables[0], account, cursor) :: x in Flatten(Walk(tables, account, limit, cursor))
  {
    hide PageSpec, Ahead, Listing, Descending, AllAfter, Keyed;
    var items := PageSpec(tables[0], account, limit, cursor);
    PageFacts(tables[0], account, limit, cursor);
    match NextCursor(items, limit)
    case None =>
      assert Flatten([items]) == items + Flatten([]);
    case Some(next) =>
      var rest := Walk(tables[1..], account, limit, Some(next));
      assert ([items] + rest)[1..] == rest;
      NoSkip(tables[1..], account, limit, Some(next));
      forall x | x in Below(tables[0], account, cursor) ensures x in items + Flatten(rest) {
        if x !in items {
          assert tables[0] <= tables[1];
          assert x in Below(tables[1..][0], account, Some(next));
        }
      }
  }

  /** What follows a row of the listing is the listing of what lies below that row. */
  lemma RestRows(l: seq<Row>, all: set<Row>, limit: int)
    requires Descending(l) && Rows(l) == all && 0 < limit <= |l|
    ensures Rows(l[limit..]) == set y | y in all && Before(l[limit - 1], y)
  {
    var x := l[limit - 1];
    forall k | 0 <= k < limit ensures !Before(x, l[k]) {
      assert k == limit - 1 || Before(l[k], x);
    }
    forall y | y in all && Before(x, y) ensures y in Rows(l[limit..]) {
      var k :| 0 <= k < |l| && l[k] == y;
      assert l[limit..][k - limit] == y;
    }
    forall y | y in Rows(l[limit..]) ensures y in all && Before(x, y) {
      var k :| 0 <= k < |l[limit..]| && l[limit..][k] == y;
      assert y == l[limit + k] && Before(x, l[limit + k]);
    }
  }

  /** The row a page ends on is found again by its id, so the walk never meets an invalid cursor. */
  lemma CursorIsFound(t: set<Row>, u: set<Row>, account: Uuid, limit: int, cursor: Option<Row>)
    requires Keyed(t) && Keyed(u) && t <= u && limit > 0
    requires NextCursor(PageSpec(t, account, limit, cursor), limit).Some?
    ensures var x := NextCursor(PageSpec(t, account, limit, cursor), limit).value;
            Anchor(u, account, x.id) == Some(x)
  {
    var items := PageSpec(t, account, limit, cursor);
    PageFacts(t, account, limit, cursor);
    assert Last(items) in items;
  }

  lemma InRows(l: seq<Row>, k: nat)
    requires k < |l|
    ensures l[k] in Rows(l)
  {
  }

  lemma DescendingFrom(l: seq<Row>, k: nat)
    requires Descending(l) && k <= |l|
    ensures Descending(l[k..])
  {
  }

  /** What lies below a row of a page is what of the page's own range lies below it. */
  lemma BelowThere(table: set<Row>, account: Uuid, cursor: Option<Row>, x: Row)
    requires x in Below(table, account, cursor)
    ensures Below(table, account, Some(x)) == set y | y in Below(table, account, cursor) && Before(x, y)
  {
  }

  lemma RestOfListing(table: set<Row>, account: Uuid, limit: int, cursor: Option<Row>)
    requires Keyed(table) && limit > 0 && NextCursor(PageSpec(table, account, limit, cursor), limit).Some?
    ensures var l, items := Ahead(table, account, cursor), PageSpec(table, account, limit, cursor);
            |l| >= limit && items == l[..limit] && Ahead(table, account, Some(Last(items))) == l[limit..]
  {
    hide Listing, Descending, Keyed, Rows;
    var l := Ahead(table, account, cursor);
    var x := l[limit - 1];
    RestRows(l, Below(table, account, cursor), limit);
    InRows(l, limit - 1);
    BelowThere(table, account, cursor, x);
    DescendingFrom(l, limit);
    DescendingUnique(Ahead(table, account, Some(x)), l[limit..]);
  }

  /** The pages are the first `requests` pages of the list, and the walk is over just when they are all of it. */
  predicate Lists(l: seq<Row>, pages: seq<seq<Row>>, limit: int, requests: nat)
    requires limit > 0
  {
    && limit * requests >= 0 && Flatten(pages) == Take(l, limit * requests)
    && |pages| <= requests
    && (Ended(pages, limit) <==> |l| < limit * requests)
    && (Ended(pages, limit) ==> limit * (|pages| - 1) <= |l| < limit * |pages|)
  }

  lemma OnePage(l: seq<Row>, limit: int, requests: nat)
    requires limit > 0 && requests >= 1 && (|l| < limit || requests == 1)
    ensures Lists(l, [Take(l, limit)], limit, requests)
  {
    LastPage(|l|, limit, requests);
    assert Flatten([Take(l, limit)]) == Take(l, limit) + Flatten([]);
  }

  lemma OneMorePage(l: seq<Row>, rest: seq<seq<Row>>, limit: int, requests: nat)
    requires limit > 0 && requests > 1 && |l| >= limit && rest != [] && Lists(l[limit..], rest, limit, requests - 1)
    ensures Lists(l, [l[..limit]] + rest, limit, requests)
  {
    var pages := [l[..limit]] + rest;
    assert pages[1..] == rest && Last(pages) == Last(rest);
    FullPage(limit, requests);
    FullPage(limit, |pages|);
    FullPage(limit, |rest|);
  }

  /** When rows appear only above the cursor, n requests return exactly the first n pages of what
      was there at the start, and a walk of enough requests ends having listed all of it. */
  lemma {:induction false} WalkIsTheListing(tables: seq<set<Row>>, account: Uuid, limit: int, cursor: Option<Row>)
    requires limit > 0 && tables != [] && AllKeyed(tables)
    requires GrowsAbove(tables, account, limit, cursor)
    ensures Lists(Ahead(tables[0], account, cursor), Walk(tables, account, limit, cursor), limit, |tables|)
  {
    hide Lists, Ahead, Below, Descending, Keyed, Rows;
    var l := Ahead(tables[0], account, cursor);
    var items := PageSpec(tables[0], account, limit, cursor);
    match NextCursor(items, limit)
    case None =>
      OnePage(l, limit, |tables|);
    case Some(next) =>
      RestOfListing(tables[0], account, limit, cursor);
      if |tables| == 1 {
        assert [items] + Walk(tables[1..], account, limit, Some(next)) == [items];
        OnePage(l, limit, 1);
      } else {
        WalkIsTheListing(tables[1..], account, limit, Some(next));
        assert Ahead(tables[1..][0], account, Some(next)) == Ahead(tables[0], account, Some(next)) by {
          SameAhead(tables[0], tables[1], account, next);
        }
        OneMorePage(l, Walk(tables[1..], account, limit, Some(next)), limit, |tables|);
      }
  }

  lemma SameAhead(t: set<Row>, u: set<Row>, account: Uuid, next: Row)
    requires Keyed(t) && Keyed(u) && Below(u, account, Some(next)) == Below(t, account, Some(next))
    ensures Ahead(t, account, Some(next)) == Ahead(u, account, Some(next))
  {
  }

  lemma LastPage(n: nat, limit: int, requests: int)
    requires limit > 0 && requests >= 1 && (n < limit || requests == 1)
    ensures limit * requests >= limit && limit * 0 == 0 && limit * 1 == limit
  {
  }

  lemma FullPage(limit: int, requests: int)
    ensures limit * requests == limit + limit * (requests - 1)
  {
  }
}
