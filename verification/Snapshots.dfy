/** The texts idempotency goes through: UUIDs in canonical form, the stored response as marshalled
    for Redis and as PostgreSQL renders JSONB, and the cache key. */
module Snapshots {
  import opened Base

  const UUIDS: nat := 0x1_0000_0000_0000_0000_0000_0000_0000_0000

  // ----- UUID text --------------------------------------------------------------------------------

  const DIGITS: string := "0123456789abcdef"

  function Pow16(width: nat): nat { if width == 0 then 1 else 16 * Pow16(width - 1) }

  function Hex(n: nat, width: nat): (h: string)
    ensures |h| == width
    ensures forall c | c in h :: c in DIGITS
  {
    if width == 0 then "" else Hex(n / 16, width - 1) + [DIGITS[n % 16]]
  }

  function Digit(c: char): (d: nat)
    ensures d < 16
  {
    if '0' <= c <= '9' then (c - '0') as nat else if 'a' <= c <= 'f' then (c - 'a') as nat + 10 else 0
  }

  function Number(h: string): nat {
    if h == "" then 0 else 16 * Number(h[..|h| - 1]) + Digit(Last(h))
  }

  lemma {:induction false} NumberHex(n: nat, width: nat)
    requires n < Pow16(width)
    ensures Number(Hex(n, width)) == n
  {
    if width > 0 {
      NumberHex(n / 16, width - 1);
      assert Hex(n, width)[..width - 1] == Hex(n / 16, width - 1);
      assert Digit(DIGITS[n % 16]) == n % 16;
    }
  }

  function Dashed(h: string): string
    requires |h| == 32
  {
    h[..8] + "-" + h[8..12] + "-" + h[12..16] + "-" + h[16..20] + "-" + h[20..]
  }

  function Undashed(t: string): string
    requires |t| == 36
  {
    t[..8] + t[9..13] + t[14..18] + t[19..23] + t[24..]
  }

  function UuidText(u: nat): (t: string)
    ensures |t| == 36
    ensures Plain(t)
  {
    DashedPlain(Hex(u, 32));
    Dashed(Hex(u, 32))
  }

  lemma DashedPlain(h: string)
    requires |h| == 32 && forall c | c in h :: c in DIGITS
    ensures Plain(Dashed(h))
  {
    forall k | 0 <= k < 36 ensures Dashed(h)[k] == '-' || Dashed(h)[k] in DIGITS {
      var i := if k < 8 then k else if k < 13 then k - 1 else if k < 18 then k - 2 else if k < 23 then k - 3 else k - 4;
      assert 0 <= i < 32 ==> h[i] in h;
    }
  }

  /** Reads the canonical form. */
  function UuidOf(t: string): Option<nat> {
    if |t| != 36 || t[8] != '-' || t[13] != '-' || t[18] != '-' || t[23] != '-' then None
    else if exists c :: c in Undashed(t) && c !in DIGITS then None
    else Some(Number(Undashed(t)))
  }

  lemma UndashedDashed(h: string)
    requires |h| == 32
    ensures Undashed(Dashed(h)) == h
  {
    var t := Dashed(h);
    assert t[..8] == h[..8] && t[9..13] == h[8..12] && t[14..18] == h[12..16] && t[19..23] == h[16..20] && t[24..] == h[20..];
    assert h == h[..8] + h[8..12] + h[12..16] + h[16..20] + h[20..];
  }

  /** Printing and parsing an id gives it back, so no two ids share a text. */
  lemma UuidRoundTrip(u: nat)
    requires u < UUIDS
    ensures UuidOf(UuidText(u)) == Some(u)
  {
    UndashedDashed(Hex(u, 32));
    assert Pow16(8) == 0x1_0000_0000;
    assert Pow16(16) == 0x1_0000_0000_0000_0000;
    assert Pow16(24) == 0x1_0000_0000_0000_0000_0000_0000;
    assert Pow16(28) == 0x1_0000_0000_0000_0000_0000_0000_0000;
    assert Pow16(32) == UUIDS;
    NumberHex(u, 32);
  }

  // ----- JSON objects of plain strings ------------------------------------------------------------

  /** Nothing JSON would escape. */
  predicate Plain(s: string) { forall k | 0 <= k < |s| :: ' ' <= s[k] && s[k] != '"' && s[k] != '\\' }

  datatype Field = Field(name: string, value: string)

  predicate PlainFields(fs: seq<Field>) { forall f | f in fs :: Plain(f.name) && Plain(f.value) }

  function Quoted(s: string): string { ['"'] + s + ['"'] }

  function RenderFields(fs: seq<Field>, gap: string): string
    requires fs != []
  {
    Quoted(fs[0].name) + ":" + gap + Quoted(fs[0].value)
    + if |fs| == 1 then "" else "," + gap + RenderFields(fs[1..], gap)
  }

  /** Go writes no blanks, PostgreSQL one after each colon and comma. */
  function Render(fs: seq<Field>, gap: string): string {
    "{" + (if fs == [] then "" else RenderFields(fs, gap)) + "}"
  }

  function SkipBlanks(s: string): (r: string)
    ensures |r| <= |s|
  {
    if s != "" && s[0] in " \t\r\n" then SkipBlanks(s[1..]) else s
  }

  /** The rest of a string literal, and what follows it. */
  function ReadRest(s: string): (r: Option<(string, string)>)
    ensures r.Some? ==> |r.value.1| < |s|
  {
    if s == "" || s[0] < ' ' || s[0] == '\\' then None
    else if s[0] == '"' then Some(("", s[1..]))
    else match ReadRest(s[1..])
      case None => None
      case Some(p) => Some(([s[0]] + p.0, p.1))
  }

  function ReadString(s: string): (r: Option<(string, string)>)
    ensures r.Some? ==> |r.value.1| < |s|
  {
    var t := SkipBlanks(s);
    if t == "" || t[0] != '"' then None else ReadRest(t[1..])
  }

  function ReadField(s: string): (r: Option<(Field, string)>)
    ensures r.Some? ==> |r.value.1| < |s|
  {
    match ReadString(s)
    case None => None
    case Some(n) =>
      var t := SkipBlanks(n.1);
      if t == "" || t[0] != ':' then None
      else match ReadString(t[1..])
        case None => None
        case Some(v) => Some((Field(n.0, v.0), v.1))
  }

  /** The fields up to and including the closing brace, and what follows it. */
  function ReadFields(s: string): Option<(seq<Field>, string)>
    decreases |s|
  {
    match ReadField(s)
    case None => None
    case Some(p) =>
      var t := SkipBlanks(p.1);
      if t != "" && t[0] == '}' then Some(([p.0], t[1..]))
      else if t != "" && t[0] == ',' then
        match ReadFields(t[1..])
        case None => None
        case Some(q) => Some(([p.0] + q.0, q.1))
      else None
  }

  function ReadObject(s: string): Option<seq<Field>> {
    var t := SkipBlanks(s);
    if t == "" || t[0] != '{' then None
    else
      var u := SkipBlanks(t[1..]);
      if u != "" && u[0] == '}' then (if SkipBlanks(u[1..]) == "" then Some([]) else None)
      else match ReadFields(t[1..])
        case None => None
        case Some(p) => if SkipBlanks(p.1) == "" then Some(p.0) else None
  }

  predicate IsGap(gap: string) { gap == "" || gap == " " }

  lemma {:induction false} RestRoundTrip(s: string, rest: string)
    requires Plain(s)
    ensures ReadRest(s + ['"'] + rest) == Some((s, rest))
  {
    var t := s + ['"'] + rest;
    if s == "" {
      assert t[1..] == rest;
    } else {
      assert t[1..] == s[1..] + ['"'] + rest;
      RestRoundTrip(s[1..], rest);
      assert s == [s[0]] + s[1..] && t[0] == s[0];
    }
  }

  lemma StringRoundTrip(s: string, gap: string, rest: string)
    requires Plain(s) && IsGap(gap)
    ensures ReadString(gap + Quoted(s) + rest) == Some((s, rest))
  {
    var t := gap + Quoted(s) + rest;
    assert gap == " " ==> t[1..] == Quoted(s) + rest;
    assert SkipBlanks(t) == Quoted(s) + rest;
    assert (Quoted(s) + rest)[1..] == s + ['"'] + rest;
    RestRoundTrip(s, rest);
  }

  lemma FieldRoundTrip(f: Field, before: string, gap: string, rest: string)
    requires Plain(f.name) && Plain(f.value) && IsGap(gap) && IsGap(before)
    ensures ReadField(before + (Quoted(f.name) + ":" + gap + Quoted(f.value)) + rest) == Some((f, rest))
  {
    var t := before + (Quoted(f.name) + ":" + gap + Quoted(f.value)) + rest;
    var after := ":" + gap + Quoted(f.value) + rest;
    assert t == before + Quoted(f.name) + after;
    StringRoundTrip(f.name, before, after);
    assert after[1..] == gap + Quoted(f.value) + rest;
    StringRoundTrip(f.value, gap, rest);
  }

  lemma {:induction false} FieldsRoundTrip(fs: seq<Field>, before: string, gap: string)
    requires fs != [] && PlainFields(fs) && IsGap(gap) && IsGap(before)
    ensures ReadFields(before + RenderFields(fs, gap) + "}") == Some((fs, ""))
    decreases |fs|
  {
    hide ReadField, Quoted;
    assert fs[0] in fs;
    var pair := Quoted(fs[0].name) + ":" + gap + Quoted(fs[0].value);
    var rest := if |fs| == 1 then "}" else "," + gap + RenderFields(fs[1..], gap) + "}";
    assert before + RenderFields(fs, gap) + "}" == before + pair + rest;
    FieldRoundTrip(fs[0], before, gap, rest);
    if |fs| == 1 {
      assert rest[1..] == "" && fs == [fs[0]];
    } else {
      assert rest[1..] == gap + RenderFields(fs[1..], gap) + "}";
      FieldsRoundTrip(fs[1..], gap, gap);
      assert fs == [fs[0]] + fs[1..];
    }
  }

  /** Reading what was rendered gives the fields back, in their order. */
  lemma ObjectRoundTrip(fs: seq<Field>, gap: string)
    requires PlainFields(fs) && IsGap(gap)
    ensures ReadObject(Render(fs, gap)) == Some(fs)
  {
    hide ReadFields;
    var t := Render(fs, gap);
    if fs == [] {
      assert t[1..] == "}";
    } else {
      assert t[1..] == "" + RenderFields(fs, gap) + "}";
      assert t[1..][0] == '"';
      FieldsRoundTrip(fs, "", gap);
    }
  }

  // ----- responses ----------------------------------------------------------------------------------

  datatype Response = Response(message: string, status: string)

  /** The last field of that name, or nothing. */
  function FieldValue(fs: seq<Field>, name: string): string {
    if fs == [] then "" else if Last(fs).name == name then Last(fs).value else FieldValue(fs[..|fs| - 1], name)
  }

  /** ParseIdempotencyResponse: the placeholder, an unreadable text and a missing id are no response. */
  function ParseResponse(snapshot: string): Option<Response> {
    if snapshot == "" || snapshot == "{}" then None
    else match ReadObject(snapshot)
      case None => None
      case Some(fs) =>
        if FieldValue(fs, "message_id") == "" then None
        else Some(Response(FieldValue(fs, "message_id"), FieldValue(fs, "status")))
  }

  /** MarshalIdempotencyResponse, in the order the struct declares its fields. */
  function Marshalled(r: Response): string {
    Render([Field("message_id", r.message), Field("status", r.status)], "")
  }

  /** The same object as a JSONB column returns it: shorter keys first, blanks after `:` and `,`. */
  function Stored(r: Response): string {
    Render([Field("status", r.status), Field("message_id", r.message)], " ")
  }

  predicate PlainResponse(r: Response) { Plain(r.message) && Plain(r.status) }

  /** A response is read back from Redis and from PostgreSQL alike, if and only if it names a message. */
  lemma ResponseRoundTrip(r: Response)
    requires PlainResponse(r)
    ensures ParseResponse(Marshalled(r)) == ParseResponse(Stored(r))
    ensures ParseResponse(Stored(r)) == Some(r) <==> r.message != ""
  {
    var id, st := Field("message_id", r.message), Field("status", r.status);
    hide ReadObject, RenderFields;
    ObjectRoundTrip([id, st], "");
    ObjectRoundTrip([st, id], " ");
    assert [id, st][..1] == [id] && [st, id][..1] == [st];
    assert [id][..0] == [] && [st][..0] == [];
    assert FieldValue([id, st], "message_id") == r.message == FieldValue([st, id], "message_id");
    assert FieldValue([id, st], "status") == r.status == FieldValue([st, id], "status");
    assert ReadObject(Stored(r)) != Some([]) && ReadObject(Marshalled(r)) != Some([]);
    ObjectRoundTrip([], "");
  }

  /** The placeholder, nothing at all, and an object that names no message are no response. */
  lemma NoResponse(fields: seq<Field>, gap: string)
    requires PlainFields(fields) && IsGap(gap)
    ensures ParseResponse("{}") == None && ParseResponse("") == None
    ensures (forall f | f in fields :: f.name != "message_id") ==> ParseResponse(Render(fields, gap)) == None
  {
    hide ReadObject, RenderFields;
    ObjectRoundTrip(fields, gap);
    NoField(fields, "message_id");
  }

  lemma {:induction false} NoField(fields: seq<Field>, name: string)
    ensures (forall f | f in fields :: f.name != name) ==> FieldValue(fields, name) == ""
  {
    if fields != [] {
      NoField(fields[..|fields| - 1], name);
      assert Last(fields) in fields;
    }
  }

  // ----- the cache key --------------------------------------------------------------------------------

  function CacheKey(prefix: string, account: nat, key: string): string {
    prefix + ":" + UuidText(account) + ":" + key
  }

  /** Two entries never share a cache key, whatever colons the prefix and the keys contain. */
  lemma CacheKeyInjective(prefix: string, a: nat, k: string, b: nat, l: string)
    requires a < UUIDS && b < UUIDS && CacheKey(prefix, a, k) == CacheKey(prefix, b, l)
    ensures a == b && k == l
  {
    hide UuidText, UuidOf;
    var x, y := CacheKey(prefix, a, k), CacheKey(prefix, b, l);
    var from := |prefix| + 1;
    assert x[from..from + 36] == UuidText(a) && y[from..from + 36] == UuidText(b);
    assert x[from + 37..] == k && y[from + 37..] == l;
    UuidRoundTrip(a);
    UuidRoundTrip(b);
  }
}
