/** The canonical JSON text of a workstation registry, and why it determines the registry. */
module CanonicalJson {
  import opened Options

  const MAX_U64 := 0xFFFF_FFFF_FFFF_FFFF

  type U64 = n: int | 0 <= n <= MAX_U64

  const MAX_U32 := 0xFFFF_FFFF

  type U32 = n: int | 0 <= n <= MAX_U32

  datatype Workstation = Workstation(id: string, publicKey: string)

  datatype Document = Document(schemaVersion: U32, generation: U64, previous: Option<string>, workstations: seq<Workstation>)

  // ---- Numbers ----

  predicate IsDigit(c: char) { '0' <= c <= '9' }

  function Digit(n: nat): char
    requires n < 10
  {
    ['0', '1', '2', '3', '4', '5', '6', '7', '8', '9'][n]
  }

  function Decimal(n: nat): (s: string)
    ensures |s| > 0 && forall i :: 0 <= i < |s| ==> IsDigit(s[i])
  {
    if n < 10 then [Digit(n)] else Decimal(n / 10) + [Digit(n % 10)]
  }

  // ---- Strings ----

  function HexDigit(n: nat): char
    requires n < 16
  {
    ['0', '1', '2', '3', '4', '5', '6', '7', '8', '9', 'a', 'b', 'c', 'd', 'e', 'f'][n]
  }

  /** One character inside a JSON string. */
  function Escape(c: char): (s: string)
    ensures |s| > 0 && s[0] != '"'
  {
    var n := c as int;
    if c == '"' then ['\\', '"']
    else if c == '\\' then ['\\', '\\']
    else if n == 8 then ['\\', 'b']
    else if n == 9 then ['\\', 't']
    else if n == 10 then ['\\', 'n']
    else if n == 12 then ['\\', 'f']
    else if n == 13 then ['\\', 'r']
    else if n < 32 then ['\\', 'u', '0', '0', HexDigit(n / 16), HexDigit(n % 16)]
    else [c]
  }

  // Each writer is given the text that follows, as a serializer appends to its output.

  /** The characters of a string and its closing quote. */
  function Characters(s: string, rest: string): string {
    if s == "" then "\"" + rest else Escape(s[0]) + Characters(s[1..], rest)
  }

  function Quoted(s: string, rest: string): string { "\"" + Characters(s, rest) }

  // ---- Registries ----

  function Nullable(s: Option<string>, rest: string): string { if s.None? then "null" + rest else Quoted(s.value, rest) }

  function Entry(w: Workstation, rest: string): string {
    "{\"id\":" + Quoted(w.id, ",\"publicKey\":" + Quoted(w.publicKey, "}" + rest))
  }

  /** The entries with their separators, up to the end of the text. */
  function Entries(ws: seq<Workstation>): string {
    if ws == [] then "]}" else Entry(ws[0], MoreEntries(ws[1..]))
  }

  function MoreEntries(ws: seq<Workstation>): string {
    if ws == [] then "]}" else "," + Entry(ws[0], MoreEntries(ws[1..]))
  }

  function FromGeneration(d: Document): string { ",\"generation\":" + (Decimal(d.generation) + FromPrevious(d)) }

  function FromPrevious(d: Document): string { ",\"previousRegistrySha256\":" + Nullable(d.previous, FromWorkstations(d)) }

  function FromWorkstations(d: Document): string { ",\"workstations\":[" + Entries(d.workstations) }

  function Encode(d: Document): string { "{\"schemaVersion\":" + (Decimal(d.schemaVersion) + FromGeneration(d)) }

  // ---- Each part can be cut off the front in only one way ----

  lemma SameHead(h: string, x: string, y: string)
    requires h + x == h + y
    ensures x == y
  {
    assert x == (h + x)[|h|..];
    assert y == (h + y)[|h|..];
  }

  lemma SameWidth(a: string, b: string, x: string, y: string)
    requires a + x == b + y && |a| == |b|
    ensures a == b && x == y
  {
    assert a == (a + x)[..|a|];
    assert b == (b + y)[..|b|];
    SameHead(a, x, y);
  }

  lemma {:induction false} DecimalInjective(m: nat, n: nat)
    requires Decimal(m) == Decimal(n)
    ensures m == n
  {
    if m >= 10 && n >= 10 {
      assert Decimal(m)[..|Decimal(m)| - 1] == Decimal(m / 10);
      assert Decimal(n)[..|Decimal(n)| - 1] == Decimal(n / 10);
      DecimalInjective(m / 10, n / 10);
      assert Decimal(m)[|Decimal(m)| - 1] == Digit(m % 10);
      assert Decimal(n)[|Decimal(n)| - 1] == Digit(n % 10);
    }
  }

  lemma DecimalCut(m: nat, n: nat, x: string, y: string)
    requires Decimal(m) + x == Decimal(n) + y
    requires x != "" && y != "" && !IsDigit(x[0]) && !IsDigit(y[0])
    ensures m == n && x == y
  {
    var a, b := Decimal(m), Decimal(n);
    assert (a + x)[|a|] == x[0] && (b + y)[|b|] == y[0];
    assert forall i :: 0 <= i < |a| ==> (a + x)[i] == a[i];
    assert forall i :: 0 <= i < |b| ==> (b + y)[i] == b[i];
    assert |a| == |b|;
    SameWidth(a, b, x, y);
    DecimalInjective(m, n);
  }

  lemma EscapeInjective(c: char, d: char)
    requires Escape(c) == Escape(d)
    ensures c == d
  {
    if |Escape(c)| == 6 {
      assert Escape(c)[4] == Escape(d)[4] && Escape(c)[5] == Escape(d)[5];
    } else {
      assert Escape(c)[0] == Escape(d)[0];
      if |Escape(c)| == 2 { assert Escape(c)[1] == Escape(d)[1]; }
    }
  }

  lemma EscapeCut(c: char, d: char, x: string, y: string)
    requires Escape(c) + x == Escape(d) + y
    ensures c == d && x == y
  {
    var a, b := Escape(c), Escape(d);
    assert a[0] == (a + x)[0] == (b + y)[0] == b[0];
    if a[0] == '\\' {
      assert a[1] == (a + x)[1] == (b + y)[1] == b[1];
    }
    assert |a| == |b|;
    SameWidth(a, b, x, y);
    EscapeInjective(c, d);
  }

  lemma CharactersStart(s: string, x: string)
    ensures Characters(s, x) != "" && (Characters(s, x)[0] == '"' <==> s == "")
  {
  }

  lemma {:induction false} CharactersCut(s: string, t: string, x: string, y: string)
    requires Characters(s, x) == Characters(t, y)
    ensures s == t && x == y
    decreases |s|
  {
    CharactersStart(s, x);
    CharactersStart(t, y);
    if s == "" {
      SameHead("\"", x, y);
    } else {
      EscapeCut(s[0], t[0], Characters(s[1..], x), Characters(t[1..], y));
      CharactersCut(s[1..], t[1..], x, y);
      assert s == [s[0]] + s[1..] && t == [t[0]] + t[1..];
    }
  }

  lemma QuotedCut(s: string, t: string, x: string, y: string)
    requires Quoted(s, x) == Quoted(t, y)
    ensures s == t && x == y
  {
    SameHead("\"", Characters(s, x), Characters(t, y));
    CharactersCut(s, t, x, y);
  }

  lemma NullableCut(s: Option<string>, t: Option<string>, x: string, y: string)
    requires Nullable(s, x) == Nullable(t, y)
    ensures s == t && x == y
  {
    assert Nullable(s, x)[0] == Nullable(t, y)[0];
    if s.None? {
      SameHead("null", x, y);
    } else {
      QuotedCut(s.value, t.value, x, y);
    }
  }

  lemma EntryCut(v: Workstation, w: Workstation, x: string, y: string)
    requires Entry(v, x) == Entry(w, y)
    ensures v == w && x == y
  {
    hide Quoted;
    var q := ",\"publicKey\":";
    SameHead("{\"id\":", Quoted(v.id, q + Quoted(v.publicKey, "}" + x)), Quoted(w.id, q + Quoted(w.publicKey, "}" + y)));
    QuotedCut(v.id, w.id, q + Quoted(v.publicKey, "}" + x), q + Quoted(w.publicKey, "}" + y));
    SameHead(q, Quoted(v.publicKey, "}" + x), Quoted(w.publicKey, "}" + y));
    QuotedCut(v.publicKey, w.publicKey, "}" + x, "}" + y);
    SameHead("}", x, y);
  }

  lemma EntryStarts(w: Workstation, rest: string)
    ensures Entry(w, rest) != "" && Entry(w, rest)[0] == '{'
  {
  }

  lemma {:induction false} MoreEntriesInjective(vs: seq<Workstation>, ws: seq<Workstation>)
    requires MoreEntries(vs) == MoreEntries(ws)
    ensures vs == ws
  {
    if vs != [] && ws != [] {
      hide Entry;
      SameHead(",", Entry(vs[0], MoreEntries(vs[1..])), Entry(ws[0], MoreEntries(ws[1..])));
      EntryCut(vs[0], ws[0], MoreEntries(vs[1..]), MoreEntries(ws[1..]));
      MoreEntriesInjective(vs[1..], ws[1..]);
      assert vs == [vs[0]] + vs[1..] && ws == [ws[0]] + ws[1..];
    } else {
      assert MoreEntries(vs)[0] == MoreEntries(ws)[0];
    }
  }

  lemma EntriesInjective(vs: seq<Workstation>, ws: seq<Workstation>)
    requires Entries(vs) == Entries(ws)
    ensures vs == ws
  {
    hide Entry;
    if vs != [] && ws != [] {
      EntryCut(vs[0], ws[0], MoreEntries(vs[1..]), MoreEntries(ws[1..]));
      MoreEntriesInjective(vs[1..], ws[1..]);
      assert vs == [vs[0]] + vs[1..] && ws == [ws[0]] + ws[1..];
    } else {
      if vs != [] { EntryStarts(vs[0], MoreEntries(vs[1..])); }
      if ws != [] { EntryStarts(ws[0], MoreEntries(ws[1..])); }
      assert Entries(vs)[0] == Entries(ws)[0];
    }
  }

  /** Two registries never share their canonical text. */
  lemma EncodeInjective(c: Document, d: Document)
    requires Encode(c) == Encode(d)
    ensures c == d
  {
    hide Decimal, Nullable, Entries;
    SameHead("{\"schemaVersion\":", Decimal(c.schemaVersion) + FromGeneration(c), Decimal(d.schemaVersion) + FromGeneration(d));
    DecimalCut(c.schemaVersion, d.schemaVersion, FromGeneration(c), FromGeneration(d));
    SameHead(",\"generation\":", Decimal(c.generation) + FromPrevious(c), Decimal(d.generation) + FromPrevious(d));
    DecimalCut(c.generation, d.generation, FromPrevious(c), FromPrevious(d));
    SameHead(",\"previousRegistrySha256\":", Nullable(c.previous, FromWorkstations(c)), Nullable(d.previous, FromWorkstations(d)));
    NullableCut(c.previous, d.previous, FromWorkstations(c), FromWorkstations(d));
    SameHead(",\"workstations\":[", Entries(c.workstations), Entries(d.workstations));
    EntriesInjective(c.workstations, d.workstations);
  }

  // ---- How long the text is ----

  predicate IsPlain(s: string) { forall i :: 0 <= i < |s| ==> s[i] as int >= 32 && s[i] != '"' && s[i] != '\\' }

  lemma {:induction false} CharactersLength(s: string, rest: string)
    requires IsPlain(s)
    ensures |Characters(s, rest)| == |s| + 1 + |rest|
  {
    if s != "" {
      assert IsPlain(s[1..]);
      CharactersLength(s[1..], rest);
    }
  }

  predicate PlainEntry(w: Workstation) { IsPlain(w.id) && IsPlain(w.publicKey) && |w.id| + |w.publicKey| <= 108 }

  lemma EntryLength(w: Workstation, rest: string)
    requires PlainEntry(w)
    ensures |Entry(w, rest)| <= 132 + |rest|
  {
    CharactersLength(w.publicKey, "}" + rest);
    CharactersLength(w.id, ",\"publicKey\":" + Quoted(w.publicKey, "}" + rest));
  }

  lemma {:induction false} MoreEntriesLength(ws: seq<Workstation>)
    requires forall i :: 0 <= i < |ws| ==> PlainEntry(ws[i])
    ensures |MoreEntries(ws)| <= 133 * |ws| + 2
  {
    if ws != [] {
      hide Entry;
      MoreEntriesLength(ws[1..]);
      EntryLength(ws[0], MoreEntries(ws[1..]));
    }
  }

  /** The text of a registry is a few kilobytes at most. */
  lemma EncodeLength(d: Document)
    requires d.schemaVersion < 10 && |d.workstations| <= 32
    requires d.previous.Some? ==> IsPlain(d.previous.value) && |d.previous.value| <= 64
    requires forall i :: 0 <= i < |d.workstations| ==> PlainEntry(d.workstations[i])
    ensures 0 < |Encode(d)| <= 16 * 1024
  {
    hide Entry, MoreEntries;
    PowerTwenty();
    DecimalLength(d.generation, 20);
    if d.previous.Some? { CharactersLength(d.previous.value, FromWorkstations(d)); }
    if d.workstations != [] {
      MoreEntriesLength(d.workstations[1..]);
      EntryLength(d.workstations[0], MoreEntries(d.workstations[1..]));
    }
  }

  lemma {:induction false} DecimalLength(n: nat, digits: nat)
    requires n < Power10(digits) && digits > 0
    ensures |Decimal(n)| <= digits
  {
    if n >= 10 {
      DecimalLength(n / 10, digits - 1);
    }
  }

  lemma PowerTwenty()
    ensures Power10(20) > MAX_U64
  {
    assert Power10(5) == 10 * Power10(4) == 100 * Power10(3) == 1000 * Power10(2) == 100_000;
    assert Power10(10) == 10 * Power10(9) == 100 * Power10(8) == 1000 * Power10(7) == 10_000 * Power10(6);
    assert Power10(15) == 10 * Power10(14) == 100 * Power10(13) == 1000 * Power10(12) == 10_000 * Power10(11);
    assert Power10(20) == 10 * Power10(19) == 100 * Power10(18) == 1000 * Power10(17) == 10_000 * Power10(16);
  }

  function Power10(k: nat): nat { if k == 0 then 1 else 10 * Power10(k - 1) }

  // ---- What the text looks like ----

  lemma PlainEscape(c: char)
    requires c as int >= 32 && c != '"' && c != '\\'
    ensures Escape(c) == [c]
  {
  }

  lemma {:induction false} PlainCharacters(s: string, rest: string)
    requires IsPlain(s)
    ensures Characters(s, rest) == s + ("\"" + rest)
  {
    hide Escape;
    if s != "" {
      var more := "\"" + rest;
      PlainCharacters(s[1..], rest);
      PlainEscape(s[0]);
      assert [s[0]] + (s[1..] + more) == s + more;
    }
  }

  lemma SmallDecimals()
    ensures Decimal(0) == "0" && Decimal(1) == "1" && Decimal(7) == "7" && Decimal(42) == "42"
  {
  }

  /** The registry that every chain starts from, piece by piece. */
  lemma EmptyText()
    ensures Encode(Document(1, 0, None, []))
         == "{\"schemaVersion\":" + ("1" + (",\"generation\":" + ("0" + (",\"previousRegistrySha256\":" + ("null" + (",\"workstations\":[" + "]}"))))))
  {
    SmallDecimals();
    hide Decimal;
  }

  /** An entry, and what separates two of them. */
  lemma EntryText(w: Workstation, ws: seq<Workstation>)
    requires IsPlain(w.id) && IsPlain(w.publicKey)
    ensures Entry(w, MoreEntries(ws))
         == "{\"id\":" + ("\"" + (w.id + ("\"" + (",\"publicKey\":" + ("\"" + (w.publicKey + ("\"" + ("}" + MoreEntries(ws)))))))))
    ensures MoreEntries(ws) == if ws == [] then "]}" else "," + Entry(ws[0], MoreEntries(ws[1..]))
  {
    hide Characters;
    PlainCharacters(w.publicKey, "}" + MoreEntries(ws));
    PlainCharacters(w.id, ",\"publicKey\":" + Quoted(w.publicKey, "}" + MoreEntries(ws)));
  }

  /** A later registry. */
  lemma LaterText(generation: U64, previous: string, ws: seq<Workstation>)
    requires IsPlain(previous) && ws != []
    ensures Encode(Document(1, generation, Some(previous), ws))
         == "{\"schemaVersion\":" + ("1" + (",\"generation\":" + (Decimal(generation) + (",\"previousRegistrySha256\":" + ("\"" + (previous + ("\""
            + (",\"workstations\":[" + Entry(ws[0], MoreEntries(ws[1..]))))))))))
  {
    SmallDecimals();
    hide Decimal, Characters;
    PlainCharacters(previous, FromWorkstations(Document(1, generation, Some(previous), ws)));
  }
}
