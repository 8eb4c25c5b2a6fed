/** The order of the game library: Unicode scalar comparison against the host's bytewise UTF-8 order. */
module LibraryOrder {
  import Alphabets
  import opened Lexicographic
  import opened Numbers
  import opened Options
  import JsonGrammar

  /** A JavaScript string. */
  type Text = JsonGrammar.Text

  predicate IsScalar(c: int) { 0 <= c < 0xD800 || 0xE000 <= c < 0x11_0000 }

  predicate AllScalars(s: seq<int>) { forall i :: 0 <= i < |s| ==> IsScalar(s[i]) }

  // ---- UTF-16, and the code points a string iterates over ----

  function Units(c: int): (u: Text)
    requires IsScalar(c)
  {
    if c < 0x1_0000 then [c] else [0xD800 + (c - 0x1_0000) / 0x400, 0xDC00 + (c - 0x1_0000) % 0x400]
  }

  function Utf16(s: seq<int>): Text
    requires AllScalars(s)
  {
    if s == [] then [] else Units(s[0]) + Utf16(s[1..])
  }

  predicate IsHigh(u: int) { 0xD800 <= u < 0xDC00 }

  predicate IsLow(u: int) { 0xDC00 <= u < 0xE000 }

  /** The string iterator: surrogate pairs count as one, lone surrogates as themselves. */
  function CodePoints(t: Text): seq<int>
    decreases |t|
  {
    if t == [] then []
    else if |t| > 1 && IsHigh(t[0]) && IsLow(t[1]) then
      [0x1_0000 + (t[0] - 0xD800) * 0x400 + (t[1] - 0xDC00)] + CodePoints(t[2..])
    else [t[0]] + CodePoints(t[1..])
  }

  /** Iterating over a well-formed string gives its scalars back. */
  lemma {:induction false} CodePointsOfUtf16(s: seq<int>)
    requires AllScalars(s)
    ensures CodePoints(Utf16(s)) == s
  {
    if s != [] {
      var u, rest := Units(s[0]), Utf16(s[1..]);
      CodePointsOfUtf16(s[1..]);
      assert Utf16(s)[|u|..] == rest;
      assert s == [s[0]] + s[1..];
    }
  }

  /** The scalars are all code points but the surrogates. */
  lemma ScalarIff(c: int)
    ensures IsScalar(c) <==> 0 <= c <= 1_114_111 && !(55_296 <= c <= 57_343)
  {
  }

  /** Without a high surrogate right before a low one, every unit stands for itself. */
  lemma {:induction false} LoneUnits(t: Text)
    requires forall i :: 0 <= i < |t| - 1 ==> !(0xD800 <= t[i] <= 0xDBFF && 0xDC00 <= t[i + 1] <= 0xDFFF)
    ensures CodePoints(t) == t
  {
    if t != [] {
      var rest := t[1..];
      forall i | 0 <= i < |rest| - 1 ensures !(0xD800 <= rest[i] <= 0xDBFF && 0xDC00 <= rest[i + 1] <= 0xDFFF) {
        assert rest[i] == t[i + 1] && rest[i + 1] == t[i + 2];
      }
      LoneUnits(rest);
      assert t == [t[0]] + rest;
    }
  }

  // ---- UTF-8 ----

  /** The encoding of one scalar, as section 3 of RFC 3629 lays it out. */
  function Utf8Of(c: int): (b: seq<int>)
    requires IsScalar(c)
    ensures 1 <= |b| <= 4
  {
    if c < 0x80 then [c]
    else if c < 0x800 then [0xC0 + c / 0x40, 0x80 + c % 0x40]
    else if c < 0x1_0000 then [0xE0 + c / 0x1000, 0x80 + c / 0x40 % 0x40, 0x80 + c % 0x40]
    else [0xF0 + c / 0x4_0000, 0x80 + c / 0x1000 % 0x40, 0x80 + c / 0x40 % 0x40, 0x80 + c % 0x40]
  }

  /** The shortest sequence that holds the scalar, six bits to every byte but the first. */
  lemma Utf8Layout(c: int)
    requires IsScalar(c)
    ensures var b := Utf8Of(c);
            && |b| == (if c <= 0x7F then 1 else if c <= 0x7FF then 2 else if c <= 0xFFFF then 3 else 4)
            && (forall i :: 1 <= i < |b| ==> 0x80 <= b[i] <= 0xBF)
            && (|b| == 1 ==> b[0] == c)
            && (|b| == 2 ==> 0xC2 <= b[0] <= 0xDF && c == (b[0] - 0xC0) * 64 + (b[1] - 0x80))
            && (|b| == 3 ==> 0xE0 <= b[0] <= 0xEF && c == (b[0] - 0xE0) * 4096 + (b[1] - 0x80) * 64 + (b[2] - 0x80))
            && (|b| == 4 ==> 0xF0 <= b[0] <= 0xF4 && c == (b[0] - 0xF0) * 262144 + (b[1] - 0x80) * 4096 + (b[2] - 0x80) * 64 + (b[3] - 0x80))
  {
    Digit(c);
    Digit(c / 0x40);
    Digit(c / 0x1000);
    assert c / 0x40 / 0x40 == c / 0x1000 && c / 0x1000 / 0x40 == c / 0x4_0000;
  }

  function Utf8(s: seq<int>): seq<int>
    requires AllScalars(s)
  {
    if s == [] then [] else Utf8Of(s[0]) + Utf8(s[1..])
  }

  /** The sequences differ at a position both have, where the first is smaller. */
  predicate SplitsAt(a: seq<int>, b: seq<int>, k: nat) {
    k < |a| && k < |b| && a[..k] == b[..k] && a[k] < b[k]
  }

  lemma {:induction false} SplitPrecedes(a: seq<int>, b: seq<int>, k: nat, x: seq<int>, y: seq<int>)
    requires SplitsAt(a, b, k)
    ensures Precedes(a + x, b + y)
    decreases k
  {
    assert (a + x)[0] == a[0] && (b + y)[0] == b[0];
    if k > 0 {
      assert a[0] == a[..k][0] == b[..k][0] == b[0];
      assert a[1..][..k - 1] == a[..k][1..] && b[1..][..k - 1] == b[..k][1..];
      SplitPrecedes(a[1..], b[1..], k - 1, x, y);
      assert (a + x)[1..] == a[1..] + x && (b + y)[1..] == b[1..] + y;
    }
  }

  /** A number in base 64. */
  lemma Digit(c: int)
    requires 0 <= c
    ensures c == c / 0x40 * 0x40 + c % 0x40
  {
  }

  lemma Shifted(c: int)
    requires 0 <= c
    ensures c / 0x40 / 0x40 == c / 0x1000
  {
  }

  /** The parts a scalar is cut into, from the lowest up. */
  lemma Digits(c: int)
    requires 0 <= c
    ensures c == c / 0x40 * 0x40 + c % 0x40
    ensures c / 0x40 == c / 0x1000 * 0x40 + c / 0x40 % 0x40
    ensures c / 0x1000 == c / 0x4_0000 * 0x40 + c / 0x1000 % 0x40
  {
    Digit(c);
    Digit(c / 0x40);
    Shifted(c);
    Digit(c / 0x1000);
    Shifted(c / 0x40);
    assert c / 0x1000 / 0x40 == c / 0x4_0000;
  }

  /** At the first of up to four bytes that differ, the sequences split. */
  lemma SplitsWhere(a: seq<int>, b: seq<int>) returns (k: nat)
    requires |a| == |b| && 1 <= |a| <= 4
    requires exists i :: 0 <= i < |a| && a[i] < b[i] && forall j :: 0 <= j < i ==> a[j] == b[j]
    ensures SplitsAt(a, b, k)
  {
    k :| 0 <= k < |a| && a[k] < b[k] && forall j :: 0 <= j < k ==> a[j] == b[j];
  }

  lemma SameLengthLess(c: int, d: int)
    requires IsScalar(c) && IsScalar(d) && c < d && |Utf8Of(c)| == |Utf8Of(d)|
    ensures var a, b := Utf8Of(c), Utf8Of(d);
            exists i :: 0 <= i < |a| && a[i] < b[i] && forall j :: 0 <= j < i ==> a[j] == b[j]
  {
    Digits(c);
    Digits(d);
    var a, b := Utf8Of(c), Utf8Of(d);
    if a[0] != b[0] {
      assert a[0] < b[0];
    } else if a[1] != b[1] {
      assert a[1] < b[1];
    } else if a[2] != b[2] {
      assert a[2] < b[2];
    } else {
      assert a[3] < b[3];
    }
  }

  /** A smaller scalar's bytes differ from a larger one's at a common position, the first such byte being smaller. */
  lemma SmallerScalarSplits(c: int, d: int) returns (k: nat)
    requires IsScalar(c) && IsScalar(d) && c < d
    ensures SplitsAt(Utf8Of(c), Utf8Of(d), k)
  {
    if |Utf8Of(c)| == |Utf8Of(d)| {
      SameLengthLess(c, d);
      k := SplitsWhere(Utf8Of(c), Utf8Of(d));
    } else {
      k := 0;
    }
  }

  lemma {:induction false} SharedPrefix(p: seq<int>, x: seq<int>, y: seq<int>)
    ensures Precedes(p + x, p + y) <==> Precedes(x, y)
  {
    if p == [] {
      assert p + x == x && p + y == y;
    } else {
      assert (p + x)[1..] == p[1..] + x && (p + y)[1..] == p[1..] + y;
      SharedPrefix(p[1..], x, y);
    }
  }

  /** Comparing scalars is comparing the UTF-8 encodings byte by byte. */
  lemma {:induction false} ScalarOrderIsByteOrder(a: seq<int>, b: seq<int>)
    requires AllScalars(a) && AllScalars(b)
    ensures Precedes(a, b) <==> Precedes(Utf8(a), Utf8(b))
  {
    if a != [] && b != [] {
      if a[0] == b[0] {
        ScalarOrderIsByteOrder(a[1..], b[1..]);
        SharedPrefix(Utf8Of(a[0]), Utf8(a[1..]), Utf8(b[1..]));
      } else if a[0] < b[0] {
        var k := SmallerScalarSplits(a[0], b[0]);
        SplitPrecedes(Utf8Of(a[0]), Utf8Of(b[0]), k, Utf8(a[1..]), Utf8(b[1..]));
      } else {
        var k := SmallerScalarSplits(b[0], a[0]);
        SplitPrecedes(Utf8Of(b[0]), Utf8Of(a[0]), k, Utf8(b[1..]), Utf8(a[1..]));
        Asymmetric(Utf8(b), Utf8(a));
      }
    }
  }

  // ---- The comparison ----

  function Sign(a: seq<int>, b: seq<int>): int { if Precedes(a, b) then -1 else if a == b then 0 else 1 }

  lemma {:induction false} SharedScalars(a: seq<int>, b: seq<int>, i: nat)
    requires i <= |a| && i <= |b| && a[..i] == b[..i]
    ensures Precedes(a, b) <==> Precedes(a[i..], b[i..])
  {
    assert a == a[..i] + a[i..] && b == b[..i] + b[i..];
    SharedPrefix(a[..i], a[i..], b[i..]);
  }

  method CompareScalars(left: Text, right: Text) returns (order: int)
    ensures order == Sign(CodePoints(left), CodePoints(right))
  {
    var leftScalars, rightScalars := CodePoints(left), CodePoints(right);
    var shared := if |leftScalars| < |rightScalars| then |leftScalars| else |rightScalars|;
    var index := 0;
    while index < shared
      invariant 0 <= index <= shared && leftScalars[..index] == rightScalars[..index]
    {
      SharedScalars(leftScalars, rightScalars, index);
      if leftScalars[index] != rightScalars[index] {
        return if leftScalars[index] < rightScalars[index] then -1 else 1;
      }
      index := index + 1;
    }
    SharedScalars(leftScalars, rightScalars, shared);
    assert leftScalars[..|leftScalars|] == leftScalars && rightScalars[..|rightScalars|] == rightScalars;
    if |leftScalars| == |rightScalars| {
      return 0;
    }
    order := if |leftScalars| < |rightScalars| then -1 else 1;
  }

  /** On well-formed strings the sign is that of the host's bytewise comparison of the UTF-8 encodings. */
  lemma ComparesAsTheHost(a: seq<int>, b: seq<int>)
    requires AllScalars(a) && AllScalars(b)
    ensures Sign(CodePoints(Utf16(a)), CodePoints(Utf16(b))) == Sign(Utf8(a), Utf8(b))
  {
    CodePointsOfUtf16(a);
    CodePointsOfUtf16(b);
    ScalarOrderIsByteOrder(a, b);
    ScalarOrderIsByteOrder(b, a);
    Trichotomy(a, b);
    if Utf8(a) == Utf8(b) { Irreflexive(Utf8(a)); }
  }

  /** Comparing UTF-16 code units instead would order some titles the other way. */
  lemma CodeUnitOrderDiffers()
    ensures var a, b := [0xFFFD], [0x1_0000];
            && AllScalars(a) && AllScalars(b) && Precedes(Utf8(a), Utf8(b)) && Precedes(Utf16(b), Utf16(a))
  {
    var a, b := [0xFFFD], [0x1_0000];
    assert Precedes(a, b);
    ScalarOrderIsByteOrder(a, b);
    assert Utf16(a) == [0xFFFD] && Utf16(b) == [0xD800, 0xDC00];
  }

  // ---- Entries and pages ----

  datatype Entry = Entry(systemId: Text, title: Text, entryId: Text)

  /** System, then title, then entry, each by scalars. */
  function CompareEntries(a: Entry, b: Entry): int {
    var system := Sign(CodePoints(a.systemId), CodePoints(b.systemId));
    var title := Sign(CodePoints(a.title), CodePoints(b.title));
    if system != 0 then system
    else if title != 0 then title
    else Sign(CodePoints(a.entryId), CodePoints(b.entryId))
  }

  /** Strings are equal when the code points they iterate over are. */
  lemma {:induction false} CodePointsInjective(t: Text, u: Text)
    requires CodePoints(t) == CodePoints(u)
    ensures t == u
    decreases |t|
  {
    if t == [] || u == [] {
      assert |CodePoints(t)| == |CodePoints(u)|;
    } else {
      var p, q := Step(t), Step(u);
      assert CodePoints(t)[0] == CodePoints(u)[0];
      assert CodePoints(t)[1..] == CodePoints(t[p..]) && CodePoints(u)[1..] == CodePoints(u[q..]);
      CodePointsInjective(t[p..], u[q..]);
      assert t == t[..p] + t[p..] && u == u[..q] + u[q..];
    }
  }

  function Step(t: Text): (n: nat)
    requires t != []
    ensures 1 <= n <= |t|
  {
    if |t| > 1 && IsHigh(t[0]) && IsLow(t[1]) then 2 else 1
  }

  lemma SignOrder(a: seq<int>, b: seq<int>, c: seq<int>)
    ensures Sign(a, b) == -Sign(b, a) && (Sign(a, b) == 0 <==> a == b)
    ensures Sign(a, b) < 0 && Sign(b, c) < 0 ==> Sign(a, c) < 0
  {
    Trichotomy(a, b);
    if Precedes(a, b) { Asymmetric(a, b); }
    if Precedes(b, a) { Asymmetric(b, a); }
    Irreflexive(a);
    if Precedes(a, b) && Precedes(b, c) { Transitive(a, b, c); }
  }

  /** The comparison of entries is a total order whose ties are equal triples. */
  lemma EntryOrder(a: Entry, b: Entry, c: Entry)
    ensures CompareEntries(a, b) == -CompareEntries(b, a) && (CompareEntries(a, b) == 0 <==> a == b)
    ensures CompareEntries(a, b) < 0 && CompareEntries(b, c) < 0 ==> CompareEntries(a, c) < 0
  {
    hide CodePoints, Sign;
    SignOrder(CodePoints(a.systemId), CodePoints(b.systemId), CodePoints(c.systemId));
    SignOrder(CodePoints(a.title), CodePoints(b.title), CodePoints(c.title));
    SignOrder(CodePoints(a.entryId), CodePoints(b.entryId), CodePoints(c.entryId));
    SignOrder(CodePoints(b.systemId), CodePoints(c.systemId), CodePoints(a.systemId));
    SignOrder(CodePoints(b.title), CodePoints(c.title), CodePoints(a.title));
    if CodePoints(a.systemId) == CodePoints(b.systemId) { CodePointsInjective(a.systemId, b.systemId); }
    if CodePoints(a.title) == CodePoints(b.title) { CodePointsInjective(a.title, b.title); }
    if CodePoints(a.entryId) == CodePoints(b.entryId) { CodePointsInjective(a.entryId, b.entryId); }
  }

  /** The three keys of an entry as scalars. */
  datatype Keys = Keys(system: seq<int>, title: seq<int>, entry: seq<int>)

  predicate AllWellFormed(k: Keys) { AllScalars(k.system) && AllScalars(k.title) && AllScalars(k.entry) }

  function EntryOf(k: Keys): Entry
    requires AllWellFormed(k)
  {
    Entry(Utf16(k.system), Utf16(k.title), Utf16(k.entry))
  }

  /** The host's order: by system, then by title, then by entry, each bytewise. */
  predicate HostOrder(a: Keys, b: Keys)
    requires AllWellFormed(a) && AllWellFormed(b)
  {
    || Precedes(Utf8(a.system), Utf8(b.system))
    || (a.system == b.system && Precedes(Utf8(a.title), Utf8(b.title)))
    || (a.system == b.system && a.title == b.title && Precedes(Utf8(a.entry), Utf8(b.entry)))
  }

  lemma SignOfUtf16(a: seq<int>, b: seq<int>)
    requires AllScalars(a) && AllScalars(b)
    ensures Sign(CodePoints(Utf16(a)), CodePoints(Utf16(b))) < 0 <==> Precedes(Utf8(a), Utf8(b))
    ensures Sign(CodePoints(Utf16(a)), CodePoints(Utf16(b))) == 0 <==> a == b
  {
    ComparesAsTheHost(a, b);
    CodePointsOfUtf16(a);
    CodePointsOfUtf16(b);
    Irreflexive(a);
  }

  /** Entries compare as the host sorts them. */
  lemma EntriesCompareAsTheHost(a: Keys, b: Keys)
    requires AllWellFormed(a) && AllWellFormed(b)
    ensures CompareEntries(EntryOf(a), EntryOf(b)) < 0 <==> HostOrder(a, b)
    ensures CompareEntries(EntryOf(a), EntryOf(b)) == 0 <==> a == b
  {
    SignOfUtf16(a.system, b.system);
    SignOfUtf16(a.title, b.title);
    SignOfUtf16(a.entry, b.entry);
    Irreflexive(Utf8(a.system));
    Irreflexive(Utf8(a.title));
    hide CodePoints, Sign, Utf16, Utf8, Precedes;
  }

  predicate StrictlySorted(entries: seq<Entry>) {
    forall i, j :: 0 <= i < j < |entries| ==> CompareEntries(entries[i], entries[j]) < 0
  }

  lemma SortedMore(entries: seq<Entry>, e: Entry)
    requires StrictlySorted(entries) && entries != []
    ensures StrictlySorted(entries + [e]) <==> CompareEntries(entries[|entries| - 1], e) < 0
  {
    hide CompareEntries;
    var more, last := entries + [e], entries[|entries| - 1];
    if CompareEntries(last, e) < 0 {
      forall i, j | 0 <= i < j < |more| ensures CompareEntries(more[i], more[j]) < 0 {
        if j == |entries| && i < |entries| - 1 { EntryOrder(entries[i], last, e); }
      }
    }
    assert StrictlySorted(more) ==> CompareEntries(more[|entries| - 1], more[|entries|]) < 0;
  }

  const HOST_API_PROTOCOL_VERSION := "0.1.0"
  const MAX_HOST_LIBRARY_ENTRIES := 100_000
  const MAX_HOST_LIBRARY_PAGE_ENTRIES := 256
  const MAX_HOST_LIBRARY_PAGE_ENTRY_BYTES := 65_536

  /** A decoded page with the declared fields; an element that is no entry at all is `None`. */
  datatype Page = Page(protocolVersion: string, generation: int, entryCount: int, entries: seq<Option<Entry>>,
                       serializedBytes: nat, cursor: Option<string>)

  predicate IsCursor(t: string) { |t| == 32 && forall i :: 0 <= i < |t| ==> '0' <= t[i] <= '9' || 'a' <= t[i] <= 'f' }

  predicate HeaderOk(p: Page) {
    && p.protocolVersion == HOST_API_PROTOCOL_VERSION && 0 < p.generation <= MAX_SAFE_INTEGER
    && 0 <= p.entryCount <= MAX_HOST_LIBRARY_ENTRIES
    && |p.entries| <= MAX_HOST_LIBRARY_PAGE_ENTRIES && |p.entries| <= p.entryCount
    && p.serializedBytes <= MAX_HOST_LIBRARY_PAGE_ENTRY_BYTES
  }

  lemma HeaderIff(p: Page)
    ensures HeaderOk(p) <==>
              && p.protocolVersion == "0.1.0" && 1 <= p.generation <= 9_007_199_254_740_991 && 0 <= p.entryCount <= 100_000
              && |p.entries| <= 256 && |p.entries| <= p.entryCount && p.serializedBytes <= 65_536
  {
  }

  lemma CursorIff(t: string)
    ensures IsCursor(t) <==> |t| == 32 && forall c :: c in t ==> c in Alphabets.DIGITS || c in Alphabets.LOWER[..6]
  {
    forall i | 0 <= i < |t|
      ensures t[i] in Alphabets.DIGITS || t[i] in Alphabets.LOWER[..6] <==> '0' <= t[i] <= '9' || 'a' <= t[i] <= 'f'
    {
      Alphabets.DigitIs(t[i]);
      Alphabets.LowerIs(t[i]);
    }
  }

  predicate AllEntries(entries: seq<Option<Entry>>) { forall i :: 0 <= i < |entries| ==> entries[i].Some? }

  function Values(entries: seq<Option<Entry>>): (r: seq<Entry>)
    requires AllEntries(entries)
    ensures |r| == |entries|
  {
    seq(|entries|, i requires 0 <= i < |entries| => entries[i].value)
  }

  /** Adjacent comparisons accept exactly the pages that are strictly sorted throughout. */
  method IsNativeLibraryPage(page: Page) returns (accepted: bool)
    ensures accepted <==>
              && HeaderOk(page) && AllEntries(page.entries) && StrictlySorted(Values(page.entries))
              && (page.cursor.Some? ==> IsCursor(page.cursor.value) && page.entries != [])
  {
    if !HeaderOk(page) {
      return false;
    }
    hide CompareEntries;
    var previous: Option<Entry> := None;
    var i := 0;
    while i < |page.entries|
      invariant 0 <= i <= |page.entries| && AllEntries(page.entries[..i])
      invariant StrictlySorted(Values(page.entries[..i]))
      invariant previous == if i == 0 then None else page.entries[i - 1]
    {
      if page.entries[i].None? {
        return false;
      }
      var entry := page.entries[i].value;
      NextEntry(page.entries, i);
      if previous.Some? && CompareEntries(previous.value, entry) >= 0 {
        return false;
      }
      previous := Some(entry);
      i := i + 1;
    }
    assert page.entries[..i] == page.entries;
    accepted := page.cursor.Some? ==> IsCursor(page.cursor.value) && page.entries != [];
  }

  lemma NextEntry(entries: seq<Option<Entry>>, i: nat)
    requires i < |entries| && AllEntries(entries[..i + 1]) && AllEntries(entries[..i]) && StrictlySorted(Values(entries[..i]))
    ensures StrictlySorted(Values(entries[..i + 1])) <==> i == 0 || CompareEntries(entries[i - 1].value, entries[i].value) < 0
    ensures AllEntries(entries) && StrictlySorted(Values(entries)) ==> StrictlySorted(Values(entries[..i + 1]))
  {
    hide CompareEntries;
    assert Values(entries[..i + 1]) == Values(entries[..i]) + [entries[i].value];
    if i > 0 { SortedMore(Values(entries[..i]), entries[i].value); }
    if AllEntries(entries) { assert Values(entries[..i + 1]) == Values(entries)[..i + 1]; }
  }

  /** So no accepted page repeats an entry, anywhere. */
  lemma SortedMeansDistinct(entries: seq<Entry>, i: nat, j: nat)
    requires StrictlySorted(entries) && i < j < |entries|
    ensures entries[i] != entries[j]
  {
    EntryOrder(entries[i], entries[j], entries[j]);
  }
}
