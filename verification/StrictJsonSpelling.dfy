/** How a string may be written between its quotes, by the characters of RFC 8259 section 7, and that it is read back. */
module StrictJsonSpelling {
  import opened JsonGrammar
  import opened StrictJson
  import StrictJsonCorrect
  import CanonicalJson

  const LOWER_DIGITS := "0123456789abcdef"
  const UPPER_DIGITS := "0123456789ABCDEF"

  /** The letters of the two-character escapes, and what they mean. */
  const LETTERS := "\"\\/bfnrt"
  const MEANT := "\"\\/\U{8}\U{C}\n\r\t"

  /** A hexadecimal digit of either letter case. */
  predicate WritesDigit(c: CodeUnit, v: nat) {
    v < 16 && (c == LOWER_DIGITS[v] as int || c == UPPER_DIGITS[v] as int)
  }

  predicate WritesShort(p: Text, k: nat, u: CodeUnit) {
    k < 8 && |p| == 2 && p[0] == '\\' as int && p[1] == LETTERS[k] as int && u == MEANT[k] as int
  }

  predicate WritesHex(p: Text, a: nat, b: nat, c: nat, d: nat, u: CodeUnit) {
    && |p| == 6 && p[0] == '\\' as int && p[1] == 'u' as int
    && WritesDigit(p[2], a) && WritesDigit(p[3], b) && WritesDigit(p[4], c) && WritesDigit(p[5], d)
    && u == 0x1000 * a + 0x100 * b + 0x10 * c + d
  }

  predicate WritesPlain(p: Text, u: CodeUnit) { p == [u] && u >= 0x20 && u != '"' as int && u != '\\' as int }

  /** The characters are one way of writing the unit. */
  ghost predicate Writes(p: Text, u: CodeUnit) {
    || WritesPlain(p, u)
    || (exists k :: WritesShort(p, k, u))
    || exists a, b, c, d :: WritesHex(p, a, b, c, d, u)
  }

  ghost predicate Spells(body: Text, units: Text)
    decreases |units|
  {
    if units == [] then body == [] else
    exists n :: 0 < n <= |body| && Writes(body[..n], units[0]) && Spells(body[n..], units[1..])
  }

  // ---- One unit ----

  lemma DigitRead(c: CodeUnit)
    ensures IsHexDigit(c) ==> WritesDigit(c, HexValue(c))
    ensures forall v :: WritesDigit(c, v) ==> IsHexDigit(c) && HexValue(c) == v
  {
    DigitTables();
  }

  lemma DigitTables()
    ensures forall v :: 0 <= v < 10 ==> LOWER_DIGITS[v] as int == UPPER_DIGITS[v] as int == 48 + v
    ensures forall v :: 10 <= v < 16 ==> LOWER_DIGITS[v] as int == 87 + v && UPPER_DIGITS[v] as int == 55 + v
  {
  }

  /** Where the letter stands in the list. */
  function LetterIndex(l: CodeUnit): (k: nat)
    requires Unescaped(l) >= 0
    ensures k < 8 && l == LETTERS[k] as int && Unescaped(l) == MEANT[k] as int
  {
    if l == '"' as int then 0 else if l == '\\' as int then 1 else if l == '/' as int then 2
    else if l == 'b' as int then 3 else if l == 'f' as int then 4 else if l == 'n' as int then 5
    else if l == 'r' as int then 6 else 7
  }

  lemma LetterRead(k: nat)
    requires k < 8
    ensures LETTERS[k] as int < 0x80 && Unescaped(LETTERS[k] as int) == MEANT[k] as int
  {
  }

  lemma ShortRead(body: Text, k: nat, u: CodeUnit)
    requires |body| >= 2 && WritesShort(body[..2], k, u)
    ensures DecodeBody(body) == Prepend(u, DecodeBody(body[2..]))
  {
    LetterRead(k);
    assert body[0] == body[..2][0] && body[1] == body[..2][1];
    hide Unescaped, WritesShort;
    assert body[1] != LETTER_U;
  }

  lemma HexRead(body: Text, a: nat, b: nat, c: nat, d: nat, u: CodeUnit)
    requires |body| >= 6 && WritesHex(body[..6], a, b, c, d, u)
    ensures DecodeBody(body) == Prepend(u, DecodeBody(body[6..]))
  {
    FirstSix(body);
    DigitRead(body[2]);
    DigitRead(body[3]);
    DigitRead(body[4]);
    DigitRead(body[5]);
    hide DecodeBody, IsHexDigit, HexValue, WritesDigit;
    var p := Hex(body[2], body[3], body[4], body[5]);
    assert PieceUnit(p) == u;
    StrictJsonCorrect.PieceDecoded(body, p);
  }

  lemma FirstSix(body: Text)
    requires |body| >= 6
    ensures var p := body[..6];
            p[0] == body[0] && p[1] == body[1] && p[2] == body[2] && p[3] == body[3] && p[4] == body[4] && p[5] == body[5]
  {
  }

  lemma PlainRead(body: Text, u: CodeUnit)
    requires |body| >= 1 && WritesPlain(body[..1], u)
    ensures DecodeBody(body) == Prepend(u, DecodeBody(body[1..]))
  {
    assert body[0] == body[..1][0];
  }

  /** What is written is read back, whatever follows. */
  lemma WrittenRead(body: Text, n: nat, u: CodeUnit)
    requires n <= |body| && Writes(body[..n], u)
    ensures n > 0 && DecodeBody(body) == Prepend(u, DecodeBody(body[n..]))
  {
    hide DecodeBody;
    var p := body[..n];
    if WritesPlain(p, u) {
      PlainRead(body, u);
    } else if k :| WritesShort(p, k, u) {
      ShortRead(body, k, u);
    } else {
      var a, b, c, d :| WritesHex(p, a, b, c, d, u);
      HexRead(body, a, b, c, d, u);
    }
  }

  /** The first `n` characters write the first unit read. */
  ghost predicate ReadsFirst(body: Text, n: nat) {
    && 0 < n <= |body| && DecodeBody(body[n..]).Decoded?
    && DecodeBody(body).Decoded? && DecodeBody(body).text != [] && Writes(body[..n], DecodeBody(body).text[0])
    && DecodeBody(body[n..]).text == DecodeBody(body).text[1..]
  }

  lemma ReadHex(body: Text)
    requires DecodeBody(body).Decoded? && |body| >= 6 && body[0] == BACKSLASH && body[1] == LETTER_U
    requires forall k :: 2 <= k < 6 ==> IsHexDigit(body[k])
    ensures ReadsFirst(body, 6)
  {
    hide IsHexDigit, DecodeBody, PieceUnit, Writes, HexValue;
    StrictJsonCorrect.PieceDecoded(body, Hex(body[2], body[3], body[4], body[5]));
    HexWritten(body);
  }

  lemma HexWritten(body: Text)
    requires |body| >= 6 && body[0] == BACKSLASH && body[1] == LETTER_U && forall k :: 2 <= k < 6 ==> IsHexDigit(body[k])
    ensures Writes(body[..6], PieceUnit(Hex(body[2], body[3], body[4], body[5])))
  {
    FirstSix(body);
    DigitRead(body[2]);
    DigitRead(body[3]);
    DigitRead(body[4]);
    DigitRead(body[5]);
    var a, b, c, d := HexValue(body[2]), HexValue(body[3]), HexValue(body[4]), HexValue(body[5]);
    hide WritesDigit, HexValue;
    assert WritesHex(body[..6], a, b, c, d, PieceUnit(Hex(body[2], body[3], body[4], body[5])));
    hide WritesHex;
  }

  lemma ReadShort(body: Text)
    requires |body| >= 2 && body[0] == BACKSLASH && Unescaped(body[1]) >= 0
    requires DecodeBody(body).Decoded? && DecodeBody(body) == Prepend(Unescaped(body[1]), DecodeBody(body[2..]))
    ensures ReadsFirst(body, 2)
  {
    var k := LetterIndex(body[1]);
    hide DecodeBody, Unescaped;
    assert WritesShort(body[..2], k, Unescaped(body[1]));
  }

  lemma ReadPlain(body: Text)
    requires |body| >= 1 && body[0] != BACKSLASH && DecodeBody(body).Decoded?
    ensures ReadsFirst(body, 1)
  {
    PlainUnit(body);
    hide DecodeBody;
    StrictJsonCorrect.PieceDecoded(body, Plain(body[0]));
    assert WritesPlain(body[..1], body[0]);
  }

  lemma PlainUnit(body: Text)
    requires |body| >= 1 && body[0] != BACKSLASH && DecodeBody(body).Decoded?
    ensures body[0] >= SPACE && body[0] != QUOTE
  {
  }

  lemma ReadWritten(body: Text)
    requires body != [] && DecodeBody(body).Decoded?
    ensures exists n: nat :: ReadsFirst(body, n)
  {
    hide ReadsFirst;
    if body[0] != BACKSLASH {
      ReadPlain(body);
    } else if |body| >= 6 && body[1] == LETTER_U && forall k :: 2 <= k < 6 ==> IsHexDigit(body[k]) {
      ReadHex(body);
    } else {
      ReadShort(body);
    }
  }

  // ---- Whole strings ----

  lemma {:induction false} SpelledRead(body: Text, units: Text)
    requires Spells(body, units)
    ensures DecodeBody(body) == Decoding.Decoded(units)
    decreases |units|
  {
    if units != [] {
      hide DecodeBody, Writes;
      var n :| 0 < n <= |body| && Writes(body[..n], units[0]) && Spells(body[n..], units[1..]);
      hide Spells, Prepend;
      WrittenRead(body, n, units[0]);
      SpelledRead(body[n..], units[1..]);
      Rejoins(units);
    }
  }

  lemma Rejoins(units: Text)
    requires units != []
    ensures Prepend(units[0], Decoding.Decoded(units[1..])) == Decoding.Decoded(units) && [units[0]] + units[1..] == units
  {
    assert [units[0]] + units[1..] == units;
  }

  lemma {:induction false} ReadSpelled(body: Text)
    requires DecodeBody(body).Decoded?
    ensures Spells(body, DecodeBody(body).text)
    decreases |body|
  {
    if body != [] {
      ReadWritten(body);
      hide DecodeBody, Writes;
      var n: nat :| ReadsFirst(body, n);
      ReadSpelled(body[n..]);
    }
  }

  /** The inside of a string token is read as the units it spells, and refused if it spells none. */
  lemma DecodedIff(body: Text, units: Text)
    ensures DecodeBody(body) == Decoding.Decoded(units) <==> Spells(body, units)
  {
    if DecodeBody(body) == Decoding.Decoded(units) { ReadSpelled(body); }
    if Spells(body, units) { SpelledRead(body, units); }
  }

  /** The names of the grammar are exactly the quoted spellings, with what they spell as their decoded text. */
  lemma NameSpelled(text: Text, i: nat, name: Name)
    requires DerivesName(text, i, name)
    ensures Spells(text[i + 1..i + NameWidth(name) - 1], JsonGrammar.Decoded(name))
  {
    hide Spells, DerivesPieces, JsonGrammar.Decoded;
    StrictJsonCorrect.DecodesDerived(text, i + 1, name);
    ReadSpelled(text[i + 1..i + 1 + PiecesWidth(name)]);
  }

  lemma PieceWritten(p: Text, u: CodeUnit) returns (piece: Piece)
    requires Writes(p, u)
    ensures DerivesPiece(p, 0, piece) && PieceWidth(piece) == |p| && PieceUnit(piece) == u
  {
    if WritesPlain(p, u) {
      piece := Plain(u);
    } else if k :| WritesShort(p, k, u) {
      LetterRead(k);
      piece := Escape(p[1]);
    } else {
      var a, b, c, d :| WritesHex(p, a, b, c, d, u);
      DigitRead(p[2]);
      DigitRead(p[3]);
      DigitRead(p[4]);
      DigitRead(p[5]);
      hide HexValue, IsHexDigit, WritesDigit;
      piece := Hex(p[2], p[3], p[4], p[5]);
    }
  }

  lemma PieceWithin(text: Text, i: nat, n: nat, piece: Piece)
    requires i + n <= |text| && DerivesPiece(text[i..i + n], 0, piece)
    ensures DerivesPiece(text, i, piece)
  {
    var part := text[i..i + n];
    assert forall k :: 0 <= k < n ==> part[k] == text[i + k];
  }

  lemma {:induction false} SpelledName(text: Text, i: nat, end: nat, units: Text) returns (name: Name)
    requires i <= end <= |text| && Spells(text[i..end], units)
    ensures DerivesPieces(text, i, name) && i + PiecesWidth(name) == end && JsonGrammar.Decoded(name) == units
    decreases |units|
  {
    if units == [] {
      name := [];
    } else {
      hide Writes, DerivesPiece, PieceUnit, PieceWidth, DerivesPieces, PiecesWidth, JsonGrammar.Decoded;
      var body := text[i..end];
      var n: nat :| 0 < n <= |body| && Writes(body[..n], units[0]) && Spells(body[n..], units[1..]);
      hide Spells;
      assert body[..n] == text[i..i + n] && body[n..] == text[i + n..end];
      var piece := PieceWritten(text[i..i + n], units[0]);
      PieceWithin(text, i, n, piece);
      var rest := SpelledName(text, i + n, end, units[1..]);
      name := [piece] + rest;
      OneMorePiece(text, i, piece, rest);
      Rejoins(units);
    }
  }

  lemma OneMorePiece(text: Text, i: nat, piece: Piece, rest: Name)
    requires DerivesPiece(text, i, piece) && DerivesPieces(text, i + PieceWidth(piece), rest)
    ensures DerivesPieces(text, i, [piece] + rest) && PiecesWidth([piece] + rest) == PieceWidth(piece) + PiecesWidth(rest)
    ensures JsonGrammar.Decoded([piece] + rest) == [PieceUnit(piece)] + JsonGrammar.Decoded(rest)
  {
    var name := [piece] + rest;
    assert name[0] == piece && name[1..] == rest;
    hide DerivesPiece, PieceWidth, PieceUnit;
  }

  // ---- The registry's writer ----

  /** What the canonical writer puts for a character is one way of writing it, and so is read back. */
  lemma EscapeWrites(c: char, p: Text)
    requires c as int < 0x10000 && |p| == |CanonicalJson.Escape(c)|
    requires forall i :: 0 <= i < |p| ==> p[i] == CanonicalJson.Escape(c)[i] as int
    ensures Writes(p, c as int)
  {
    var n := c as int;
    if |p| == 1 {
      assert WritesPlain(p, n);
    } else if |p| == 2 {
      var k := if c == '"' then 0 else if c == '\\' then 1 else if n == 8 then 3 else if n == 12 then 4
               else if n == 10 then 5 else if n == 13 then 6 else 7;
      assert WritesShort(p, k, n);
    } else {
      assert CanonicalJson.HexDigit(n / 16) == LOWER_DIGITS[n / 16] && CanonicalJson.HexDigit(n % 16) == LOWER_DIGITS[n % 16];
      assert WritesDigit(p[2], 0) && WritesDigit(p[3], 0);
      assert WritesHex(p, 0, 0, n / 16, n % 16, n);
    }
  }
}
