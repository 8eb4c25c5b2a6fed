/** JSON texts as RFC 8259 sections 2 to 7 define them: syntax trees, and which stretches of text derive from them. */
module JsonGrammar {

  /** One UTF-16 code unit of a JavaScript string. */
  type CodeUnit = u: int | 0 <= u < 0x10000

  type Text = seq<CodeUnit>

  const TAB: CodeUnit := 9
  const LINE_FEED: CodeUnit := 10
  const CARRIAGE_RETURN: CodeUnit := 13
  const SPACE: CodeUnit := 32
  const QUOTE: CodeUnit := 34
  const PLUS: CodeUnit := 43
  const COMMA: CodeUnit := 44
  const MINUS: CodeUnit := 45
  const POINT: CodeUnit := 46
  const SLASH: CodeUnit := 47
  const ZERO: CodeUnit := 48
  const NINE: CodeUnit := 57
  const COLON: CodeUnit := 58
  const LEFT_BRACKET: CodeUnit := 91
  const BACKSLASH: CodeUnit := 92
  const RIGHT_BRACKET: CodeUnit := 93
  const LEFT_BRACE: CodeUnit := 123
  const RIGHT_BRACE: CodeUnit := 125
  const LETTER_U: CodeUnit := 117

  predicate IsWhitespace(c: CodeUnit) { c == SPACE || c == LINE_FEED || c == CARRIAGE_RETURN || c == TAB }

  predicate IsDigit(c: CodeUnit) { ZERO <= c <= NINE }

  /** The characters behind the code units. */
  lemma Characters()
    ensures QUOTE == '"' as int && BACKSLASH == '\\' as int && SLASH == '/' as int && LETTER_U == 'u' as int
    ensures LEFT_BRACE == '{' as int && RIGHT_BRACE == '}' as int && LEFT_BRACKET == '[' as int && RIGHT_BRACKET == ']' as int
    ensures COLON == ':' as int && COMMA == ',' as int && PLUS == '+' as int && MINUS == '-' as int && POINT == '.' as int
    ensures forall c: char :: c as int < 0x10000 ==>
              && (IsWhitespace(c as int) <==> c in " \n\r\t") && (IsDigit(c as int) <==> c in "0123456789")
              && (IsHexDigit(c as int) <==> c in "0123456789abcdefABCDEF")
    ensures forall t :: IsLiteral(t) <==> t == Units("true") || t == Units("false") || t == Units("null")
  {
    assert Units("true") == [116, 114, 117, 101];
    assert Units("false") == [102, 97, 108, 115, 101];
    assert Units("null") == [110, 117, 108, 108];
  }

  function Units(s: string): (t: Text)
    requires forall i :: 0 <= i < |s| ==> s[i] as int < 0x10000
  {
    seq(|s|, i requires 0 <= i < |s| => s[i] as int)
  }

  predicate AllDigits(t: Text) { forall i :: 0 <= i < |t| ==> IsDigit(t[i]) }

  // ---- Numbers and literals ----

  /** "true", "false" and "null". */
  predicate IsLiteral(t: Text) {
    t in {[116, 114, 117, 101], [102, 97, 108, 115, 101], [110, 117, 108, 108]}
  }

  predicate IsInteger(t: Text) { AllDigits(t) && |t| > 0 && (t[0] == ZERO ==> |t| == 1) }

  predicate IsFraction(t: Text) { t == [] || (|t| > 1 && t[0] == POINT && AllDigits(t[1..])) }

  predicate IsExponent(t: Text) {
    t == [] || (|t| > 1 && t[0] in {69, 101} &&
                (AllDigits(t[1..]) || (|t| > 2 && t[1] in {PLUS, MINUS} && AllDigits(t[2..]))))
  }

  /** An integer has no zero in front of other digits, and a fraction is a point and digits. */
  lemma NumberParts(t: Text, digits: Text)
    ensures IsInteger(t) <==> t == [ZERO] || (t != [] && AllDigits(t) && t[0] != ZERO)
    ensures IsFraction([]) && (IsFraction([POINT] + digits) <==> digits != [] && AllDigits(digits))
    ensures t != [] && t[0] != POINT ==> !IsFraction(t)
  {
    assert ([POINT] + digits)[1..] == digits;
  }

  predicate IsE(c: CodeUnit) { c == 'e' as int || c == 'E' as int }

  /** An exponent is a letter e of either case, a sign or none, and digits. */
  lemma ExponentParts(e: CodeUnit, sign: CodeUnit, digits: Text)
    requires AllDigits(digits)
    ensures IsExponent([]) && !IsExponent([e])
    ensures digits != [] ==> (IsExponent([e] + digits) <==> IsE(e))
    ensures !IsDigit(sign) ==> (IsExponent([e] + ([sign] + digits)) <==> IsE(e) && (sign == '+' as int || sign == '-' as int) && digits != [])
  {
    assert ([e] + digits)[1..] == digits;
    var signed := [e] + ([sign] + digits);
    assert signed[1..] == [sign] + digits && signed[2..] == digits;
    assert !IsDigit(sign) ==> !AllDigits([sign] + digits) by {
      assert ([sign] + digits)[0] == sign;
    }
  }

  ghost predicate IsNumber(t: Text) {
    exists sign, whole, fraction, exponent ::
      && sign in {[], [MINUS]}
      && IsInteger(whole) && IsFraction(fraction) && IsExponent(exponent)
      && t == sign + whole + fraction + exponent
  }

  ghost predicate IsScalar(t: Text) { IsLiteral(t) || IsNumber(t) }

  // ---- Strings ----

  /** One character of a string: itself, a two-character escape, or a four-digit escape. */
  datatype Piece = Plain(unit: CodeUnit) | Escape(letter: CodeUnit) | Hex(a: CodeUnit, b: CodeUnit, c: CodeUnit, d: CodeUnit)

  predicate IsHexDigit(c: CodeUnit) { IsDigit(c) || 65 <= c <= 70 || 97 <= c <= 102 }

  function HexValue(c: CodeUnit): (v: nat)
    requires IsHexDigit(c)
    ensures v < 16
  {
    if IsDigit(c) then c - ZERO else if c <= 70 then c - 55 else c - 87
  }

  /** The unit a two-character escape stands for. */
  function Unescaped(letter: CodeUnit): (r: int)
    ensures -1 <= r < 0x10000
  {
    if letter == QUOTE || letter == BACKSLASH || letter == SLASH then letter
    else if letter == 98 then 8
    else if letter == 102 then 12
    else if letter == 110 then LINE_FEED
    else if letter == 114 then CARRIAGE_RETURN
    else if letter == 116 then TAB
    else -1
  }

  predicate IsPiece(p: Piece) {
    match p
    case Plain(u) => u >= SPACE && u != QUOTE && u != BACKSLASH
    case Escape(l) => Unescaped(l) >= 0
    case Hex(a, b, c, d) => IsHexDigit(a) && IsHexDigit(b) && IsHexDigit(c) && IsHexDigit(d)
  }

  function PieceUnit(p: Piece): CodeUnit {
    match p
    case Plain(u) => u
    case Escape(l) => if Unescaped(l) >= 0 then Unescaped(l) else 0
    case Hex(a, b, c, d) =>
      if IsHexDigit(a) && IsHexDigit(b) && IsHexDigit(c) && IsHexDigit(d) then
        ((HexValue(a) * 16 + HexValue(b)) * 16 + HexValue(c)) * 16 + HexValue(d)
      else 0
  }

  function PieceWidth(p: Piece): nat { match p case Plain(_) => 1 case Escape(_) => 2 case Hex(_, _, _, _) => 6 }

  type Name = seq<Piece>

  /** The decoded string. */
  function Decoded(name: Name): Text {
    if name == [] then [] else [PieceUnit(name[0])] + Decoded(name[1..])
  }

  function PiecesWidth(name: Name): nat {
    if name == [] then 0 else PieceWidth(name[0]) + PiecesWidth(name[1..])
  }

  /** The width of the name with its quotes. */
  function NameWidth(name: Name): nat { PiecesWidth(name) + 2 }

  // ---- Values ----

  /** Gaps are whitespace, recorded by their length. */
  datatype Value =
    | Scalar(token: Text)
    | String(name: Name)
    | EmptyArray(gap: nat)
    | Array(elements: Elements)
    | EmptyObject(gap: nat)
    | Object(members: Members)

  datatype Elements = NoElements | Element(before: nat, value: Value, after: nat, rest: Elements)

  datatype Members = NoMembers
                   | Member(before: nat, name: Name, gap: nat, lead: nat, value: Value, after: nat, rest: Members)

  function Width(v: Value): nat {
    match v
    case Scalar(t) => |t|
    case String(n) => NameWidth(n)
    case EmptyArray(g) => g + 2
    case Array(es) => 1 + ElementsWidth(es)
    case EmptyObject(g) => g + 2
    case Object(ms) => 1 + MembersWidth(ms)
  }

  /** The width of the elements with their separators and the closing bracket. */
  function ElementsWidth(es: Elements): nat {
    if es.NoElements? then 0 else es.before + Width(es.value) + es.after + 1 + ElementsWidth(es.rest)
  }

  function MembersWidth(ms: Members): nat {
    if ms.NoMembers? then 0 else
    ms.before + NameWidth(ms.name) + ms.gap + 1 + ms.lead + Width(ms.value) + ms.after + 1 + MembersWidth(ms.rest)
  }

  // ---- Derivations: the text from offset `i` is produced by the tree ----

  /** `text[i] === c` in JavaScript, where reading past the end yields no character. */
  predicate Is(text: Text, i: nat, c: CodeUnit) { i < |text| && text[i] == c }

  predicate Gap(text: Text, i: nat, n: nat) {
    i + n <= |text| && forall k :: i <= k < i + n ==> IsWhitespace(text[k])
  }

  predicate Token(text: Text, i: nat, t: Text) {
    i + |t| <= |text| && forall k :: 0 <= k < |t| ==> text[i + k] == t[k]
  }

  predicate DerivesPiece(text: Text, i: nat, p: Piece) {
    && IsPiece(p) && i + PieceWidth(p) <= |text|
    && match p
       case Plain(u) => text[i] == u
       case Escape(l) => text[i] == BACKSLASH && text[i + 1] == l
       case Hex(a, b, c, d) =>
         && text[i] == BACKSLASH && text[i + 1] == LETTER_U
         && text[i + 2] == a && text[i + 3] == b && text[i + 4] == c && text[i + 5] == d
  }

  predicate DerivesPieces(text: Text, i: nat, name: Name)
    decreases |name|
  {
    name == [] || (DerivesPiece(text, i, name[0]) && DerivesPieces(text, i + PieceWidth(name[0]), name[1..]))
  }

  predicate DerivesName(text: Text, i: nat, name: Name) {
    Is(text, i, QUOTE) && DerivesPieces(text, i + 1, name) && Is(text, i + 1 + PiecesWidth(name), QUOTE)
  }

  ghost predicate Derives(text: Text, i: nat, v: Value)
    decreases v
  {
    match v
    case Scalar(t) => IsScalar(t) && Token(text, i, t)
    case String(n) => DerivesName(text, i, n)
    case EmptyArray(g) => Is(text, i, LEFT_BRACKET) && Gap(text, i + 1, g) && Is(text, i + 1 + g, RIGHT_BRACKET)
    case Array(es) => Is(text, i, LEFT_BRACKET) && es.Element? && DerivesElements(text, i + 1, es)
    case EmptyObject(g) => Is(text, i, LEFT_BRACE) && Gap(text, i + 1, g) && Is(text, i + 1 + g, RIGHT_BRACE)
    case Object(ms) => Is(text, i, LEFT_BRACE) && ms.Member? && DerivesMembers(text, i + 1, ms)
  }

  /** One or more elements, each followed by a comma or, at the end, the closing bracket. */
  ghost predicate DerivesElements(text: Text, i: nat, es: Elements)
    decreases es
  {
    es.Element? ==>
      var k := i + es.before;
      var m := k + Width(es.value);
      var n := m + es.after;
      && Gap(text, i, es.before) && Derives(text, k, es.value) && Gap(text, m, es.after)
      && Is(text, n, if es.rest.NoElements? then RIGHT_BRACKET else COMMA)
      && DerivesElements(text, n + 1, es.rest)
  }

  ghost predicate DerivesMembers(text: Text, i: nat, ms: Members)
    decreases ms
  {
    ms.Member? ==>
      var a := i + ms.before;
      var b := a + NameWidth(ms.name);
      var c := b + ms.gap;
      var k := c + 1 + ms.lead;
      var m := k + Width(ms.value);
      var n := m + ms.after;
      && Gap(text, i, ms.before) && DerivesName(text, a, ms.name) && Gap(text, b, ms.gap)
      && Is(text, c, COLON)
      && Gap(text, c + 1, ms.lead) && Derives(text, k, ms.value) && Gap(text, m, ms.after)
      && Is(text, n, if ms.rest.NoMembers? then RIGHT_BRACE else COMMA)
      && DerivesMembers(text, n + 1, ms.rest)
  }

  /** A JSON text: one value with whitespace around it. */
  ghost predicate IsJsonText(text: Text, before: nat, v: Value) {
    && Gap(text, 0, before) && Derives(text, before, v)
    && before + Width(v) <= |text| && Gap(text, before + Width(v), |text| - before - Width(v))
  }

  // ---- What the pre-scan is meant to enforce ----

  function Max(a: nat, b: nat): nat { if a < b then b else a }

  /** How many containers are nested inside each other. */
  function Depth(v: Value): nat {
    match v
    case EmptyArray(_) => 1
    case Array(es) => 1 + ElementsDepth(es)
    case EmptyObject(_) => 1
    case Object(ms) => 1 + MembersDepth(ms)
    case _ => 0
  }

  function ElementsDepth(es: Elements): nat {
    if es.NoElements? then 0 else Max(Depth(es.value), ElementsDepth(es.rest))
  }

  function MembersDepth(ms: Members): nat {
    if ms.NoMembers? then 0 else Max(Depth(ms.value), MembersDepth(ms.rest))
  }

  predicate HasName(ms: Members, decoded: Text) {
    ms.Member? && (Decoded(ms.name) == decoded || HasName(ms.rest, decoded))
  }

  /** No object anywhere in the value has two members whose decoded names are equal. */
  predicate NamesUnique(v: Value) {
    match v
    case Array(es) => ElementsUnique(es)
    case Object(ms) => MembersUnique(ms)
    case _ => true
  }

  predicate ElementsUnique(es: Elements) {
    es.Element? ==> NamesUnique(es.value) && ElementsUnique(es.rest)
  }

  predicate MembersUnique(ms: Members) {
    ms.Member? ==> !HasName(ms.rest, Decoded(ms.name)) && NamesUnique(ms.value) && MembersUnique(ms.rest)
  }
}
