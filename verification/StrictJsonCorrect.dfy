/** On every valid JSON text the pre-scan reports exactly the first defect in document order. */
module StrictJsonCorrect {
  import opened JsonGrammar
  import opened StrictJson

  // ---- The reference: a walk over the syntax tree ----

  datatype Defect = Clean | Has(failure: Failure)

  function First(a: Defect, b: Defect): Defect { if a.Has? then a else b }

  function DepthDefect(depth: nat): Defect { if depth > MAX_JSON_CONTAINER_DEPTH then Has(TooDeep) else Clean }

  function ValueDefect(v: Value, depth: nat): Defect {
    match v
    case Scalar(_) => Clean
    case String(_) => Clean
    case EmptyArray(_) => DepthDefect(depth + 1)
    case Array(es) => First(DepthDefect(depth + 1), ElementsDefect(es, depth + 1))
    case EmptyObject(_) => DepthDefect(depth + 1)
    case Object(ms) => First(DepthDefect(depth + 1), MembersDefect(ms, depth + 1, {}))
  }

  function ElementsDefect(es: Elements, depth: nat): Defect {
    if es.NoElements? then Clean else First(ValueDefect(es.value, depth), ElementsDefect(es.rest, depth))
  }

  function MembersDefect(ms: Members, depth: nat, seen: set<Text>): Defect {
    if ms.NoMembers? then Clean
    else if JsonGrammar.Decoded(ms.name) in seen then Has(DuplicateField)
    else First(ValueDefect(ms.value, depth), MembersDefect(ms.rest, depth, seen + {JsonGrammar.Decoded(ms.name)}))
  }

  predicate Fits(depth: nat, inner: nat) { inner == 0 || depth + inner <= MAX_JSON_CONTAINER_DEPTH }

  /** The value is clean exactly when names are unique and it nests no deeper than the limit. */
  lemma {:induction false} CleanIff(v: Value, depth: nat)
    ensures ValueDefect(v, depth) == Clean <==> NamesUnique(v) && Fits(depth, Depth(v))
    decreases v
  {
    match v
    case Array(es) => CleanElementsIff(es, depth + 1);
    case Object(ms) => CleanMembersIff(ms, depth + 1, {});
    case _ =>
  }

  lemma {:induction false} CleanElementsIff(es: Elements, depth: nat)
    ensures ElementsDefect(es, depth) == Clean <==> ElementsUnique(es) && Fits(depth, ElementsDepth(es))
    decreases es
  {
    if es.Element? {
      CleanIff(es.value, depth);
      CleanElementsIff(es.rest, depth);
    }
  }

  predicate NoneSeen(ms: Members, seen: set<Text>) { forall t :: t in seen ==> !HasName(ms, t) }

  lemma NoneSeenUnfold(ms: Members, seen: set<Text>)
    requires ms.Member?
    ensures var name := JsonGrammar.Decoded(ms.name);
            NoneSeen(ms, seen) && !HasName(ms.rest, name) <==> name !in seen && NoneSeen(ms.rest, seen + {name})
  {
    var name := JsonGrammar.Decoded(ms.name);
    assert HasName(ms, name);
    if NoneSeen(ms.rest, seen + {name}) {
      assert name in seen + {name};
      forall t | t in seen ensures !HasName(ms.rest, t) {
        assert t in seen + {name};
      }
    }
  }

  lemma {:induction false} CleanMembersIff(ms: Members, depth: nat, seen: set<Text>)
    ensures MembersDefect(ms, depth, seen) == Clean
            <==> MembersUnique(ms) && NoneSeen(ms, seen) && Fits(depth, MembersDepth(ms))
    decreases ms
  {
    if ms.Member? {
      CleanIff(ms.value, depth);
      CleanMembersIff(ms.rest, depth, seen + {JsonGrammar.Decoded(ms.name)});
      NoneSeenUnfold(ms, seen);
    }
  }

  // ---- Gaps and scalars ----

  lemma {:induction false} SkipsGap(text: Text, i: nat, n: nat)
    requires Gap(text, i, n)
    ensures AfterWhitespace(text, i) == AfterWhitespace(text, i + n)
    decreases n
  {
    if n > 0 { SkipsGap(text, i + 1, n - 1); }
  }

  /** After a gap the scanner stops at a character that is not whitespace. */
  lemma StopsAfter(text: Text, i: nat, n: nat)
    requires Gap(text, i, n) && (i + n == |text| || !IsWhitespace(text[i + n]))
    ensures AfterWhitespace(text, i) == i + n
  {
    SkipsGap(text, i, n);
  }

  lemma ScalarUnits(t: Text)
    requires IsScalar(t)
    ensures |t| > 0 && t[0] !in {LEFT_BRACE, LEFT_BRACKET, QUOTE}
    ensures forall i :: 0 <= i < |t| ==> !IsTerminator(t[i])
  {
    if !IsLiteral(t) {
      var sign, whole, fraction, exponent :|
        && sign in {[], [MINUS]}
        && IsInteger(whole) && IsFraction(fraction) && IsExponent(exponent)
        && t == sign + whole + fraction + exponent;
      NumberPart(sign);
      NumberPart(whole);
      NumberPart(fraction);
      NumberPart(exponent);
    }
  }

  predicate IsNumberUnit(c: CodeUnit) { IsDigit(c) || c in {MINUS, PLUS, POINT, 69, 101} }

  lemma NumberPart(t: Text)
    requires t in {[], [MINUS]} || IsInteger(t) || IsFraction(t) || IsExponent(t)
    ensures forall i :: 0 <= i < |t| ==> IsNumberUnit(t[i])
  {
    forall i | 0 <= i < |t| ensures IsNumberUnit(t[i]) {
      if i > 0 { assert t[1..][i - 1] == t[i]; }
      if i > 1 { assert t[2..][i - 2] == t[i]; }
    }
  }

  lemma {:induction false} TokenScanned(text: Text, i: nat, end: nat)
    requires i <= end <= |text| && forall k :: i <= k < end ==> !IsTerminator(text[k])
    requires end == |text| || IsTerminator(text[end])
    ensures AfterToken(text, i) == end
    decreases end - i
  {
    if i < end { TokenScanned(text, i + 1, end); }
  }

  // ---- Strings ----

  lemma PieceSkipped(text: Text, i: nat, p: Piece)
    requires DerivesPiece(text, i, p)
    ensures AfterClosingQuote(text, i) == AfterClosingQuote(text, i + PieceWidth(p))
  {
    if p.Hex? {
      assert AfterClosingQuote(text, i + 2) == AfterClosingQuote(text, i + 3);
      assert AfterClosingQuote(text, i + 3) == AfterClosingQuote(text, i + 4);
      assert AfterClosingQuote(text, i + 4) == AfterClosingQuote(text, i + 5);
    }
  }

  lemma {:induction false} QuoteFound(text: Text, i: nat, name: Name)
    requires DerivesPieces(text, i, name) && Is(text, i + PiecesWidth(name), QUOTE)
    ensures AfterClosingQuote(text, i) == i + PiecesWidth(name) + 1
    decreases |name|
  {
    if name != [] {
      PieceSkipped(text, i, name[0]);
      QuoteFound(text, i + PieceWidth(name[0]), name[1..]);
    }
  }

  lemma PieceDecoded(body: Text, p: Piece)
    requires DerivesPiece(body, 0, p)
    ensures DecodeBody(body) == Prepend(PieceUnit(p), DecodeBody(body[PieceWidth(p)..]))
  {
  }

  lemma PieceShifted(text: Text, start: nat, end: nat, i: nat, p: Piece)
    requires start <= i && i + PieceWidth(p) <= end <= |text| && DerivesPiece(text, i, p)
    ensures DerivesPiece(text[start..end], i - start, p)
  {
  }

  lemma BodyStep(text: Text, i: nat, end: nat, p: Piece)
    requires i + PieceWidth(p) <= end <= |text| && DerivesPiece(text, i, p)
    ensures DecodeBody(text[i..end]) == Prepend(PieceUnit(p), DecodeBody(text[i + PieceWidth(p)..end]))
  {
    hide DecodeBody, PieceUnit, DerivesPiece;
    PieceShifted(text, i, end, i, p);
    PieceDecoded(text[i..end], p);
    assert text[i..end][PieceWidth(p)..] == text[i + PieceWidth(p)..end];
  }

  /** Decoding the characters between the quotes gives the decoded name. */
  lemma {:induction false} DecodesDerived(text: Text, i: nat, name: Name)
    requires DerivesPieces(text, i, name) && i + PiecesWidth(name) <= |text|
    ensures DecodeBody(text[i..i + PiecesWidth(name)]) == Decoding.Decoded(JsonGrammar.Decoded(name))
    decreases |name|
  {
    if name != [] {
      hide DecodeBody, PieceUnit, DerivesPiece, PieceWidth;
      BodyStep(text, i, i + PiecesWidth(name), name[0]);
      DecodesDerived(text, i + PieceWidth(name[0]), name[1..]);
    }
  }

  lemma NameScanned(text: Text, i: nat, name: Name)
    requires DerivesName(text, i, name)
    ensures StringAt(text, i) == Parsed(JsonGrammar.Decoded(name), i + NameWidth(name))
  {
    QuoteFound(text, i + 1, name);
    DecodesDerived(text, i + 1, name);
  }

  // ---- Values ----

  /** What may follow a value: the end of the text, or a character that ends tokens. */
  predicate Delimited(text: Text, i: nat) { i == |text| || (i < |text| && IsTerminator(text[i])) }

  ghost predicate Reports(scan: Scan, defect: Defect, end: nat) {
    match defect
    case Clean => scan == At(end)
    case Has(f) => scan == Fail(f)
  }

  lemma FirstUnit(text: Text, i: nat, v: Value)
    requires Derives(text, i, v)
    ensures i < |text| && !IsTerminator(text[i]) && Width(v) > 0
  {
    if v.Scalar? {
      ScalarUnits(v.token);
      assert text[i + 0] == v.token[0];
    }
  }

  /** Leading whitespace makes no difference to a value. */
  lemma ValueAfterGap(text: Text, i: nat, n: nat, depth: nat)
    requires Gap(text, i, n)
    ensures ValueAt(text, i, depth) == ValueAt(text, i + n, depth)
  {
    SkipsGap(text, i, n);
  }

  // One unfolding of each scanner, with the facts about the text it needs.

  lemma TokenValue(text: Text, i: nat, depth: nat, end: nat)
    requires i < |text| && !IsTerminator(text[i]) && text[i] !in {LEFT_BRACE, LEFT_BRACKET, QUOTE}
    requires AfterToken(text, i) == end
    ensures ValueAt(text, i, depth) == At(end)
  {
  }

  lemma StringValue(text: Text, i: nat, depth: nat, t: Text, end: nat)
    requires Is(text, i, QUOTE) && StringAt(text, i) == Parsed(t, end)
    ensures ValueAt(text, i, depth) == At(end)
  {
  }

  lemma ArrayValue(text: Text, i: nat, depth: nat)
    requires Is(text, i, LEFT_BRACKET)
    ensures ValueAt(text, i, depth) == ArrayAt(text, i, depth + 1)
  {
  }

  lemma ObjectValue(text: Text, i: nat, depth: nat)
    requires Is(text, i, LEFT_BRACE)
    ensures ValueAt(text, i, depth) == ObjectAt(text, i, depth + 1)
  {
  }

  lemma ArrayUnfold(text: Text, i: nat, depth: nat, j: nat)
    requires i < |text| && AfterWhitespace(text, i + 1) == j < |text|
    ensures ArrayAt(text, i, depth)
         == if depth > MAX_JSON_CONTAINER_DEPTH then Fail(TooDeep)
            else if Is(text, j, RIGHT_BRACKET) then At(j + 1)
            else ElementsAt(text, j, depth)
  {
  }

  lemma ObjectUnfold(text: Text, i: nat, depth: nat, j: nat)
    requires i < |text| && AfterWhitespace(text, i + 1) == j < |text|
    ensures ObjectAt(text, i, depth)
         == if depth > MAX_JSON_CONTAINER_DEPTH then Fail(TooDeep)
            else if Is(text, j, RIGHT_BRACE) then At(j + 1)
            else MembersAt(text, j, depth, {})
  {
  }

  function Closing(last: bool, bracket: CodeUnit): CodeUnit { if last then bracket else COMMA }

  lemma ElementsUnfold(text: Text, i: nat, depth: nat, defect: Defect, end: nat, next: nat, last: bool)
    requires i < |text| && end <= next < |text|
    requires Reports(ValueAt(text, i, depth), defect, end)
    requires AfterWhitespace(text, end) == next && Is(text, next, Closing(last, RIGHT_BRACKET))
    ensures defect.Has? ==> ElementsAt(text, i, depth) == Fail(defect.failure)
    ensures defect.Clean? && last ==> ElementsAt(text, i, depth) == At(next + 1)
    ensures defect.Clean? && !last ==> ElementsAt(text, i, depth) == ElementsAt(text, next + 1, depth)
  {
  }

  lemma MemberUnfold(text: Text, i: nat, depth: nat, seen: set<Text>, a: nat, name: Text, b: nat, c: nat,
                     defect: Defect, m: nat, n: nat, last: bool)
    requires i < |text| && i <= a && b <= c < |text| && m <= n < |text|
    requires AfterWhitespace(text, i) == a && StringAt(text, a) == Parsed(name, b)
    requires AfterWhitespace(text, b) == c && Is(text, c, COLON)
    requires Reports(ValueAt(text, c + 1, depth), defect, m)
    requires AfterWhitespace(text, m) == n && Is(text, n, Closing(last, RIGHT_BRACE))
    ensures MemberAt(text, i, depth, seen)
         == if name in seen then Ends(Fail(DuplicateField))
            else if defect.Has? then Ends(Fail(defect.failure))
            else if last then Ends(At(n + 1))
            else Continues(n + 1, name)
  {
  }

  /** Whatever gap precedes it, a closing or separating character delimits a value. */
  lemma GapDelimits(text: Text, m: nat, n: nat, close: CodeUnit)
    requires Gap(text, m, n) && Is(text, m + n, close) && IsTerminator(close) && !IsWhitespace(close)
    ensures Delimited(text, m) && AfterWhitespace(text, m) == m + n
  {
    StopsAfter(text, m, n);
  }

  lemma ScalarScanned(text: Text, i: nat, t: Text, depth: nat)
    requires IsScalar(t) && Token(text, i, t) && Delimited(text, i + |t|)
    ensures ValueAt(text, i, depth) == At(i + |t|)
  {
    ScalarUnits(t);
    assert text[i + 0] == t[0];
    forall k | i <= k < i + |t| ensures !IsTerminator(text[k]) {
      assert text[i + (k - i)] == t[k - i];
    }
    TokenScanned(text, i, i + |t|);
    TokenValue(text, i, depth, i + |t|);
  }

  lemma StringScanned(text: Text, i: nat, name: Name, depth: nat)
    requires DerivesName(text, i, name)
    ensures ValueAt(text, i, depth) == At(i + NameWidth(name))
  {
    NameScanned(text, i, name);
    StringValue(text, i, depth, JsonGrammar.Decoded(name), i + NameWidth(name));
  }

  lemma EmptyArrayScanned(text: Text, i: nat, gap: nat, depth: nat)
    requires Is(text, i, LEFT_BRACKET) && Gap(text, i + 1, gap) && Is(text, i + 1 + gap, RIGHT_BRACKET)
    ensures Reports(ValueAt(text, i, depth), DepthDefect(depth + 1), i + gap + 2)
  {
    hide ValueAt;
    StopsAfter(text, i + 1, gap);
    ArrayValue(text, i, depth);
    ArrayUnfold(text, i, depth + 1, i + 1 + gap);
  }

  lemma EmptyObjectScanned(text: Text, i: nat, gap: nat, depth: nat)
    requires Is(text, i, LEFT_BRACE) && Gap(text, i + 1, gap) && Is(text, i + 1 + gap, RIGHT_BRACE)
    ensures Reports(ValueAt(text, i, depth), DepthDefect(depth + 1), i + gap + 2)
  {
    hide ValueAt;
    StopsAfter(text, i + 1, gap);
    ObjectValue(text, i, depth);
    ObjectUnfold(text, i, depth + 1, i + 1 + gap);
  }

  lemma {:induction false} ValueScanned(text: Text, i: nat, v: Value, depth: nat)
    requires Derives(text, i, v) && Delimited(text, i + Width(v))
    ensures Reports(ValueAt(text, i, depth), ValueDefect(v, depth), i + Width(v))
    decreases v, 2
  {
    hide ValueAt, DerivesElements, DerivesMembers, DerivesPieces, ElementsWidth, MembersWidth, ElementsDefect, MembersDefect;
    match v
    case Scalar(t) => ScalarScanned(text, i, t, depth);
    case String(name) => StringScanned(text, i, name, depth);
    case EmptyArray(gap) => EmptyArrayScanned(text, i, gap, depth);
    case EmptyObject(gap) => EmptyObjectScanned(text, i, gap, depth);
    case Array(es) => ArrayScanned(text, i, es, depth);
    case Object(ms) => ObjectScanned(text, i, ms, depth);
  }

  lemma {:induction false} ElementsScanned(text: Text, i: nat, es: Elements, depth: nat)
    requires es.Element? && DerivesElements(text, i, es) && i < |text|
    ensures Reports(ElementsAt(text, i, depth), ElementsDefect(es, depth), i + ElementsWidth(es))
    decreases es, 0
  {
    hide ValueAt, ElementsAt, ArrayAt, ObjectAt, MembersAt, MemberAt, StringAt, AfterWhitespace, Width, Derives, ValueDefect;
    var k, last := i + es.before, es.rest.NoElements?;
    var m := k + Width(es.value);
    GapDelimits(text, m, es.after, Closing(last, RIGHT_BRACKET));
    ValueAfterGap(text, i, es.before, depth);
    ValueScanned(text, k, es.value, depth);
    ElementsUnfold(text, i, depth, ValueDefect(es.value, depth), m, m + es.after, last);
    if !last {
      FirstUnit(text, m + es.after + 1 + es.rest.before, es.rest.value);
      ElementsScanned(text, m + es.after + 1, es.rest, depth);
    }
  }

  lemma ElementsAfterGap(text: Text, i: nat, n: nat, depth: nat)
    requires Gap(text, i, n) && i + n < |text|
    ensures ElementsAt(text, i, depth) == ElementsAt(text, i + n, depth)
  {
    ValueAfterGap(text, i, n, depth);
  }

  lemma OpensArray(text: Text, i: nat, n: nat, depth: nat)
    requires Is(text, i, LEFT_BRACKET) && Gap(text, i + 1, n) && i + 1 + n < |text| && !IsTerminator(text[i + 1 + n])
    ensures ValueAt(text, i, depth)
         == if depth + 1 > MAX_JSON_CONTAINER_DEPTH then Fail(TooDeep) else ElementsAt(text, i + 1, depth + 1)
  {
    hide ValueAt, ElementsAt, ArrayAt, ObjectAt, MembersAt, MemberAt, StringAt, AfterWhitespace;
    StopsAfter(text, i + 1, n);
    ArrayValue(text, i, depth);
    ArrayUnfold(text, i, depth + 1, i + 1 + n);
    ElementsAfterGap(text, i + 1, n, depth + 1);
  }

  lemma ArrayScanned(text: Text, i: nat, es: Elements, depth: nat)
    requires Is(text, i, LEFT_BRACKET) && es.Element? && DerivesElements(text, i + 1, es)
    ensures Reports(ValueAt(text, i, depth), First(DepthDefect(depth + 1), ElementsDefect(es, depth + 1)),
                    i + 1 + ElementsWidth(es))
    decreases es, 1
  {
    hide ValueAt, ElementsAt, ArrayAt, Width, Derives, ValueDefect, ElementsDefect, ElementsWidth;
    FirstUnit(text, i + 1 + es.before, es.value);
    OpensArray(text, i, es.before, depth);
    ElementsScanned(text, i + 1, es, depth + 1);
  }

  // ---- Members ----

  /** The offset of the character that closes the object or separates the next member. */
  function MemberEnd(i: nat, ms: Members): nat
    requires ms.Member?
  {
    i + ms.before + NameWidth(ms.name) + ms.gap + 1 + ms.lead + Width(ms.value) + ms.after
  }

  function MemberStep(ms: Members, depth: nat, seen: set<Text>, n: nat): Step
    requires ms.Member?
  {
    if JsonGrammar.Decoded(ms.name) in seen then Ends(Fail(DuplicateField)) else
    match ValueDefect(ms.value, depth)
    case Has(f) => Ends(Fail(f))
    case Clean => if ms.rest.NoMembers? then Ends(At(n + 1)) else Continues(n + 1, JsonGrammar.Decoded(ms.name))
  }

  lemma MemberScanned(text: Text, i: nat, ms: Members, depth: nat, seen: set<Text>)
    requires ms.Member? && DerivesMembers(text, i, ms) && i < |text|
    ensures MemberAt(text, i, depth, seen) == MemberStep(ms, depth, seen, MemberEnd(i, ms))
    decreases ms, 0
  {
    hide ValueAt, MemberAt, AfterWhitespace, Width, Derives, DerivesName, Gap, JsonGrammar.Decoded, NameWidth;
    var last := ms.rest.NoMembers?;
    var k := i + ms.before + NameWidth(ms.name) + ms.gap + 1 + ms.lead;
    var m := k + Width(ms.value);
    GapDelimits(text, m, ms.after, Closing(last, RIGHT_BRACE));
    ValueScanned(text, k, ms.value, depth);
    MemberAssembled(text, i, ms.before, ms.name, ms.gap, ms.lead, depth, seen,
                    ValueDefect(ms.value, depth), m, m + ms.after, last);
  }

  /** A member step, given how its value scans. */
  lemma MemberAssembled(text: Text, i: nat, before: nat, name: Name, gap: nat, lead: nat, depth: nat, seen: set<Text>,
                        defect: Defect, m: nat, n: nat, last: bool)
    requires i < |text| && Gap(text, i, before) && DerivesName(text, i + before, name)
    requires var c := i + before + NameWidth(name) + gap;
             && Gap(text, c - gap, gap) && Is(text, c, COLON) && Gap(text, c + 1, lead)
             && Reports(ValueAt(text, c + 1 + lead, depth), defect, m)
    requires AfterWhitespace(text, m) == n < |text| && Is(text, n, Closing(last, RIGHT_BRACE))
    ensures MemberAt(text, i, depth, seen)
         == if JsonGrammar.Decoded(name) in seen then Ends(Fail(DuplicateField))
            else if defect.Has? then Ends(Fail(defect.failure))
            else if last then Ends(At(n + 1))
            else Continues(n + 1, JsonGrammar.Decoded(name))
  {
    hide ValueAt, ElementsAt, ArrayAt, ObjectAt, MembersAt, MemberAt, StringAt, AfterWhitespace, PiecesWidth, DerivesPieces, JsonGrammar.Decoded;
    var a := i + before;
    var b := a + NameWidth(name);
    var c := b + gap;
    StopsAfter(text, i, before);
    NameScanned(text, a, name);
    StopsAfter(text, b, gap);
    ValueAfterGap(text, c + 1, lead, depth);
    MemberUnfold(text, i, depth, seen, a, JsonGrammar.Decoded(name), b, c, defect, m, n, last);
  }

  lemma MembersUnfold(text: Text, i: nat, depth: nat, seen: set<Text>, step: Step)
    requires i < |text| && MemberAt(text, i, depth, seen) == step
    ensures MembersAt(text, i, depth, seen)
         == match step case Ends(scan) => scan case Continues(n, name) => MembersAt(text, n, depth, seen + {name})
  {
  }

  lemma NextMember(text: Text, i: nat, ms: Members)
    requires ms.Member? && DerivesMembers(text, i, ms)
    ensures i + MembersWidth(ms) == MemberEnd(i, ms) + 1 + MembersWidth(ms.rest)
    ensures ms.rest.Member? ==> MemberEnd(i, ms) + 1 < |text| && DerivesMembers(text, MemberEnd(i, ms) + 1, ms.rest)
  {
    hide Derives, Width, PiecesWidth, DerivesPieces;
  }

  lemma DefectNext(ms: Members, depth: nat, seen: set<Text>, n: nat)
    requires ms.Member?
    ensures MemberStep(ms, depth, seen, n).Continues? ==>
              && ms.rest.Member? && MemberStep(ms, depth, seen, n) == Continues(n + 1, JsonGrammar.Decoded(ms.name))
              && MembersDefect(ms, depth, seen) == MembersDefect(ms.rest, depth, seen + {JsonGrammar.Decoded(ms.name)})
    ensures MemberStep(ms, depth, seen, n).Ends? ==>
              && Reports(MemberStep(ms, depth, seen, n).scan, MembersDefect(ms, depth, seen), n + 1)
              && (MembersDefect(ms, depth, seen).Clean? ==> ms.rest.NoMembers?)
  {
    hide ValueDefect;
  }

  lemma {:induction false} MembersScanned(text: Text, i: nat, ms: Members, depth: nat, seen: set<Text>)
    requires ms.Member? && DerivesMembers(text, i, ms) && i < |text|
    ensures Reports(MembersAt(text, i, depth, seen), MembersDefect(ms, depth, seen), i + MembersWidth(ms))
    decreases ms, 1
  {
    hide MembersAt, MemberAt, MemberStep, MemberEnd, MembersDefect, DerivesMembers, Width, JsonGrammar.Decoded;
    var n := MemberEnd(i, ms);
    var step := MemberStep(ms, depth, seen, n);
    NextMember(text, i, ms);
    DefectNext(ms, depth, seen, n);
    MemberScanned(text, i, ms, depth, seen);
    MembersUnfold(text, i, depth, seen, step);
    if step.Continues? {
      MembersScanned(text, n + 1, ms.rest, depth, seen + {step.field});
    }
  }

  lemma MembersAfterGap(text: Text, i: nat, n: nat, depth: nat, seen: set<Text>)
    requires Gap(text, i, n) && i + n < |text|
    ensures MembersAt(text, i, depth, seen) == MembersAt(text, i + n, depth, seen)
  {
    SkipsGap(text, i, n);
  }

  lemma OpensObject(text: Text, i: nat, n: nat, depth: nat)
    requires Is(text, i, LEFT_BRACE) && Gap(text, i + 1, n) && Is(text, i + 1 + n, QUOTE)
    ensures ValueAt(text, i, depth)
         == if depth + 1 > MAX_JSON_CONTAINER_DEPTH then Fail(TooDeep) else MembersAt(text, i + 1, depth + 1, {})
  {
    hide ValueAt, ElementsAt, ArrayAt, ObjectAt, MembersAt, MemberAt, StringAt, AfterWhitespace;
    StopsAfter(text, i + 1, n);
    ObjectValue(text, i, depth);
    ObjectUnfold(text, i, depth + 1, i + 1 + n);
    MembersAfterGap(text, i + 1, n, depth + 1, {});
  }

  lemma ObjectScanned(text: Text, i: nat, ms: Members, depth: nat)
    requires Is(text, i, LEFT_BRACE) && ms.Member? && DerivesMembers(text, i + 1, ms)
    ensures Reports(ValueAt(text, i, depth), First(DepthDefect(depth + 1), MembersDefect(ms, depth + 1, {})),
                    i + 1 + MembersWidth(ms))
    decreases ms, 2
  {
    hide ValueAt, ObjectAt, MembersAt, Width, Derives, ValueDefect, PiecesWidth, DerivesPieces, MembersDefect, MembersWidth;
    OpensObject(text, i, ms.before, depth);
    MembersScanned(text, i + 1, ms, depth + 1, {});
  }

  // ---- Whole texts ----

  lemma DelimitedByGap(text: Text, m: nat)
    requires m <= |text| && Gap(text, m, |text| - m)
    ensures Delimited(text, m) && AfterWhitespace(text, m) == |text|
  {
    StopsAfter(text, m, |text| - m);
  }

  /** On a valid text the pre-scan reports the first defect in document order, and nothing else. */
  lemma PrescanFindsFirstDefect(text: Text, before: nat, v: Value)
    requires IsJsonText(text, before, v)
    ensures Prescan(text) == match ValueDefect(v, 0) case Clean => Accepted case Has(f) => Rejected(f)
  {
    DelimitedByGap(text, before + Width(v));
    ValueAfterGap(text, 0, before, 0);
    ValueScanned(text, before, v, 0);
  }

  /** A valid text is accepted exactly when no object repeats a decoded name and at most 64 containers nest. */
  lemma AcceptedIff(text: Text, before: nat, v: Value)
    requires IsJsonText(text, before, v)
    ensures Prescan(text) == Accepted <==> NamesUnique(v) && Depth(v) <= 64
  {
    PrescanFindsFirstDefect(text, before, v);
    CleanIff(v, 0);
  }
}
