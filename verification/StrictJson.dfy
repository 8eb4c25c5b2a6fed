/** The recursive-descent pre-scan that rejects repeated names and deep nesting before the real parser runs. */
module StrictJson {
  import opened JsonGrammar

  const MAX_JSON_CONTAINER_DEPTH := 64

  datatype Failure = Malformed | TooDeep | DuplicateField

  datatype Scan = At(offset: nat) | Fail(failure: Failure)

  datatype Parsed = Parsed(decoded: Text, offset: nat) | Unparsed

  predicate IsTerminator(c: CodeUnit) { IsWhitespace(c) || c == COMMA || c == RIGHT_BRACKET || c == RIGHT_BRACE }

  // ---- The scanners as functions of the text and the offset ----

  function AfterWhitespace(text: Text, i: nat): (r: nat)
    ensures i <= r && (i <= |text| ==> r <= |text|)
    decreases |text| - i
  {
    if i < |text| && IsWhitespace(text[i]) then AfterWhitespace(text, i + 1) else i
  }

  function AfterToken(text: Text, i: nat): (r: nat)
    ensures i <= r && (i <= |text| ==> r <= |text|)
    decreases |text| - i
  {
    if i < |text| && !IsTerminator(text[i]) then AfterToken(text, i + 1) else i
  }

  /** The offset after the closing quote, skipping whatever follows a backslash; the length plus one if none. */
  function AfterClosingQuote(text: Text, i: nat): (r: nat)
    ensures i < r || r == |text| + 1
    decreases |text| - i
  {
    if i >= |text| then |text| + 1
    else if text[i] == BACKSLASH then AfterClosingQuote(text, i + 2)
    else if text[i] == QUOTE then i + 1
    else AfterClosingQuote(text, i + 1)
  }

  datatype Decoding = Decoded(text: Text) | NotAString

  /** The JSON parser's reading of the inside of a string token. */
  function DecodeBody(body: Text): Decoding
    decreases |body|
  {
    if body == [] then Decoding.Decoded([])
    else if body[0] == BACKSLASH then
      if |body| >= 6 && body[1] == LETTER_U && (forall k :: 2 <= k < 6 ==> IsHexDigit(body[k])) then
        Prepend(PieceUnit(Hex(body[2], body[3], body[4], body[5])), DecodeBody(body[6..]))
      else if |body| >= 2 && Unescaped(body[1]) >= 0 then
        Prepend(Unescaped(body[1]), DecodeBody(body[2..]))
      else NotAString
    else if body[0] < SPACE || body[0] == QUOTE then NotAString
    else Prepend(body[0], DecodeBody(body[1..]))
  }

  function Prepend(c: CodeUnit, d: Decoding): Decoding {
    match d case Decoded(t) => Decoding.Decoded([c] + t) case NotAString => NotAString
  }

  function StringAt(text: Text, i: nat): (r: Parsed)
    ensures r.Parsed? ==> i < r.offset <= |text|
  {
    if !Is(text, i, QUOTE) then Unparsed else
    var end := AfterClosingQuote(text, i + 1);
    if end > |text| then Unparsed else TokenRead(text, i, end)
  }

  /** The string token between two quotes, read by the JSON parser. */
  function TokenRead(text: Text, start: nat, end: nat): (r: Parsed)
    requires start + 2 <= end <= |text|
    ensures r.Parsed? ==> r.offset == end
  {
    match DecodeBody(text[start + 1..end - 1]) case Decoded(t) => Parsed(t, end) case NotAString => Unparsed
  }

  function ValueAt(text: Text, i: nat, depth: nat): (r: Scan)
    requires i <= |text|
    ensures r.At? ==> i < r.offset <= |text|
    decreases |text| - i, 2
  {
    var j := AfterWhitespace(text, i);
    if Is(text, j, LEFT_BRACE) then ObjectAt(text, j, depth + 1)
    else if Is(text, j, LEFT_BRACKET) then ArrayAt(text, j, depth + 1)
    else if Is(text, j, QUOTE) then
      match StringAt(text, j) case Parsed(_, end) => At(end) case Unparsed => Fail(Malformed)
    else
      var end := AfterToken(text, j);
      if end == j then Fail(Malformed) else At(end)
  }

  function ObjectAt(text: Text, i: nat, depth: nat): (r: Scan)
    requires i < |text|
    ensures r.At? ==> i < r.offset <= |text|
    decreases |text| - i, 1
  {
    if depth > MAX_JSON_CONTAINER_DEPTH then Fail(TooDeep) else
    var j := AfterWhitespace(text, i + 1);
    if Is(text, j, RIGHT_BRACE) then At(j + 1) else MembersAt(text, j, depth, {})
  }

  /** Where one member leaves the scan: at an end (or a failure), or before the next member. */
  datatype Step = Ends(scan: Scan) | Continues(offset: nat, field: Text)

  function MembersAt(text: Text, i: nat, depth: nat, fields: set<Text>): (r: Scan)
    requires i <= |text|
    ensures r.At? ==> i < r.offset <= |text|
    decreases |text| - i, 4
  {
    if i >= |text| then Fail(Malformed) else
    match MemberAt(text, i, depth, fields)
    case Ends(scan) => scan
    case Continues(offset, field) => MembersAt(text, offset, depth, fields + {field})
  }

  function MemberAt(text: Text, i: nat, depth: nat, fields: set<Text>): (r: Step)
    requires i < |text|
    ensures r.Continues? ==> i < r.offset <= |text|
    ensures r.Ends? && r.scan.At? ==> i < r.scan.offset <= |text|
    decreases |text| - i, 3
  {
    match StringAt(text, AfterWhitespace(text, i))
    case Unparsed => Ends(Fail(Malformed))
    case Parsed(field, end) =>
      if field in fields then Ends(Fail(DuplicateField)) else
      var colon := AfterWhitespace(text, end);
      if !Is(text, colon, COLON) then Ends(Fail(Malformed)) else
      match ValueAt(text, colon + 1, depth)
      case Fail(f) => Ends(Fail(f))
      case At(offset) =>
        var next := AfterWhitespace(text, offset);
        if Is(text, next, RIGHT_BRACE) then Ends(At(next + 1))
        else if !Is(text, next, COMMA) then Ends(Fail(Malformed))
        else Continues(next + 1, field)
  }

  function ArrayAt(text: Text, i: nat, depth: nat): (r: Scan)
    requires i < |text|
    ensures r.At? ==> i < r.offset <= |text|
    decreases |text| - i, 1
  {
    if depth > MAX_JSON_CONTAINER_DEPTH then Fail(TooDeep) else
    var j := AfterWhitespace(text, i + 1);
    if Is(text, j, RIGHT_BRACKET) then At(j + 1) else ElementsAt(text, j, depth)
  }

  function ElementsAt(text: Text, i: nat, depth: nat): (r: Scan)
    requires i <= |text|
    ensures r.At? ==> i < r.offset <= |text|
    decreases |text| - i, 3
  {
    if i >= |text| then Fail(Malformed) else
    match ValueAt(text, i, depth)
    case Fail(f) => Fail(f)
    case At(offset) =>
      var next := AfterWhitespace(text, offset);
      if Is(text, next, RIGHT_BRACKET) then At(next + 1)
      else if !Is(text, next, COMMA) then Fail(Malformed)
      else ElementsAt(text, next + 1, depth)
  }

  datatype Verdict = Accepted | Rejected(failure: Failure)

  /** The whole pre-scan. */
  function Prescan(text: Text): Verdict {
    match ValueAt(text, 0, 0)
    case Fail(f) => Rejected(f)
    case At(offset) => if AfterWhitespace(text, offset) == |text| then Accepted else Rejected(Malformed)
  }

  // ---- The scanners as the source writes them, around one shared offset ----

  datatype Status = Done | Failed(failure: Failure)

  class Scanner {
    const text: Text
    var offset: nat

    constructor (text: Text)
      ensures this.text == text && offset == 0
    {
      this.text := text;
      offset := 0;
    }

    method SkipWhitespace()
      modifies this
      ensures offset == AfterWhitespace(text, old(offset))
    {
      while offset < |text| && IsWhitespace(text[offset])
        invariant AfterWhitespace(text, offset) == AfterWhitespace(text, old(offset))
        decreases |text| - offset
      {
        offset := offset + 1;
      }
    }

    method ParseString() returns (parsed: Parsed)
      modifies this
      ensures parsed == StringAt(text, old(offset))
      ensures parsed.Parsed? ==> offset == parsed.offset
    {
      var start := offset;
      if !Is(text, offset, QUOTE) {
        return Unparsed;
      }
      offset := offset + 1;
      while offset < |text|
        invariant AfterClosingQuote(text, offset) == AfterClosingQuote(text, start + 1)
        invariant start < offset
        decreases |text| - offset
      {
        if text[offset] == BACKSLASH {
          offset := offset + 2;
        } else if text[offset] == QUOTE {
          offset := offset + 1;
          return TokenRead(text, start, offset);
        } else {
          offset := offset + 1;
        }
      }
      parsed := Unparsed;
    }

    method ParseValue(containerDepth: nat) returns (status: Status)
      requires offset <= |text|
      modifies this
      ensures Follows(status, offset, ValueAt(text, old(offset), containerDepth))
      decreases |text| - offset, 2
    {
      SkipWhitespace();
      if Is(text, offset, LEFT_BRACE) {
        status := ParseObject(containerDepth + 1);
        return;
      }
      if Is(text, offset, LEFT_BRACKET) {
        status := ParseArray(containerDepth + 1);
        return;
      }
      if Is(text, offset, QUOTE) {
        var parsed := ParseString();
        return if parsed.Parsed? then Done else Failed(Malformed);
      }
      var start := offset;
      while offset < |text| && !IsTerminator(text[offset])
        invariant start <= offset <= |text|
        invariant AfterToken(text, offset) == AfterToken(text, start)
        decreases |text| - offset
      {
        offset := offset + 1;
      }
      status := if offset == start then Failed(Malformed) else Done;
    }

    method ParseObject(containerDepth: nat) returns (status: Status)
      requires offset < |text|
      modifies this
      ensures Follows(status, offset, ObjectAt(text, old(offset), containerDepth))
      decreases |text| - offset, 1
    {
      if containerDepth > MAX_JSON_CONTAINER_DEPTH {
        return Failed(TooDeep);
      }
      offset := offset + 1;
      SkipWhitespace();
      var fields: set<Text> := {};
      if Is(text, offset, RIGHT_BRACE) {
        offset := offset + 1;
        return Done;
      }
      while offset < |text|
        invariant old(offset) < offset <= |text|
        invariant MembersAt(text, offset, containerDepth, fields) == ObjectAt(text, old(offset), containerDepth)
        decreases |text| - offset
      {
        var closed, field;
        status, closed, field := ParseMember(containerDepth, fields);
        if status.Failed? || closed {
          return;
        }
        fields := fields + {field};
      }
      status := Failed(Malformed);
    }

    /** The body of the member loop; `closed` tells that the object ended here. */
    method ParseMember(containerDepth: nat, fields: set<Text>) returns (status: Status, closed: bool, name: Text)
      requires offset < |text|
      modifies this
      ensures match MemberAt(text, old(offset), containerDepth, fields)
              case Ends(scan) => Follows(status, offset, scan) && (status.Done? ==> closed)
              case Continues(next, field) => status == Done && !closed && name == field && offset == next
      decreases |text| - offset, 3
    {
      closed, name := false, [];
      SkipWhitespace();
      var field := ParseString();
      if field.Unparsed? {
        return Failed(Malformed), false, [];
      }
      name := field.decoded;
      if name in fields {
        return Failed(DuplicateField), false, [];
      }
      SkipWhitespace();
      if !Is(text, offset, COLON) {
        return Failed(Malformed), false, [];
      }
      offset := offset + 1;
      status := ParseValue(containerDepth);
      if status.Failed? {
        return;
      }
      SkipWhitespace();
      if Is(text, offset, RIGHT_BRACE) {
        closed := true;
      } else if !Is(text, offset, COMMA) {
        return Failed(Malformed), false, [];
      }
      offset := offset + 1;
    }

    method ParseArray(containerDepth: nat) returns (status: Status)
      requires offset < |text|
      modifies this
      ensures Follows(status, offset, ArrayAt(text, old(offset), containerDepth))
      decreases |text| - offset, 1
    {
      if containerDepth > MAX_JSON_CONTAINER_DEPTH {
        return Failed(TooDeep);
      }
      offset := offset + 1;
      SkipWhitespace();
      if Is(text, offset, RIGHT_BRACKET) {
        offset := offset + 1;
        return Done;
      }
      while offset < |text|
        invariant old(offset) < offset <= |text|
        invariant ElementsAt(text, offset, containerDepth) == ArrayAt(text, old(offset), containerDepth)
        decreases |text| - offset
      {
        status := ParseValue(containerDepth);
        if status.Failed? {
          return;
        }
        SkipWhitespace();
        if Is(text, offset, RIGHT_BRACKET) {
          offset := offset + 1;
          return Done;
        }
        if !Is(text, offset, COMMA) {
          return Failed(Malformed);
        }
        offset := offset + 1;
      }
      status := Failed(Malformed);
    }
  }

  /** A scanning method ended as the function says: with its failure, or at its offset. */
  predicate Follows(status: Status, offset: nat, scan: Scan) {
    match scan
    case Fail(f) => status == Failed(f)
    case At(end) => status == Done && offset == end
  }

  /** The pre-scan; on acceptance the real parser takes over. */
  method ParseJsonWithUniqueObjectFields(text: Text) returns (verdict: Verdict)
    ensures verdict == Prescan(text)
  {
    var scanner := new Scanner(text);
    var status := scanner.ParseValue(0);
    if status.Failed? {
      return Rejected(status.failure);
    }
    scanner.SkipWhitespace();
    verdict := if scanner.offset == |text| then Accepted else Rejected(Malformed);
  }
}
