/** The registry of trusted developer workstations and its check against protected state. */
module DeveloperTrust {
  import opened Options
  import opened CanonicalJson
  import Lexicographic

  const TRUST_SCHEMA_VERSION := 1
  const MAX_DEVELOPER_TRUST_BYTES := 16 * 1024
  const MAX_TRUSTED_WORKSTATIONS := 32

  predicate IsLowerHex(c: char) { '0' <= c <= '9' || 'a' <= c <= 'f' }

  /** 32 bytes in lowercase hexadecimal. */
  predicate IsHex32(s: string) { |s| == 64 && forall i :: 0 <= i < |s| ==> IsLowerHex(s[i]) }

  /** A SHA-256 digest, or the 32 bytes of a public key, in canonical hexadecimal. */
  type Hex32 = s: string | IsHex32(s) witness seq(64, _ => '0')

  /** The hash, the curve's notion of a valid key and the JSON reader, all outside this model. */
  datatype Primitives = Primitives(digest: string -> Hex32, keyDigest: Hex32 -> Hex32, isKey: Hex32 -> bool,
                                   parse: string -> Option<Document>)

  function Digest(x: Primitives, text: string): (s: string)
    ensures IsHex32(s)
  {
    x.digest(text)
  }

  /** The reader reads back what the serializer writes. */
  ghost predicate ReadsBack(x: Primitives) { forall d :: x.parse(Encode(d)) == Some(d) }

  datatype Protected = Protected(schemaVersion: U32, generation: U64, digest: Option<string>)

  datatype Registry = Registry(document: Document, bytes: string, keys: map<string, Hex32>)

  datatype Error =
    | InvalidProtectedState | EmptyDocument | DocumentTooLarge | InvalidTrustRegistry | InvalidWorkstationKey
    | InvalidWorkstationId | DuplicateWorkstationKey | TooManyWorkstations | WorkstationAlreadyTrusted
    | UnknownWorkstation | GenerationExhausted | TrustRollback | TrustSubstitution | UnexplainedTrustAdvance
    | BrokenTrustPredecessor

  datatype Loaded = Active(registry: Registry) | ProtectionCommitRequired(next: Protected) | LoadRefused(error: Error)

  datatype Prepared = Pending(bytes: string, next: Protected) | PrepareRefused(error: Error)

  // ---- Protected state ----

  function Uninitialized(): Protected { Protected(TRUST_SCHEMA_VERSION, 0, None) }

  predicate ValidProtected(p: Protected) {
    && p.schemaVersion == TRUST_SCHEMA_VERSION
    && (p.generation == 0 <==> p.digest.None?) && (p.digest.Some? ==> IsHex32(p.digest.value))
  }

  function ForRegistry(x: Primitives, generation: U64, bytes: string): Protected {
    Protected(TRUST_SCHEMA_VERSION, generation, Some(Digest(x, bytes)))
  }

  // ---- Validating a registry ----

  function WorkstationId(x: Primitives, key: Hex32): string { "workstation-" + x.keyDigest(key)[..32] }

  predicate IdBefore(a: string, b: string) { Lexicographic.Precedes(Lexicographic.Codes(a), Lexicographic.Codes(b)) }

  /** Why an entry is refused after the ones before it. */
  function EntryError(x: Primitives, before: seq<Workstation>, w: Workstation): Option<Error> {
    if before != [] && !IdBefore(before[|before| - 1].id, w.id) then Some(InvalidTrustRegistry)
    else if !IsHex32(w.publicKey) || !x.isKey(w.publicKey) then Some(InvalidWorkstationKey)
    else if w.id != WorkstationId(x, w.publicKey) then Some(InvalidWorkstationId)
    else if exists v :: v in before && v.publicKey == w.publicKey then Some(DuplicateWorkstationKey)
    else None
  }

  /** The first refusal among the entries. */
  function EntriesError(x: Primitives, ws: seq<Workstation>): Option<Error> {
    if ws == [] then None else
    var rest := ws[..|ws| - 1];
    if EntriesError(x, rest).Some? then EntriesError(x, rest) else EntryError(x, rest, ws[|ws| - 1])
  }

  function HeaderError(d: Document): Option<Error> {
    if d.schemaVersion != TRUST_SCHEMA_VERSION then Some(InvalidTrustRegistry)
    else if d.generation == 0 && (d.previous.Some? || d.workstations != []) then Some(InvalidTrustRegistry)
    else if d.generation != 0 && (d.previous.None? || !IsHex32(d.previous.value)) then Some(InvalidTrustRegistry)
    else if |d.workstations| > MAX_TRUSTED_WORKSTATIONS then Some(TooManyWorkstations)
    else None
  }

  function DocumentError(x: Primitives, d: Document): Option<Error> {
    if HeaderError(d).Some? then HeaderError(d) else EntriesError(x, d.workstations)
  }

  predicate AllKeys(ws: seq<Workstation>) { forall w :: w in ws ==> IsHex32(w.publicKey) }

  function KeyMap(ws: seq<Workstation>): map<string, Hex32>
    requires AllKeys(ws)
  {
    if ws == [] then map[] else KeyMap(ws[..|ws| - 1])[ws[|ws| - 1].id := ws[|ws| - 1].publicKey]
  }

  lemma {:induction false} AcceptedKeys(x: Primitives, ws: seq<Workstation>)
    requires EntriesError(x, ws).None?
    ensures AllKeys(ws)
  {
    if ws != [] {
      AcceptedKeys(x, ws[..|ws| - 1]);
      assert ws == ws[..|ws| - 1] + [ws[|ws| - 1]];
    }
  }

  lemma {:induction false} ErrorSticks(x: Primitives, ws: seq<Workstation>, n: nat)
    requires n <= |ws| && EntriesError(x, ws[..n]).Some?
    ensures EntriesError(x, ws) == EntriesError(x, ws[..n])
    decreases |ws|
  {
    if n < |ws| {
      assert ws[..|ws| - 1][..n] == ws[..n];
      ErrorSticks(x, ws[..|ws| - 1], n);
    } else {
      assert ws[..n] == ws;
    }
  }

  /** The entries up to and including the i-th, given that the ones before it are accepted. */
  lemma OneMoreEntry(x: Primitives, ws: seq<Workstation>, i: nat)
    requires i < |ws| && EntriesError(x, ws[..i]).None? && AllKeys(ws[..i])
    ensures EntriesError(x, ws[..i + 1]) == EntryError(x, ws[..i], ws[i])
    ensures EntryError(x, ws[..i], ws[i]).Some? ==> EntriesError(x, ws) == EntryError(x, ws[..i], ws[i])
    ensures EntryError(x, ws[..i], ws[i]).None? ==>
              AllKeys(ws[..i + 1]) && KeyMap(ws[..i + 1]) == KeyMap(ws[..i])[ws[i].id := ws[i].publicKey]
    ensures KeysOf(ws[..i + 1]) == KeysOf(ws[..i]) + {ws[i].publicKey}
  {
    hide IdBefore, WorkstationId;
    assert ws[..i + 1][..i] == ws[..i];
    assert ws[..i + 1] == ws[..i] + [ws[i]];
    if EntryError(x, ws[..i], ws[i]).Some? {
      ErrorSticks(x, ws, i + 1);
    }
  }

  function KeysOf(ws: seq<Workstation>): set<string> { set w | w in ws :: w.publicKey }

  /** The validation loop stops at the first refused entry, or returns the keys by identity. */
  method ValidateEntries(x: Primitives, ws: seq<Workstation>) returns (keys: map<string, Hex32>, error: Option<Error>)
    ensures error == EntriesError(x, ws)
    ensures error.None? ==> AllKeys(ws) && keys == KeyMap(ws)
  {
    hide IdBefore, WorkstationId, EntriesError, KeyMap;
    keys := map[];
    var previous: Option<string>, unique: set<string> := None, {};
    assert EntriesError(x, []) == None && KeyMap([]) == map[] by { Nothing(x); }
    var i := 0;
    while i < |ws|
      invariant 0 <= i <= |ws| && EntriesError(x, ws[..i]).None?
      invariant AllKeys(ws[..i]) && keys == KeyMap(ws[..i]) && unique == KeysOf(ws[..i])
      invariant previous == if i == 0 then None else Some(ws[i - 1].id)
    {
      var w := ws[i];
      OneMoreEntry(x, ws, i);
      if previous.Some? && !IdBefore(previous.value, w.id) {
        return keys, Some(InvalidTrustRegistry);
      }
      if !IsHex32(w.publicKey) || !x.isKey(w.publicKey) {
        return keys, Some(InvalidWorkstationKey);
      }
      if w.id != WorkstationId(x, w.publicKey) {
        return keys, Some(InvalidWorkstationId);
      }
      if w.publicKey in unique {
        return keys, Some(DuplicateWorkstationKey);
      }
      unique := unique + {w.publicKey};
      previous := Some(w.id);
      keys := keys[w.id := w.publicKey];
      i := i + 1;
    }
    assert ws[..|ws|] == ws;
    error := None;
  }

  lemma Nothing(x: Primitives)
    ensures EntriesError(x, []) == None && KeyMap([]) == map[]
  {
  }

  // ---- Loading ----

  const EMPTY: Document := Document(TRUST_SCHEMA_VERSION, 0, None, [])

  function AsRegistry(x: Primitives, d: Document, bytes: string): Registry
    requires DocumentError(x, d).None?
  {
    AcceptedKeys(x, d.workstations);
    Registry(d, bytes, KeyMap(d.workstations))
  }

  function Load(x: Primitives, bytes: string, p: Protected): Loaded {
    if !ValidProtected(p) then LoadRefused(InvalidProtectedState)
    else if bytes == "" then LoadRefused(EmptyDocument)
    else if |bytes| > MAX_DEVELOPER_TRUST_BYTES then LoadRefused(DocumentTooLarge)
    else match x.parse(bytes)
      case None => LoadRefused(InvalidTrustRegistry)
      case Some(d) =>
        if Encode(d) != bytes then LoadRefused(InvalidTrustRegistry)
        else if DocumentError(x, d).Some? then LoadRefused(DocumentError(x, d).value)
        else Placed(x, d, bytes, p)
  }

  /** Where a valid document stands against protected state. */
  function Placed(x: Primitives, d: Document, bytes: string, p: Protected): Loaded
    requires DocumentError(x, d).None? && ValidProtected(p)
  {
    if d.generation < p.generation then LoadRefused(TrustRollback)
    else if d.generation == p.generation then
      if d.generation != 0 && p.digest != Some(Digest(x, bytes)) then LoadRefused(TrustSubstitution)
      else Active(AsRegistry(x, d, bytes))
    else if p.generation == MAX_U64 then LoadRefused(GenerationExhausted)
    else if d.generation != p.generation + 1 then LoadRefused(UnexplainedTrustAdvance)
    else if d.previous != Some(if p.generation == 0 then Digest(x, Encode(EMPTY)) else p.digest.value) then
      LoadRefused(BrokenTrustPredecessor)
    else ProtectionCommitRequired(ForRegistry(x, d.generation, bytes))
  }

  // ---- Transitions ----

  datatype Transition = Pair(key: Hex32) | Revoke(id: string)

  function NextRegistry(x: Primitives, r: Registry, ws: seq<Workstation>): Prepared {
    if r.document.generation == MAX_U64 then PrepareRefused(GenerationExhausted) else
    var d := Document(TRUST_SCHEMA_VERSION, r.document.generation + 1, Some(Digest(x, r.bytes)), ws);
    if DocumentError(x, d).Some? then PrepareRefused(DocumentError(x, d).value)
    else Pending(Encode(d), ForRegistry(x, d.generation, Encode(d)))
  }

  /** One step of a stable sort by identity. */
  function Insert(ws: seq<Workstation>, w: Workstation): seq<Workstation> {
    if ws != [] && IdBefore(w.id, ws[|ws| - 1].id) then Insert(ws[..|ws| - 1], w) + [ws[|ws| - 1]] else ws + [w]
  }

  function SortById(ws: seq<Workstation>): seq<Workstation> {
    if ws == [] then [] else Insert(SortById(ws[..|ws| - 1]), ws[|ws| - 1])
  }

  function Without(ws: seq<Workstation>, id: string): seq<Workstation> {
    if ws == [] then [] else
    Without(ws[..|ws| - 1], id) + if ws[|ws| - 1].id == id then [] else [ws[|ws| - 1]]
  }

  function Prepare(x: Primitives, r: Registry, t: Transition): Prepared {
    match t
    case Pair(key) =>
      if !x.isKey(key) then PrepareRefused(InvalidWorkstationKey) else
      var id := WorkstationId(x, key);
      if id in r.keys then PrepareRefused(WorkstationAlreadyTrusted)
      else if |r.keys| >= MAX_TRUSTED_WORKSTATIONS then PrepareRefused(TooManyWorkstations)
      else NextRegistry(x, r, SortById(r.document.workstations + [Workstation(id, key)]))
    case Revoke(id) =>
      if id !in r.keys then PrepareRefused(UnknownWorkstation)
      else NextRegistry(x, r, Without(r.document.workstations, id))
  }
}
