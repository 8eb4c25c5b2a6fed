/** What each refusal of the trust registry tells: it is true, and with it all else that matters is known. */
module DeveloperTrustRefusals {
  import Alphabets
  import opened Options
  import opened CanonicalJson
  import opened DeveloperTrust
  import opened DeveloperTrustRuns

  // ---- Identities and digests ----

  lemma HexIff(s: string)
    ensures IsHex32(s) <==> |s| == 64 && forall c :: c in s ==> c in Alphabets.DIGITS || c in Alphabets.LOWER[..6]
  {
    forall i | 0 <= i < |s| ensures IsLowerHex(s[i]) <==> s[i] in Alphabets.DIGITS || s[i] in Alphabets.LOWER[..6] {
      Alphabets.DigitIs(s[i]);
      Alphabets.LowerIs(s[i]);
    }
  }

  /** An identity is the word and the first sixteen bytes of the key's digest. */
  lemma IdentityIs(x: Primitives, key: Hex32)
    ensures |WorkstationId(x, key)| == 44 && WorkstationId(x, key)[..12] == "workstation-"
    ensures WorkstationId(x, key)[12..] == x.keyDigest(key)[..32]
  {
  }

  // ---- Protected state and headers ----

  lemma ProtectedIff(p: Protected)
    ensures ValidProtected(p) <==>
              && p.schemaVersion == 1
              && if p.generation == 0 then p.digest.None? else p.digest.Some? && IsHex32(p.digest.value)
  {
  }

  /** An empty first generation, or a later one that names its predecessor, with at most 32 entries. */
  lemma HeaderIff(d: Document)
    ensures HeaderError(d).None? <==>
              && d.schemaVersion == 1 && |d.workstations| <= 32
              && if d.generation == 0 then d.previous.None? && d.workstations == [] else d.previous.Some? && IsHex32(d.previous.value)
    ensures HeaderError(d).Some? ==> HeaderError(d).value == InvalidTrustRegistry || (HeaderError(d).value == TooManyWorkstations && |d.workstations| > 32)
  {
  }

  predicate EntryRefusal(x: Primitives, before: seq<Workstation>, w: Workstation, e: Error) {
    match e
    case InvalidTrustRegistry => before != [] && !IdBefore(before[|before| - 1].id, w.id)
    case InvalidWorkstationKey => !IsHex32(w.publicKey) || !x.isKey(w.publicKey)
    case InvalidWorkstationId => IsHex32(w.publicKey) && w.id != WorkstationId(x, w.publicKey)
    case DuplicateWorkstationKey => exists v :: v in before && v.publicKey == w.publicKey
    case _ => false
  }

  /** A list is refused at the first entry that is wrong, and for what is wrong with it. */
  lemma {:induction false} EntriesRefused(x: Primitives, ws: seq<Workstation>) returns (n: nat)
    requires EntriesError(x, ws).Some?
    ensures n < |ws| && EntriesError(x, ws[..n]).None? && EntryRefusal(x, ws[..n], ws[n], EntriesError(x, ws).value)
  {
    var rest := ws[..|ws| - 1];
    if EntriesError(x, rest).Some? {
      n := EntriesRefused(x, rest);
      assert rest[..n] == ws[..n];
    } else {
      n := |ws| - 1;
    }
  }

  // ---- Loading ----

  /** The text is the canonical one of a valid document. */
  ghost predicate Canonical(x: Primitives, bytes: string, d: Document) {
    x.parse(bytes) == Some(d) && Encode(d) == bytes && DocumentError(x, d).None? && bytes != "" && |bytes| <= 16384
  }

  predicate Names(digest: Option<string>, other: string) { digest.Some? && digest.value == other }

  ghost predicate LoadRefusal(x: Primitives, bytes: string, p: Protected, e: Error) {
    match e
    case InvalidProtectedState => !ValidProtected(p)
    case EmptyDocument => bytes == ""
    case DocumentTooLarge => |bytes| > 16384
    case TrustRollback => exists d :: Canonical(x, bytes, d) && d.generation < p.generation
    case TrustSubstitution => exists d :: Canonical(x, bytes, d) && 0 < d.generation == p.generation && !Names(p.digest, x.digest(bytes))
    case UnexplainedTrustAdvance => exists d :: Canonical(x, bytes, d) && d.generation > p.generation + 1
    case BrokenTrustPredecessor =>
      exists d :: Canonical(x, bytes, d) && d.generation == p.generation + 1
        && (if p.generation == 0 then !Names(d.previous, x.digest(Encode(Document(1, 0, None, [])))) else d.previous != p.digest)
    case _ =>
      || x.parse(bytes).None?
      || (Encode(x.parse(bytes).value) != bytes && e == InvalidTrustRegistry)
      || (Encode(x.parse(bytes).value) == bytes && DocumentError(x, x.parse(bytes).value) == Some(e))
  }

  lemma LoadRefused(x: Primitives, bytes: string, p: Protected)
    ensures Load(x, bytes, p).LoadRefused? ==> LoadRefusal(x, bytes, p, Load(x, bytes, p).error)
    ensures Load(x, bytes, p).Active? ==>
              var r := Load(x, bytes, p).registry;
              && Canonical(x, bytes, r.document) && r.bytes == bytes && r.document.generation == p.generation
              && (p.generation > 0 ==> Names(p.digest, x.digest(bytes)))
    ensures Load(x, bytes, p).ProtectionCommitRequired? ==>
              exists d :: Canonical(x, bytes, d) && d.generation == p.generation + 1
                && Load(x, bytes, p).next == Protected(1, d.generation, Some(x.digest(bytes)))
  {
    hide Encode, EntriesError, IsHex32;
    if ValidProtected(p) && bytes != "" && |bytes| <= 16384 && x.parse(bytes).Some? {
      var d := x.parse(bytes).value;
      if EntriesError(x, d.workstations).Some? { var n := EntriesRefused(x, d.workstations); }
      if Encode(d) == bytes && DocumentError(x, d).None? { assert Canonical(x, bytes, d); }
    }
  }

  // ---- Ceremonies ----

  predicate PrepareRefusal(x: Primitives, r: Registry, t: Transition, e: Error) {
    match e
    case InvalidWorkstationKey => t.Pair? && !x.isKey(t.key)
    case WorkstationAlreadyTrusted => t.Pair? && WorkstationId(x, t.key) in r.keys
    case TooManyWorkstations => t.Pair? && |r.keys| >= 32
    case UnknownWorkstation => t.Revoke? && t.id !in r.keys
    case GenerationExhausted => r.document.generation == 0xFFFF_FFFF_FFFF_FFFF
    case _ => false
  }

  /** After any lawful transitions, a ceremony is refused for what it says. */
  lemma PrepareRefused(x: Primitives, log: seq<Transition>, t: Transition)
    requires Lawful(x, log) && DocumentError(x, Chain(x, log)).None?
    ensures var r := RegistryFor(x, log);
            Prepare(x, r, t).PrepareRefused? ==> PrepareRefusal(x, r, t, Prepare(x, r, t).error)
  {
    hide Lawful, Trusted, Chain, Represents, Encode, DocumentError, WorkstationId, SortById, Without;
    PrepareIff(x, log, t);
    LawfulMore(x, log, t);
    ChainCommitted(x, log);
    CommittedIsValid(x, log, Chain(x, log));
  }
}
