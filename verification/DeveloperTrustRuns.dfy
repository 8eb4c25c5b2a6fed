/** The trust registry over every run of pairing and revocation ceremonies, with crashes and substituted files. */
module DeveloperTrustRuns {
  import opened Options
  import opened CanonicalJson
  import opened DeveloperTrust
  import Lexicographic

  // ---- Which entry lists are accepted ----

  predicate GoodEntry(x: Primitives, w: Workstation) {
    IsHex32(w.publicKey) && x.isKey(w.publicKey) && w.id == WorkstationId(x, w.publicKey)
  }

  predicate StrictlySorted(ws: seq<Workstation>) {
    forall i, j :: 0 <= i < j < |ws| ==> IdBefore(ws[i].id, ws[j].id)
  }

  predicate GoodEntries(x: Primitives, ws: seq<Workstation>) { forall i :: 0 <= i < |ws| ==> GoodEntry(x, ws[i]) }

  lemma IdTransitive(a: string, b: string, c: string)
    requires IdBefore(a, b) && IdBefore(b, c)
    ensures IdBefore(a, c)
  {
    Lexicographic.Transitive(Lexicographic.Codes(a), Lexicographic.Codes(b), Lexicographic.Codes(c));
  }

  lemma IdIrreflexive(a: string)
    ensures !IdBefore(a, a)
  {
    Lexicographic.Irreflexive(Lexicographic.Codes(a));
  }

  lemma IdTrichotomy(a: string, b: string)
    ensures IdBefore(a, b) || a == b || IdBefore(b, a)
  {
    Lexicographic.Trichotomy(Lexicographic.Codes(a), Lexicographic.Codes(b));
    if Lexicographic.Codes(a) == Lexicographic.Codes(b) { Lexicographic.CodesInjective(a, b); }
  }

  lemma SortedMore(ws: seq<Workstation>, w: Workstation)
    requires StrictlySorted(ws)
    ensures StrictlySorted(ws + [w]) <==> ws == [] || IdBefore(ws[|ws| - 1].id, w.id)
  {
    var more := ws + [w];
    if ws != [] && IdBefore(ws[|ws| - 1].id, w.id) {
      forall i, j | 0 <= i < j < |more| ensures IdBefore(more[i].id, more[j].id) {
        if j == |ws| && i < |ws| - 1 { IdTransitive(ws[i].id, ws[|ws| - 1].id, w.id); }
      }
    }
    assert StrictlySorted(more) && ws != [] ==> IdBefore(more[|ws| - 1].id, more[|ws|].id);
  }

  /** Sorted good entries never repeat a key, so that check of the source never fires. */
  lemma NoRepeatedKey(x: Primitives, ws: seq<Workstation>, w: Workstation)
    requires GoodEntries(x, ws) && GoodEntry(x, w) && StrictlySorted(ws + [w])
    ensures forall v :: v in ws ==> v.publicKey != w.publicKey
  {
    forall v | v in ws ensures v.publicKey != w.publicKey {
      var i :| 0 <= i < |ws| && ws[i] == v;
      assert GoodEntry(x, ws[i]);
      assert IdBefore((ws + [w])[i].id, (ws + [w])[|ws|].id);
      IdIrreflexive(w.id);
    }
  }

  lemma EntryAcceptedIff(x: Primitives, rest: seq<Workstation>, w: Workstation)
    requires StrictlySorted(rest) && GoodEntries(x, rest)
    ensures EntryError(x, rest, w).None? <==> StrictlySorted(rest + [w]) && GoodEntry(x, w)
  {
    SortedMore(rest, w);
    hide GoodEntries, StrictlySorted, WorkstationId, IdBefore;
    if StrictlySorted(rest + [w]) && GoodEntry(x, w) { NoRepeatedKey(x, rest, w); }
  }

  /** Entries are accepted exactly when they are strictly sorted and each derives its identity from a valid key. */
  lemma {:induction false} EntriesAcceptedIff(x: Primitives, ws: seq<Workstation>)
    ensures EntriesError(x, ws).None? <==> StrictlySorted(ws) && GoodEntries(x, ws)
  {
    if ws != [] {
      hide GoodEntries, StrictlySorted, EntryError;
      var rest, w := ws[..|ws| - 1], ws[|ws| - 1];
      assert ws == rest + [w];
      EntriesAcceptedIff(x, rest);
      if StrictlySorted(rest) && GoodEntries(x, rest) { EntryAcceptedIff(x, rest, w); }
    }
  }

  predicate HasId(ws: seq<Workstation>, id: string) { exists w :: w in ws && w.id == id }

  lemma {:induction false} KeyMapIds(ws: seq<Workstation>)
    requires AllKeys(ws) && StrictlySorted(ws)
    ensures forall id :: id in KeyMap(ws) <==> HasId(ws, id)
    ensures |KeyMap(ws)| == |ws|
  {
    if ws != [] {
      var rest, w := ws[..|ws| - 1], ws[|ws| - 1];
      assert ws == rest + [w];
      KeyMapIds(rest);
      NotAmong(rest, w);
      assert w.id !in KeyMap(rest);
      forall id ensures id in KeyMap(ws) <==> HasId(ws, id) {
        assert HasId(ws, id) <==> id == w.id || HasId(rest, id);
      }
    }
  }

  lemma NotAmong(ws: seq<Workstation>, w: Workstation)
    requires StrictlySorted(ws + [w])
    ensures !HasId(ws, w.id)
  {
    if HasId(ws, w.id) {
      var v :| v in ws && v.id == w.id;
      var i :| 0 <= i < |ws| && ws[i] == v;
      assert IdBefore((ws + [w])[i].id, (ws + [w])[|ws|].id);
      IdIrreflexive(w.id);
    }
  }

  // ---- Pairing inserts, revoking removes ----

  lemma {:induction false} SortOfSorted(ws: seq<Workstation>)
    requires StrictlySorted(ws)
    ensures SortById(ws) == ws
  {
    if ws != [] {
      var rest, w := ws[..|ws| - 1], ws[|ws| - 1];
      assert ws == rest + [w];
      SortOfSorted(rest);
      if rest != [] {
        assert IdBefore(ws[|ws| - 2].id, w.id);
        Lexicographic.Asymmetric(Lexicographic.Codes(rest[|rest| - 1].id), Lexicographic.Codes(w.id));
      }
    }
  }

  lemma {:induction false} InsertKeeps(ws: seq<Workstation>, w: Workstation)
    requires StrictlySorted(ws) && !HasId(ws, w.id)
    ensures StrictlySorted(Insert(ws, w)) && |Insert(ws, w)| == |ws| + 1
    ensures forall v :: v in Insert(ws, w) <==> v == w || v in ws
  {
    if ws != [] {
      var rest, last := ws[..|ws| - 1], ws[|ws| - 1];
      assert ws == rest + [last];
      IdTrichotomy(w.id, last.id);
      if IdBefore(w.id, last.id) {
        InsertKeeps(rest, w);
        EndsBefore(ws, Insert(rest, w), w);
        SortedMore(Insert(rest, w), last);
      } else {
        SortedMore(ws, w);
      }
    }
  }

  /** Everything inserted before the last entry sorts before it. */
  lemma EndsBefore(ws: seq<Workstation>, inserted: seq<Workstation>, w: Workstation)
    requires ws != [] && StrictlySorted(ws) && IdBefore(w.id, ws[|ws| - 1].id) && inserted != []
    requires forall v :: v in inserted ==> v == w || v in ws[..|ws| - 1]
    ensures IdBefore(inserted[|inserted| - 1].id, ws[|ws| - 1].id)
  {
    var v := inserted[|inserted| - 1];
    assert v in inserted;
    if v != w {
      var i :| 0 <= i < |ws| - 1 && ws[..|ws| - 1][i] == v;
      assert IdBefore(ws[i].id, ws[|ws| - 1].id);
    }
  }

  lemma {:induction false} WithoutKeeps(ws: seq<Workstation>, id: string)
    requires StrictlySorted(ws)
    ensures StrictlySorted(Without(ws, id)) && |Without(ws, id)| <= |ws|
    ensures forall v :: v in Without(ws, id) <==> v in ws && v.id != id
  {
    if ws != [] {
      var rest, last := ws[..|ws| - 1], ws[|ws| - 1];
      assert ws == rest + [last];
      WithoutKeeps(rest, id);
      var kept := Without(rest, id);
      if kept != [] {
        assert kept[|kept| - 1] in kept;
        var i :| 0 <= i < |rest| && rest[i] == kept[|kept| - 1];
        assert IdBefore(ws[i].id, ws[|ws| - 1].id);
      }
      SortedMore(kept, last);
    }
  }

  /** The key map of sorted entries holds exactly their pairs. */
  lemma {:induction false} KeyMapPairs(ws: seq<Workstation>)
    requires AllKeys(ws) && StrictlySorted(ws)
    ensures forall id, key :: id in KeyMap(ws) && KeyMap(ws)[id] == key <==> Workstation(id, key) in ws
    ensures |KeyMap(ws)| == |ws|
  {
    KeyMapIds(ws);
    forall id, key ensures id in KeyMap(ws) && KeyMap(ws)[id] == key <==> Workstation(id, key) in ws {
      KeyMapPair(ws, id, key);
    }
  }

  lemma {:induction false} KeyMapPair(ws: seq<Workstation>, id: string, key: string)
    requires AllKeys(ws) && StrictlySorted(ws)
    ensures id in KeyMap(ws) && KeyMap(ws)[id] == key <==> Workstation(id, key) in ws
  {
    if ws != [] {
      var rest, w := ws[..|ws| - 1], ws[|ws| - 1];
      assert ws == rest + [w];
      KeyMapPair(rest, id, key);
      NotAmong(rest, w);
      assert w == Workstation(w.id, w.publicKey);
    }
  }

  // ---- The committed history ----

  /** The trusted keys by identity, folded over the committed transitions. */
  function Trusted(x: Primitives, log: seq<Transition>): map<string, Hex32> {
    if log == [] then map[] else
    var before := Trusted(x, log[..|log| - 1]);
    match log[|log| - 1]
    case Pair(key) => before[WorkstationId(x, key) := key]
    case Revoke(id) => before - {id}
  }

  predicate Permitted(x: Primitives, trusted: map<string, Hex32>, generation: nat, t: Transition) {
    && generation < MAX_U64
    && match t
       case Pair(key) => x.isKey(key) && WorkstationId(x, key) !in trusted && |trusted| < MAX_TRUSTED_WORKSTATIONS
       case Revoke(id) => id in trusted
  }

  predicate Lawful(x: Primitives, log: seq<Transition>) {
    log == [] || (Lawful(x, log[..|log| - 1]) && Permitted(x, Trusted(x, log[..|log| - 1]), |log| - 1, log[|log| - 1]))
  }

  function Changed(x: Primitives, ws: seq<Workstation>, t: Transition): seq<Workstation> {
    match t
    case Pair(key) => SortById(ws + [Workstation(WorkstationId(x, key), key)])
    case Revoke(id) => Without(ws, id)
  }

  /** The registry after the committed transitions. */
  function Chain(x: Primitives, log: seq<Transition>): Document {
    if log == [] then EMPTY else Successor(x, Chain(x, log[..|log| - 1]), log[|log| - 1])
  }

  function Successor(x: Primitives, d: Document, t: Transition): Document {
    if d.generation == MAX_U64 then d else
    Document(TRUST_SCHEMA_VERSION, d.generation + 1, Some(Digest(x, Encode(d))), Changed(x, d.workstations, t))
  }

  function ProtectedFor(x: Primitives, log: seq<Transition>): Protected {
    if log == [] then Uninitialized() else ForRegistry(x, Chain(x, log).generation, Encode(Chain(x, log)))
  }

  ghost predicate Represents(x: Primitives, ws: seq<Workstation>, keys: map<string, Hex32>) {
    StrictlySorted(ws) && GoodEntries(x, ws) && AllKeys(ws) && KeyMap(ws) == keys
  }

  lemma SameKeyMap(x: Primitives, ws: seq<Workstation>, keys: map<string, Hex32>)
    requires StrictlySorted(ws) && GoodEntries(x, ws)
    requires forall w :: w in ws ==> w.id in keys && keys[w.id] == w.publicKey
    requires forall id :: id in keys ==> Workstation(id, keys[id]) in ws
    ensures Represents(x, ws, keys)
  {
    KeyMapPairs(ws);
    var m := KeyMap(ws);
    forall id | id in m ensures id in keys && keys[id] == m[id] {
      assert Workstation(id, m[id]) in ws;
    }
    forall id | id in keys ensures id in m {
      assert Workstation(id, keys[id]) in ws;
    }
  }

  lemma GoodAll(x: Primitives, ws: seq<Workstation>)
    ensures GoodEntries(x, ws) <==> forall w :: w in ws ==> GoodEntry(x, w)
  {
  }

  lemma PairedRepresents(x: Primitives, ws: seq<Workstation>, keys: map<string, Hex32>, key: Hex32)
    requires Represents(x, ws, keys) && x.isKey(key) && WorkstationId(x, key) !in keys
    ensures Represents(x, Changed(x, ws, Pair(key)), keys[WorkstationId(x, key) := key])
    ensures |Changed(x, ws, Pair(key))| == |ws| + 1
  {
    hide StrictlySorted, GoodEntries, KeyMap, Insert;
    var w := Workstation(WorkstationId(x, key), key);
    var changed := Insert(ws, w);
    SortOfSorted(ws);
    assert (ws + [w])[..|ws|] == ws && (ws + [w])[|ws|] == w;
    assert SortById(ws + [w]) == changed;
    KeyMapIds(ws);
    KeyMapPairs(ws);
    InsertKeeps(ws, w);
    GoodAll(x, ws);
    GoodAll(x, changed);
    SameKeyMap(x, changed, keys[w.id := key]);
  }

  lemma RevokedRepresents(x: Primitives, ws: seq<Workstation>, keys: map<string, Hex32>, id: string)
    requires Represents(x, ws, keys)
    ensures Represents(x, Changed(x, ws, Revoke(id)), keys - {id}) && |Changed(x, ws, Revoke(id))| <= |ws|
  {
    hide StrictlySorted, GoodEntries, KeyMap, Without;
    var changed := Without(ws, id);
    KeyMapPairs(ws);
    WithoutKeeps(ws, id);
    GoodAll(x, ws);
    GoodAll(x, changed);
    forall w | w in changed ensures w.id in keys - {id} && (keys - {id})[w.id] == w.publicKey {
      assert Workstation(w.id, w.publicKey) == w;
    }
    SameKeyMap(x, changed, keys - {id});
  }

  /** What a committed history makes of the registry. */
  ghost predicate Committed(x: Primitives, log: seq<Transition>, d: Document) {
    && d.schemaVersion == TRUST_SCHEMA_VERSION && d.generation == |log|
    && (log == [] ==> d == EMPTY)
    && (log != [] ==> d.previous == Some(Digest(x, Encode(Chain(x, log[..|log| - 1])))))
    && Represents(x, d.workstations, Trusted(x, log)) && |d.workstations| <= MAX_TRUSTED_WORKSTATIONS
  }

  /** The registry holds exactly the fold of the committed transitions. */
  lemma {:induction false} ChainCommitted(x: Primitives, log: seq<Transition>)
    requires Lawful(x, log)
    ensures Committed(x, log, Chain(x, log))
  {
    hide Represents;
    if log == [] {
      EmptyRepresents(x);
    } else {
      var front, t := log[..|log| - 1], log[|log| - 1];
      ChainCommitted(x, front);
      var ws := Chain(x, front).workstations;
      match t
      case Pair(key) =>
        PairedRepresents(x, ws, Trusted(x, front), key);
        CountsKeys(x, ws, Trusted(x, front));
      case Revoke(id) => RevokedRepresents(x, ws, Trusted(x, front), id);
    }
  }

  lemma EmptyRepresents(x: Primitives)
    ensures Represents(x, [], map[])
  {
  }

  lemma CountsKeys(x: Primitives, ws: seq<Workstation>, keys: map<string, Hex32>)
    requires Represents(x, ws, keys)
    ensures |keys| == |ws|
  {
    KeyMapIds(ws);
  }

  /** A committed registry is valid and always fits the size limit. */
  lemma CommittedIsValid(x: Primitives, log: seq<Transition>, d: Document)
    requires Committed(x, log, d)
    ensures DocumentError(x, d).None? && 0 < |Encode(d)| <= MAX_DEVELOPER_TRUST_BYTES
    ensures AsRegistry(x, d, Encode(d)).keys == Trusted(x, log)
  {
    hide Encode, KeyMap, Trusted, Chain;
    EntriesAcceptedIff(x, d.workstations);
    PlainEntries(x, d.workstations);
    EncodeLength(d);
  }

  lemma PlainEntries(x: Primitives, ws: seq<Workstation>)
    requires GoodEntries(x, ws)
    ensures forall i :: 0 <= i < |ws| ==> PlainEntry(ws[i])
  {
    forall i | 0 <= i < |ws| ensures PlainEntry(ws[i]) {
      assert GoodEntry(x, ws[i]);
    }
  }

  // ---- One ceremony ----

  /** The loaded form of a committed registry. */
  function RegistryFor(x: Primitives, log: seq<Transition>): Registry
    requires DocumentError(x, Chain(x, log)).None?
  {
    AsRegistry(x, Chain(x, log), Encode(Chain(x, log)))
  }

  lemma LawfulMore(x: Primitives, log: seq<Transition>, t: Transition)
    requires Lawful(x, log)
    ensures Lawful(x, log + [t]) <==> Permitted(x, Trusted(x, log), |log|, t)
    ensures Chain(x, log + [t]) == Successor(x, Chain(x, log), t) && Chain(x, log).generation == |log|
  {
    assert (log + [t])[..|log|] == log;
    ChainCommitted(x, log);
  }

  lemma NextRegistryIs(x: Primitives, log: seq<Transition>, t: Transition)
    requires Lawful(x, log) && DocumentError(x, Chain(x, log)).None?
    ensures Lawful(x, log + [t]) ==>
              NextRegistry(x, RegistryFor(x, log), Changed(x, Chain(x, log).workstations, t))
              == Pending(Encode(Chain(x, log + [t])), ProtectedFor(x, log + [t]))
  {
    hide Lawful, Trusted, Represents, Encode, DocumentError, Changed;
    LawfulMore(x, log, t);
    if Lawful(x, log + [t]) {
      ChainCommitted(x, log + [t]);
      CommittedIsValid(x, log + [t], Chain(x, log + [t]));
    }
  }

  /** A ceremony prepares exactly the permitted transitions, and prepares the next committed registry. */
  lemma PrepareIff(x: Primitives, log: seq<Transition>, t: Transition)
    requires Lawful(x, log)
    ensures DocumentError(x, Chain(x, log)).None?
    ensures Prepare(x, RegistryFor(x, log), t).Pending? <==> Lawful(x, log + [t])
    ensures Lawful(x, log + [t]) ==>
              Prepare(x, RegistryFor(x, log), t) == Pending(Encode(Chain(x, log + [t])), ProtectedFor(x, log + [t]))
  {
    hide Lawful, Trusted, Represents, Encode, DocumentError, NextRegistry, ProtectedFor;
    ChainCommitted(x, log);
    var d := Chain(x, log);
    CommittedIsValid(x, log, d);
    LawfulMore(x, log, t);
    CountsKeys(x, d.workstations, Trusted(x, log));
    NextRegistryIs(x, log, t);
    if d.generation == MAX_U64 { NothingAfterTheLast(x, RegistryFor(x, log), Changed(x, d.workstations, t)); }
  }

  lemma NothingAfterTheLast(x: Primitives, r: Registry, ws: seq<Workstation>)
    requires r.document.generation == MAX_U64
    ensures NextRegistry(x, r, ws) == PrepareRefused(GenerationExhausted)
  {
  }
}
