/** The local leaderboard: sorting and truncating at every step against the whole history sorted once. */
module Leaderboard {
  import Alphabets
  import opened Numbers
  import opened Options

  const MAX_ENTRIES := 20
  const MAX_SCORE := 999_999_999
  const MAX_COUNT := 1_000_000

  datatype InputMode = Camera | Replay | Simulator

  datatype Player = Unassigned | LocalProfile(profileId: string, name: string)

  datatype Entry = Entry(score: nat, endedAt: nat, player: Player, input: InputMode, pauses: nat, dropouts: nat)

  // ---- Sorting ----

  /** Higher scores first, then later runs. */
  predicate Before(a: Entry, b: Entry) { a.score > b.score || (a.score == b.score && a.endedAt > b.endedAt) }

  predicate Tied(a: Entry, b: Entry) { a.score == b.score && a.endedAt == b.endedAt }

  predicate Sorted(s: seq<Entry>) { forall i, j :: 0 <= i < j < |s| ==> !Before(s[j], s[i]) }

  /** The entries tied with one, in order. */
  function TiedWith(s: seq<Entry>, e: Entry): seq<Entry> {
    if s == [] then [] else (if Tied(s[0], e) then [s[0]] else []) + TiedWith(s[1..], e)
  }

  /** The result of a stable sort: sorted, with every group of ties as it was. */
  ghost predicate IsStableSort(s: seq<Entry>, t: seq<Entry>) {
    Sorted(t) && forall e :: TiedWith(t, e) == TiedWith(s, e)
  }

  function Insert(e: Entry, s: seq<Entry>): seq<Entry> {
    if s != [] && Before(s[0], e) then [s[0]] + Insert(e, s[1..]) else [e] + s
  }

  function Sort(s: seq<Entry>): seq<Entry> {
    if s == [] then [] else Insert(s[0], Sort(s[1..]))
  }

  function Take(s: seq<Entry>): seq<Entry> { if |s| <= MAX_ENTRIES then s else s[..MAX_ENTRIES] }

  function SortAndBound(s: seq<Entry>): seq<Entry> { Take(Sort(s)) }

  lemma {:induction false} InsertStable(e: Entry, s: seq<Entry>, f: Entry)
    requires Sorted(s)
    ensures Sorted(Insert(e, s)) && TiedWith(Insert(e, s), f) == TiedWith([e] + s, f)
    ensures forall g :: g in Insert(e, s) ==> g == e || g in s
  {
    assert ([e] + s)[1..] == s;
    if s != [] && Before(s[0], e) {
      var rest := s[1..];
      assert Sorted(rest) by {
        assert forall i :: 0 <= i < |rest| ==> rest[i] == s[i + 1];
      }
      InsertStable(e, rest, f);
      var t := Insert(e, s);
      assert t[1..] == Insert(e, rest);
      assert ([e] + rest)[1..] == rest;
      forall i, j | 0 <= i < j < |t| ensures !Before(t[j], t[i]) {
        if i == 0 {
          assert t[j] == Insert(e, rest)[j - 1] && t[j] in Insert(e, rest);
        } else {
          assert t[i] == Insert(e, rest)[i - 1] && t[j] == Insert(e, rest)[j - 1];
        }
      }
    } else {
      var t := Insert(e, s);
      forall i, j | 0 <= i < j < |t| ensures !Before(t[j], t[i]) {
        if i == 0 { assert t[j] == s[j - 1]; } else { assert t[i] == s[i - 1] && t[j] == s[j - 1]; }
      }
    }
  }

  lemma {:induction false} SortTies(s: seq<Entry>, f: Entry)
    ensures Sorted(Sort(s)) && TiedWith(Sort(s), f) == TiedWith(s, f)
  {
    if s != [] {
      SortTies(s[1..], f);
      InsertStable(s[0], Sort(s[1..]), f);
      assert ([s[0]] + Sort(s[1..]))[1..] == Sort(s[1..]);
    }
  }

  /** The sort is stable, and it is the only stable sort there is. */
  lemma SortIsTheStableSort(s: seq<Entry>, t: seq<Entry>)
    ensures IsStableSort(s, t) <==> t == Sort(s)
  {
    SortTies(s, Entry(0, 0, Unassigned, Camera, 0, 0));
    forall e ensures TiedWith(Sort(s), e) == TiedWith(s, e) {
      SortTies(s, e);
    }
    if IsStableSort(s, t) {
      forall e ensures TiedWith(t, e) == TiedWith(Sort(s), e) {
      }
      StableSortsAgree(t, Sort(s));
    }
  }

  lemma {:induction false} TiedAmong(s: seq<Entry>, e: Entry, f: Entry)
    ensures f in TiedWith(s, e) <==> f in s && Tied(f, e)
  {
    if s != [] { TiedAmong(s[1..], e, f); }
  }

  lemma {:induction false} StableSortsAgree(t: seq<Entry>, u: seq<Entry>)
    requires Sorted(t) && Sorted(u) && forall e :: TiedWith(t, e) == TiedWith(u, e)
    ensures t == u
  {
    if t != [] && u != [] {
      HeadsTie(t, u);
      assert TiedWith(t, t[0])[0] == t[0] && TiedWith(u, t[0])[0] == u[0];
      assert t[0] == u[0];
      forall e ensures TiedWith(t[1..], e) == TiedWith(u[1..], e) {
        assert TiedWith(t, e) == TiedWith(u, e);
        var head := if Tied(t[0], e) then [t[0]] else [];
        assert TiedWith(t, e) == head + TiedWith(t[1..], e) && TiedWith(u, e) == head + TiedWith(u[1..], e);
        assert TiedWith(t[1..], e) == TiedWith(t, e)[|head|..];
      }
      StableSortsAgree(t[1..], u[1..]);
      assert t == [t[0]] + t[1..] && u == [u[0]] + u[1..];
    } else if t != [] {
      InOther(t, u);
    } else if u != [] {
      InOther(u, t);
    }
  }

  /** Two sorted lists with the same groups of ties start in the same group. */
  lemma HeadsTie(t: seq<Entry>, u: seq<Entry>)
    requires Sorted(t) && Sorted(u) && t != [] && u != [] && forall e :: TiedWith(t, e) == TiedWith(u, e)
    ensures Tied(t[0], u[0])
  {
    InOther(t, u);
    InOther(u, t);
  }

  lemma InOther(t: seq<Entry>, u: seq<Entry>)
    requires t != [] && forall e :: TiedWith(t, e) == TiedWith(u, e)
    ensures t[0] in u
  {
    TiedAmong(t, t[0], t[0]);
    assert TiedWith(t, t[0]) == TiedWith(u, t[0]);
    TiedAmong(u, t[0], t[0]);
  }

  // ---- Truncating early loses nothing ----

  lemma {:induction false} InsertTaken(e: Entry, s: seq<Entry>, n: nat)
    requires n <= |s|
    ensures n <= |Insert(e, s[..n])| && n <= |Insert(e, s)| && Insert(e, s[..n])[..n] == Insert(e, s)[..n]
    ensures |Insert(e, s)| == |s| + 1
  {
    if n > 0 && Before(s[0], e) {
      assert s[..n][1..] == s[1..][..n - 1];
      InsertTaken(e, s[1..], n - 1);
    } else {
      InsertLength(e, s);
      InsertLength(e, s[..n]);
    }
  }

  lemma {:induction false} InsertLength(e: Entry, s: seq<Entry>)
    ensures |Insert(e, s)| == |s| + 1
  {
    if s != [] && Before(s[0], e) { InsertLength(e, s[1..]); }
  }

  lemma {:induction false} SortOfSorted(s: seq<Entry>)
    requires Sorted(s)
    ensures Sort(s) == s
  {
    if s != [] {
      SortOfSorted(s[1..]);
      if |s| > 1 { assert !Before(s[1], s[0]); }
      assert s == [s[0]] + s[1..];
    }
  }

  lemma SortIsSorted(s: seq<Entry>)
    ensures Sorted(Sort(s)) && Sorted(SortAndBound(s))
  {
    SortTies(s, Entry(0, 0, Unassigned, Camera, 0, 0));
  }

  /** Adding to the truncated list is adding to the whole history and truncating once. */
  lemma RecordLosesNothing(e: Entry, history: seq<Entry>)
    ensures SortAndBound([e] + SortAndBound(history)) == SortAndBound([e] + history)
  {
    var kept := SortAndBound(history);
    assert ([e] + kept)[1..] == kept && ([e] + history)[1..] == history;
    SortIsSorted(history);
    SortOfSorted(kept);
    if |Sort(history)| > MAX_ENTRIES { InsertTaken(e, Sort(history), MAX_ENTRIES); }
  }

  /** Sorting and truncating what was already sorted and truncated changes nothing. */
  lemma BoundedIsFixed(s: seq<Entry>)
    ensures SortAndBound(SortAndBound(s)) == SortAndBound(s) && |SortAndBound(s)| <= MAX_ENTRIES
  {
    SortIsSorted(s);
    SortOfSorted(SortAndBound(s));
  }

  lemma {:induction false} InsertHolds(e: Entry, s: seq<Entry>)
    ensures multiset(Insert(e, s)) == multiset(s) + multiset{e}
  {
    if s != [] && Before(s[0], e) {
      InsertHolds(e, s[1..]);
      assert s == [s[0]] + s[1..];
    }
  }

  lemma {:induction false} SortHolds(s: seq<Entry>)
    ensures multiset(Sort(s)) == multiset(s)
  {
    if s != [] {
      SortHolds(s[1..]);
      InsertHolds(s[0], Sort(s[1..]));
      assert s == [s[0]] + s[1..];
    }
  }

  /** A higher score, or as high a score and no earlier end. */
  predicate AtLeast(a: Entry, b: Entry) { a.score > b.score || (a.score == b.score && a.endedAt >= b.endedAt) }

  /** Of any history the twenty best runs are kept, best first, and whatever is dropped is no better than any of them. */
  lemma KeptAreBest(history: seq<Entry>) returns (dropped: seq<Entry>)
    ensures multiset(SortAndBound(history)) + multiset(dropped) == multiset(history)
    ensures |SortAndBound(history)| == if |history| < 20 then |history| else 20
    ensures forall i, j :: 0 <= i < j < |SortAndBound(history)| ==> AtLeast(SortAndBound(history)[i], SortAndBound(history)[j])
    ensures forall e, d :: e in SortAndBound(history) && d in dropped ==> AtLeast(e, d)
  {
    var sorted := Sort(history);
    SortHolds(history);
    SortIsSorted(history);
    assert |sorted| == |multiset(sorted)| == |multiset(history)| == |history|;
    dropped := if |sorted| <= 20 then [] else sorted[20..];
    assert sorted == SortAndBound(history) + dropped;
    forall i, j | 0 <= i < j < |sorted| ensures AtLeast(sorted[i], sorted[j]) {
      assert !Before(sorted[j], sorted[i]);
    }
  }

  // ---- Unassigning a profile ----

  predicate BelongsTo(e: Entry, profile: string) { e.player.LocalProfile? && e.player.profileId == profile }

  function Freed(e: Entry, profile: string): Entry { if BelongsTo(e, profile) then e.(player := Unassigned) else e }

  function Unassign(s: seq<Entry>, profile: string): (t: seq<Entry>)
    ensures |t| == |s| && forall i :: 0 <= i < |s| ==> t[i] == Freed(s[i], profile)
  {
    if s == [] then [] else [Freed(s[0], profile)] + Unassign(s[1..], profile)
  }

  /** Exactly the entries of that profile lose their player, and nothing else. */
  lemma UnassignMeans(s: seq<Entry>, profile: string, i: nat)
    requires i < |s|
    ensures var e, f := s[i], Unassign(s, profile)[i];
            && f == e.(player := f.player)
            && f.player == if e.player.LocalProfile? && e.player.profileId == profile then Unassigned else e.player
  {
  }

  lemma {:induction false} UnassignInserted(e: Entry, s: seq<Entry>, profile: string)
    ensures Unassign(Insert(e, s), profile) == Insert(Freed(e, profile), Unassign(s, profile))
  {
    if s != [] && Before(s[0], e) {
      UnassignInserted(e, s[1..], profile);
      assert Insert(e, s)[1..] == Insert(e, s[1..]);
      assert Unassign(s, profile)[1..] == Unassign(s[1..], profile);
    } else {
      assert ([e] + s)[1..] == s;
    }
  }

  lemma {:induction false} UnassignSorted(s: seq<Entry>, profile: string)
    ensures Unassign(Sort(s), profile) == Sort(Unassign(s, profile))
  {
    if s != [] {
      UnassignSorted(s[1..], profile);
      UnassignInserted(s[0], Sort(s[1..]), profile);
    }
  }

  /** Unassigning in the truncated list is unassigning in the whole history. */
  lemma UnassignCommutes(history: seq<Entry>, profile: string)
    ensures Unassign(SortAndBound(history), profile) == SortAndBound(Unassign(history, profile))
  {
    UnassignSorted(history, profile);
    assert |Sort(history)| > MAX_ENTRIES ==>
        Unassign(Sort(history)[..MAX_ENTRIES], profile) == Unassign(Sort(history), profile)[..MAX_ENTRIES];
  }

  // ---- Any sequence of operations ----

  datatype Operation = Recording(entry: Entry) | Unassigning(profile: string) | Resetting

  /** The list as the operations keep it, from a first loaded list. */
  function Kept(loaded: seq<Entry>, run: seq<Operation>): seq<Entry> {
    if run == [] then SortAndBound(loaded) else
    var before := Kept(loaded, run[..|run| - 1]);
    match run[|run| - 1]
    case Recording(e) => SortAndBound([e] + before)
    case Unassigning(profile) => Unassign(before, profile)
    case Resetting => []
  }

  /** Everything ever recorded, newest first, with the same unassignments; a reset forgets it. */
  function History(loaded: seq<Entry>, run: seq<Operation>): seq<Entry> {
    if run == [] then loaded else
    var before := History(loaded, run[..|run| - 1]);
    match run[|run| - 1]
    case Recording(e) => [e] + before
    case Unassigning(profile) => Unassign(before, profile)
    case Resetting => []
  }

  /** The kept list is always the first twenty of the stable sort of the whole history. */
  lemma {:induction false} KeptIsTopOfHistory(loaded: seq<Entry>, run: seq<Operation>)
    ensures Kept(loaded, run) == SortAndBound(History(loaded, run))
    ensures exists t :: IsStableSort(History(loaded, run), t) && Kept(loaded, run) == Take(t)
  {
    var history := History(loaded, run);
    if run != [] {
      var front := run[..|run| - 1];
      KeptIsTopOfHistory(loaded, front);
      match run[|run| - 1]
      case Recording(e) => RecordLosesNothing(e, History(loaded, front));
      case Unassigning(profile) => UnassignCommutes(History(loaded, front), profile);
      case Resetting =>
    }
    SortIsTheStableSort(history, Sort(history));
  }

  // ---- Validation ----

  /** A JavaScript number: a safe integer, or anything else. */
  datatype Number = Integer(value: int) | Other

  datatype Result = Result(score: Number, endedAt: Option<Number>, player: Option<Player>, input: Option<InputMode>,
                           pauses: Number, dropouts: Number)

  predicate Bounded(n: Number, maximum: nat) { n.Integer? && 0 <= n.value <= maximum }

  predicate IsProfileId(s: string) {
    1 <= |s| <= 64 && forall i :: 0 <= i < |s| ==>
      'a' <= s[i] <= 'z' || 'A' <= s[i] <= 'Z' || '0' <= s[i] <= '9' || s[i] == '_' || s[i] == '-'
  }

  predicate ValidPlayer(p: Player) { p.Unassigned? || (IsProfileId(p.profileId) && 1 <= |p.name| <= 32) }

  predicate ValidEntry(e: Entry) {
    e.score <= MAX_SCORE && e.endedAt <= MAX_SAFE_INTEGER && e.pauses <= MAX_COUNT && e.dropouts <= MAX_COUNT && ValidPlayer(e.player)
  }

  predicate AllValid(s: seq<Entry>) { forall i :: 0 <= i < |s| ==> ValidEntry(s[i]) }

  function EndedAt(r: Result, now: Number): Number { if r.endedAt.Some? then r.endedAt.value else now }

  function PlayerOf(r: Result): Player { if r.player.Some? then r.player.value else Unassigned }

  predicate ValidResult(r: Result, now: Number) {
    && Bounded(r.score, MAX_SCORE) && Bounded(EndedAt(r, now), MAX_SAFE_INTEGER) && ValidPlayer(PlayerOf(r))
    && r.input.Some? && Bounded(r.pauses, MAX_COUNT) && Bounded(r.dropouts, MAX_COUNT)
  }

  function EntryOf(r: Result, now: Number): (e: Entry)
    requires ValidResult(r, now)
    ensures ValidEntry(e)
  {
    Entry(r.score.value, EndedAt(r, now).value, PlayerOf(r), r.input.value, r.pauses.value, r.dropouts.value)
  }

  predicate IntegerUpTo(n: Number, maximum: int) { n.Integer? && 0 <= n.value <= maximum }

  predicate ProfileCharacter(c: char) { c in Alphabets.UPPER || c in Alphabets.LOWER || c in Alphabets.DIGITS || c == '_' || c == '-' }

  /** Exactly which results are recorded. */
  lemma ValidResultIff(r: Result, now: Number)
    ensures ValidResult(r, now) <==>
              && r.input.Some? && IntegerUpTo(r.score, 999_999_999)
              && IntegerUpTo(r.pauses, 1_000_000) && IntegerUpTo(r.dropouts, 1_000_000)
              && IntegerUpTo(if r.endedAt.Some? then r.endedAt.value else now, 9_007_199_254_740_991)
              && (r.player.Some? && r.player.value.LocalProfile? ==>
                    && 1 <= |r.player.value.name| <= 32 && 1 <= |r.player.value.profileId| <= 64
                    && forall c :: c in r.player.value.profileId ==> ProfileCharacter(c))
  {
    if r.player.Some? && r.player.value.LocalProfile? { ProfileIdIff(r.player.value.profileId); }
  }

  lemma ProfileIdIff(s: string)
    ensures IsProfileId(s) <==> 1 <= |s| <= 64 && forall c :: c in s ==> ProfileCharacter(c)
  {
    forall i | 0 <= i < |s|
      ensures ProfileCharacter(s[i]) <==>
                'a' <= s[i] <= 'z' || 'A' <= s[i] <= 'Z' || '0' <= s[i] <= '9' || s[i] == '_' || s[i] == '-'
    {
      Alphabets.UpperIs(s[i]);
      Alphabets.LowerIs(s[i]);
      Alphabets.DigitIs(s[i]);
    }
    hide ProfileCharacter;
  }

  lemma {:induction false} InsertMembers(e: Entry, s: seq<Entry>, f: Entry)
    ensures f in Insert(e, s) <==> f == e || f in s
  {
    if s != [] && Before(s[0], e) { InsertMembers(e, s[1..], f); }
  }

  lemma {:induction false} SortMembers(s: seq<Entry>, f: Entry)
    ensures f in Sort(s) <==> f in s
  {
    if s != [] {
      SortMembers(s[1..], f);
      InsertMembers(s[0], Sort(s[1..]), f);
    }
  }

  lemma SortAndBoundValid(s: seq<Entry>)
    requires AllValid(s)
    ensures AllValid(SortAndBound(s))
  {
    forall i | 0 <= i < |SortAndBound(s)| ensures ValidEntry(SortAndBound(s)[i]) {
      assert SortAndBound(s)[i] == Sort(s)[i];
      SortMembers(s, Sort(s)[i]);
    }
  }

  // ---- Storage and the object ----

  /** What the storage key holds: nothing, text that is no stored document, or a document of any length. */
  datatype Item = Absent | Malformed | Document(entries: seq<Entry>)

  predicate IsStoredDocument(item: Item) { item.Document? && |item.entries| <= MAX_ENTRIES && AllValid(item.entries) }

  /** The browser's storage, any call of which may throw. */
  class Storage {
    var item: Item
    /** How many calls have thrown. */
    ghost var faults: nat
    /** How many of them were reads. */
    ghost var unread: nat

    constructor (item: Item)
      ensures this.item == item && faults == 0 && unread == 0
    {
      this.item, faults, unread := item, 0, 0;
    }

    method GetItem() returns (read: Option<Item>)
      modifies this`faults, this`unread
      ensures faults == old(faults) + (if read.Some? then 0 else 1) && unread == old(unread) + if read.Some? then 0 else 1
      ensures read.Some? ==> read.value == item
    {
      var available: bool := *;
      if !available {
        faults, unread := faults + 1, unread + 1;
      }
      read := if available then Some(item) else None;
    }

    method SetItem(document: Item) returns (ok: bool)
      modifies this`item, this`faults
      ensures item == (if ok then document else old(item)) && faults == old(faults) + if ok then 0 else 1
    {
      ok := *;
      if ok {
        item := document;
      } else {
        faults := faults + 1;
      }
    }

    method RemoveItem() returns (ok: bool)
      modifies this`item, this`faults
      ensures item == (if ok then Absent else old(item)) && faults == old(faults) + if ok then 0 else 1
    {
      ok := *;
      if ok {
        item := Absent;
      } else {
        faults := faults + 1;
      }
    }
  }

  /** The positions among the first `n` that belong to the profile. */
  function Owned(entries: seq<Entry>, profile: string, n: nat): set<nat>
    requires n <= |entries|
  {
    set k: nat | k < n && BelongsTo(entries[k], profile)
  }

  lemma OwnedNone(entries: seq<Entry>, profile: string)
    ensures Owned(entries, profile, 0) == {}
  {
  }

  lemma OwnedNext(entries: seq<Entry>, profile: string, n: nat)
    requires n < |entries|
    ensures |Owned(entries, profile, n + 1)| == |Owned(entries, profile, n)| + if BelongsTo(entries[n], profile) then 1 else 0
  {
    assert Owned(entries, profile, n + 1) == Owned(entries, profile, n) + if BelongsTo(entries[n], profile) then {n} else {};
  }

  class LocalObstacleLeaderboard {
    const storage: Storage
    var entries: seq<Entry>
    var recoveredMalformedData: bool
    var persistenceAvailable: bool
    /** Everything recorded since loading, newest first, before what was loaded. */
    ghost var history: seq<Entry>

    ghost predicate Valid()
      reads this, storage
    {
      && entries == SortAndBound(history) && AllValid(entries)
      && (persistenceAvailable ==> Reloads(storage.item, entries))
    }

    /** Loads what the storage holds, forgetting it if it is not a stored document. */
    constructor (storage: Storage)
      modifies storage
      ensures Valid() && fresh(this) && this.storage == storage
      ensures old(storage.faults) <= storage.faults && (persistenceAvailable <==> storage.faults == old(storage.faults))
      ensures history == (if storage.unread == old(storage.unread) && IsStoredDocument(old(storage.item)) then old(storage.item).entries else [])
      ensures recoveredMalformedData
              == (storage.unread == old(storage.unread) && old(storage.item) != Absent && !IsStoredDocument(old(storage.item)))
      ensures storage.item == if recoveredMalformedData && persistenceAvailable then Absent else old(storage.item)
    {
      this.storage := storage;
      entries, recoveredMalformedData, persistenceAvailable, history := [], false, true, [];
      new;
      var raw := storage.GetItem();
      if raw.None? {
        persistenceAvailable := false;
        return;
      }
      if raw.value.Absent? {
        return;
      }
      if IsStoredDocument(raw.value) {
        history := raw.value.entries;
        entries := SortAndBound(raw.value.entries);
        SortAndBoundValid(raw.value.entries);
        return;
      }
      recoveredMalformedData := true;
      var ok := storage.RemoveItem();
      if !ok {
        persistenceAvailable := false;
      }
    }

    /** Adds a result; the list is again the top of the longer history, and the storage holds it while it works. */
    method Record(r: Result, now: Number) returns (recorded: Option<Entry>)
      requires Valid()
      modifies this, storage
      ensures Valid() && (recorded.Some? <==> ValidResult(r, now))
      ensures recorded.None? ==> entries == old(entries) && history == old(history) && storage.item == old(storage.item)
      ensures recorded.Some? ==> recorded.value == EntryOf(r, now) && history == [recorded.value] + old(history)
      ensures recorded.None? ==> unchanged(this) && unchanged(storage)
      ensures recorded.Some? ==> Persisted(old(persistenceAvailable), old(storage.faults), old(storage.item))
      ensures recoveredMalformedData == old(recoveredMalformedData)
    {
      if !ValidResult(r, now) {
        return None;
      }
      var entry := EntryOf(r, now);
      RecordLosesNothing(entry, history);
      var all := [entry] + entries;
      assert AllValid(all);
      SortAndBoundValid(all);
      entries := SortAndBound(all);
      history := [entry] + history;
      Persist();
      recorded := Some(entry);
    }

    /** The storage was told, and is given up only for a call that threw. */
    ghost predicate Persisted(available: bool, faults: nat, item: Item)
      reads this, storage
    {
      && faults <= storage.faults && (persistenceAvailable <==> available && storage.faults == faults)
      && storage.item == if storage.faults == faults then Document(entries) else item
    }

    method Persist()
      requires entries == SortAndBound(history) && AllValid(entries)
      modifies this`persistenceAvailable, storage
      ensures Valid() && Persisted(old(persistenceAvailable), old(storage.faults), old(storage.item))
    {
      BoundedIsFixed(history);
      var ok := storage.SetItem(Document(entries));
      if !ok {
        persistenceAvailable := false;
      }
    }

    /** Takes a profile off its entries, in the list as in the history; an empty profile identifier is refused. */
    method UnassignProfile(profile: string) returns (changed: Option<nat>)
      requires Valid()
      modifies this, storage
      ensures Valid() && (changed.None? <==> profile == "")
      ensures profile == "" ==> entries == old(entries) && history == old(history)
      ensures profile != "" ==> history == Unassign(old(history), profile) && entries == Unassign(old(entries), profile)
      ensures changed.Some? ==> changed.value == |Owned(old(entries), profile, |old(entries)|)|
      ensures changed.None? || changed == Some(0) ==> unchanged(storage) && persistenceAvailable == old(persistenceAvailable)
      ensures changed.Some? && changed.value > 0 ==> Persisted(old(persistenceAvailable), old(storage.faults), old(storage.item))
      ensures recoveredMalformedData == old(recoveredMalformedData)
    {
      hide Owned;
      if profile == "" {
        return None;
      }
      var count := 0;
      var i := 0;
      OwnedNone(entries, profile);
      var freed := [];
      while i < |entries|
        invariant 0 <= i <= |entries| == |old(entries)| && entries == old(entries)
        invariant history == old(history) && unchanged(storage) && persistenceAvailable == old(persistenceAvailable)
        invariant recoveredMalformedData == old(recoveredMalformedData)
        invariant |freed| == i && forall k :: 0 <= k < i ==> freed[k] == Freed(entries[k], profile)
        invariant count == 0 ==> freed == entries[..i]
        invariant count == |Owned(entries, profile, i)|
      {
        OwnedNext(entries, profile, i);
        if BelongsTo(entries[i], profile) {
          count := count + 1;
        }
        freed := freed + [Freed(entries[i], profile)];
        i := i + 1;
      }
      UnassignCommutes(history, profile);
      assert freed == Unassign(entries, profile);
      assert count == 0 ==> freed == entries;
      assert AllValid(freed);
      entries := freed;
      history := Unassign(history, profile);
      if count > 0 {
        Persist();
      }
      changed := Some(count);
    }

    method Reset()
      requires Valid()
      modifies this, storage
      ensures entries == [] && history == [] && !recoveredMalformedData && Valid()
      ensures old(storage.faults) <= storage.faults
      ensures persistenceAvailable <==> old(persistenceAvailable) && storage.faults == old(storage.faults)
      ensures storage.item == if storage.faults == old(storage.faults) then Absent else old(storage.item)
    {
      entries, history := [], [];
      recoveredMalformedData := false;
      var ok := storage.RemoveItem();
      if !ok {
        persistenceAvailable := false;
      }
    }
  }

  /** Loading this item again gives these entries. */
  predicate Reloads(item: Item, entries: seq<Entry>) {
    match item
    case Absent => entries == []
    case Malformed => false
    case Document(stored) => IsStoredDocument(item) && SortAndBound(stored) == entries
  }

  /** While the storage worked, reloading what was persisted changes nothing. */
  method Reload(board: LocalObstacleLeaderboard) returns (again: LocalObstacleLeaderboard)
    requires board.Valid() && board.persistenceAvailable
    modifies board.storage
    ensures board.storage.faults == old(board.storage.faults) ==> again.persistenceAvailable
    ensures again.persistenceAvailable ==> again.entries == board.entries && !again.recoveredMalformedData
  {
    again := new LocalObstacleLeaderboard(board.storage);
  }
}
