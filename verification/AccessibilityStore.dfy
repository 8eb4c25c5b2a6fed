/** The crash-recoverable preference store, step by step over a disk whose every operation may fail. */
module AccessibilityStore {
  import opened Collections
  import opened PreferenceDisk

  datatype StoreError = NoHeadroom | TooManyEntries | OrdinalsExhausted | Io

  datatype Status = Done | Failed(error: StoreError)

  /** Every disk state logged since `from` keeps one of the two claims, within the given scope. */
  ghost predicate Covered(history: seq<Disk>, from: nat, c: Claim, d: Claim, scope: Scope) {
    && from <= |history|
    && forall i :: from <= i < |history| ==> CoveredAt(history[i], c, d, scope)
  }

  ghost predicate CoveredAt(disk: Disk, c: Claim, d: Claim, scope: Scope) {
    InScope(disk, scope) && (Guarded(disk, c) || Guarded(disk, d))
  }

  function Committed(dir: Directory): set<Name> { set n | n in dir && n.Generation? }

  /** The directory with every generation but `o` removed. */
  ghost function WithoutOlder(dir: Directory, o: Ordinal): Directory {
    map n | n in dir && (n.Incoming? || n.ordinal == o) :: dir[n]
  }

  lemma JoinCovered(before: seq<Disk>, history: seq<Disk>, from: nat, c: Claim, d: Claim, scope: Scope)
    requires before <= history && Covered(before, from, c, d, scope) && Covered(history, |before|, c, d, scope)
    ensures Covered(history, from, c, d, scope)
  {
    forall i | from <= i < |history| ensures CoveredAt(history[i], c, d, scope) {
      if i < |before| { assert history[i] == before[i]; }
    }
  }

  lemma DropOneMore(dir: Directory, doomed: set<Name>, left: set<Name>, n: Name)
    requires n in left && left <= doomed
    ensures (dir - (doomed - left)) - {n} == dir - (doomed - (left - {n}))
  {
  }

  // ---- What each step keeps ----

  lemma LiveView(d: Disk, c: Claim)
    requires WellFormed(d) && Holds(d.gens, c)
    ensures ViewHolds(Live(d), c) && Shown(Live(d)) in c.shown
  {
  }

  /** One more state, which stays within the bound, the scope and the claim. */
  lemma OneMoreState(d: Disk, view: Directory, c: Claim, scope: Scope)
    requires Guarded(d, c) && InScope(d, scope) && |view| <= MAX_DIRECTORY_ENTRIES
    requires view.Keys <= scope.names * scope.live && Contents(view) <= scope.contents * scope.held
    requires Holds(d.gens, c) ==> (ViewHolds(view, c) && Shown(view) in c.shown) || false !in d.marker
    ensures Guarded(d.(gens := d.gens + [view]), c) && InScope(d.(gens := d.gens + [view]), scope)
  {
    hide ViewHolds, Shown, Contents;
  }

  lemma LiveScope(d: Disk, scope: Scope)
    requires WellFormed(d) && InScope(d, scope) && Bounded(d.gens)
    ensures Live(d).Keys <= scope.names * scope.live && Contents(Live(d)) <= scope.contents * scope.held
    ensures |Live(d)| <= MAX_DIRECTORY_ENTRIES
  {
  }

  lemma PutIncoming(d: Disk, o: Ordinal, content: Content, c: Claim, scope: Scope)
    requires Guarded(d, c) && InScope(d, scope) && Incoming(o) in scope.names * scope.live
    requires |Live(d)| < MAX_DIRECTORY_ENTRIES || Incoming(o) in Live(d)
    ensures Guarded(Put(d, Incoming(o), content), c) && InScope(Put(d, Incoming(o), content), scope)
  {
    hide InScope, Holds, Contents, Shown, Bounded;
    var view := Live(d)[Incoming(o) := content];
    assert view.Keys == Live(d).Keys + {Incoming(o)};
    assert |view| == |view.Keys| && |Live(d)| == |Live(d).Keys|;
    LiveScope(d, scope);
    SameGenerations(Live(d), view);
    if Holds(d.gens, c) {
      LiveView(d, c);
      assert ViewHolds(view, c);
    }
    OneMoreState(d, view, c, scope);
  }

  lemma SameGenerations(live: Directory, view: Directory)
    requires forall o: Ordinal :: Look(view, Generation(o)) == Look(live, Generation(o))
    ensures Shown(view) == Shown(live) && Contents(view) <= Contents(live)
  {
    SameShown(view, live);
    forall x | x in Contents(view) ensures x in Contents(live) {
      var m :| m in view && m.Generation? && view[m] == x;
      assert Look(view, Generation(m.ordinal)) == Look(live, Generation(m.ordinal));
    }
  }

  /** A claim that promises nothing but that nothing else comes back. */
  ghost predicate Loose(d: Disk, c: Claim)
    requires WellFormed(d)
  {
    c.k == 0 && Fresh in c.shown && OutcomesOf(Contents(Live(d))) <= c.shown
  }

  ghost predicate Superseded(live: Directory, o: Ordinal) {
    exists newer: Ordinal :: Generation(newer) in live && newer > o
  }

  ghost predicate Droppable(d: Disk, c: Claim, n: Name)
    requires WellFormed(d)
  {
    n.Incoming? || false !in d.marker || (n.ordinal != c.k && (Loose(d, c) || Superseded(Live(d), n.ordinal)))
  }

  lemma DropName(d: Disk, n: Name, c: Claim, scope: Scope)
    requires Guarded(d, c) && InScope(d, scope) && Droppable(d, c, n)
    ensures Guarded(Drop(d, n), c) && InScope(Drop(d, n), scope)
    ensures Loose(d, c) ==> Loose(Drop(d, n), c)
  {
    hide InScope, Holds, Contents, ContentsOf, Shown, Bounded, Superseded, ViewHolds;
    var view := Live(d) - {n};
    SubsetSize(view.Keys, Live(d).Keys);
    assert |view| == |view.Keys| && |Live(d)| == |Live(d).Keys|;
    LiveScope(d, scope);
    DropStores(d, n);
    if Holds(d.gens, c) && false in d.marker {
      DropShows(d, n, c);
      DropHolds(d, n, c);
    }
    OneMoreState(d, view, c, scope);
    if Loose(d, c) { DropLoose(d, n, c); }
  }

  lemma DropHolds(d: Disk, n: Name, c: Claim)
    requires WellFormed(d) && Holds(d.gens, c) && (n.Incoming? || n.ordinal != c.k)
    ensures ViewHolds(Live(d) - {n}, c)
  {
    LiveView(d, c);
  }

  lemma DropLoose(d: Disk, n: Name, c: Claim)
    requires WellFormed(d) && Loose(d, c)
    ensures Loose(Drop(d, n), c)
  {
    DropStores(d, n);
    hide ContentsOf;
  }

  lemma DropStores(d: Disk, n: Name)
    requires WellFormed(d)
    ensures Contents(Live(d) - {n}) <= Contents(Live(d)) && ContentsOf(Drop(d, n).gens) <= ContentsOf(d.gens)
  {
    forall x | x in Contents(Live(d) - {n}) ensures x in Contents(Live(d)) {
      var m :| m in Live(d) - {n} && m.Generation? && Live(d)[m] == x;
      assert m in Live(d);
    }
  }

  lemma DropShows(d: Disk, n: Name, c: Claim)
    requires WellFormed(d) && Holds(d.gens, c) && Droppable(d, c, n) && false in d.marker
    ensures Shown(Live(d) - {n}) in c.shown
  {
    LiveView(d, c);
    if n.Incoming? {
      SameGenerations(Live(d), Live(d) - {n});
    } else if Superseded(Live(d), n.ordinal) {
      SupersededShows(Live(d), n.ordinal);
    } else {
      LooseShows(d, n, c);
    }
  }

  lemma SupersededShows(live: Directory, o: Ordinal)
    requires Superseded(live, o)
    ensures Shown(live - {Generation(o)}) == Shown(live)
  {
    var newer: Ordinal :| Generation(newer) in live && newer > o;
    assert newer in Ordinals(live);
    var newest := Newest(Ordinals(live));
    NewestIs(live);
    ShownNewest(live, newest);
    ShownNewest(live - {Generation(o)}, newest);
  }

  lemma LooseShows(d: Disk, n: Name, c: Claim)
    requires WellFormed(d) && Loose(d, c)
    ensures Shown(Live(d) - {n}) in c.shown
  {
    var view := Live(d) - {n};
    DropStores(d, n);
    if Ordinals(view) != {} {
      NewestIs(view);
      assert view[Generation(Newest(Ordinals(view)))] in Contents(view);
    }
  }

  lemma Publish(d: Disk, p: Preferences, next: Ordinal, c: Claim, scope: Scope)
    requires Guarded(d, c) && InScope(d, scope) && Generation(next) in scope.names * scope.live && Document(p) in scope.contents * scope.held
    requires Look(Live(d), Incoming(next)) == Present(Document(p)) && Numbered(Live(d), next)
    requires Document(p) in c.attempts && Saved(p) in c.shown && c.k < next <= c.next
    ensures var e := Move(d, Incoming(next), Generation(next));
            Guarded(e, c) && InScope(e, scope) && Numbered(Live(e), next)
  {
    var view := (Live(d) - {Incoming(next)})[Generation(next) := Document(p)];
    hide InScope, Holds, Contents, Shown, Bounded, ViewHolds, Numbered;
    LiveScope(d, scope);
    PublishStores(d, p, next);
    PublishNumbered(Live(d), p, next);
    if Holds(d.gens, c) {
      LiveView(d, c);
      PublishHolds(Live(d), p, next, c);
    }
    OneMoreState(d, view, c, scope);
  }

  lemma PublishNumbered(live: Directory, p: Preferences, next: Ordinal)
    requires Numbered(live, next)
    ensures Numbered((live - {Incoming(next)})[Generation(next) := Document(p)], next)
  {
  }

  lemma PublishHolds(live: Directory, p: Preferences, next: Ordinal, c: Claim)
    requires ViewHolds(live, c) && Numbered(live, next)
    requires Document(p) in c.attempts && Saved(p) in c.shown && c.k < next <= c.next
    ensures var view := (live - {Incoming(next)})[Generation(next) := Document(p)]; ViewHolds(view, c) && Shown(view) in c.shown
  {
    ShownNewest((live - {Incoming(next)})[Generation(next) := Document(p)], next);
  }

  lemma PublishStores(d: Disk, p: Preferences, next: Ordinal)
    requires WellFormed(d)
    ensures var view := (Live(d) - {Incoming(next)})[Generation(next) := Document(p)];
            && Contents(view) <= Contents(Live(d)) + {Document(p)} && view.Keys <= Live(d).Keys + {Generation(next)}
            && (Incoming(next) in Live(d) ==> |view| <= |Live(d)|)
  {
    var view := (Live(d) - {Incoming(next)})[Generation(next) := Document(p)];
    assert view.Keys == (Live(d).Keys - {Incoming(next)}) + {Generation(next)};
    assert |view| == |view.Keys| && |Live(d)| == |Live(d).Keys|;
    forall x | x in Contents(view) ensures x in Contents(Live(d)) + {Document(p)} {
      var m :| m in view && m.Generation? && view[m] == x;
      assert m != Generation(next) ==> m in Live(d);
    }
  }

  lemma Synchronize(d: Disk, c: Claim, scope: Scope)
    requires Guarded(d, c) && InScope(d, scope)
    ensures Guarded(SyncGens(d), c) && InScope(SyncGens(d), scope)
  {
  }

  /** Once synchronized, the published generation is the new base. */
  lemma Rebase(d: Disk, p: Preferences, c: Claim, next: Ordinal)
    requires Guarded(d, c) && d.gens == [Live(d)] && Numbered(Live(d), next)
    requires Look(Live(d), Generation(next)) == Present(Document(p))
    ensures Guarded(d, Acknowledged(next, p))
  {
    ShownNewest(Live(d), next);
    assert ViewHolds(Live(d), Acknowledged(next, p));
  }

  /** One disk, its log of every state so far, and operations that may fail without effect. */
  class FileSystem {
    var disk: Disk
    /** Every state the disk has been in, for crashes to choose from. */
    var history: seq<Disk>
    /** How many calls have failed. */
    ghost var faults: nat

    constructor Mount(image: Directory, marked: bool)
      ensures disk == Disk([image], [marked]) && history == [disk] && faults == 0
    {
      disk := Disk([image], [marked]);
      history := [Disk([image], [marked])];
      faults := 0;
    }

    /** The disk as a process that ended left it to the next one. */
    constructor Resume(left: Disk)
      ensures disk == left && history == [disk] && faults == 0
    {
      disk := left;
      history := [left];
      faults := 0;
    }

    method Try(next: Disk, ghost c: Claim, ghost scope: Scope) returns (ok: bool)
      requires Guarded(disk, c) && InScope(disk, scope)
      requires Guarded(next, c) && InScope(next, scope)
      modifies this
      ensures disk == (if ok then next else old(disk)) && history == old(history) + [disk]
      ensures Covered(history, |old(history)|, c, c, scope)
      ensures Guarded(disk, c) && InScope(disk, scope)
      ensures faults == old(faults) + if ok then 0 else 1
    {
      ok := *;
      if ok {
        disk := next;
      } else {
        faults := faults + 1;
      }
      history := history + [disk];
    }

    /** Creates, writes and synchronizes one incoming file; on failure tries to remove it again. */
    method WriteIncoming(o: Ordinal, p: Preferences, ghost c: Claim, ghost scope: Scope)
      returns (ok: bool)
      requires Guarded(disk, c) && InScope(disk, scope) && Incoming(o) in scope.names * scope.live
      requires |Live(disk)| < MAX_DIRECTORY_ENTRIES || Incoming(o) in Live(disk)
      modifies this
      ensures old(history) <= history && Covered(history, |old(history)|, c, c, scope)
      ensures Guarded(disk, c) && InScope(disk, scope) && disk.marker == old(disk).marker
      ensures ok ==> Incoming(o) !in old(Live(disk)) && Live(disk) == old(Live(disk))[Incoming(o) := Document(p)]
      ensures Live(disk).Keys - {Incoming(o)} == old(Live(disk)).Keys - {Incoming(o)}
      ensures old(faults) <= faults && (!ok ==> Incoming(o) in old(Live(disk)) || old(faults) < faults)
      ensures !ok && Incoming(o) in Live(disk) ==> faults >= old(faults) + if Incoming(o) in old(Live(disk)) then 1 else 2
    {
      hide Holds, Bounded, InScope, Loose, Superseded;
      ok := false;
      if Incoming(o) !in Live(disk) {
        PutIncoming(disk, o, Torn, c, scope);
        ok := Try(Put(disk, Incoming(o), Torn), c, scope);
        if ok {
          PutIncoming(disk, o, Document(p), c, scope);
          assert Live(disk)[Incoming(o) := Document(p)] == old(Live(disk))[Incoming(o) := Document(p)];
          ok := Try(Put(disk, Incoming(o), Document(p)), c, scope);
        }
      }
      if !ok {
        DropName(disk, Incoming(o), c, scope);
        var removed := Try(Drop(disk, Incoming(o)), c, scope);
      }
    }

    /** Removes entries one at a time, stopping at the first failure. */
    method RemoveNames(doomed: set<Name>, ghost c: Claim, ghost scope: Scope) returns (ok: bool)
      requires Guarded(disk, c) && InScope(disk, scope) && Removable(disk, c, doomed)
      modifies this
      ensures old(history) <= history && Covered(history, |old(history)|, c, c, scope)
      ensures Guarded(disk, c) && InScope(disk, scope) && disk.marker == old(disk).marker
      ensures ok ==> Live(disk) == old(Live(disk)) - doomed
      ensures ok && doomed == {} ==> disk == old(disk)
      ensures Live(disk).Keys <= old(Live(disk)).Keys && old(Live(disk)).Keys - doomed <= Live(disk).Keys
      ensures old(faults) <= faults && (!ok ==> old(faults) < faults)
    {
      hide Holds, Bounded, Loose, InScope;
      var left := doomed;
      assert Live(disk) - (doomed - left) == Live(disk);
      while left != {}
        invariant left <= doomed && old(history) <= history && faults == old(faults)
        invariant Covered(history, |old(history)|, c, c, scope)
        invariant Guarded(disk, c) && InScope(disk, scope) && disk.marker == old(disk).marker && WellFormed(disk)
        invariant Live(disk) == old(Live(disk)) - (doomed - left) && Removable(disk, c, left)
        invariant left == doomed ==> disk == old(disk)
        decreases left
      {
        var n :| n in left;
        DropOneMore(old(Live(disk)), doomed, left, n);
        RemovableNext(disk, c, left, n, scope);
        ghost var before := history;
        var removed := Try(Drop(disk, n), c, scope);
        JoinCovered(before, history, |old(history)|, c, c, scope);
        if !removed {
          return false;
        }
        left := left - {n};
      }
      ok := true;
      assert doomed - {} == doomed;
    }

    /** Synchronizes the generations directory. */
    method SynchronizeGenerations(ghost c: Claim, ghost scope: Scope) returns (ok: bool)
      requires Guarded(disk, c) && InScope(disk, scope)
      modifies this
      ensures disk == (if ok then SyncGens(old(disk)) else old(disk)) && history == old(history) + [disk]
      ensures Covered(history, |old(history)|, c, c, scope)
      ensures Guarded(disk, c) && InScope(disk, scope)
      ensures faults == old(faults) + if ok then 0 else 1
    {
      Synchronize(disk, c, scope);
      ok := Try(SyncGens(disk), c, scope);
    }

    /** Removes every committed generation but the newest, and synchronizes if any was removed. */
    method CleanupOldGenerations(ghost c: Claim, ghost scope: Scope) returns (ok: bool)
      requires Guarded(disk, c) && InScope(disk, scope)
      requires false !in disk.marker || c.k == 0 || IsNewest(Live(disk), c.k)
      modifies this
      ensures old(history) <= history && Covered(history, |old(history)|, c, c, scope)
      ensures Guarded(disk, c) && InScope(disk, scope) && disk.marker == old(disk).marker
      ensures Live(disk).Keys <= old(Live(disk)).Keys
      ensures ok ==> disk == old(disk) || disk.gens == [Live(disk)]
      ensures ok ==> forall o: Ordinal :: IsNewest(old(Live(disk)), o)
                                          ==> Live(disk) == WithoutOlder(old(Live(disk)), o)
      ensures old(faults) <= faults && (!ok ==> old(faults) < faults)
    {
      hide Holds, Bounded, InScope, Loose;
      var live := Live(disk);
      var committed := Committed(live);
      if |committed| <= 1 {
        AtMostOne(committed);
        forall o | IsNewest(live, o) ensures live == WithoutOlder(live, o) {
          forall n: Name | n in live && n.Generation? ensures n.ordinal == o {
            assert n in committed && Generation(o) in committed;
          }
        }
        return true;
      }
      NewestExists(committed);
      var newest :| newest in committed && forall n :: n in committed ==> n.ordinal <= newest.ordinal;
      KeepsNewest(live, newest);
      OlderRemovable(disk, c, newest);
      ok := RemoveNames(committed - {newest}, c, scope);
      if ok {
        ok := SynchronizeGenerations(c, scope);
      }
    }

    /** Deletes every entry under a live marker, then the marker. `c` is the claim while files remain. */
    method FinishReset(ghost c: Claim, ghost scope: Scope) returns (ok: bool, ghost emptied: bool)
      requires Guarded(disk, c) && InScope(disk, scope)
      requires (false !in disk.marker || Loose(disk, c)) && Marked(disk) && scope.marks == {false, true}
      modifies this
      ensures old(history) <= history
      ensures Covered(history, |old(history)|, c, EmptyClaim(c.next), scope)
      ensures WellFormed(disk) && InScope(disk, scope) && Live(disk).Keys <= old(Live(disk)).Keys
      ensures Guarded(disk, if emptied then EmptyClaim(c.next) else c)
      ensures if emptied then disk.gens == [map[]] else disk.marker == old(disk).marker
      ensures ok ==> emptied && disk == Disk([map[]], [false])
      ensures old(faults) <= faults && (!ok ==> old(faults) < faults)
    {
      hide Holds, Bounded, Within, Stores, Loose;
      emptied := false;
      LooseRemovable(disk, c);
      ok := RemoveNames(Live(disk).Keys, c, scope);
      if !ok { return; }
      assert Live(disk) == map[];
      ok := SynchronizeGenerations(c, scope);
      if !ok { return; }
      emptied := true;
      ghost var e := EmptyClaim(c.next);
      EmptyHolds(c.next);
      ok := Try(SetMarker(disk, false), e, scope);
      if !ok { return; }
      ok := Try(SyncRoot(disk), e, scope);
    }
  }

  /** Every removal is allowed, in whatever order they are made. */
  ghost predicate Removable(d: Disk, c: Claim, doomed: set<Name>)
    requires WellFormed(d)
  {
    || false !in d.marker || Loose(d, c)
    || forall n :: n in doomed && n.Generation? ==> n.ordinal != c.k && SupersededBy(Live(d), doomed, n.ordinal)
  }

  /** By a generation that stays. */
  ghost predicate SupersededBy(live: Directory, doomed: set<Name>, o: Ordinal) {
    exists newer: Ordinal :: Generation(newer) in live && Generation(newer) !in doomed && newer > o
  }

  lemma RemovableNext(d: Disk, c: Claim, doomed: set<Name>, n: Name, scope: Scope)
    requires Guarded(d, c) && InScope(d, scope) && Removable(d, c, doomed) && n in doomed
    ensures Guarded(Drop(d, n), c) && InScope(Drop(d, n), scope) && Removable(Drop(d, n), c, doomed - {n})
  {
    hide Holds, Bounded, InScope, ContentsOf;
    if n.Generation? && SupersededBy(Live(d), doomed, n.ordinal) {
      assert Superseded(Live(d), n.ordinal);
    }
    DropName(d, n, c, scope);
    forall m | m in doomed - {n} && m.Generation? && SupersededBy(Live(d), doomed, m.ordinal)
      ensures SupersededBy(Live(Drop(d, n)), doomed - {n}, m.ordinal)
    {
      var newer: Ordinal :| Generation(newer) in Live(d) && Generation(newer) !in doomed && newer > m.ordinal;
      assert Generation(newer) in Live(d) - {n};
    }
  }

  lemma OlderRemovable(d: Disk, c: Claim, newest: Name)
    requires Guarded(d, c) && (false !in d.marker || c.k == 0 || IsNewest(Live(d), c.k))
    requires newest in Committed(Live(d)) && forall n :: n in Committed(Live(d)) ==> n.ordinal <= newest.ordinal
    ensures Removable(d, c, Committed(Live(d)) - {newest})
  {
    var older := Committed(Live(d)) - {newest};
    if c.k > 0 && IsNewest(Live(d), c.k) { assert Generation(c.k) in Committed(Live(d)); }
    forall n | n in older ensures SupersededBy(Live(d), older, n.ordinal) {
      assert newest == Generation(newest.ordinal);
    }
  }

  lemma LooseRemovable(d: Disk, c: Claim)
    requires Guarded(d, c) && (false !in d.marker || Loose(d, c))
    ensures Removable(d, c, Live(d).Keys)
  {
  }

  lemma KeepsNewest(live: Directory, newest: Name)
    requires newest in Committed(live) && forall n :: n in Committed(live) ==> n.ordinal <= newest.ordinal
    ensures forall o: Ordinal :: IsNewest(live, o) ==> newest == Generation(o)
                                                       && live - (Committed(live) - {newest}) == WithoutOlder(live, o)
  {
    forall o: Ordinal | IsNewest(live, o)
      ensures newest == Generation(o) && live - (Committed(live) - {newest}) == WithoutOlder(live, o)
    {
      assert Generation(o) in Committed(live);
    }
  }

  function EmptyClaim(next: Ordinal): Claim { Claim(0, {}, {}, next, {Fresh}) }

  lemma EmptyHolds(next: Ordinal)
    ensures Holds([map[]], EmptyClaim(next))
  {
    assert ViewHolds(map[], EmptyClaim(next));
  }

  lemma AtMostOne(names: set<Name>)
    requires |names| <= 1
    ensures forall m, n :: m in names && n in names ==> m == n
  {
    forall m, n | m in names && n in names ensures m == n {
      if m != n {
        SubsetSize({m, n}, names);
        assert false;
      }
    }
  }

  lemma {:induction false} NewestExists(names: set<Name>)
    requires names != {}
    ensures exists newest :: newest in names && forall n :: n in names ==> n.ordinal <= newest.ordinal
    decreases |names|
  {
    var some :| some in names;
    if names != {some} {
      NewestExists(names - {some});
      var rest :| rest in names - {some} && forall n :: n in names - {some} ==> n.ordinal <= rest.ordinal;
      var newest := if rest.ordinal < some.ordinal then some else rest;
      forall n | n in names ensures n.ordinal <= newest.ordinal {
        if n != some { assert n in names - {some}; }
      }
    }
  }

  /** Settled: everything synchronized, no marker, and nothing but the generation of the claim. */
  ghost predicate Settled(d: Disk, c: Claim) { Tidy(d, c) && d.marker == [false] }

  ghost predicate Tidy(d: Disk, c: Claim) {
    && |d.gens| == 1 && Holds(d.gens, c)
    && d.gens[0].Keys == (if c.k > 0 then {Generation(c.k)} else {})
    && c.attempts == {} && c.bases == Contents(d.gens[0])
  }

  lemma SettledNames(d: Disk, c: Claim, next: Ordinal)
    requires Settled(d, c)
    ensures |SaveNames(d, next)| <= 3
  {
    var names := if c.k > 0 then {Generation(c.k)} else {};
    assert NamesOf(d.gens) <= names;
    SubsetSize(NamesOf(d.gens) + {Incoming(next), Generation(next)}, names + {Incoming(next), Generation(next)});
  }

  lemma Extend(before: seq<Disk>, history: seq<Disk>, from: nat, c: Claim, d: Claim, e: Claim, scope: Scope)
    requires before <= history && Covered(before, from, c, d, scope)
    requires (e == c || e == d) && Covered(history, |before|, e, e, scope)
    ensures Covered(history, from, c, d, scope)
  {
    forall i | from <= i < |history| ensures CoveredAt(history[i], c, d, scope) {
      if i < |before| { assert history[i] == before[i]; } else { assert CoveredAt(history[i], e, e, scope); }
    }
  }

  lemma OnlyGenerations(live: Directory, k: Ordinal)
    requires Numbered(live, k) && Incoming(k) !in live && Generation(k) in live
    ensures IsNewest(live, k) && forall n :: n in live ==> n.Generation?
  {
  }

  lemma OnlyNewest(d: Disk, live: Directory, c: Claim)
    requires 0 < c.k <= c.next && c.attempts == {} && Generation(c.k) in live && c.bases == {live[Generation(c.k)]}
    requires OutcomeOf(live[Generation(c.k)]) in c.shown
    requires d.gens == [WithoutOlder(live, c.k)] && forall n :: n in live ==> n.Generation?
    ensures Tidy(d, c)
  {
    var view := WithoutOlder(live, c.k);
    assert view.Keys == {Generation(c.k)};
    assert view[Generation(c.k)] in Contents(view) && Contents(view) == c.bases;
    ShownNewest(view, c.k);
    assert ViewHolds(view, c);
  }

  function Attempting(c: Claim, p: Preferences): Claim {
    c.(attempts := c.attempts + {Document(p)}, shown := c.shown + {Saved(p)})
  }

  function Acknowledged(next: Ordinal, p: Preferences): Claim { Claim(next, {Document(p)}, {}, After(next), {Saved(p)}) }

  ghost function SaveNames(d: Disk, next: Ordinal): set<Name> {
    NamesOf(d.gens) + {Incoming(next), Generation(next)}
  }

  /** A save touches the two names of its ordinal and leaves the marker alone. */
  ghost function SaveScope(d: Disk, next: Ordinal, p: Preferences): Scope
    requires WellFormed(d)
  {
    Scope(SaveNames(d, next), ContentsOf(d.gens) + {Document(p)}, SaveNames(d, next), Contents(Live(d)) + {Document(p)},
          set b | b in d.marker)
  }

  ghost function ResetScope(d: Disk): Scope
    requires WellFormed(d)
  {
    Scope(NamesOf(d.gens), ContentsOf(d.gens), NamesOf(d.gens), Contents(Live(d)), {false, true})
  }

  /** Resetting would delete files while the marker may still be lost. */
  predicate Reckless(d: Disk)
    requires WellFormed(d)
  {
    Marked(d) && false in d.marker
  }

  /** What such a reset can still promise: defaults, or any document on the disk. Under a durable marker only
      defaults are left. */
  ghost function ResetClaim(c: Claim, d: Disk): Claim
    requires WellFormed(d)
  {
    if Reckless(d) then Claim(0, {}, ContentsOf(d.gens), c.next, c.shown + {Fresh} + OutcomesOf(Contents(Live(d))))
    else if Marked(d) then EmptyClaim(c.next)
    else c
  }

  ghost function OpenScope(d: Disk): Scope
    requires WellFormed(d)
  {
    Scope(NamesOf(d.gens), ContentsOf(d.gens), Live(d).Keys, Contents(Live(d)),
          if Marked(d) then {false, true} else set b | b in d.marker)
  }

  /** What the store object and its disk agree on between operations. */
  ghost predicate Consistent(d: Disk, c: Claim, next: Ordinal) {
    && c.k < next <= c.next
    && Guarded(d, c)
    && Numbered(Live(d), next)
  }

  /** Nothing but a failing call stands in the way of a save. */
  ghost predicate Roomy(live: Directory, next: Ordinal) {
    |Committed(live)| < MAX_DIRECTORY_ENTRIES && Incoming(next) !in live && next < MAX_ORDINAL
  }

  /** The one incoming name is the next one, and no generation is later. */
  ghost predicate Numbered(live: Directory, next: Ordinal) {
    forall n :: n in live ==> n.ordinal <= next && (n.Incoming? ==> n.ordinal == next)
  }

  /** The store object: exclusive owner of one file system. */
  class AccessibilityStore {
    const fs: FileSystem
    var nextOrdinal: Ordinal
    var snapshot: Outcome
    ghost var claim: Claim

    ghost predicate Valid()
      reads this, fs
    {
      Consistent(fs.disk, claim, nextOrdinal)
    }

    constructor (fs: FileSystem, nextOrdinal: Ordinal, snapshot: Outcome, ghost claim: Claim)
      ensures this.fs == fs && this.nextOrdinal == nextOrdinal && this.snapshot == snapshot
      ensures this.claim == claim
    {
      this.fs, this.nextOrdinal, this.snapshot := fs, nextOrdinal, snapshot;
      this.claim := claim;
    }

    /** Publishes one document: incoming file, rename, directory synchronization, cleanup. */
    method Save(p: Preferences) returns (status: Status)
      requires Valid()
      modifies this, fs
      ensures Valid() && fs.disk.marker == old(fs.disk.marker)
      ensures old(fs.history) <= fs.history
      ensures Covered(fs.history, |old(fs.history)|, Attempting(old(claim), p), Acknowledged(old(nextOrdinal), p),
                      SaveScope(old(fs.disk), old(nextOrdinal), p))
      ensures if claim == Acknowledged(old(nextOrdinal), p) then snapshot == Saved(p) && nextOrdinal == old(nextOrdinal) + 1
              else claim == Attempting(old(claim), p) && snapshot == old(snapshot) && nextOrdinal == old(nextOrdinal)
      ensures status.Done? ==> claim == Acknowledged(old(nextOrdinal), p) && Tidy(fs.disk, claim)
      ensures status == Failed(NoHeadroom) <==> |old(Committed(Live(fs.disk)))| >= MAX_DIRECTORY_ENTRIES
      ensures status == Failed(NoHeadroom) ==> fs.disk == old(fs.disk) && fs.history == old(fs.history)
      ensures InScope(fs.disk, SaveScope(old(fs.disk), old(nextOrdinal), p))
      ensures old(fs.faults) <= fs.faults
      ensures status.Failed? && Roomy(old(Live(fs.disk)), old(nextOrdinal)) ==> old(fs.faults) < fs.faults
      ensures Incoming(old(nextOrdinal)) in Live(fs.disk) && status != Failed(NoHeadroom) ==>
                LeftIncoming(old(Live(fs.disk)), old(nextOrdinal), fs.faults - old(fs.faults))
    {
      NamesWithin(fs.disk, nextOrdinal, p);
      status := SaveWithin(p, SaveScope(fs.disk, nextOrdinal, p));
    }

    /** The save itself; `scope` bounds what its disk states may contain. */
    method SaveWithin(p: Preferences, ghost scope: Scope) returns (status: Status)
      requires Valid()
      requires InScope(fs.disk, scope) && Incoming(nextOrdinal) in scope.names * scope.live
      requires Generation(nextOrdinal) in scope.names * scope.live
      requires Document(p) in scope.contents * scope.held
      modifies this, fs
      ensures Valid() && fs.disk.marker == old(fs.disk.marker)
      ensures old(fs.history) <= fs.history
      ensures Covered(fs.history, |old(fs.history)|, Attempting(old(claim), p), Acknowledged(old(nextOrdinal), p), scope)
      ensures if claim == Acknowledged(old(nextOrdinal), p) then snapshot == Saved(p) && nextOrdinal == old(nextOrdinal) + 1
              else claim == Attempting(old(claim), p) && snapshot == old(snapshot) && nextOrdinal == old(nextOrdinal)
      ensures status.Done? ==> claim == Acknowledged(old(nextOrdinal), p) && Tidy(fs.disk, claim)
      ensures status == Failed(NoHeadroom) <==> |old(Committed(Live(fs.disk)))| >= MAX_DIRECTORY_ENTRIES
      ensures status == Failed(NoHeadroom) ==> fs.disk == old(fs.disk) && fs.history == old(fs.history)
      ensures InScope(fs.disk, scope)
      ensures old(fs.faults) <= fs.faults
      ensures status.Failed? && Roomy(old(Live(fs.disk)), old(nextOrdinal)) ==> old(fs.faults) < fs.faults
      ensures Incoming(old(nextOrdinal)) in Live(fs.disk) && status != Failed(NoHeadroom) ==>
                LeftIncoming(old(Live(fs.disk)), old(nextOrdinal), fs.faults - old(fs.faults))
    {
      WeakenClaim(fs.disk, claim, Attempting(claim, p));
      claim := Attempting(claim, p);
      var existing := Committed(Live(fs.disk));
      if |existing| >= MAX_DIRECTORY_ENTRIES {
        return Failed(NoHeadroom);
      }
      status := Write(p, claim, Acknowledged(nextOrdinal, p), scope);
    }

    /** A save with headroom. */
    method Write(p: Preferences, ghost attempt: Claim, ghost acknowledged: Claim, ghost scope: Scope)
      returns (status: Status)
      requires Valid() && claim == attempt && acknowledged == Acknowledged(nextOrdinal, p)
      requires Document(p) in attempt.attempts && Saved(p) in attempt.shown
      requires |Committed(Live(fs.disk))| < MAX_DIRECTORY_ENTRIES
      requires InScope(fs.disk, scope) && Incoming(nextOrdinal) in scope.names * scope.live
      requires Generation(nextOrdinal) in scope.names * scope.live
      requires Document(p) in scope.contents * scope.held
      modifies this, fs
      ensures Valid() && fs.disk.marker == old(fs.disk.marker)
      ensures old(fs.history) <= fs.history
      ensures Covered(fs.history, |old(fs.history)|, attempt, acknowledged, scope)
      ensures if claim == acknowledged then snapshot == Saved(p) && nextOrdinal == old(nextOrdinal) + 1
              else claim == attempt && snapshot == old(snapshot) && nextOrdinal == old(nextOrdinal)
      ensures status.Done? ==> claim == acknowledged && Tidy(fs.disk, claim)
      ensures status != Failed(NoHeadroom) && InScope(fs.disk, scope)
      ensures old(fs.faults) <= fs.faults
      ensures status.Failed? && Roomy(old(Live(fs.disk)), old(nextOrdinal)) ==> old(fs.faults) < fs.faults
      ensures Incoming(old(nextOrdinal)) in Live(fs.disk) ==> LeftIncoming(old(Live(fs.disk)), old(nextOrdinal), fs.faults - old(fs.faults))
    {
      hide Holds, Bounded, Within, Stores;
      ghost var from := |fs.history|;
      var written := StageIncoming(p, attempt, acknowledged, scope);
      if !written {
        return Failed(Io);
      }
      var durable := PublishIncoming(p, attempt, acknowledged, from, scope);
      if !durable {
        return Failed(Io);
      }
      if nextOrdinal == MAX_ORDINAL {
        return Failed(OrdinalsExhausted);
      }
      status := Conclude(p, from, attempt, scope);
    }

    /** Writes the incoming file, given fewer than four committed generations. */
    method StageIncoming(p: Preferences, ghost attempt: Claim, ghost acknowledged: Claim, ghost scope: Scope)
      returns (written: bool)
      requires Valid() && claim == attempt
      requires |Committed(Live(fs.disk))| < MAX_DIRECTORY_ENTRIES
      requires InScope(fs.disk, scope) && Incoming(nextOrdinal) in scope.names * scope.live
      modifies fs
      ensures Valid() && fs.disk.marker == old(fs.disk.marker) && InScope(fs.disk, scope)
      ensures old(fs.history) <= fs.history
      ensures Covered(fs.history, |old(fs.history)|, attempt, acknowledged, scope)
      ensures written ==> Look(Live(fs.disk), Incoming(nextOrdinal)) == Present(Document(p))
      ensures old(fs.faults) <= fs.faults
      ensures !written ==> Incoming(nextOrdinal) in old(Live(fs.disk)) || old(fs.faults) < fs.faults
      ensures !written && Incoming(nextOrdinal) in Live(fs.disk) ==> LeftIncoming(old(Live(fs.disk)), nextOrdinal, fs.faults - old(fs.faults))
    {
      Headroom(Live(fs.disk), nextOrdinal);
      ghost var start := fs.history;
      written := fs.WriteIncoming(nextOrdinal, p, attempt, scope);
      Extend(start, fs.history, |start|, attempt, acknowledged, attempt, scope);
      StaysNumbered(old(Live(fs.disk)), Live(fs.disk), nextOrdinal);
    }

    /** Renames the incoming file into place and synchronizes the directory. */
    method PublishIncoming(p: Preferences, ghost attempt: Claim, ghost acknowledged: Claim, ghost from: nat, ghost scope: Scope)
      returns (durable: bool)
      requires Valid() && claim == attempt && Document(p) in attempt.attempts && Saved(p) in attempt.shown
      requires InScope(fs.disk, scope) && Generation(nextOrdinal) in scope.names * scope.live && Document(p) in scope.contents * scope.held
      requires Look(Live(fs.disk), Incoming(nextOrdinal)) == Present(Document(p))
      requires Covered(fs.history, from, attempt, acknowledged, scope)
      modifies fs
      ensures Valid() && fs.disk.marker == old(fs.disk.marker) && InScope(fs.disk, scope)
      ensures old(fs.history) <= fs.history
      ensures Covered(fs.history, from, attempt, acknowledged, scope)
      ensures durable ==> fs.disk.gens == [Live(fs.disk)] && Incoming(nextOrdinal) !in Live(fs.disk)
      ensures durable ==> Look(Live(fs.disk), Generation(nextOrdinal)) == Present(Document(p))
      ensures old(fs.faults) <= fs.faults && (!durable ==> old(fs.faults) < fs.faults)
      ensures Incoming(nextOrdinal) in Live(fs.disk) ==> fs.faults >= old(fs.faults) + 2
    {
      hide Holds, Bounded, Within, Stores;
      ghost var logged := fs.history;
      Publish(fs.disk, p, nextOrdinal, attempt, scope);
      durable := fs.Try(Move(fs.disk, Incoming(nextOrdinal), Generation(nextOrdinal)), attempt, scope);
      Extend(logged, fs.history, from, attempt, acknowledged, attempt, scope);
      logged := fs.history;
      if durable {
        durable := fs.SynchronizeGenerations(attempt, scope);
      } else {
        DropName(fs.disk, Incoming(nextOrdinal), attempt, scope);
        var removed := fs.Try(Drop(fs.disk, Incoming(nextOrdinal)), attempt, scope);
      }
      Extend(logged, fs.history, from, attempt, acknowledged, attempt, scope);
    }

    /** The tail of a save, once the new generation is durable. */
    method Conclude(p: Preferences, ghost from: nat, ghost attempt: Claim, ghost scope: Scope) returns (status: Status)
      requires Valid() && claim == attempt && nextOrdinal < MAX_ORDINAL
      requires InScope(fs.disk, scope) && fs.disk.gens == [Live(fs.disk)]
      requires Look(Live(fs.disk), Generation(nextOrdinal)) == Present(Document(p))
      requires Incoming(nextOrdinal) !in Live(fs.disk)
      requires Covered(fs.history, from, attempt, Acknowledged(nextOrdinal, p), scope)
      modifies this, fs
      ensures Valid() && fs.disk.marker == old(fs.disk.marker)
      ensures old(fs.history) <= fs.history
      ensures Covered(fs.history, from, attempt, Acknowledged(old(nextOrdinal), p), scope)
      ensures claim == Acknowledged(old(nextOrdinal), p) && snapshot == Saved(p) && nextOrdinal == old(nextOrdinal) + 1
      ensures (status.Done? ==> Tidy(fs.disk, claim)) && status != Failed(NoHeadroom) && Incoming(old(nextOrdinal)) !in Live(fs.disk)
      ensures InScope(fs.disk, scope)
      ensures old(fs.faults) <= fs.faults && (status.Failed? ==> old(fs.faults) < fs.faults)
    {
      hide Holds, Bounded, Within, Stores, Tidy;
      ghost var acknowledged := Acknowledged(nextOrdinal, p);
      Rebase(fs.disk, p, attempt, nextOrdinal);
      nextOrdinal := nextOrdinal + 1;
      snapshot := Saved(p);
      claim := acknowledged;
      ghost var logged, live := fs.history, Live(fs.disk);
      OnlyGenerations(live, acknowledged.k);
      var cleaned := fs.CleanupOldGenerations(acknowledged, scope);
      Extend(logged, fs.history, from, attempt, acknowledged, acknowledged, scope);
      status := if cleaned then Done else Failed(Io);
      if cleaned {
        OnlyNewest(fs.disk, live, acknowledged);
      }
    }

    /** Durably returns to defaults: marker, deletion of every entry, removal of the marker. */
    method Reset() returns (status: Status)
      requires Valid()
      modifies this, fs
      ensures Valid() && old(fs.history) <= fs.history
      ensures Covered(fs.history, |old(fs.history)|, ResetClaim(old(claim), old(fs.disk)), EmptyClaim(old(claim).next),
                      ResetScope(old(fs.disk)))
      ensures status.Done? ==> Settled(fs.disk, claim) && claim == EmptyClaim(1) && snapshot == Fresh && nextOrdinal == 1
      ensures status.Failed? ==> snapshot == old(snapshot) && nextOrdinal == old(nextOrdinal)
      ensures status.Failed? ==> claim == ResetClaim(old(claim), old(fs.disk)) || claim == EmptyClaim(old(claim).next)
      ensures status.Failed? ==> BareOrMarked(old(fs.disk), fs.disk) && old(fs.faults) < fs.faults
      ensures InScope(fs.disk, ResetScope(old(fs.disk))) && old(fs.faults) <= fs.faults
    {
      AllNamesWithin(fs.disk);
      status := ResetWithin(ResetScope(fs.disk));
    }

    method ResetWithin(ghost scope: Scope) returns (status: Status)
      requires Valid() && InScope(fs.disk, scope) && scope.marks == {false, true}
      modifies this, fs
      ensures Valid() && old(fs.history) <= fs.history
      ensures Covered(fs.history, |old(fs.history)|, ResetClaim(old(claim), old(fs.disk)), EmptyClaim(old(claim).next), scope)
      ensures status.Done? ==> Settled(fs.disk, claim) && claim == EmptyClaim(1) && snapshot == Fresh && nextOrdinal == 1
      ensures status.Failed? ==> snapshot == old(snapshot) && nextOrdinal == old(nextOrdinal)
      ensures status.Failed? ==> claim == ResetClaim(old(claim), old(fs.disk)) || claim == EmptyClaim(old(claim).next)
      ensures status.Failed? ==> BareOrMarked(old(fs.disk), fs.disk) && old(fs.faults) < fs.faults
      ensures InScope(fs.disk, scope) && old(fs.faults) <= fs.faults
    {
      hide Holds, Bounded, Within, Stores, Loose;
      ghost var c, e, from := ResetClaim(claim, fs.disk), EmptyClaim(claim.next), |fs.history|;
      LoosenedHolds(fs.disk, claim);
      claim := c;
      if !Marked(fs.disk) {
        var marked := WriteMarker(e, scope);
        if !marked {
          return Failed(Io);
        }
      }
      ghost var logged := fs.history;
      var finished; ghost var emptied;
      finished, emptied := fs.FinishReset(c, scope);
      JoinCovered(logged, fs.history, from, c, e, scope);
      if emptied {
        claim := e;
      }
      if !finished {
        return Failed(Io);
      }
      nextOrdinal, snapshot, claim := 1, Fresh, EmptyClaim(1);
      EmptyHolds(1);
      status := Done;
    }

    /** Writes the marker and synchronizes the root directory. */
    method WriteMarker(ghost e: Claim, ghost scope: Scope) returns (ok: bool)
      requires Valid() && InScope(fs.disk, scope) && !Marked(fs.disk) && scope.marks == {false, true}
      modifies fs
      ensures Valid() && InScope(fs.disk, scope) && old(fs.history) <= fs.history
      ensures Covered(fs.history, |old(fs.history)|, claim, e, scope)
      ensures ok ==> fs.disk.marker == [true]
      ensures fs.disk.gens == old(fs.disk).gens
      ensures !ok ==> LeftMarker(old(fs.disk), fs.disk, fs.faults - old(fs.faults))
      ensures old(fs.faults) <= fs.faults && (!ok ==> old(fs.faults) < fs.faults)
    {
      hide Holds, Bounded, Within, Stores;
      ghost var c, from := claim, |fs.history|;
      ok := fs.Try(SetMarker(fs.disk, true), c, scope);
      Extend(old(fs.history), fs.history, from, c, e, c, scope);
      ghost var logged := fs.history;
      if ok {
        ok := fs.Try(fs.disk, c, scope);
        Extend(logged, fs.history, from, c, e, c, scope);
        logged := fs.history;
      }
      if ok {
        ok := fs.Try(SyncRoot(fs.disk), c, scope);
      } else {
        var removed := fs.Try(SetMarker(fs.disk, false), c, scope);
      }
      Extend(logged, fs.history, from, c, e, c, scope);
    }
  }

  /** Only failing calls leave an incoming file: one if it was there before, two if it is new. */
  predicate LeftIncoming(before: Directory, o: Ordinal, failed: int) {
    failed >= if Incoming(o) in before then 1 else 2
  }

  /** A marker that could not be made durable is there if only its synchronization failed; otherwise it is removed,
      if that does not fail as well. */
  predicate LeftMarker(before: Disk, after: Disk, failed: int) {
    var made := SetMarker(before, true);
    after == SetMarker(before, false) || after == SetMarker(made, false) || after == made || (after == before && failed >= 2)
  }

  /** A reset that failed has left its marker, or nothing else, or everything. */
  predicate BareOrMarked(before: Disk, after: Disk)
    requires WellFormed(before) && WellFormed(after)
  {
    Marked(after) || after.gens == [map[]] || (!Marked(before) && after.gens == before.gens)
  }

  lemma LoosenedHolds(d: Disk, c: Claim)
    requires Guarded(d, c)
    ensures Guarded(d, ResetClaim(c, d)) && (Reckless(d) ==> Loose(d, ResetClaim(c, d)))
  {
    if Reckless(d) {
      forall i | 0 <= i < |d.gens|
        ensures ViewHolds(d.gens[i], ResetClaim(c, d)) && Shown(d.gens[i]) in ResetClaim(c, d).shown
      {
        assert ViewHolds(d.gens[i], c);
        ContentsStored(d.gens, i);
        hide ContentsOf;
        LoosenedView(d.gens[i], c, ResetClaim(c, d));
      }
    }
  }

  lemma LoosenedView(view: Directory, c: Claim, loose: Claim)
    requires ViewHolds(view, c) && loose.k == 0 && loose.next == c.next && Contents(view) <= loose.attempts
    ensures ViewHolds(view, loose)
  {
  }

  lemma ContentsStored(gens: seq<Directory>, i: nat)
    requires i < |gens|
    ensures Contents(gens[i]) <= ContentsOf(gens)
  {
  }

  lemma ShownStored(d: Disk, i: nat)
    requires i < |d.gens|
    ensures Shown(d.gens[i]) in {Fresh} + OutcomesOf(ContentsOf(d.gens))
  {
    if Ordinals(d.gens[i]) != {} {
      NewestIs(d.gens[i]);
      assert d.gens[i][Generation(Newest(Ordinals(d.gens[i])))] in Contents(d.gens[i]);
    }
  }

  lemma AllNamesWithin(d: Disk)
    requires WellFormed(d)
    ensures InScope(d, ResetScope(d))
  {
  }

  lemma NamesWithin(d: Disk, next: Ordinal, p: Preferences)
    requires WellFormed(d)
    ensures InScope(d, SaveScope(d, next, p)) && Document(p) in SaveScope(d, next, p).contents * SaveScope(d, next, p).held
    ensures Incoming(next) in SaveNames(d, next) && Generation(next) in SaveNames(d, next)
  {
  }

  lemma WeakenClaim(d: Disk, c: Claim, weaker: Claim)
    requires Guarded(d, c) && weaker.k == c.k && c.bases <= weaker.bases && c.next <= weaker.next
    requires c.attempts <= weaker.attempts && c.shown <= weaker.shown
    ensures Guarded(d, weaker)
  {
    if Holds(d.gens, c) {
      forall i | 0 <= i < |d.gens| ensures ViewHolds(d.gens[i], weaker) && Shown(d.gens[i]) in weaker.shown {
        assert ViewHolds(d.gens[i], c);
      }
    }
  }

  /** Fewer than four generations and at most the one incoming name leave room for the incoming file. */
  lemma Headroom(live: Directory, next: Ordinal)
    requires Numbered(live, next) && |Committed(live)| < MAX_DIRECTORY_ENTRIES
    ensures |live| < MAX_DIRECTORY_ENTRIES || Incoming(next) in live
  {
    if Incoming(next) !in live {
      assert live.Keys == Committed(live);
      assert |live| == |live.Keys|;
    }
  }

  lemma StaysNumbered(before: Directory, after: Directory, next: Ordinal)
    requires after.Keys - {Incoming(next)} <= before.Keys && Numbered(before, next)
    ensures Numbered(after, next)
  {
    forall n | n in after && n != Incoming(next) ensures n in before {
      assert n in after.Keys - {Incoming(next)};
    }
  }
}
