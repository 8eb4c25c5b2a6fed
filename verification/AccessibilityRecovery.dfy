/** Opening the preference store: from any live directory, synchronized or not. */
module AccessibilityRecovery {
  import opened PreferenceDisk
  import opened AccessibilityStore

  function CommittedPart(dir: Directory): Directory { map n | n in dir && n.Generation? :: dir[n] }

  predicate HasIncoming(dir: Directory) { exists n :: n in dir && n.Incoming? }

  /** The ordinal the next save will use. */
  ghost function OpeningNext(live: Directory): Ordinal {
    if Ordinals(live) == {} then 1 else PreferenceDisk.After(Newest(Ordinals(live)))
  }

  ghost function Bumped(c: Claim, next: Ordinal): Claim { c.(next := Later(c.next, next)) }

  /** Opening would delete what is stored before the newest generation is synchronized. */
  ghost predicate Exposed(d: Disk, c: Claim)
    requires WellFormed(d)
  {
    && c.k > 0 && Ordinals(Live(d)) != {} && Newest(Ordinals(Live(d))) < MAX_ORDINAL
    && !Everywhere(d.gens, Newest(Ordinals(Live(d)))) && !HasIncoming(Live(d))
  }

  /** What an open without a reset marker keeps, from the moment it may delete generations. */
  ghost function CleanedClaim(c: Claim, d: Disk): Claim
    requires WellFormed(d)
  {
    var live := Live(d);
    if Ordinals(live) == {} then Bumped(c, 1)
    else
      var newest := Newest(Ordinals(live));
      if Everywhere(d.gens, newest) then AtNewest(d.gens, c, newest)
      else if newest == MAX_ORDINAL then Bumped(c, newest)
      else if HasIncoming(live) then AtNewest([CommittedPart(live)], c, newest)
      else if c.k == 0 then Bumped(c, OpeningNext(live))
      else Claim(0, {}, ContentsOf(d.gens), Later(c.next, OpeningNext(live)), c.shown)
  }

  /** Before and after the step of an open that may replace the claim. */
  ghost function OpenBefore(c: Claim, d: Disk): Claim
    requires WellFormed(d)
  {
    if Marked(d) then ResetClaim(c, d)
    else if Ordinals(Live(d)) != {} && Everywhere(d.gens, Newest(Ordinals(Live(d)))) then CleanedClaim(c, d)
    else Bumped(c, OpeningNext(Live(d)))
  }

  ghost function OpenAfter(c: Claim, d: Disk): Claim
    requires WellFormed(d)
  {
    if Marked(d) then EmptyClaim(c.next) else CleanedClaim(c, d)
  }

  /** Unless the disk is exposed, opening promises no less than before. */
  lemma CleanedOutcomes(c: Claim, d: Disk)
    requires Guarded(d, c) && !Marked(d)
    ensures Outcomes(CleanedClaim(c, d))
         <= Outcomes(c) + if Exposed(d, c) then {Fresh} + OutcomesOf(ContentsOf(d.gens)) else {}
    ensures CleanedClaim(c, d).shown == c.shown
  {
    hide Outcomes, OutcomesOf, CommittedPart, AtNewest, Bounded, HasIncoming, Everywhere, ContentsOf;
    UnmarkedLive(d, c);
    if Ordinals(Live(d)) == {} {
      BumpedOutcomes(c, 1);
    } else {
      var newest := Newest(Ordinals(Live(d)));
      NewestIs(Live(d));
      BaseBelowNewest(Live(d), c, newest);
      hide Holds, ViewHolds, IsNewest, Shown, Newest;
      BumpedOutcomes(c, OpeningNext(Live(d)));
      BumpedOutcomes(c, newest);
      LooseOutcomes(d.gens, Later(c.next, OpeningNext(Live(d))), c.shown);
      AtNewestShown(d.gens, c, newest);
      AtNewestShown([CommittedPart(Live(d))], c, newest);
      if Everywhere(d.gens, newest) { AtNewestHolds(d.gens, c, newest); }
      else if HasIncoming(Live(d)) { CommittedHolds(Live(d), c); AtNewestHolds([CommittedPart(Live(d))], c, newest); }
    }
  }

  lemma BumpedOutcomes(c: Claim, next: Ordinal)
    ensures Outcomes(Bumped(c, next)) == Outcomes(c)
  {
  }

  lemma LooseOutcomes(gens: seq<Directory>, next: Ordinal, shown: set<Outcome>)
    ensures Outcomes(Claim(0, {}, ContentsOf(gens), next, shown)) == {Fresh} + OutcomesOf(ContentsOf(gens))
  {
  }

  lemma AtNewestShown(gens: seq<Directory>, c: Claim, o: Ordinal)
    ensures AtNewest(gens, c, o).shown == c.shown
  {
  }

  lemma UnmarkedLive(d: Disk, c: Claim)
    requires Guarded(d, c) && !Marked(d)
    ensures Holds(d.gens, c) && ViewHolds(Live(d), c) && Shown(Live(d)) in c.shown
  {
    assert Marked(d) in d.marker;
  }

  lemma BaseBelowNewest(live: Directory, c: Claim, newest: Ordinal)
    requires ViewHolds(live, c) && IsNewest(live, newest)
    ensures c.k <= newest
  {
  }

  lemma CommittedHolds(live: Directory, c: Claim)
    requires ViewHolds(live, c) && Shown(live) in c.shown
    ensures Holds([CommittedPart(live)], c)
    ensures forall o: Ordinal :: IsNewest(live, o) ==> Everywhere([CommittedPart(live)], o) && IsNewest(CommittedPart(live), o)
  {
    SameShown(CommittedPart(live), live);
    assert ViewHolds(CommittedPart(live), c);
  }

  /** The claim a single state makes by itself: its newest generation, whatever that contains. */
  ghost function ImageClaim(image: Directory): (c: Claim)
    ensures ViewHolds(image, c) && Shown(image) in c.shown
  {
    if Ordinals(image) == {} then EmptyClaim(1) else
    var newest := Newest(Ordinals(image));
    Claim(newest, {image[Generation(newest)]}, {}, PreferenceDisk.After(newest), {Shown(image)})
  }

  /** Right after a crash or a clean start there is one directory state and one marker state. */
  ghost predicate Mounted(d: Disk) { |d.gens| == 1 && |d.marker| == 1 }

  lemma MountedGuarded(d: Disk)
    requires Mounted(d) && |Live(d)| <= MAX_DIRECTORY_ENTRIES
    ensures Guarded(d, ImageClaim(Live(d))) && Outcomes(ImageClaim(Live(d))) == {Shown(Live(d))}
  {
    assert d.gens == [Live(d)];
    if Ordinals(Live(d)) != {} { NewestIs(Live(d)); }
  }

  /** Every disk within the bound keeps some claim, so that any of them can be opened. */
  lemma AnyClaim(d: Disk)
    requires WellFormed(d) && Bounded(d.gens)
    ensures Guarded(d, Claim(0, {}, ContentsOf(d.gens), MAX_ORDINAL, {Fresh} + OutcomesOf(ContentsOf(d.gens))))
  {
    var c := Claim(0, {}, ContentsOf(d.gens), MAX_ORDINAL, {Fresh} + OutcomesOf(ContentsOf(d.gens)));
    forall i | 0 <= i < |d.gens| ensures ViewHolds(d.gens[i], c) && Shown(d.gens[i]) in c.shown {
      ShownStored(d, i);
      forall o: Ordinal | Generation(o) in d.gens[i] ensures d.gens[i][Generation(o)] in c.attempts {
        assert d.gens[i][Generation(o)] in Contents(d.gens[i]);
      }
    }
  }

  /** Recovers a store from the live directory, whatever of it is synchronized: finishes a pending reset, or drops
      incoming files, reads the newest generation and deletes the superseded ones. */
  method Open(fs: FileSystem, ghost c: Claim) returns (status: Status, store: AccessibilityStore?)
    requires WellFormed(fs.disk) && (|Live(fs.disk)| <= MAX_DIRECTORY_ENTRIES ==> Guarded(fs.disk, c))
    modifies fs
    ensures WellFormed(fs.disk) && old(fs.history) <= fs.history && old(fs.faults) <= fs.faults
    ensures |Live(old(fs.disk))| > MAX_DIRECTORY_ENTRIES ==>
              fs.disk == old(fs.disk) && fs.history == old(fs.history) && status.Failed?
    ensures |Live(old(fs.disk))| <= MAX_DIRECTORY_ENTRIES ==>
              var d := old(fs.disk);
              && Covered(fs.history, |old(fs.history)|, OpenBefore(c, d), OpenAfter(c, d), OpenScope(d))
              && CoveredAt(fs.disk, OpenBefore(c, d), OpenAfter(c, d), OpenScope(d))
    ensures OpenLeaves(old(fs.disk), fs.disk)
    ensures status.Done? ==> store != null && fresh(store) && store.fs == fs && store.Valid()
    ensures status.Done? ==> store.snapshot == Reopened(Live(old(fs.disk)), Marked(old(fs.disk))) && store.snapshot != Refused
    ensures status.Done? ==> store.nextOrdinal == if Marked(old(fs.disk)) then 1 else OpeningNext(Live(old(fs.disk)))
    ensures status.Done? ==> OpenDone(old(fs.disk), c, fs.disk, store.claim)
    ensures status.Failed? ==> old(fs.faults) < fs.faults || Reopened(Live(old(fs.disk)), Marked(old(fs.disk))) == Refused
  {
    store := null;
    if |Live(fs.disk)| > MAX_DIRECTORY_ENTRIES {
      return Failed(TooManyEntries), null;
    }
    if Marked(fs.disk) {
      status, store := OpenMarked(fs, c);
    } else {
      status, store := OpenUnmarked(fs, c);
    }
  }

  /** What an open may do to the disk, finished or not. */
  ghost predicate OpenLeaves(before: Disk, after: Disk)
    requires WellFormed(before) && WellFormed(after)
  {
    && Live(after).Keys <= Live(before).Keys
    && (after.marker == before.marker || (Marked(before) && after.gens == [map[]]))
  }

  /** What it has done once it is finished. */
  ghost predicate OpenDone(before: Disk, c: Claim, after: Disk, claim: Claim)
    requires WellFormed(before) && WellFormed(after)
  {
    if Marked(before) then Settled(after, claim) && claim == EmptyClaim(1)
    else
      && claim == CleanedClaim(c, before)
      && (after.gens == before.gens || after.gens == [Live(after)])
      && Live(after) == (if Ordinals(Live(before)) == {} then map[]
                         else WithoutOlder(CommittedPart(Live(before)), Newest(Ordinals(Live(before)))))
  }

  lemma OpenScopeWithin(d: Disk)
    requires WellFormed(d)
    ensures InScope(d, OpenScope(d)) && (Marked(d) ==> OpenScope(d).marks == {false, true})
  {
    assert Marked(d) in d.marker;
  }

  method OpenMarked(fs: FileSystem, ghost c: Claim) returns (status: Status, store: AccessibilityStore?)
    requires WellFormed(fs.disk) && Guarded(fs.disk, c) && Marked(fs.disk)
    modifies fs
    ensures WellFormed(fs.disk) && old(fs.history) <= fs.history && old(fs.faults) <= fs.faults
    ensures Covered(fs.history, |old(fs.history)|, ResetClaim(c, old(fs.disk)), EmptyClaim(c.next), OpenScope(old(fs.disk)))
    ensures CoveredAt(fs.disk, ResetClaim(c, old(fs.disk)), EmptyClaim(c.next), OpenScope(old(fs.disk)))
    ensures OpenLeaves(old(fs.disk), fs.disk)
    ensures status.Done? ==> store != null && fresh(store) && store.fs == fs && store.Valid()
    ensures status.Done? ==> Settled(fs.disk, store.claim) && store.claim == EmptyClaim(1) && store.snapshot == Fresh && store.nextOrdinal == 1
    ensures status.Failed? ==> old(fs.faults) < fs.faults
  {
    hide Holds, Bounded, Within, Stores, Loose;
    OpenScopeWithin(fs.disk);
    LoosenedHolds(fs.disk, c);
    var finished; ghost var emptied;
    finished, emptied := fs.FinishReset(ResetClaim(c, fs.disk), OpenScope(fs.disk));
    if !finished {
      return Failed(Io), null;
    }
    EmptyHolds(1);
    store := new AccessibilityStore(fs, 1, Fresh, EmptyClaim(1));
    status := Done;
  }

  lemma AnyIncoming(live: Directory, incoming: set<Name>)
    requires incoming == set n | n in live && n.Incoming?
    ensures HasIncoming(live) <==> incoming != {}
  {
    if HasIncoming(live) {
      var n :| n in live && n.Incoming?;
      assert n in incoming;
    }
  }

  /** Deletes incomplete incoming files and synchronizes if there were any. */
  method RemoveIncoming(fs: FileSystem, ghost c: Claim, ghost scope: Scope) returns (ok: bool)
    requires Guarded(fs.disk, c) && InScope(fs.disk, scope)
    modifies fs
    ensures old(fs.history) <= fs.history && Covered(fs.history, |old(fs.history)|, c, c, scope)
    ensures Guarded(fs.disk, c) && InScope(fs.disk, scope) && fs.disk.marker == old(fs.disk.marker)
    ensures ok ==> Live(fs.disk) == CommittedPart(Live(old(fs.disk)))
    ensures ok ==> if HasIncoming(Live(old(fs.disk))) then fs.disk.gens == [Live(fs.disk)] else fs.disk == old(fs.disk)
    ensures Live(fs.disk).Keys <= Live(old(fs.disk)).Keys
    ensures old(fs.faults) <= fs.faults && (!ok ==> old(fs.faults) < fs.faults)
  {
    hide Holds, Bounded, Within, Stores, Loose;
    var incoming := set n | n in Live(fs.disk) && n.Incoming?;
    ok := fs.RemoveNames(incoming, c, scope);
    assert Live(old(fs.disk)) - incoming == CommittedPart(Live(old(fs.disk)));
    AnyIncoming(Live(old(fs.disk)), incoming);
    if ok && incoming != {} {
      ghost var logged := fs.history;
      ok := fs.SynchronizeGenerations(c, scope);
      JoinCovered(logged, fs.history, |old(fs.history)|, c, c, scope);
    }
  }

  method OpenUnmarked(fs: FileSystem, ghost c: Claim) returns (status: Status, store: AccessibilityStore?)
    requires WellFormed(fs.disk) && Guarded(fs.disk, c) && !Marked(fs.disk) && |Live(fs.disk)| <= MAX_DIRECTORY_ENTRIES
    modifies fs
    ensures WellFormed(fs.disk) && old(fs.history) <= fs.history && old(fs.faults) <= fs.faults
    ensures Covered(fs.history, |old(fs.history)|, OpenBefore(c, old(fs.disk)), CleanedClaim(c, old(fs.disk)), OpenScope(old(fs.disk)))
    ensures CoveredAt(fs.disk, OpenBefore(c, old(fs.disk)), CleanedClaim(c, old(fs.disk)), OpenScope(old(fs.disk)))
    ensures OpenLeaves(old(fs.disk), fs.disk)
    ensures status.Done? ==> store != null && fresh(store) && store.fs == fs && store.Valid()
    ensures status.Done? ==> store.snapshot == Reopened(Live(old(fs.disk)), false) && store.snapshot != Refused
    ensures status.Done? ==> store.nextOrdinal == OpeningNext(Live(old(fs.disk)))
    ensures status.Done? ==> OpenDone(old(fs.disk), c, fs.disk, store.claim)
    ensures status.Failed? ==> old(fs.faults) < fs.faults || Reopened(Live(old(fs.disk)), false) == Refused
  {
    hide Holds, Bounded, Within, Stores, Loose, CleanedClaim, CommittedPart, HasIncoming, Reopened;
    ghost var d, b, from := fs.disk, OpenBefore(c, fs.disk), |fs.history|;
    OpenScopeWithin(d);
    BeforeHolds(d, c);
    var removed := RemoveIncoming(fs, b, OpenScope(d));
    Extend(old(fs.history), fs.history, from, b, CleanedClaim(c, d), b, OpenScope(d));
    if !removed {
      return Failed(Io), null;
    }
    AfterIncoming(d, c, fs.disk);
    if Committed(Live(fs.disk)) == {} {
      store := new AccessibilityStore(fs, 1, Fresh, CleanedClaim(c, d));
      return Done, store;
    }
    status, store := OpenNewest(fs, c, d, from);
  }

  lemma BeforeHolds(d: Disk, c: Claim)
    requires Guarded(d, c) && !Marked(d)
    ensures Guarded(d, OpenBefore(c, d))
  {
    UnmarkedLive(d, c);
    WeakenClaim(d, c, Bumped(c, OpeningNext(Live(d))));
    if Ordinals(Live(d)) != {} {
      var newest := Newest(Ordinals(Live(d)));
      NewestIs(Live(d));
      BaseBelowNewest(Live(d), c, newest);
      if Everywhere(d.gens, newest) { AtNewestHolds(d.gens, c, newest); }
    }
  }

  /** Without incoming files the claim for the cleanup is in force. */
  lemma AfterIncoming(d: Disk, c: Claim, e: Disk)
    requires Guarded(d, c) && !Marked(d) && Guarded(e, OpenBefore(c, d)) && e.marker == d.marker
    requires Live(e) == CommittedPart(Live(d)) && |Live(d)| <= MAX_DIRECTORY_ENTRIES
    requires if HasIncoming(Live(d)) then e.gens == [Live(e)] else e == d
    ensures Guarded(e, CleanedClaim(c, d)) && (Committed(Live(e)) == {} <==> Ordinals(Live(d)) == {})
    ensures Ordinals(Live(d)) == {} ==>
              && CleanedClaim(c, d) == Bumped(c, 1) && c.k == 0 && Live(e) == map[]
              && Reopened(Live(d), false) == Fresh && Numbered(Live(e), 1)
  {
    UnmarkedLive(d, c);
    assert forall o: Ordinal :: o in Ordinals(Live(d)) <==> Generation(o) in Committed(Live(e));
    if Ordinals(Live(d)) == {} {
      assert Live(e).Keys == Committed(Live(e));
      assert forall n :: n in Committed(Live(e)) ==> n.ordinal in Ordinals(Live(d));
    } else if Newest(Ordinals(Live(d))) < MAX_ORDINAL {
      assert Newest(Ordinals(Live(d))) in Ordinals(Live(d));
      CleanedHolds(d, c, e);
    }
  }

  lemma CleanedHolds(d: Disk, c: Claim, e: Disk)
    requires Guarded(d, c) && !Marked(d) && Guarded(e, OpenBefore(c, d)) && e.marker == d.marker
    requires if HasIncoming(Live(d)) then e.gens == [CommittedPart(Live(d))] else e == d
    requires Ordinals(Live(d)) != {} && Newest(Ordinals(Live(d))) < MAX_ORDINAL
    ensures Guarded(e, CleanedClaim(c, d))
  {
    var newest := Newest(Ordinals(Live(d)));
    UnmarkedLive(d, c);
    NewestIs(Live(d));
    BaseBelowNewest(Live(d), c, newest);
    CommittedHolds(Live(d), c);
    hide Holds, ViewHolds, Bounded, Shown, CommittedPart;
    if Everywhere(d.gens, newest) {
      AtNewestHolds(d.gens, c, newest);
      if HasIncoming(Live(d)) { OneOfMany(d, c, newest); }
    } else if HasIncoming(Live(d)) {
      AtNewestHolds(e.gens, c, newest);
    } else if c.k > 0 {
      AnythingHolds(d, c, OpeningNext(Live(d)));
    }
  }

  lemma AnythingHolds(d: Disk, c: Claim, next: Ordinal)
    requires WellFormed(d) && Holds(d.gens, c)
    ensures Holds(d.gens, Claim(0, {}, ContentsOf(d.gens), Later(c.next, next), c.shown))
  {
    var loose := Claim(0, {}, ContentsOf(d.gens), Later(c.next, next), c.shown);
    forall i | 0 <= i < |d.gens| ensures ViewHolds(d.gens[i], loose) && Shown(d.gens[i]) in loose.shown {
      assert ViewHolds(d.gens[i], c);
      forall o: Ordinal | Generation(o) in d.gens[i] ensures d.gens[i][Generation(o)] in ContentsOf(d.gens) {
        assert d.gens[i][Generation(o)] in Contents(d.gens[i]);
      }
    }
  }

  /** The claim over all states covers the last of them without its incoming files. */
  lemma OneOfMany(d: Disk, c: Claim, newest: Ordinal)
    requires WellFormed(d) && Holds(d.gens, AtNewest(d.gens, c, newest))
    ensures Holds([CommittedPart(Live(d))], AtNewest(d.gens, c, newest))
  {
    LiveView(d, AtNewest(d.gens, c, newest));
    CommittedHolds(Live(d), AtNewest(d.gens, c, newest));
  }

  lemma NewestOfCommitted(live: Directory, newest: Name)
    requires newest in Committed(CommittedPart(live))
    requires forall n :: n in Committed(CommittedPart(live)) ==> n.ordinal <= newest.ordinal
    ensures Ordinals(live) != {} && newest == Generation(Newest(Ordinals(live))) && IsNewest(CommittedPart(live), newest.ordinal)
    ensures IsNewest(live, newest.ordinal) && CommittedPart(live)[newest] == live[newest]
  {
    assert newest.ordinal in Ordinals(live);
    forall o: Ordinal | Generation(o) in live ensures o <= newest.ordinal {
      assert Generation(o) in Committed(CommittedPart(live));
    }
    ShownNewest(live, newest.ordinal);
  }

  /** Reads the newest generation and cleans up the older ones. */
  method OpenNewest(fs: FileSystem, ghost c: Claim, ghost d: Disk, ghost from: nat)
    returns (status: Status, store: AccessibilityStore?)
    requires Guarded(d, c) && !Marked(d) && |Live(d)| <= MAX_DIRECTORY_ENTRIES
    requires Guarded(fs.disk, CleanedClaim(c, d)) && InScope(fs.disk, OpenScope(d))
    requires fs.disk.marker == d.marker && Live(fs.disk) == CommittedPart(Live(d))
    requires fs.disk.gens == d.gens || fs.disk.gens == [Live(fs.disk)]
    requires Committed(CommittedPart(Live(d))) != {}
    requires Covered(fs.history, from, OpenBefore(c, d), CleanedClaim(c, d), OpenScope(d))
    modifies fs
    ensures WellFormed(fs.disk) && old(fs.history) <= fs.history && old(fs.faults) <= fs.faults
    ensures Covered(fs.history, from, OpenBefore(c, d), CleanedClaim(c, d), OpenScope(d))
    ensures CoveredAt(fs.disk, OpenBefore(c, d), CleanedClaim(c, d), OpenScope(d)) && OpenLeaves(d, fs.disk)
    ensures status.Done? ==> store != null && fresh(store) && store.fs == fs && store.Valid()
    ensures status.Done? ==> store.snapshot == Reopened(Live(d), false) && store.snapshot != Refused
    ensures status.Done? ==> store.nextOrdinal == OpeningNext(Live(d))
    ensures status.Done? ==> OpenDone(d, c, fs.disk, store.claim)
    ensures status.Failed? ==> old(fs.faults) < fs.faults || Reopened(Live(d), false) == Refused
  {
    hide Holds, Bounded, InScope, CleanedClaim, CommittedPart;
    store := null;
    var live := Live(fs.disk);
    var committed := Committed(live);
    NewestExists(committed);
    var newest :| newest in committed && forall n :: n in committed ==> n.ordinal <= newest.ordinal;
    NewestOfCommitted(Live(d), newest);
    ShownNewest(Live(d), newest.ordinal);
    if newest.ordinal == MAX_ORDINAL {
      OpeningKept(d, fs.disk);
      return Failed(OrdinalsExhausted), null;
    }
    status, store := FinishOpen(fs, newest, c, d, from);
  }

  lemma OpeningKept(d: Disk, e: Disk)
    requires WellFormed(d) && WellFormed(e) && Live(e) == CommittedPart(Live(d)) && e.marker == d.marker && !Marked(d)
    ensures OpenLeaves(d, e)
  {
  }

  /** The claim for the cleanup spares the newest generation. */
  lemma CleanedBase(d: Disk, c: Claim, live: Directory)
    requires Guarded(d, c) && !Marked(d) && live == CommittedPart(Live(d))
    requires Ordinals(Live(d)) != {} && Newest(Ordinals(Live(d))) < MAX_ORDINAL
    ensures CleanedClaim(c, d).k == 0 || IsNewest(live, CleanedClaim(c, d).k)
    ensures var next := OpeningNext(Live(d)); CleanedClaim(c, d).k < next <= CleanedClaim(c, d).next && next == Newest(Ordinals(Live(d))) + 1
  {
    UnmarkedLive(d, c);
    NewestIs(Live(d));
    CommittedHolds(Live(d), c);
  }

  /** Deletes what the newest generation supersedes and builds the store. */
  method FinishOpen(fs: FileSystem, newest: Name, ghost c: Claim, ghost d: Disk, ghost from: nat)
    returns (status: Status, store: AccessibilityStore?)
    requires Guarded(d, c) && !Marked(d) && |Live(d)| <= MAX_DIRECTORY_ENTRIES
    requires Guarded(fs.disk, CleanedClaim(c, d)) && InScope(fs.disk, OpenScope(d))
    requires fs.disk.marker == d.marker && Live(fs.disk) == CommittedPart(Live(d))
    requires fs.disk.gens == d.gens || fs.disk.gens == [Live(fs.disk)]
    requires Ordinals(Live(d)) != {} && newest == Generation(Newest(Ordinals(Live(d)))) && newest.ordinal < MAX_ORDINAL
    requires newest in Live(fs.disk) && newest in Live(d) && Live(fs.disk)[newest] == Live(d)[newest]
    requires IsNewest(Live(fs.disk), newest.ordinal) && Shown(Live(d)) == OutcomeOf(Live(d)[newest])
    requires Covered(fs.history, from, OpenBefore(c, d), CleanedClaim(c, d), OpenScope(d))
    modifies fs
    ensures WellFormed(fs.disk) && old(fs.history) <= fs.history && old(fs.faults) <= fs.faults
    ensures Covered(fs.history, from, OpenBefore(c, d), CleanedClaim(c, d), OpenScope(d))
    ensures CoveredAt(fs.disk, OpenBefore(c, d), CleanedClaim(c, d), OpenScope(d)) && OpenLeaves(d, fs.disk)
    ensures status.Done? ==> store != null && fresh(store) && store.fs == fs && store.Valid()
    ensures status.Done? ==> store.snapshot == Reopened(Live(d), false) && store.snapshot != Refused
    ensures status.Done? ==> store.nextOrdinal == OpeningNext(Live(d))
    ensures status.Done? ==> OpenDone(d, c, fs.disk, store.claim)
    ensures status.Failed? ==> old(fs.faults) < fs.faults
  {
    hide Holds, Bounded, Within, Stores, Contents, CleanedClaim, CommittedPart, WithoutOlder;
    store := null;
    var live := Live(fs.disk);
    ghost var logged, e := fs.history, CleanedClaim(c, d);
    CleanedBase(d, c, live);
    CommittedKeys(Live(d));
    var cleaned := fs.CleanupOldGenerations(e, OpenScope(d));
    Extend(logged, fs.history, from, OpenBefore(c, d), e, e, OpenScope(d));
    if !cleaned {
      return Failed(Io), null;
    }
    OnlyNewestLeft(live, newest.ordinal);
    store := new AccessibilityStore(fs, newest.ordinal + 1, OutcomeOf(live[newest]), e);
    status := Done;
  }

  lemma CommittedKeys(live: Directory)
    ensures CommittedPart(live).Keys <= live.Keys && forall n :: n in CommittedPart(live) ==> n.Generation?
  {
  }

  lemma OnlyNewestLeft(live: Directory, o: Ordinal)
    requires Generation(o) in live && (forall n :: n in live ==> n.Generation?) && o < MAX_ORDINAL
    ensures Numbered(WithoutOlder(live, o), o + 1)
  {
  }
}
