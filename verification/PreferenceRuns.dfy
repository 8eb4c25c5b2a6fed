/** What a run of the preference store is, what it owes the user, and what every operation keeps. */
module PreferenceRuns {
  import opened Collections
  import opened PreferenceDisk
  import opened AccessibilityStore
  import opened AccessibilityRecovery

  // ---- One save ----

  /** What a crash may leave of a disk state logged during an operation from claim `c` towards claim `e`. */
  lemma CoveredOutcome(d: Disk, c: Claim, e: Claim, scope: Scope)
    requires CoveredAt(d, c, e, scope)
    ensures CrashSafe(d, Possible(d, c) + Possible(d, e) + {Refused})
    ensures c.next < MAX_ORDINAL && e.next < MAX_ORDINAL ==> OrderedSafe(d, Possible(d, c) + Possible(d, e))
    ensures c.next < MAX_ORDINAL && e.next < MAX_ORDINAL && |scope.names| <= MAX_DIRECTORY_ENTRIES
            ==> CrashSafe(d, Possible(d, c) + Possible(d, e))
  {
    var kept := if Guarded(d, c) then c else e;
    GuardedSafe(d, kept);
    if c.next < MAX_ORDINAL && e.next < MAX_ORDINAL {
      OrderedNeverRefused(d, kept);
      if |scope.names| <= MAX_DIRECTORY_ENTRIES { FewNamesNeverRefused(d, kept, scope.names); }
    }
  }

  lemma CrashMono(d: Disk, small: set<Outcome>, large: set<Outcome>)
    requires CrashSafe(d, small) && small <= large
    ensures CrashSafe(d, large)
  {
  }

  lemma ClaimOutcomes(c: Claim, next: Ordinal, p: Preferences)
    ensures Outcomes(Attempting(c, p)) == Outcomes(c) + {Saved(p)}
    ensures Outcomes(Acknowledged(next, p)) == {Saved(p)}
  {
    assert OutcomeOf(Document(p)) == Saved(p);
    forall a | a in c.attempts ensures OutcomeOf(a) in Outcomes(Attempting(c, p)) {
      assert a in Attempting(c, p).attempts;
    }
  }

  /** Saving on a settled store: a crash at any step reopens as the old document or the new one, and nothing else,
      even when directory updates persist in any order. */
  lemma SettledSaveIsAtomic(start: Disk, c: Claim, next: Ordinal, p: Preferences, d: Disk)
    requires Settled(start, c) && c.k < next && c.next < MAX_ORDINAL && next + 1 < MAX_ORDINAL
    requires CoveredAt(d, Attempting(c, p), Acknowledged(next, p), SaveScope(start, next, p))
    ensures CrashSafe(d, {Reopened(Live(start), false), Saved(p)})
  {
    SettledNames(start, c, next);
    SettledReopens(start, c);
    hide CoveredAt, Tidy, Outcomes, CrashSafe, SaveScope, SaveNames, Reopened, Shown;
    FewNamesSave(start, c, next, p, d);
    ClaimOutcomes(c, next, p);
    TidyOutcomes(start, c);
    CrashMono(d, Possible(start, Attempting(c, p)), {Reopened(Live(start), false), Saved(p)});
  }

  lemma SettledReopens(d: Disk, c: Claim)
    requires Settled(d, c) && c.next < MAX_ORDINAL
    ensures Reopened(Live(d), false) == Shown(Live(d))
  {
    assert ViewHolds(d.gens[0], c) && |Live(d).Keys| == |Live(d)|;
    if Ordinals(Live(d)) != {} { NewestIs(Live(d)); }
  }

  datatype Crashes = AnyOrder | InOrder

  /** What the generations on the disk would be reported as, one by one; in order, only those of the live directory
      can come back. */
  ghost function OnDisk(mode: Crashes, d: Disk): set<Outcome>
    requires WellFormed(d)
  {
    OutcomesOf(if mode.AnyOrder? then ContentsOf(d.gens) else Contents(Live(d)))
  }

  lemma TidyOutcomes(d: Disk, c: Claim)
    requires WellFormed(d) && Tidy(d, c)
    ensures Outcomes(c) == {Shown(d.gens[0])} && OutcomesOf(ContentsOf(d.gens)) <= Outcomes(c)
    ensures ContentsOf(d.gens) == Contents(Live(d))
  {
    assert ViewHolds(d.gens[0], c);
    OneState(d.gens);
    if c.k > 0 {
      ShownNewest(d.gens[0], c.k);
      assert d.gens[0][Generation(c.k)] in c.bases;
      forall x | x in c.bases ensures x == d.gens[0][Generation(c.k)] {
        var n :| n in d.gens[0] && n.Generation? && d.gens[0][n] == x;
      }
    } else {
      assert Ordinals(d.gens[0]) == {} && Contents(d.gens[0]) == {};
    }
  }

  lemma OneState(gens: seq<Directory>)
    requires |gens| == 1
    ensures ContentsOf(gens) == Contents(gens[0])
  {
  }

  ghost predicate SaveNeverRefused(start: Disk, c: Claim, next: Ordinal, p: Preferences)
    requires WellFormed(start)
  {
    forall d :: CoveredAt(d, Attempting(c, p), Acknowledged(next, p), SaveScope(start, next, p))
                ==> CrashSafe(d, Possible(start, Attempting(c, p)))
  }

  /** Whether a crash during a save with room for it can make the store refuse to open is decided before the save:
      exactly when more than four names would be in play. */
  lemma SaveNeverRefusedIff(start: Disk, c: Claim, next: Ordinal, p: Preferences)
    requires Consistent(start, c, next) && c.next < MAX_ORDINAL && next + 1 < MAX_ORDINAL
    requires Incoming(next) !in Live(start) && |Committed(Live(start))| < MAX_DIRECTORY_ENTRIES
    ensures SaveNeverRefused(start, c, next, p) <==> |SaveNames(start, next)| <= MAX_DIRECTORY_ENTRIES
  {
    if |SaveNames(start, next)| <= MAX_DIRECTORY_ENTRIES {
      forall d | CoveredAt(d, Attempting(c, p), Acknowledged(next, p), SaveScope(start, next, p))
        ensures CrashSafe(d, Possible(start, Attempting(c, p)))
      {
        FewNamesSave(start, c, next, p, d);
      }
    } else {
      hide Consistent, SaveNames, SaveScope, CoveredAt, CrashSafe, Committed, Outcomes, Renamed;
      RenamedCovered(start, c, next, p);
      RenamedNames(start, p, next);
      NeverRefusable(Attempting(c, p));
      OverfullRefused(Renamed(start, p, next), Possible(start, Attempting(c, p)));
    }
  }

  lemma FewNamesSave(start: Disk, c: Claim, next: Ordinal, p: Preferences, d: Disk)
    requires WellFormed(start) && c.next < MAX_ORDINAL && next + 1 < MAX_ORDINAL
    requires |SaveNames(start, next)| <= MAX_DIRECTORY_ENTRIES
    requires CoveredAt(d, Attempting(c, p), Acknowledged(next, p), SaveScope(start, next, p))
    ensures CrashSafe(d, Possible(start, Attempting(c, p)))
  {
    hide Guarded, CrashSafe, OrderedSafe, Outcomes, Within, Stores;
    CoveredOutcome(d, Attempting(c, p), Acknowledged(next, p), SaveScope(start, next, p));
    ClaimOutcomes(c, next, p);
    CrashMono(d, Possible(d, Attempting(c, p)) + Possible(d, Acknowledged(next, p)), Possible(start, Attempting(c, p)));
  }

  lemma NeverRefusable(c: Claim)
    ensures Refused !in Outcomes(c)
  {
  }

  /** The state right after the rename is one of those a save passes through. */
  lemma RenamedCovered(start: Disk, c: Claim, next: Ordinal, p: Preferences)
    requires Consistent(start, c, next)
    requires Incoming(next) !in Live(start) && |Committed(Live(start))| < MAX_DIRECTORY_ENTRIES
    ensures CoveredAt(Renamed(start, p, next), Attempting(c, p), Acknowledged(next, p), SaveScope(start, next, p))
  {
    hide Guarded, InScope, Consistent, Attempting, Committed;
    StartsSave(start, c, next, p);
    var a, scope := Attempting(c, p), SaveScope(start, next, p);
    hide SaveScope, Numbered;
    var first := Put(start, Incoming(next), Torn);
    var second := Put(first, Incoming(next), Document(p));
    PutIncoming(start, next, Torn, a, scope);
    PutIncoming(first, next, Document(p), a, scope);
    StillNumbered(Live(start), next, p);
    Publish(second, p, next, a, scope);
  }

  lemma StartsSave(start: Disk, c: Claim, next: Ordinal, p: Preferences)
    requires Consistent(start, c, next)
    requires Incoming(next) !in Live(start) && |Committed(Live(start))| < MAX_DIRECTORY_ENTRIES
    ensures var a, scope := Attempting(c, p), SaveScope(start, next, p);
            && WellFormed(start) && Guarded(start, a) && InScope(start, scope) && |Live(start)| < MAX_DIRECTORY_ENTRIES
            && Incoming(next) in scope.names * scope.live && Generation(next) in scope.names * scope.live
            && Document(p) in scope.contents && Document(p) in a.attempts && Saved(p) in a.shown && a.k < next <= a.next
            && Numbered(Live(start), next)
  {
    NamesWithin(start, next, p);
    WeakenClaim(start, c, Attempting(c, p));
    Headroom(Live(start), next);
  }

  lemma StillNumbered(live: Directory, next: Ordinal, p: Preferences)
    requires Numbered(live, next)
    ensures Numbered(live[Incoming(next) := Torn][Incoming(next) := Document(p)], next)
  {
  }

  lemma RenamedNames(start: Disk, p: Preferences, next: Ordinal)
    requires WellFormed(start)
    ensures NamesOf(Renamed(start, p, next).gens) == SaveNames(start, next)
  {
    RenamedViews(start, p, next);
    var gens := Renamed(start, p, next).gens;
    hide Renamed;
    assert Incoming(next) in gens[|start.gens|] && Generation(next) in gens[|start.gens| + 2];
    forall n | n in NamesOf(start.gens) ensures n in NamesOf(gens) {
      var i :| 0 <= i < |start.gens| && n in start.gens[i];
      assert n in gens[i];
    }
    forall n | n in NamesOf(gens) ensures n in SaveNames(start, next) {
      var i :| 0 <= i < |gens| && n in gens[i];
      assert n in Live(start) || i < |start.gens| || n in {Incoming(next), Generation(next)};
    }
  }

  // ---- What the user was told ----

  datatype Command = SaveCommand(preferences: Preferences) | ResetCommand | Restart | PowerLoss

  /** What came of opening: the store as it was found, the end of a pending reset, or an error without or with a reset
      still pending. */
  datatype Opening = Found | Completed | Unopened | Unfinished {
    predicate Opened() { Found? || Completed? }
  }

  /** A restart opens the live directory, synchronized or not; after a loss of power only what persisted is there. */
  datatype Event =
    | SaveAcknowledged(preferences: Preferences) | SaveAttempted(preferences: Preferences)
    | ResetAcknowledged | ResetAttempted
    | Restarted(opening: Opening) | PowerRestored(opening: Opening)
    | NotOpen

  /** The last acknowledged state and everything attempted since. */
  function Allowed(first: set<Outcome>, events: seq<Event>): set<Outcome> {
    if events == [] then first else Since(Allowed(first, events[..|events| - 1]), events[|events| - 1])
  }

  function Since(before: set<Outcome>, e: Event): set<Outcome> {
    match e
    case SaveAcknowledged(p) => {Saved(p)}
    case SaveAttempted(p) => before + {Saved(p)}
    case ResetAcknowledged => {Fresh}
    case ResetAttempted => before + {Fresh}
    case NotOpen => before
    case _ => match e.opening
      case Completed => {Fresh}
      case Unfinished => before + {Fresh}
      case _ => before
  }

  /** What can really be stored; whether a failed reset may have left its marker; and whether the newest generation may
      not be synchronized, so that a restart can delete what was stored before it. */
  datatype Standing = Standing(stored: set<Outcome>, pending: bool, loose: bool) {
    /** What reopening may report. */
    function Reports(): set<Outcome> { stored + (if pending then {Fresh} else {}) }

    /** The same after one more restart. */
    function Restartable(mode: Crashes): set<Outcome> {
      stored + if loose && mode.AnyOrder? then {Fresh} else {}
    }

    function Then(mode: Crashes, e: Event): Standing {
      match e
      case SaveAcknowledged(p) => Standing({Saved(p)}, pending, false)
      case SaveAttempted(p) => Standing(stored + {Saved(p)}, pending, true)
      case ResetAcknowledged => Standing({Fresh}, false, false)
      case ResetAttempted => Standing(stored + {Fresh}, true, true)
      case NotOpen => this
      case Restarted(o) => Reopens(Restartable(mode), pending, loose, o)
      case PowerRestored(o) => Reopens(Reports(), false, false, o)
    }
  }

  function Reopens(found: set<Outcome>, pending: bool, loose: bool, o: Opening): Standing {
    match o
    case Completed => Standing({Fresh}, false, false)
    case Unfinished => Standing(found + {Fresh}, true, true)
    case _ => Standing(found, pending, loose)
  }

  function StandingOf(mode: Crashes, first: Standing, events: seq<Event>): Standing {
    if events == [] then first
    else StandingOf(mode, first, events[..|events| - 1]).Then(mode, events[|events| - 1])
  }

  function Stored(first: set<Outcome>): Standing { Standing(first, false, false) }

  /** What a directory holds before the first start: what opening it reports and, where directory updates may be lost
      in any order, whatever else an unfinished cleanup left on it. */
  ghost function Initially(mode: Crashes, image: Directory, marked: bool): set<Outcome> {
    {Reopened(image, marked)}
    + if mode.AnyOrder? && !marked && Reopened(image, marked) != Refused then OutcomesOf(Contents(image)) else {}
  }

  /** No save was acknowledged over a failed reset, and the process was not restarted over a failed save where crashes
      may scatter directory updates. */
  predicate Undisturbed(mode: Crashes, first: set<Outcome>, events: seq<Event>) {
    events == []
    || var now, e := StandingOf(mode, Stored(first), events[..|events| - 1]), events[|events| - 1];
       && Undisturbed(mode, first, events[..|events| - 1])
       && !(e.SaveAcknowledged? && now.pending)
       && !(e.Restarted? && mode.AnyOrder? && now.loose && Fresh !in now.stored)
  }

  /** Then reopening reports the last acknowledged state or a later attempt. */
  lemma {:induction false} StandingAsAllowed(mode: Crashes, first: set<Outcome>, events: seq<Event>)
    requires Undisturbed(mode, first, events)
    ensures StandingOf(mode, Stored(first), events).stored == Allowed(first, events)
    ensures StandingOf(mode, Stored(first), events).Reports() == Allowed(first, events)
  {
    if events != [] { StandingAsAllowed(mode, first, events[..|events| - 1]); }
  }

  lemma {:induction false} StandingJoins(mode: Crashes, first: Standing, events: seq<Event>, more: seq<Event>)
    ensures StandingOf(mode, first, events + more) == StandingOf(mode, StandingOf(mode, first, events), more)
    decreases |more|
  {
    if more == [] {
      assert events + more == events;
    } else {
      assert (events + more)[..|events + more| - 1] == events + more[..|more| - 1];
      StandingJoins(mode, first, events, more[..|more| - 1]);
    }
  }

  // ---- What the log of a run says ----

  function IsOpen(before: bool, events: seq<Event>): bool {
    if events == [] then before else
    var e := events[|events| - 1];
    if IsOutage(e) then e.opening.Opened() else IsOpen(before, events[..|events| - 1])
  }

  predicate IsOutage(e: Event) { e.Restarted? || e.PowerRestored? }

  /** One outage after another, each but the last one striking while the store was being opened again. */
  predicate Outages(events: seq<Event>) {
    events != []
    && forall i :: 0 <= i < |events| ==> IsOutage(events[i]) && (i < |events| - 1 ==> !events[i].opening.Opened())
  }

  /** One entry for each command: what the store answered, and possibly outages from the middle of it on. */
  predicate Answers(open: bool, command: Command, entry: seq<Event>) {
    match command
    case SaveCommand(p) =>
      if open then
        || entry == [SaveAcknowledged(p)] || entry == [SaveAttempted(p)]
        || (entry != [] && entry[0] == SaveAttempted(p) && Outages(entry[1..]))
      else entry == [NotOpen]
    case ResetCommand =>
      if open then
        || entry == [ResetAcknowledged] || entry == [ResetAttempted]
        || (entry != [] && entry[0] == ResetAttempted && Outages(entry[1..]))
      else entry == [NotOpen]
    case Restart => Outages(entry) && entry[0].Restarted?
    case PowerLoss => Outages(entry) && entry[0].PowerRestored?
  }

  predicate AllAnswered(open: bool, script: seq<Command>, log: seq<seq<Event>>) {
    |script| == |log| && forall i :: 0 <= i < |script| ==> Answers(IsOpen(open, Concat(log[..i])), script[i], log[i])
  }

  /** Nothing failed: every save and reset was acknowledged unless an outage struck, and every open succeeded. */
  predicate Prompt(entry: seq<Event>) {
    && entry != []
    && (|entry| == 1 ==> !entry[0].SaveAttempted? && !entry[0].ResetAttempted? && !entry[0].NotOpen?)
    && (IsOutage(entry[|entry| - 1]) ==> entry[|entry| - 1].opening.Opened())
  }

  // ---- Crashes of either kind ----

  ghost predicate Leaves(mode: Crashes, d: Disk, image: Directory, marked: bool) {
    Scattered(d.gens, image) && (mode.InOrder? ==> Ordered(d.gens, image)) && marked in d.marker
  }

  function Reported(mode: Crashes, allowed: set<Outcome>): set<Outcome> {
    if mode.AnyOrder? then allowed + {Refused} else allowed
  }

  ghost predicate Below(names: set<Name>, top: nat) { forall n :: n in names && n.Generation? ==> n.ordinal <= top }

  ghost predicate ImageFine(mode: Crashes, image: Directory, marked: bool, allowed: set<Outcome>, top: nat) {
    && Reopened(image, marked) in Reported(mode, allowed)
    && (|image| <= MAX_DIRECTORY_ENTRIES && !marked ==> Below(image.Keys, top))
    && (mode.AnyOrder? && !marked && Reopened(image, marked) != Refused ==> OutcomesOf(Contents(image)) <= allowed)
  }

  /** Any crash of that kind reopens as allowed, and finds no generation beyond the top. */
  ghost predicate Survives(mode: Crashes, d: Disk, allowed: set<Outcome>, top: nat) {
    WellFormed(d) && forall image, marked :: Leaves(mode, d, image, marked) ==> ImageFine(mode, image, marked, allowed, top)
  }

  /** Only crashes of directories that persist in any order need the refusal. */
  lemma SurvivalMeans(mode: Crashes, d: Disk, allowed: set<Outcome>, top: nat)
    requires Survives(mode, d, allowed, top)
    ensures mode.AnyOrder? ==> CrashSafe(d, allowed + {Refused})
    ensures mode.InOrder? ==> OrderedSafe(d, allowed)
  {
    forall image, marked | Scattered(d.gens, image) && marked in d.marker && mode.AnyOrder?
      ensures Reopened(image, marked) in allowed + {Refused}
    {
      assert Leaves(mode, d, image, marked);
    }
    forall image, marked | Ordered(d.gens, image) && marked in d.marker && mode.InOrder?
      ensures Reopened(image, marked) in allowed
    {
      OrderedScattered(d.gens, image);
      assert Leaves(mode, d, image, marked);
    }
  }

  lemma OrderedScattered(gens: seq<Directory>, image: Directory)
    requires Ordered(gens, image)
    ensures Scattered(gens, image)
  {
    var i :| 0 <= i < |gens| && gens[i] == image;
    forall n ensures KeepsState(gens, image, n) {
      assert Look(image, n) == Look(gens[i], n);
    }
  }

  /** A crash picks one state for every name, or one of the whole directory, and one for the marker. */
  method Crash(mode: Crashes, d: Disk) returns (image: Directory, marked: bool)
    requires WellFormed(d)
    ensures Leaves(mode, d, image, marked)
  {
    var m := *;
    marked := d.marker[if 0 <= m < |d.marker| then m else 0];
    var g := *;
    image := d.gens[if 0 <= g < |d.gens| then g else 0];
    OrderedScattered(d.gens, image);
    if mode.AnyOrder? {
      image := Scatter(d.gens, image);
    }
  }

  method Scatter(gens: seq<Directory>, first: Directory) returns (image: Directory)
    requires first in gens
    ensures Scattered(gens, image)
  {
    image := first;
    OrderedScattered(gens, image);
    var names := set i, n | 0 <= i < |gens| && n in gens[i] :: n;
    while names != {}
      invariant Scattered(gens, image)
      decreases names
    {
      var n :| n in names;
      names := names - {n};
      var i := *;
      ghost var before := image;
      if 0 <= i < |gens| {
        image := if n in gens[i] then image[n := gens[i][n]] else image - {n};
        forall other ensures KeepsState(gens, image, other) {
          if other == n {
            assert Look(image, other) == Look(gens[i], other);
          } else {
            assert KeepsState(gens, before, other) && Look(image, other) == Look(before, other);
          }
        }
      }
    }
  }

  // ---- What a run keeps ----

  function Promised(mode: Crashes, c: Claim): set<Outcome> { if mode.AnyOrder? then Outcomes(c) else c.shown }

  /** A restart would not delete anything that the newest generation cannot replace. */
  ghost predicate Secure(d: Disk)
    requires WellFormed(d)
  {
    Marked(d) || forall o: Ordinal :: IsNewest(Live(d), o) ==> Everywhere(d.gens, o)
  }

  /** Everything on the disk, superseded or not, is accounted for. */
  ghost predicate Known(mode: Crashes, stored: set<Outcome>, d: Disk)
    requires WellFormed(d)
  {
    false in d.marker ==> OnDisk(mode, d) <= stored
  }

  /** The standing covers the claim, and where the marker may be lost also what is superseded. */
  ghost predicate Kept(mode: Crashes, now: Standing, d: Disk, c: Claim, top: nat) {
    && Guarded(d, c) && c.next <= top + 1 && Promised(mode, c) <= now.stored
    && (false in d.marker ==> Below(NamesOf(d.gens), top))
    && (mode.AnyOrder? || true in d.marker ==> Known(mode, now.stored, d))
    && (now.pending || true !in d.marker)
    && (now.loose || Secure(d))
  }

  /** No process can open this directory any more. */
  ghost predicate Dead(mode: Crashes, d: Disk, c: Claim) {
    WellFormed(d)
    && ((|d.gens| == 1 && |Live(d)| > MAX_DIRECTORY_ENTRIES)
        || (mode.AnyOrder? && Guarded(d, c) && c.k == MAX_ORDINAL && true !in d.marker))
  }

  ghost predicate Fate(mode: Crashes, now: Standing, d: Disk, c: Claim, top: nat) {
    Kept(mode, now, d, c, top) || (Dead(mode, d, c) && Refused in Reported(mode, now.stored))
  }

  /** Ordinals last as long as directories that persist in order are concerned. */
  predicate Enough(mode: Crashes, top: nat) { if mode.InOrder? then top + 1 < MAX_ORDINAL else top >= MAX_ORDINAL }

  lemma KeptSurvives(mode: Crashes, now: Standing, d: Disk, c: Claim, top: nat)
    requires Kept(mode, now, d, c, top) && Enough(mode, top)
    ensures Survives(mode, d, now.Reports(), top)
  {
    forall image, marked | Leaves(mode, d, image, marked) ensures ImageFine(mode, image, marked, now.Reports(), top) {
      if marked {
        if mode.InOrder? { assert |image| <= MAX_DIRECTORY_ENTRIES; }
      } else {
        ScatteredHolds(d.gens, c, image);
        ViewOutcome(image, c);
        WithinBounds(d.gens, NamesOf(d.gens), image);
        ScatteredStores(d.gens, image);
        if mode.InOrder? { OrderedShown(d.gens, c, image); }
      }
    }
  }

  lemma ScatteredStores(gens: seq<Directory>, image: Directory)
    requires Scattered(gens, image)
    ensures Contents(image) <= ContentsOf(gens)
  {
    forall x | x in Contents(image) ensures x in ContentsOf(gens) {
      var n :| n in image && n.Generation? && image[n] == x;
      assert KeepsState(gens, image, n);
      var i :| 0 <= i < |gens| && Look(image, n) == Look(gens[i], n);
      assert Generation(n.ordinal) in gens[i] && x in Contents(gens[i]);
    }
  }

  lemma DeadSurvives(mode: Crashes, now: Standing, d: Disk, c: Claim, top: nat)
    requires Dead(mode, d, c) && Refused in Reported(mode, now.stored) && Enough(mode, top)
    ensures Survives(mode, d, now.Reports(), top)
  {
    if |d.gens| == 1 && |Live(d)| > MAX_DIRECTORY_ENTRIES {
      hide Scattered, Ordered;
      forall image, marked | Leaves(mode, d, image, marked) ensures ImageFine(mode, image, marked, now.Reports(), top) {
        OnlyState(d, image);
      }
    } else {
      assert d.marker[0] in d.marker && d.marker[0] == false;
      hide Scattered, Ordered, Holds, Reopened;
      forall image, marked | Leaves(mode, d, image, marked) ensures ImageFine(mode, image, marked, now.Reports(), top) {
        ExhaustedStaysRefused(d, c, image);
      }
    }
  }

  lemma FateSurvives(mode: Crashes, now: Standing, d: Disk, c: Claim, top: nat)
    requires Fate(mode, now, d, c, top) && Enough(mode, top)
    ensures Survives(mode, d, now.Reports(), top)
  {
    hide Kept, Dead;
    if Kept(mode, now, d, c, top) { KeptSurvives(mode, now, d, c, top); } else { DeadSurvives(mode, now, d, c, top); }
  }

  lemma OnlyState(d: Disk, image: Directory)
    requires |d.gens| == 1 && Scattered(d.gens, image)
    ensures image == d.gens[0]
  {
    forall n ensures Look(image, n) == Look(d.gens[0], n) {
      assert KeepsState(d.gens, image, n);
    }
    assert forall n :: n in image <==> n in d.gens[0] by {
      forall n ensures n in image <==> n in d.gens[0] {
        assert Look(image, n) == Look(d.gens[0], n);
      }
    }
    forall n | n in image ensures image[n] == d.gens[0][n] {
      assert Look(image, n) == Look(d.gens[0], n);
    }
  }

  /** A directory whose last ordinal is used up is refused for ever. */
  lemma ExhaustedStaysRefused(d: Disk, c: Claim, image: Directory)
    requires Holds(d.gens, c) && c.k == MAX_ORDINAL && Scattered(d.gens, image)
    ensures Reopened(image, false) == Refused && Below(image.Keys, MAX_ORDINAL)
  {
    ScatteredHolds(d.gens, c, image);
    assert Generation(c.k) in image && c.k in Ordinals(image);
    assert Newest(Ordinals(image)) == MAX_ORDINAL;
  }

  predicate Weaker(strong: Standing, weak: Standing) {
    strong.stored <= weak.stored && (strong.pending ==> weak.pending) && (strong.loose ==> weak.loose)
  }

  lemma FateMono(mode: Crashes, strong: Standing, weak: Standing, d: Disk, c: Claim, low: nat, high: nat)
    requires Fate(mode, strong, d, c, low) && Weaker(strong, weak) && low <= high
    ensures Fate(mode, weak, d, c, high)
  {
  }

  /** At every logged state since `from`, one of the two claims. */
  ghost predicate FateBy(mode: Crashes, now: Standing, d: Disk, c: Claim, e: Claim, top: nat) {
    Fate(mode, now, d, c, top) || Fate(mode, now, d, e, top)
  }

  ghost predicate FateSince(mode: Crashes, now: Standing, history: seq<Disk>, from: nat, c: Claim, e: Claim, top: nat) {
    forall i :: from <= i < |history| ==> FateBy(mode, now, history[i], c, e, top)
  }

  ghost predicate Running(store: AccessibilityStore, mode: Crashes, now: Standing, top: nat)
    reads store, store.fs
  {
    store.Valid() && Kept(mode, now, store.fs.disk, store.claim, top) && Known(mode, now.stored, store.fs.disk)
  }

  /** At most one generation and no incoming file. */
  ghost predicate Neat(live: Directory) { |Committed(live)| <= 1 && forall n :: n in live ==> n.Generation? }

  // ---- Saving and resetting ----

  method PerformSave(store: AccessibilityStore, p: Preferences, mode: Crashes, ghost now: Standing, ghost top: nat)
    returns (status: Status, event: Event)
    requires Running(store, mode, now, top) && Enough(mode, top + 1)
    modifies store, store.fs
    ensures event == if status.Done? then SaveAcknowledged(p) else SaveAttempted(p)
    ensures old(store.fs.history) <= store.fs.history
    ensures FateSince(mode, now.Then(mode, SaveAttempted(p)), store.fs.history, |old(store.fs.history)|,
                      Attempting(old(store.claim), p), Acknowledged(old(store.nextOrdinal), p), top + 1)
    ensures Running(store, mode, now.Then(mode, event), top + 1)
    ensures old(store.fs.faults) <= store.fs.faults && (status.Done? ==> Neat(Live(store.fs.disk)))
    ensures status.Failed? && Neat(old(Live(store.fs.disk))) && mode.InOrder? ==> old(store.fs.faults) < store.fs.faults
  {
    hide Guarded, Within, Stores, Tidy, Fate, Kept, CoveredAt, InScope, SaveScope, Promised;
    ghost var c, next, from, start := store.claim, store.nextOrdinal, |store.fs.history|, store.fs.disk;
    NeatRoomy(mode, now, start, c, next, top);
    status := store.Save(p);
    event := if status.Done? then SaveAcknowledged(p) else SaveAttempted(p);
    forall i | from <= i < |store.fs.history|
      ensures FateBy(mode, now.Then(mode, SaveAttempted(p)), store.fs.history[i], Attempting(c, p), Acknowledged(next, p), top + 1)
    {
      SaveStates(mode, start, store.fs.history[i], c, next, p, now, top);
    }
    SaveEnds(mode, start, store.fs.disk, c, next, store.claim, p, now, top);
  }

  lemma NeatRoomy(mode: Crashes, now: Standing, d: Disk, c: Claim, next: Ordinal, top: nat)
    requires Kept(mode, now, d, c, top) && Enough(mode, top + 1) && Consistent(d, c, next)
    ensures Neat(Live(d)) && mode.InOrder? ==> Roomy(Live(d), next)
  {
  }

  /** A state of the save under its own claim. */
  lemma SaveKept(mode: Crashes, start: Disk, d: Disk, c: Claim, next: Ordinal, e: Claim, p: Preferences, now: Standing, top: nat)
    requires Kept(mode, now, start, c, top) && Known(mode, now.stored, start)
    requires next <= c.next && Guarded(d, e) && InScope(d, SaveScope(start, next, p))
    requires e == Attempting(c, p) || e == Acknowledged(next, p)
    ensures Kept(mode, now.Then(mode, SaveAttempted(p)), d, e, top + 1) && Known(mode, now.stored + {Saved(p)}, d)
  {
    hide InScope, SaveScope, Holds, Bounded, Promised, OnDisk, NamesOf, Below;
    SavePromises(mode, c, next, e, p, now);
    SameMarks(start, d, next, p);
    if false in d.marker { SaveStored(mode, start, d, next, p, now, top); }
  }

  lemma SameMarks(start: Disk, d: Disk, next: Ordinal, p: Preferences)
    requires WellFormed(start) && InScope(d, SaveScope(start, next, p))
    ensures forall b :: b in d.marker ==> b in start.marker
  {
  }

  lemma SaveStored(mode: Crashes, start: Disk, d: Disk, next: Ordinal, p: Preferences, now: Standing, top: nat)
    requires WellFormed(start) && WellFormed(d) && InScope(d, SaveScope(start, next, p))
    requires OnDisk(mode, start) <= now.stored && Below(NamesOf(start.gens), top) && next <= top + 1
    ensures OnDisk(mode, d) <= now.stored + {Saved(p)} && Below(NamesOf(d.gens), top + 1)
  {
    hide ContentsOf, NamesOf, Within, Stores, Contents;
    StoredWithin(d.gens, ContentsOf(start.gens) + {Document(p)});
    OneMoreOutcome(ContentsOf(start.gens), p);
    OneMoreOutcome(Contents(Live(start)), p);
    NamedWithin(d.gens, NamesOf(start.gens) + {Incoming(next), Generation(next)});
    OutcomesMono(Contents(Live(d)), Contents(Live(start)) + {Document(p)});
    hide OutcomesOf;
  }

  lemma OutcomesMono(small: set<Content>, large: set<Content>)
    requires small <= large
    ensures OutcomesOf(small) <= OutcomesOf(large)
  {
  }

  lemma OneMoreOutcome(contents: set<Content>, p: Preferences)
    ensures OutcomesOf(contents + {Document(p)}) <= OutcomesOf(contents) + {Saved(p)}
  {
  }

  lemma SavePromises(mode: Crashes, c: Claim, next: Ordinal, e: Claim, p: Preferences, now: Standing)
    requires Promised(mode, c) <= now.stored && next <= c.next
    requires e == Attempting(c, p) || e == Acknowledged(next, p)
    ensures Promised(mode, e) <= now.stored + {Saved(p)} && e.next <= c.next + 1
  {
    ClaimOutcomes(c, next, p);
  }

  lemma StoredWithin(gens: seq<Directory>, contents: set<Content>)
    requires Stores(gens, contents)
    ensures OutcomesOf(ContentsOf(gens)) <= OutcomesOf(contents)
  {
  }

  lemma NamedWithin(gens: seq<Directory>, names: set<Name>)
    requires Within(gens, names)
    ensures NamesOf(gens) <= names
  {
    forall n | n in NamesOf(gens) ensures n in names {
      var i :| 0 <= i < |gens| && n in gens[i];
      assert n in gens[i].Keys;
    }
  }

  lemma SaveStates(mode: Crashes, start: Disk, d: Disk, c: Claim, next: Ordinal, p: Preferences, now: Standing, top: nat)
    requires Kept(mode, now, start, c, top) && Known(mode, now.stored, start) && next <= c.next
    requires CoveredAt(d, Attempting(c, p), Acknowledged(next, p), SaveScope(start, next, p))
    ensures FateBy(mode, now.Then(mode, SaveAttempted(p)), d, Attempting(c, p), Acknowledged(next, p), top + 1)
  {
    hide Guarded, InScope, Kept, SaveScope;
    SaveKept(mode, start, d, c, next, if Guarded(d, Attempting(c, p)) then Attempting(c, p) else Acknowledged(next, p), p, now, top);
  }

  lemma SaveEnds(mode: Crashes, start: Disk, d: Disk, c: Claim, next: Ordinal, e: Claim, p: Preferences, now: Standing, top: nat)
    requires Kept(mode, now, start, c, top) && Known(mode, now.stored, start)
    requires next <= c.next && Guarded(d, e) && InScope(d, SaveScope(start, next, p))
    requires e == Attempting(c, p) || e == Acknowledged(next, p)
    ensures Kept(mode, now.Then(mode, SaveAttempted(p)), d, e, top + 1) && Known(mode, now.stored + {Saved(p)}, d)
    ensures e == Acknowledged(next, p) && Tidy(d, e) ==>
              Kept(mode, now.Then(mode, SaveAcknowledged(p)), d, e, top + 1) && Known(mode, {Saved(p)}, d) && Neat(Live(d))
  {
    SaveKept(mode, start, d, c, next, e, p, now, top);
    if e == Acknowledged(next, p) && Tidy(d, e) {
      ClaimOutcomes(c, next, p);
      TidyOutcomes(d, e);
      TidyNeat(d, e);
    }
  }

  lemma TidyNeat(d: Disk, c: Claim)
    requires WellFormed(d) && Tidy(d, c)
    ensures Neat(Live(d)) && Secure(d)
  {
    hide Holds, Contents;
    assert Committed(Live(d)) == Live(d).Keys;
    assert d.gens[0] == Live(d);
  }

  method PerformReset(store: AccessibilityStore, mode: Crashes, ghost now: Standing, ghost top: nat)
    returns (status: Status, event: Event)
    requires Running(store, mode, now, top) && Enough(mode, top)
    modifies store, store.fs
    ensures event == if status.Done? then ResetAcknowledged else ResetAttempted
    ensures old(store.fs.history) <= store.fs.history
    ensures FateSince(mode, now.Then(mode, ResetAttempted), store.fs.history, |old(store.fs.history)|,
                      ResetClaim(old(store.claim), old(store.fs.disk)), EmptyClaim(old(store.claim).next), top)
    ensures Running(store, mode, now.Then(mode, event), top)
    ensures old(store.fs.faults) <= store.fs.faults && (status.Failed? ==> old(store.fs.faults) < store.fs.faults)
    ensures status.Done? ==> Neat(Live(store.fs.disk))
  {
    hide Holds, Bounded, Within, Stores, Tidy, Fate, Kept, CoveredAt, Promised, ResetClaim;
    ghost var c, from, start := store.claim, |store.fs.history|, store.fs.disk;
    status := store.Reset();
    event := if status.Done? then ResetAcknowledged else ResetAttempted;
    forall i | from <= i < |store.fs.history|
      ensures FateBy(mode, now.Then(mode, ResetAttempted), store.fs.history[i], ResetClaim(c, start), EmptyClaim(c.next), top)
    {
      ResetStates(mode, start, store.fs.history[i], c, now, top);
    }
    if status.Done? {
      SettledKept(mode, store.fs.disk, top);
    } else {
      ResetKept(mode, start, store.fs.disk, c, store.claim, now, now.Then(mode, ResetAttempted), top);
    }
  }

  lemma SettledKept(mode: Crashes, d: Disk, top: nat)
    requires Settled(d, EmptyClaim(1))
    ensures Kept(mode, Standing({Fresh}, false, false), d, EmptyClaim(1), top) && Known(mode, {Fresh}, d) && Neat(Live(d))
  {
    TidyNeat(d, EmptyClaim(1));
    NothingLeft(d, 1);
    NoAttempts(1);
    EmptyBounded(d);
    hide Holds, Tidy, Secure, Neat;
  }

  lemma EmptyBounded(d: Disk)
    requires Settled(d, EmptyClaim(1))
    ensures WellFormed(d) && Bounded(d.gens) && Holds(d.gens, EmptyClaim(1))
  {
    assert |d.gens[0].Keys| == |d.gens[0]|;
  }

  /** Resetting, or finishing a reset: where the marker may be lost, whatever was on the disk may come back. */
  lemma ResetKept(mode: Crashes, start: Disk, d: Disk, c: Claim, e: Claim, now: Standing, later: Standing, top: nat)
    requires Kept(mode, now, start, c, top) && Known(mode, now.stored, start) && Guarded(d, e)
    requires Within(d.gens, NamesOf(start.gens)) && Stores(d.gens, ContentsOf(start.gens)) && Contents(Live(d)) <= Contents(Live(start))
    requires e == ResetClaim(c, start) || e == EmptyClaim(c.next)
    requires now.stored + {Fresh} <= later.stored && later.pending && later.loose
    ensures Kept(mode, later, d, e, top) && Known(mode, later.stored, d)
  {
    ResetPromised(mode, start, c, now);
    if false in d.marker {
      if false in start.marker {
        StoredWithin(d.gens, ContentsOf(start.gens));
        NamedWithin(d.gens, NamesOf(start.gens));
        OutcomesMono(Contents(Live(d)), Contents(Live(start)));
      } else {
        NothingLeft(d, c.next);
      }
    }
  }

  lemma ResetPromised(mode: Crashes, start: Disk, c: Claim, now: Standing)
    requires WellFormed(start) && Promised(mode, c) <= now.stored && Known(mode, now.stored, start)
    ensures Promised(mode, ResetClaim(c, start)) <= now.stored + {Fresh} && Promised(mode, EmptyClaim(c.next)) == {Fresh}
  {
    NoAttempts(c.next);
  }

  lemma NoAttempts(next: Ordinal)
    ensures Outcomes(EmptyClaim(next)) == {Fresh}
  {
  }

  lemma NothingLeft(d: Disk, next: Ordinal)
    requires Holds(d.gens, EmptyClaim(next))
    ensures ContentsOf(d.gens) == {} && Contents(d.gens[|d.gens| - 1]) == {} && Below(NamesOf(d.gens), 0)
  {
    forall i | 0 <= i < |d.gens| ensures Contents(d.gens[i]) == {} {
      assert ViewHolds(d.gens[i], EmptyClaim(next));
    }
    forall n | n in NamesOf(d.gens) ensures n.Incoming? {
      var i :| 0 <= i < |d.gens| && n in d.gens[i];
      assert ViewHolds(d.gens[i], EmptyClaim(next));
    }
  }

  lemma ResetStates(mode: Crashes, start: Disk, d: Disk, c: Claim, now: Standing, top: nat)
    requires WellFormed(start) && CoveredAt(d, ResetClaim(c, start), EmptyClaim(c.next), ResetScope(start))
    requires Kept(mode, now, start, c, top) && Known(mode, now.stored, start)
    ensures FateBy(mode, now.Then(mode, ResetAttempted), d, ResetClaim(c, start), EmptyClaim(c.next), top)
  {
    hide Holds, Bounded, Within, Stores, Kept;
    ResetKept(mode, start, d, c, if Guarded(d, ResetClaim(c, start)) then ResetClaim(c, start) else EmptyClaim(c.next),
              now, now.Then(mode, ResetAttempted), top);
  }

  // ---- Opening ----

  function OpeningOf(done: bool, marked: bool): Opening {
    if done then (if marked then Completed else Found) else if marked then Unfinished else Unopened
  }

  /** Before the result of opening is known. */
  function Interrupted(mode: Crashes, now: Standing, marked: bool): Standing {
    now.Then(mode, Restarted(OpeningOf(false, marked)))
  }

  ghost predicate Revived(store: AccessibilityStore?, fs: FileSystem, mode: Crashes, now: Standing, c: Claim, top: nat)
    reads store, fs
  {
    store != null ==> store.fs == fs && store.claim == c && Running(store, mode, now, top) && Neat(Live(fs.disk))
  }

  /** Opens what a process or a crash has left. */
  method Reopen(fs: FileSystem, mode: Crashes, ghost now: Standing, ghost c: Claim, ghost top: nat)
    returns (opening: Opening, store: AccessibilityStore?, ghost before: Claim, ghost after: Claim, ghost final: Claim)
    requires Fate(mode, now, fs.disk, c, top) && Enough(mode, top)
    modifies fs
    ensures WellFormed(old(fs.disk)) && opening == OpeningOf(store != null, Marked(old(fs.disk)))
    ensures store != null ==> fresh(store)
    ensures old(fs.history) <= fs.history
    ensures FateSince(mode, Interrupted(mode, now, Marked(old(fs.disk))), fs.history, |old(fs.history)|, before, after, top)
    ensures Fate(mode, now.Then(mode, Restarted(opening)), fs.disk, final, top)
    ensures Revived(store, fs, mode, now.Then(mode, Restarted(opening)), final, top)
    ensures old(fs.faults) <= fs.faults
    ensures store == null ==> old(fs.faults) < fs.faults || Reopened(Live(old(fs.disk)), Marked(old(fs.disk))) == Refused
  {
    hide Kept, Dead, Guarded, Covered, InScope, OpenBefore, OpenAfter, Reopened;
    var d := fs.disk;
    ghost var from := |fs.history|;
    FateOpenable(mode, now, d, c, top);
    var status;
    status, store := Open(fs, c);
    before, after := OpenBefore(c, d), OpenAfter(c, d);
    opening := OpeningOf(status.Done?, Marked(d));
    if |Live(d)| > MAX_DIRECTORY_ENTRIES {
      store, final := null, c;
      OverfullStays(mode, now, d, c, top);
      return;
    }
    forall i | from <= i < |fs.history|
      ensures FateBy(mode, Interrupted(mode, now, Marked(d)), fs.history[i], before, after, top)
    {
      assert CoveredAt(fs.history[i], before, after, OpenScope(d)) by { CoveredEach(fs.history, from, before, after, OpenScope(d), i); }
      OpenFate(mode, now, d, fs.history[i], c, top);
    }
    if status.Done? {
      final := store.claim;
      OpenedFate(mode, now, d, fs.disk, c, final, top);
    } else {
      store := null;
      OpenFate(mode, now, d, fs.disk, c, top);
      final := if Fate(mode, Interrupted(mode, now, Marked(d)), fs.disk, before, top) then before else after;
    }
  }

  lemma CoveredEach(history: seq<Disk>, from: nat, c: Claim, e: Claim, scope: Scope, i: nat)
    requires Covered(history, from, c, e, scope) && from <= i < |history|
    ensures CoveredAt(history[i], c, e, scope)
  {
  }

  lemma FateOpenable(mode: Crashes, now: Standing, d: Disk, c: Claim, top: nat)
    requires Fate(mode, now, d, c, top)
    ensures WellFormed(d) && (|Live(d)| <= MAX_DIRECTORY_ENTRIES ==> Guarded(d, c))
  {
  }

  lemma OverfullStays(mode: Crashes, now: Standing, d: Disk, c: Claim, top: nat)
    requires Fate(mode, now, d, c, top) && WellFormed(d) && |Live(d)| > MAX_DIRECTORY_ENTRIES
    ensures Fate(mode, Interrupted(mode, now, Marked(d)), d, c, top)
  {
    assert d.gens[|d.gens| - 1] == Live(d);
  }

  /** A state of the opening, finished or not. */
  lemma OpenFate(mode: Crashes, now: Standing, d: Disk, e: Disk, c: Claim, top: nat)
    requires Fate(mode, now, d, c, top) && Enough(mode, top) && WellFormed(d) && |Live(d)| <= MAX_DIRECTORY_ENTRIES
    requires CoveredAt(e, OpenBefore(c, d), OpenAfter(c, d), OpenScope(d))
    ensures FateBy(mode, Interrupted(mode, now, Marked(d)), e, OpenBefore(c, d), OpenAfter(c, d), top)
  {
    hide Kept, Dead, Guarded, InScope, OpenBefore, OpenAfter, OpenScope;
    var claim := if Guarded(e, OpenBefore(c, d)) then OpenBefore(c, d) else OpenAfter(c, d);
    if !Kept(mode, now, d, c, top) {
      DeadOpens(mode, now, d, e, c, claim, top);
    } else if Marked(d) {
      MarkedOpens(mode, now, d, e, c, claim, top);
    } else {
      UnmarkedOpens(mode, now, d, e, c, claim, Interrupted(mode, now, false), top);
    }
  }

  lemma DeadOpens(mode: Crashes, now: Standing, d: Disk, e: Disk, c: Claim, claim: Claim, top: nat)
    requires Dead(mode, d, c) && Refused in Reported(mode, now.stored) && |Live(d)| <= MAX_DIRECTORY_ENTRIES
    requires Guarded(e, claim) && InScope(e, OpenScope(d)) && (claim == OpenBefore(c, d) || claim == OpenAfter(c, d))
    ensures Fate(mode, Interrupted(mode, now, Marked(d)), e, claim, top)
  {
    assert Marked(d) in d.marker;
    assert d.gens[|d.gens| - 1] == Live(d);
    BaseEverywhere(d, c);
    OpenAtNewest(d, c, c.k);
    hide Guarded, OpenBefore, OpenAfter;
  }

  lemma BaseEverywhere(d: Disk, c: Claim)
    requires Guarded(d, c) && !Marked(d) && c.k == MAX_ORDINAL
    ensures Everywhere(d.gens, c.k) && IsNewest(Live(d), c.k)
  {
    UnmarkedLive(d, c);
    EverywhereHeld(d.gens, c);
  }

  lemma OpenAtNewest(d: Disk, c: Claim, o: Ordinal)
    requires WellFormed(d) && !Marked(d) && IsNewest(Live(d), o) && Everywhere(d.gens, o)
    ensures OpenBefore(c, d).k == OpenAfter(c, d).k == o
  {
    ShownNewest(Live(d), o);
    assert o in Ordinals(Live(d));
  }

  lemma MarkedOpens(mode: Crashes, now: Standing, d: Disk, e: Disk, c: Claim, claim: Claim, top: nat)
    requires Kept(mode, now, d, c, top) && Marked(d)
    requires Guarded(e, claim) && InScope(e, OpenScope(d)) && (claim == OpenBefore(c, d) || claim == OpenAfter(c, d))
    ensures Kept(mode, Interrupted(mode, now, true), e, claim, top)
  {
    hide Holds, Bounded, Within, Stores;
    ResetKept(mode, d, e, c, claim, now, Interrupted(mode, now, true), top);
  }

  /** What an open without a marker can promise is what was promised before, and defaults if the disk was loose. */
  lemma CleanedPromise(mode: Crashes, now: Standing, d: Disk, c: Claim, top: nat)
    requires Kept(mode, now, d, c, top) && !Marked(d)
    ensures Promised(mode, OpenBefore(c, d)) <= now.Restartable(mode) && Promised(mode, OpenAfter(c, d)) <= now.Restartable(mode)
    ensures OpenBefore(c, d).next <= top + 1 && OpenAfter(c, d).next <= top + 1
  {
    UnmarkedLive(d, c);
    CleanedOutcomes(c, d);
    assert Marked(d) in d.marker;
    if Exposed(d, c) { NewestIs(Live(d)); }
    CleanedNext(d, c, top);
  }

  lemma CleanedNext(d: Disk, c: Claim, top: nat)
    requires WellFormed(d) && c.next <= top + 1 && Below(NamesOf(d.gens), top) && !Marked(d)
    ensures OpenBefore(c, d).next <= top + 1 && OpenAfter(c, d).next <= top + 1
  {
    if Ordinals(Live(d)) != {} {
      NewestIs(Live(d));
      assert Generation(Newest(Ordinals(Live(d)))) in d.gens[|d.gens| - 1];
      assert Generation(Newest(Ordinals(Live(d)))) in NamesOf(d.gens);
    }
  }

  lemma UnmarkedOpens(mode: Crashes, now: Standing, d: Disk, e: Disk, c: Claim, claim: Claim, later: Standing, top: nat)
    requires Kept(mode, now, d, c, top) && !Marked(d)
    requires Guarded(e, claim) && InScope(e, OpenScope(d)) && (claim == OpenBefore(c, d) || claim == OpenAfter(c, d))
    requires later == Standing(now.Restartable(mode), now.pending, now.loose)
    ensures Kept(mode, later, e, claim, top)
  {
    assert Marked(d) in d.marker;
    hide Guarded, Promised, OpenBefore, OpenAfter, Secure, OnDisk, Below, ContentsOf, NamesOf, Within, Stores;
    CleanedPromise(mode, now, d, c, top);
    if !now.loose { StaysSecure(d, e, c, claim); }
    DiskWithin(mode, d, e, now.stored, top);
  }

  lemma DiskWithin(mode: Crashes, d: Disk, e: Disk, stored: set<Outcome>, top: nat)
    requires WellFormed(d) && WellFormed(e) && InScope(e, OpenScope(d)) && Below(NamesOf(d.gens), top)
    ensures Below(NamesOf(e.gens), top) && (OnDisk(mode, d) <= stored ==> OnDisk(mode, e) <= stored)
  {
    StoredWithin(e.gens, ContentsOf(d.gens));
    NamedWithin(e.gens, NamesOf(d.gens));
    OutcomesMono(Contents(Live(e)), Contents(Live(d)));
  }

  lemma StaysSecure(d: Disk, e: Disk, c: Claim, claim: Claim)
    requires Guarded(d, c) && !Marked(d) && Secure(d)
    requires Guarded(e, claim) && InScope(e, OpenScope(d)) && (claim == OpenBefore(c, d) || claim == OpenAfter(c, d))
    ensures Secure(e)
  {
    assert Marked(e) in e.marker;
    forall o: Ordinal | IsNewest(Live(e), o) && !Marked(e) ensures Everywhere(e.gens, o) {
      StillNewest(d, e, c, claim, o);
    }
  }

  lemma StillNewest(d: Disk, e: Disk, c: Claim, claim: Claim, o: Ordinal)
    requires Guarded(d, c) && !Marked(d) && Secure(d) && Guarded(e, claim) && !Marked(e) && IsNewest(Live(e), o)
    requires Live(e).Keys <= Live(d).Keys && (claim == OpenBefore(c, d) || claim == OpenAfter(c, d))
    ensures Everywhere(e.gens, o)
  {
    assert Generation(o) in Live(e).Keys;
    assert o in Ordinals(Live(d));
    var newest := Newest(Ordinals(Live(d)));
    NewestIs(Live(d));
    hide OpenBefore, OpenAfter;
    OpenAtNewest(d, c, newest);
    UnmarkedLive(e, claim);
    hide *;
    EverywhereHeld(e.gens, claim);
    OneNewest(e, o, newest);
  }

  lemma OneNewest(e: Disk, o: Ordinal, other: Ordinal)
    requires WellFormed(e) && IsNewest(Live(e), o) && o <= other && Everywhere(e.gens, other)
    ensures o == other
  {
    assert Generation(other) in e.gens[|e.gens| - 1];
  }

  lemma EverywhereHeld(gens: seq<Directory>, c: Claim)
    requires Holds(gens, c) && c.k > 0
    ensures Everywhere(gens, c.k)
  {
    forall i | 0 <= i < |gens| ensures Generation(c.k) in gens[i] {
      assert ViewHolds(gens[i], c);
    }
  }

  /** The end of a successful opening. */
  lemma OpenedFate(mode: Crashes, now: Standing, d: Disk, e: Disk, c: Claim, claim: Claim, top: nat)
    requires Fate(mode, now, d, c, top) && Enough(mode, top) && WellFormed(d) && |Live(d)| <= MAX_DIRECTORY_ENTRIES && WellFormed(e)
    requires CoveredAt(e, OpenBefore(c, d), OpenAfter(c, d), OpenScope(d)) && Guarded(e, claim) && OpenDone(d, c, e, claim)
    requires Reopened(Live(d), Marked(d)) != Refused
    ensures var later := now.Then(mode, Restarted(OpeningOf(true, Marked(d))));
            Kept(mode, later, e, claim, top) && Known(mode, later.stored, e) && Neat(Live(e))
  {
    hide Kept, Dead, Known, Neat, Guarded, InScope, OpenBefore, CleanedClaim, Reopened, CommittedPart, WithoutOlder, Tidy;
    if Marked(d) {
      SettledKept(mode, e, top);
    } else {
      NotDead(mode, d, c);
      FoundKept(mode, now, d, e, c, claim, top);
    }
  }

  lemma FoundKept(mode: Crashes, now: Standing, d: Disk, e: Disk, c: Claim, claim: Claim, top: nat)
    requires Kept(mode, now, d, c, top) && !Marked(d) && WellFormed(e)
    requires Guarded(e, claim) && InScope(e, OpenScope(d)) && (claim == OpenBefore(c, d) || claim == OpenAfter(c, d))
    requires Live(e) == if Ordinals(Live(d)) == {} then map[] else WithoutOlder(CommittedPart(Live(d)), Newest(Ordinals(Live(d))))
    ensures var later := now.Then(mode, Restarted(Found));
            Kept(mode, later, e, claim, top) && Known(mode, later.stored, e) && Neat(Live(e))
  {
    NeatAfter(Live(d), Live(e));
    OpenedKnown(mode, now, d, e, c, top);
    hide Kept, Guarded, InScope, Neat, OnDisk;
    UnmarkedOpens(mode, now, d, e, c, claim, now.Then(mode, Restarted(Found)), top);
  }

  /** Only the newest generation is left in the live directory. */
  lemma OpenedKnown(mode: Crashes, now: Standing, d: Disk, e: Disk, c: Claim, top: nat)
    requires Kept(mode, now, d, c, top) && !Marked(d) && WellFormed(e) && InScope(e, OpenScope(d))
    requires Live(e) == if Ordinals(Live(d)) == {} then map[] else WithoutOlder(CommittedPart(Live(d)), Newest(Ordinals(Live(d))))
    ensures Known(mode, now.stored, e)
  {
    UnmarkedLive(d, c);
    assert Marked(d) in d.marker;
    hide OnDisk, Guarded, WithoutOlder, CommittedPart, InScope;
    if mode.AnyOrder? {
      DiskWithin(mode, d, e, now.stored, top);
    } else {
      ShownHeld(d, e, now.stored);
    }
  }

  lemma ShownHeld(d: Disk, e: Disk, stored: set<Outcome>)
    requires WellFormed(d) && WellFormed(e) && Shown(Live(d)) in stored
    requires Live(e) == if Ordinals(Live(d)) == {} then map[] else WithoutOlder(CommittedPart(Live(d)), Newest(Ordinals(Live(d))))
    ensures OnDisk(InOrder, e) <= stored
  {
    LiveLeft(Live(d), Live(e));
  }

  lemma LiveLeft(before: Directory, live: Directory)
    requires live == if Ordinals(before) == {} then map[] else WithoutOlder(CommittedPart(before), Newest(Ordinals(before)))
    ensures OutcomesOf(Contents(live)) <= {Shown(before)}
  {
    if Ordinals(before) != {} { NewestIs(before); }
  }

  lemma NotDead(mode: Crashes, d: Disk, c: Claim)
    requires WellFormed(d) && |Live(d)| <= MAX_DIRECTORY_ENTRIES && !Marked(d)
    ensures Dead(mode, d, c) ==> Reopened(Live(d), false) == Refused
  {
    assert d.gens[|d.gens| - 1] == Live(d);
    if Guarded(d, c) && c.k == MAX_ORDINAL {
      BaseEverywhere(d, c);
      ShownNewest(Live(d), c.k);
      assert c.k in Ordinals(Live(d));
    }
  }

  lemma NeatAfter(before: Directory, live: Directory)
    requires live == if Ordinals(before) == {} then map[] else WithoutOlder(CommittedPart(before), Newest(Ordinals(before)))
    ensures Neat(live)
  {
    if Ordinals(before) == {} {
      assert Committed(live) == {};
    } else {
      assert Committed(live) <= {Generation(Newest(Ordinals(before)))};
      SubsetSize(Committed(live), {Generation(Newest(Ordinals(before)))});
    }
  }
}
