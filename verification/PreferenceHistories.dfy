/** Every run of the preference store, with the process killed or power lost at any disk step. */
module PreferenceHistories {
  import opened Collections
  import opened PreferenceDisk
  import opened AccessibilityStore
  import opened AccessibilityRecovery
  import opened PreferenceRuns

  // ---- Outages ----

  function Outage(power: bool, opening: Opening): Event {
    if power then PowerRestored(opening) else Restarted(opening)
  }

  /** Opening from standing `base` comes to what the outage makes of standing `now`. */
  ghost predicate Starts(mode: Crashes, now: Standing, base: Standing, power: bool, marked: bool) {
    forall done :: base.Then(mode, Restarted(OpeningOf(done, marked))) == now.Then(mode, Outage(power, OpeningOf(done, marked)))
  }

  /** What the next process finds. */
  ghost predicate Struck(d: Disk, power: bool, mode: Crashes, now: Standing, base: Standing, c: Claim, top: nat) {
    Fate(mode, base, d, c, top) && WellFormed(d) && Starts(mode, now, base, power, Marked(d))
    && (Refused in base.stored ==> Refused in now.stored)
  }

  ghost function MountClaim(image: Directory, marked: bool): Claim { if marked then EmptyClaim(1) else ImageClaim(image) }

  /** One state of everything, as after a loss of power. */
  lemma MountedFate(mode: Crashes, image: Directory, marked: bool, allowed: set<Outcome>, top: nat)
    requires ImageFine(mode, image, marked, allowed, top) && Enough(mode, top)
    ensures Fate(mode, Standing(allowed, marked, false), Disk([image], [marked]), MountClaim(image, marked), top)
  {
    var d := Disk([image], [marked]);
    assert Live(d) == image;
    if |image| <= MAX_DIRECTORY_ENTRIES {
      OneState(d.gens);
      OneName(image);
      MountedGuarded(d);
      MountedSecure(d);
      if marked {
        assert Guarded(d, EmptyClaim(1));
        NoAttempts(1);
      } else if Ordinals(image) != {} {
        NewestIs(image);
      }
      hide Secure, Guarded;
    }
  }

  lemma OneName(image: Directory)
    ensures NamesOf([image]) == image.Keys
  {
    assert [image][0] == image;
  }

  lemma MountedSecure(d: Disk)
    requires Mounted(d)
    ensures Secure(d)
  {
    forall o: Ordinal | IsNewest(Live(d), o) ensures Everywhere(d.gens, o) {
      assert d.gens[0] == Live(d);
    }
  }

  lemma MountStarts(mode: Crashes, now: Standing, marked: bool)
    ensures Starts(mode, now, Standing(now.Reports(), marked, false), true, marked)
  {
  }

  lemma PowerStrikes(mode: Crashes, now: Standing, d: Disk, c: Claim, image: Directory, marked: bool, top: nat)
    requires Fate(mode, now, d, c, top) && Enough(mode, top) && Leaves(mode, d, image, marked)
    ensures Struck(Disk([image], [marked]), true, mode, now, Standing(now.Reports(), marked, false), MountClaim(image, marked), top)
  {
    hide Fate, Starts, Leaves, ImageFine, MountClaim;
    FateSurvives(mode, now, d, c, top);
    MountedFate(mode, image, marked, now.Reports(), top);
    MountStarts(mode, now, marked);
  }

  lemma KillStrikes(mode: Crashes, now: Standing, d: Disk, c: Claim, top: nat)
    requires Fate(mode, now, d, c, top)
    ensures Struck(d, false, mode, now, now, c, top)
  {
  }

  /** The process is killed or power is lost in one of the states logged since `from`, or now. */
  method Strike(fs: FileSystem, from: nat, power: bool, mode: Crashes, ghost now: Standing,
                ghost c: Claim, ghost e: Claim, ghost f: Claim, ghost top: nat)
    returns (next: FileSystem, ghost base: Standing, ghost claim: Claim)
    requires FateSince(mode, now, fs.history, from, c, e, top) && Fate(mode, now, fs.disk, f, top) && Enough(mode, top)
    ensures fresh(next) && Struck(next.disk, power, mode, now, base, claim, top)
  {
    hide Fate, Struck, Leaves;
    var k := *;
    var d := if from <= k < |fs.history| then fs.history[k] else fs.disk;
    claim := if Fate(mode, now, d, c, top) then c else if Fate(mode, now, d, e, top) then e else f;
    FateFormed(mode, now, d, claim, top);
    if power {
      var image, marked := Crash(mode, d);
      next := new FileSystem.Mount(image, marked);
      PowerStrikes(mode, now, d, claim, image, marked, top);
      base, claim := Standing(now.Reports(), marked, false), MountClaim(image, marked);
    } else {
      next := new FileSystem.Resume(d);
      KillStrikes(mode, now, d, claim, top);
      base := now;
    }
  }

  lemma FateFormed(mode: Crashes, now: Standing, d: Disk, c: Claim, top: nat)
    requires Fate(mode, now, d, c, top)
    ensures WellFormed(d)
  {
  }

  /** Outages struck while the store was being opened. */
  predicate Interruptions(power: bool, kind: bool, events: seq<Event>) {
    && (forall i :: 0 <= i < |events| ==> IsOutage(events[i]) && !events[i].opening.Opened())
    && (if events == [] then kind == power else events[0] == Outage(power, events[0].opening))
  }

  /** The store is being opened when the next outage strikes. */
  method Interrupt(fs: FileSystem, power: bool, mode: Crashes, ghost now: Standing, ghost base: Standing, ghost c: Claim, ghost top: nat)
    returns (event: Event, next: FileSystem, kind: bool, ghost from: Standing, ghost claim: Claim, ghost faults: nat)
    requires Struck(fs.disk, power, mode, now, base, c, top) && Enough(mode, top)
    modifies fs
    ensures fresh(next) && IsOutage(event) && event == Outage(power, event.opening) && !event.opening.Opened()
    ensures Struck(next.disk, kind, mode, now.Then(mode, event), from, claim, top)
    ensures Refused in now.Then(mode, event).stored ==> Refused in now.stored
  {
    hide Fate, FateBy, Revived, Reopened;
    var marked, logged := Marked(fs.disk), |fs.history|;
    ghost var started := fs.faults;
    var opening, store;
    ghost var before, after, final;
    opening, store, before, after, final := Reopen(fs, mode, base, c, top);
    event := Outage(power, OpeningOf(false, marked));
    StillUnfinished(mode, base, marked, opening, fs.disk, final, top);
    NotRefusedThen(mode, now, event);
    kind := *;
    next, from, claim := Strike(fs, logged, kind, mode, now.Then(mode, event), before, after, final, top);
    faults := fs.faults - started;
  }

  /** An open whose end is not seen promises no more than one that fails. */
  lemma StillUnfinished(mode: Crashes, base: Standing, marked: bool, opening: Opening, d: Disk, c: Claim, top: nat)
    requires Fate(mode, base.Then(mode, Restarted(opening)), d, c, top)
    requires opening == OpeningOf(false, marked) || opening == OpeningOf(true, marked)
    ensures Fate(mode, Interrupted(mode, base, marked), d, c, top)
  {
    hide Fate;
    FateMono(mode, base.Then(mode, Restarted(opening)), Interrupted(mode, base, marked), d, c, top, top);
  }

  lemma NotRefusedThen(mode: Crashes, now: Standing, e: Event)
    ensures Refused in now.Then(mode, e).stored ==> Refused in now.stored
  {
  }

  /** Directories that persist in order can always be opened. */
  lemma InOrderOpens(base: Standing, d: Disk, c: Claim, top: nat)
    requires Fate(InOrder, base, d, c, top) && Enough(InOrder, top) && Refused !in base.stored
    ensures WellFormed(d) && Reopened(Live(d), Marked(d)) != Refused
  {
    FateSurvives(InOrder, base, d, c, top);
    LastScattered(d.gens);
    assert Leaves(InOrder, d, Live(d), Marked(d));
    hide Fate, Scattered, Ordered, Reopened;
  }

  lemma OneMoreEvent(mode: Crashes, now: Standing, events: seq<Event>, e: Event)
    ensures StandingOf(mode, now, events + [e]) == StandingOf(mode, now, events).Then(mode, e)
  {
    assert (events + [e])[..|events|] == events;
  }

  /** The store is opened again, perhaps after more outages in the middle of that. */
  method Recover(fs: FileSystem, power: bool, mode: Crashes, ghost now: Standing, ghost base: Standing, ghost c: Claim, ghost top: nat)
    returns (events: seq<Event>, next: FileSystem, store: AccessibilityStore?, ghost final: Claim, ghost faults: nat)
    requires Struck(fs.disk, power, mode, now, base, c, top) && Enough(mode, top)
    modifies fs
    ensures (next == fs || fresh(next)) && (store != null ==> fresh(store))
    ensures Outages(events) && events[0] == Outage(power, events[0].opening)
    ensures events[|events| - 1].opening.Opened() <==> store != null
    ensures Fate(mode, StandingOf(mode, now, events), next.disk, final, top)
    ensures Revived(store, next, mode, StandingOf(mode, now, events), final, top)
    ensures mode.InOrder? && Refused !in now.stored && faults == 0 ==> store != null
  {
    hide Fate, Struck, Revived, Standing.Then;
    var kind := power;
    ghost var standing, from := now, base;
    next, events, final, faults := fs, [], c, 0;
    var n: int := *;
    for i := 0 to if n < 0 then 0 else n
      invariant (next == fs || fresh(next)) && Interruptions(power, kind, events)
      invariant Struck(next.disk, kind, mode, standing, from, final, top) && standing == StandingOf(mode, now, events)
      invariant Refused in standing.stored ==> Refused in now.stored
    {
      var event;
      ghost var more;
      event, next, kind, from, final, more := Interrupt(next, kind, mode, standing, from, final, top);
      OneMoreEvent(mode, now, events, event);
      events, standing, faults := events + [event], standing.Then(mode, event), faults + more;
    }
    var event;
    ghost var more;
    event, store, final, more := OpenAgain(next, kind, mode, standing, from, final, top);
    OneMoreEvent(mode, now, events, event);
    events, faults := events + [event], faults + more;
  }

  method OpenAgain(fs: FileSystem, power: bool, mode: Crashes, ghost now: Standing, ghost base: Standing, ghost c: Claim, ghost top: nat)
    returns (event: Event, store: AccessibilityStore?, ghost final: Claim, ghost faults: nat)
    requires Struck(fs.disk, power, mode, now, base, c, top) && Enough(mode, top)
    modifies fs
    ensures store != null ==> fresh(store)
    ensures IsOutage(event) && event == Outage(power, event.opening) && (event.opening.Opened() <==> store != null)
    ensures Fate(mode, now.Then(mode, event), fs.disk, final, top)
    ensures Revived(store, fs, mode, now.Then(mode, event), final, top)
    ensures mode.InOrder? && Refused !in now.stored && faults == 0 ==> store != null
  {
    hide Fate, Revived, Reopened, Standing.Then;
    ghost var started := fs.faults;
    if mode.InOrder? && Refused !in base.stored { InOrderOpens(base, fs.disk, c, top); }
    var opening;
    ghost var before, after;
    opening, store, before, after, final := Reopen(fs, mode, base, c, top);
    event := Outage(power, opening);
    faults := fs.faults - started;
  }

  // ---- Commands ----

  /** A store object open on the file system, in the standing. */
  ghost predicate Serves(store: AccessibilityStore?, fs: FileSystem, mode: Crashes, now: Standing, c: Claim, top: nat)
    reads store, fs
  {
    && Fate(mode, now, fs.disk, c, top)
    && (store != null ==> store.fs == fs && store.claim == c && Running(store, mode, now, top))
  }

  /** An outage in one of the states logged since `from`, or now, and the opening after it. */
  method RunOutage(fs: FileSystem, from: nat, power: bool, mode: Crashes, ghost now: Standing,
                   ghost c: Claim, ghost e: Claim, ghost f: Claim, ghost top: nat)
    returns (events: seq<Event>, next: FileSystem, store: AccessibilityStore?, ghost final: Claim, ghost faults: nat)
    requires FateSince(mode, now, fs.history, from, c, e, top) && Fate(mode, now, fs.disk, f, top) && Enough(mode, top)
    ensures fresh(next) && (store != null ==> fresh(store))
    ensures Outages(events) && events[0] == Outage(power, events[0].opening)
    ensures events[|events| - 1].opening.Opened() <==> store != null
    ensures Serves(store, next, mode, StandingOf(mode, now, events), final, top) && (store != null ==> Neat(Live(next.disk)))
    ensures mode.InOrder? && Refused !in now.stored && faults == 0 ==> store != null
  {
    hide Fate, FateSince, Struck, Running;
    ghost var base, claim;
    next, base, claim := Strike(fs, from, power, mode, now, c, e, f, top);
    events, next, store, final, faults := Recover(next, power, mode, now, base, claim, top);
  }

  /** The answer of an operation, or an outage in the middle of it: then it was only attempted. */
  method Finish(store: AccessibilityStore, event: Event, attempt: Event, from: nat, mode: Crashes, ghost now: Standing,
                ghost c: Claim, ghost e: Claim, ghost top: nat)
    returns (entry: seq<Event>, fs: FileSystem, next: AccessibilityStore?, ghost final: Claim, ghost faults: nat)
    requires FateSince(mode, now.Then(mode, attempt), store.fs.history, from, c, e, top) && Enough(mode, top)
    requires Running(store, mode, now.Then(mode, event), top) && Tries(event, attempt)
    ensures (fs == store.fs || fresh(fs)) && (next == null || next == store || fresh(next))
    ensures (entry == [event] && next == store && fs == store.fs)
            || (|entry| > 1 && entry[0] == attempt && Outages(entry[1..]) && (next != null <==> entry[|entry| - 1].opening.Opened())
                && next != store)
    ensures Serves(next, fs, mode, StandingOf(mode, now, entry), final, top) && (next != store && next != null ==> Neat(Live(fs.disk)))
    ensures mode.InOrder? && Refused !in now.stored && faults == 0 ==> next != null
  {
    hide Fate, FateSince, Kept, Known, Consistent, Standing.Then;
    var strikes := *;
    if strikes {
      var power := *;
      AttemptedToo(mode, now, event, attempt, store.fs.disk, store.claim, top);
      NotRefusedThen(mode, now, attempt);
      entry, fs, next, final, faults := RunOutage(store.fs, from, power, mode, now.Then(mode, attempt), c, e, store.claim, top);
      OneMoreEvent(mode, now, [], attempt);
      StandingJoins(mode, now, [attempt], entry);
      entry := [attempt] + entry;
    } else {
      entry, fs, next, final, faults := [event], store.fs, store, store.claim, 0;
      OneMoreEvent(mode, now, [], event);
      RunningServes(store, mode, now.Then(mode, event), top);
    }
  }

  lemma RunningServes(store: AccessibilityStore, mode: Crashes, now: Standing, top: nat)
    requires Running(store, mode, now, top)
    ensures Serves(store, store.fs, mode, now, store.claim, top)
  {
  }

  predicate Tries(event: Event, attempt: Event) {
    event == attempt || (event.SaveAcknowledged? && attempt == SaveAttempted(event.preferences))
    || (event.ResetAcknowledged? && attempt == ResetAttempted)
  }

  lemma AttemptedToo(mode: Crashes, now: Standing, event: Event, attempt: Event, d: Disk, c: Claim, top: nat)
    requires Kept(mode, now.Then(mode, event), d, c, top) && Tries(event, attempt)
    ensures Fate(mode, now.Then(mode, attempt), d, c, top)
  {
    hide Kept, Dead;
    FateMono(mode, now.Then(mode, event), now.Then(mode, attempt), d, c, top, top);
  }

  /** One save; after a failure the process just goes on. */
  method RunSave(store: AccessibilityStore, p: Preferences, mode: Crashes, ghost now: Standing, ghost top: nat)
    returns (entry: seq<Event>, fs: FileSystem, next: AccessibilityStore?, ghost final: Claim, ghost faults: nat)
    requires Running(store, mode, now, top) && Enough(mode, top + 1)
    modifies store, store.fs
    ensures (fs == store.fs || fresh(fs)) && (next == null || next == store || fresh(next))
    ensures Answers(true, SaveCommand(p), entry) && (next != null <==> IsOpen(true, entry))
    ensures Serves(next, fs, mode, StandingOf(mode, now, entry), final, top + 1)
    ensures mode.InOrder? && Refused !in now.stored && faults == 0 && Neat(old(Live(store.fs.disk))) ==>
              Prompt(entry) && next != null && Neat(Live(fs.disk))
  {
    hide Fate, Kept, Known, Neat, FateSince, Running, Standing.Then;
    ghost var c, start, first := store.claim, store.nextOrdinal, store.fs.faults;
    var logged, status, event := |store.fs.history|, Done, NotOpen;
    status, event := PerformSave(store, p, mode, now, top);
    ghost var failed := store.fs.faults - first;
    entry, fs, next, final, faults :=
      Finish(store, event, SaveAttempted(p), logged, mode, now, Attempting(c, p), Acknowledged(start, p), top + 1);
    faults := faults + failed;
  }

  method RunReset(store: AccessibilityStore, mode: Crashes, ghost now: Standing, ghost top: nat)
    returns (entry: seq<Event>, fs: FileSystem, next: AccessibilityStore?, ghost final: Claim, ghost faults: nat)
    requires Running(store, mode, now, top) && Enough(mode, top)
    modifies store, store.fs
    ensures (fs == store.fs || fresh(fs)) && (next == null || next == store || fresh(next))
    ensures Answers(true, ResetCommand, entry) && (next != null <==> IsOpen(true, entry))
    ensures Serves(next, fs, mode, StandingOf(mode, now, entry), final, top)
    ensures mode.InOrder? && Refused !in now.stored && faults == 0 ==> Prompt(entry) && next != null && Neat(Live(fs.disk))
  {
    hide Fate, Kept, Known, Neat, FateSince, Holds, Bounded, Standing.Then;
    ghost var c, start, first := store.claim, store.fs.disk, store.fs.faults;
    var logged, status, event := |store.fs.history|, Done, NotOpen;
    status, event := PerformReset(store, mode, now, top);
    ghost var failed := store.fs.faults - first;
    entry, fs, next, final, faults :=
      Finish(store, event, ResetAttempted, logged, mode, now, ResetClaim(c, start), EmptyClaim(c.next), top);
    faults := faults + failed;
  }

  /** One command: what the store answers, if there is one, and outages from the middle of it on. */
  method RunStep(fs: FileSystem, store: AccessibilityStore?, command: Command, mode: Crashes, ghost now: Standing, ghost c: Claim, ghost top: nat)
    returns (entry: seq<Event>, after: FileSystem, next: AccessibilityStore?, ghost final: Claim, ghost faults: nat)
    requires Serves(store, fs, mode, now, c, top) && Enough(mode, top) && Enough(mode, top + 1)
    modifies fs, store
    ensures (after == fs || fresh(after)) && (next == null || next == store || fresh(next))
    ensures Answers(store != null, command, entry) && (next != null <==> IsOpen(store != null, entry))
    ensures Serves(next, after, mode, StandingOf(mode, now, entry), final, top + 1)
    ensures mode.InOrder? && Refused !in now.stored && faults == 0 && store != null && Neat(Live(old(fs.disk))) ==>
              Prompt(entry) && next != null && Neat(Live(after.disk))
  {
    hide Fate, Running, Neat, Standing.Then;
    if command.Restart? || command.PowerLoss? {
      entry, after, next, final, faults := RunOutage(fs, |fs.history|, command.PowerLoss?, mode, now, c, c, c, top);
      ServesMono(next, after, mode, StandingOf(mode, now, entry), final, top, top + 1);
    } else if store == null {
      entry, after, next, final, faults := [NotOpen], fs, null, c, 0;
      NothingHappens(mode, now);
      ServesMono(next, after, mode, now, final, top, top + 1);
    } else {
      match command {
        case SaveCommand(p) =>
          entry, after, next, final, faults := RunSave(store, p, mode, now, top);
        case ResetCommand =>
          entry, after, next, final, faults := RunReset(store, mode, now, top);
          ServesMono(next, after, mode, StandingOf(mode, now, entry), final, top, top + 1);
      }
    }
  }

  lemma NothingHappens(mode: Crashes, now: Standing)
    ensures StandingOf(mode, now, [NotOpen]) == now
  {
    OneMoreEvent(mode, now, [], NotOpen);
  }

  lemma ServesMono(store: AccessibilityStore?, fs: FileSystem, mode: Crashes, now: Standing, c: Claim, low: nat, high: nat)
    requires Serves(store, fs, mode, now, c, low) && low <= high
    ensures Serves(store, fs, mode, now, c, high)
  {
    FateMono(mode, now, now, fs.disk, c, low, high);
    hide Fate, Known;
  }

  // ---- Every run ----

  /** The directory as it is found when the machine is first started. */
  lemma FirstStart(mode: Crashes, image: Directory, marked: bool, top: nat)
    requires (mode.InOrder? ==> Below(image.Keys, top)) && (mode.AnyOrder? ==> top >= MAX_ORDINAL) && Enough(mode, top)
    ensures var first := Initially(mode, image, marked);
            Struck(Disk([image], [marked]), true, mode, Stored(first), Standing(first, marked, false), MountClaim(image, marked), top)
  {
    hide Fate, Starts, Initially, ImageFine, Below, MountClaim;
    var first := Initially(mode, image, marked);
    FirstFine(mode, image, marked, top);
    MountedFate(mode, image, marked, first, top);
    MountStarts(mode, Stored(first), marked);
    assert Stored(first).Reports() == first;
  }

  lemma FirstFine(mode: Crashes, image: Directory, marked: bool, top: nat)
    requires (mode.InOrder? ==> Below(image.Keys, top)) && (mode.AnyOrder? ==> top >= MAX_ORDINAL)
    ensures ImageFine(mode, image, marked, Initially(mode, image, marked), top)
  {
  }

  /** The answers to one more command. */
  lemma AnsweredNext(script: seq<Command>, log: seq<seq<Event>>, command: Command, entry: seq<Event>)
    requires AllAnswered(false, script, log) && Answers(IsOpen(false, Concat(log)), command, entry)
    ensures AllAnswered(false, script + [command], log + [entry])
    ensures Concat(log + [entry]) == Concat(log) + entry
  {
    var longer := log + [entry];
    assert longer[..|log|] == log;
    forall i | 0 <= i < |script| + 1 ensures Answers(IsOpen(false, Concat(longer[..i])), (script + [command])[i], longer[i]) {
      if i < |script| { assert longer[..i] == log[..i]; }
    }
  }

  lemma {:induction false} OpenJoins(open: bool, events: seq<Event>, more: seq<Event>)
    ensures IsOpen(open, events + more) == IsOpen(IsOpen(open, events), more)
    decreases |more|
  {
    if more == [] {
      assert events + more == events;
    } else {
      assert (events + more)[..|events + more| - 1] == events + more[..|more| - 1];
      OpenJoins(open, events, more[..|more| - 1]);
    }
  }

  lemma {:induction false} RefusedFirst(mode: Crashes, first: Standing, events: seq<Event>)
    ensures Refused in StandingOf(mode, first, events).stored ==> Refused in first.stored
  {
    if events != [] {
      RefusedFirst(mode, first, events[..|events| - 1]);
      NotRefusedThen(mode, StandingOf(mode, first, events[..|events| - 1]), events[|events| - 1]);
    }
  }

  predicate AllPrompt(log: seq<seq<Event>>) { forall i :: 0 <= i < |log| ==> Prompt(log[i]) }

  /** Where a run stands after its commands. */
  ghost predicate Going(store: AccessibilityStore?, fs: FileSystem, mode: Crashes, first: Standing, script: seq<Command>,
                        log: seq<seq<Event>>, c: Claim, top: nat)
    reads store, fs
  {
    && AllAnswered(false, script, log) && (store != null <==> IsOpen(false, Concat(log)))
    && Serves(store, fs, mode, StandingOf(mode, first, Concat(log)), c, top)
  }

  ghost predicate Smooth(store: AccessibilityStore?, fs: FileSystem, log: seq<seq<Event>>)
    reads store, fs
  {
    store != null && AllPrompt(log) && WellFormed(fs.disk) && Neat(Live(fs.disk))
  }

  /** The machine is started. */
  method Start(image: Directory, marked: bool, mode: Crashes, ghost top: nat)
    returns (entry: seq<Event>, fs: FileSystem, store: AccessibilityStore?, ghost final: Claim, ghost faults: nat)
    requires (mode.InOrder? ==> Below(image.Keys, top)) && (mode.AnyOrder? ==> top >= MAX_ORDINAL) && Enough(mode, top)
    ensures fresh(fs) && (store != null ==> fresh(store))
    ensures Going(store, fs, mode, Stored(Initially(mode, image, marked)), [PowerLoss], [entry], final, top)
    ensures mode.InOrder? && Refused !in Stored(Initially(mode, image, marked)).stored && faults == 0 ==> Smooth(store, fs, [entry])
  {
    hide Fate, Struck, Running, Initially, Neat, Reopened, StandingOf, Below;
    ghost var first := Initially(mode, image, marked);
    fs := new FileSystem.Mount(image, marked);
    FirstStart(mode, image, marked, top);
    entry, fs, store, final, faults :=
      Recover(fs, true, mode, Stored(first), Standing(first, marked, false), MountClaim(image, marked), top);
    OneEntry(entry);
    FateFormed(mode, StandingOf(mode, Stored(first), entry), fs.disk, final, top);
  }

  lemma OneEntry(entry: seq<Event>)
    ensures Concat([entry]) == entry && Concat([entry][..0]) == []
  {
    assert [entry][..0] == [];
  }

  /** One command more. */
  method Advance(fs: FileSystem, store: AccessibilityStore?, command: Command, mode: Crashes, ghost first: Standing, ghost script: seq<Command>,
                 log: seq<seq<Event>>, ghost c: Claim, ghost top: nat)
    returns (longer: seq<seq<Event>>, after: FileSystem, next: AccessibilityStore?, ghost final: Claim, ghost faults: nat)
    requires Going(store, fs, mode, first, script, log, c, top) && Enough(mode, top) && Enough(mode, top + 1)
    modifies fs, store
    ensures (after == fs || fresh(after)) && (next == null || next == store || fresh(next))
    ensures Going(next, after, mode, first, script + [command], longer, final, top + 1)
    ensures mode.InOrder? && Refused !in first.stored && faults == 0 && old(Smooth(store, fs, log)) ==> Smooth(next, after, longer)
  {
    hide Fate, Running, Neat, StandingOf, Answers, AllAnswered, IsOpen, Prompt;
    ghost var now := StandingOf(mode, first, Concat(log));
    RefusedFirst(mode, first, Concat(log));
    var entry;
    entry, after, next, final, faults := RunStep(fs, store, command, mode, now, c, top);
    longer := log + [entry];
    AnsweredNext(script, log, command, entry);
    StandingJoins(mode, first, Concat(log), entry);
    OpenJoins(false, Concat(log), entry);
    FateFormed(mode, StandingOf(mode, now, entry), after.disk, final, top + 1);
  }

  /** Every run: any sequence of saves, resets, restarts and losses of power, any I/O failures, with the process killed
      or power lost between operations or at any disk step of an operation or an opening, and the process going on after
      failures. Reopening then reports the last acknowledged state or one complete later attempt, or what the two
      exceptions (see `Standing`) let in, and never a torn document. It refuses only if crashes may scatter directory
      updates; and while they do not, only a failing call keeps a command from succeeding. */
  method EveryRun(image: Directory, marked: bool, script: seq<Command>, mode: Crashes, ghost limit: nat)
    returns (log: seq<seq<Event>>, fs: FileSystem, store: AccessibilityStore?, ghost faults: nat)
    requires mode.InOrder? ==> Below(image.Keys, limit) && limit + |script| + 2 < MAX_ORDINAL
    ensures AllAnswered(false, [PowerLoss] + script, log) && (store != null <==> IsOpen(false, Concat(log)))
    ensures var now := StandingOf(mode, Stored(Initially(mode, image, marked)), Concat(log));
            && (mode.AnyOrder? ==> CrashSafe(fs.disk, now.Reports() + {Refused}))
            && (mode.InOrder? ==> OrderedSafe(fs.disk, now.Reports()))
            && (store != null ==> store.fs == fs && exists top :: Running(store, mode, now, top))
    ensures var first := Initially(mode, image, marked);
            Undisturbed(mode, first, Concat(log)) ==>
              && (mode.AnyOrder? ==> CrashSafe(fs.disk, Allowed(first, Concat(log)) + {Refused}))
              && (mode.InOrder? ==> OrderedSafe(fs.disk, Allowed(first, Concat(log))))
    ensures mode.InOrder? && Reopened(image, marked) != Refused && faults == 0 ==> store != null && AllPrompt(log)
  {
    hide *;
    ghost var first := Stored(Initially(mode, image, marked));
    ghost var final, more;
    ghost var top: nat := if mode.InOrder? then limit else MAX_ORDINAL;
    var entry;
    EnoughFor(mode, top);
    entry, fs, store, final, faults := Start(image, marked, mode, top);
    log := [entry];
    assert [PowerLoss] + script[..0] == [PowerLoss];
    for i := 0 to |script|
      invariant fresh(fs) && (store != null ==> fresh(store)) && top == i + if mode.InOrder? then limit else MAX_ORDINAL
      invariant Going(store, fs, mode, first, [PowerLoss] + script[..i], log, final, top)
      invariant mode.InOrder? && Refused !in first.stored && faults == 0 ==> Smooth(store, fs, log)
    {
      EnoughFor(mode, top);
      EnoughFor(mode, top + 1);
      ghost var done := [PowerLoss] + script[..i];
      log, fs, store, final, more := Advance(fs, store, script[i], mode, first, done, log, final, top);
      assert done + [script[i]] == [PowerLoss] + script[..i + 1];
      top, faults := top + 1, faults + more;
    }
    assert script[..|script|] == script;
    EnoughFor(mode, top);
    RunEnds(store, fs, mode, image, marked, [PowerLoss] + script, log, final, top);
  }

  lemma EnoughFor(mode: Crashes, top: nat)
    requires if mode.InOrder? then top + 1 < MAX_ORDINAL else top >= MAX_ORDINAL
    ensures Enough(mode, top)
  {
  }

  lemma RunEnds(store: AccessibilityStore?, fs: FileSystem, mode: Crashes, image: Directory, marked: bool, script: seq<Command>,
                log: seq<seq<Event>>, c: Claim, top: nat)
    requires Going(store, fs, mode, Stored(Initially(mode, image, marked)), script, log, c, top) && Enough(mode, top)
    ensures AllAnswered(false, script, log) && (store != null <==> IsOpen(false, Concat(log)))
    ensures var now := StandingOf(mode, Stored(Initially(mode, image, marked)), Concat(log));
            && (mode.AnyOrder? ==> CrashSafe(fs.disk, now.Reports() + {Refused}))
            && (mode.InOrder? ==> OrderedSafe(fs.disk, now.Reports()))
            && (store != null ==> store.fs == fs && exists top :: Running(store, mode, now, top))
    ensures var first := Initially(mode, image, marked);
            Undisturbed(mode, first, Concat(log)) ==>
              && (mode.AnyOrder? ==> CrashSafe(fs.disk, Allowed(first, Concat(log)) + {Refused}))
              && (mode.InOrder? ==> OrderedSafe(fs.disk, Allowed(first, Concat(log))))
    ensures Refused in Stored(Initially(mode, image, marked)).stored && mode.InOrder? ==> Reopened(image, marked) == Refused
    ensures Smooth(store, fs, log) ==> store != null && AllPrompt(log)
  {
    hide Fate, Running, AllAnswered, IsOpen, Concat, Undisturbed, Allowed, StandingOf, Reopened, Neat, CrashSafe, OrderedSafe;
    var first, events := Initially(mode, image, marked), Concat(log);
    var now := StandingOf(mode, Stored(first), events);
    FateSurvives(mode, now, fs.disk, c, top);
    SurvivalMeans(mode, fs.disk, now.Reports(), top);
    if Undisturbed(mode, first, events) { StandingAsAllowed(mode, first, events); }
  }

  /** While the store is running, a crash can bring what the standing does not list exactly where a reset marker may be
      found and defaults were not promised. */
  lemma PromiseKeptIff(store: AccessibilityStore, mode: Crashes, now: Standing, top: nat)
    requires Running(store, mode, now, top)
    ensures mode.AnyOrder? ==>
              (CrashSafe(store.fs.disk, now.stored + {Refused}) <==> true !in store.fs.disk.marker || Fresh in now.stored)
    ensures mode.InOrder? && top + 1 < MAX_ORDINAL && Refused !in now.stored ==>
              (OrderedSafe(store.fs.disk, now.stored) <==> true !in store.fs.disk.marker || Fresh in now.stored)
  {
    var d := store.fs.disk;
    if true in d.marker && Fresh !in now.stored {
      MarkedWipes(d, now.stored + {Refused});
      MarkedWipes(d, now.stored);
    } else if mode.AnyOrder? {
      GuardedSafe(d, store.claim);
      CrashMono(d, Possible(d, store.claim) + {Refused}, now.stored + {Refused});
    } else if store.claim.next < MAX_ORDINAL {
      OrderedNeverRefused(d, store.claim);
      OrderedMono(d, Seen(d, store.claim), now.stored);
    }
  }

  lemma OrderedMono(d: Disk, small: set<Outcome>, large: set<Outcome>)
    requires OrderedSafe(d, small) && small <= large
    ensures OrderedSafe(d, large)
  {
  }
}
