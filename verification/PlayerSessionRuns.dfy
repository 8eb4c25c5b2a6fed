/** What every run of player-session commands keeps. */
module PlayerSessionRuns {
  import opened Options
  import opened PlayerSession

  datatype Command =
    | Observing(at: Instant, tracks: seq<string>, fault: bool)
    | Joining(track: string)
    | Leaving(slot: int)
    | OpeningPause(completions: seq<Completion>)
    | OpeningPauseForTracks(trackCompletions: seq<TrackCompletion>)
    | ClosingPause(owner: int, destination: Destination)
    | Resuming(controller: string, keep: Option<seq<int>>)
    | Resetting

  function Perform(c: Config, s: Session, command: Command): Outcome {
    match command
    case Observing(at, tracks, fault) => Observe(c, s, at, tracks, fault)
    case Joining(track) => Join(c, s, track)
    case Leaving(slot) => Leave(s, slot)
    case OpeningPause(completions) => OpenPause(s, completions)
    case OpeningPauseForTracks(completions) => OpenPauseForTracks(s, completions)
    case ClosingPause(owner, destination) => ClosePause(s, owner, destination)
    case Resuming(controller, keep) => ResumeRecovery(s, controller, keep)
    case Resetting => Done(Initial(), [])
  }

  /** The session after a command; a refused one changes nothing. */
  function Next(c: Config, s: Session, command: Command): Session {
    match Perform(c, s, command) case Done(t, _) => t case Refused(_) => s
  }

  function After(c: Config, run: seq<Command>): Session {
    if run == [] then Initial() else Next(c, After(c, run[..|run| - 1]), run[|run| - 1])
  }

  // ---- The observation history, kept outside the session ----

  datatype Observation = Observation(ms: real, tracks: set<string>)

  type History = seq<Observation>

  /** What an accepted observation adds to the history. */
  function Recorded(h: History, command: Command): History {
    match command
    case Observing(at, tracks, _) =>
      if IsTime(at) && TracksError(tracks).None? then h + [Observation(at.ms, Items(tracks))] else h
    case _ => h
  }

  function Observations(run: seq<Command>): History {
    if run == [] then [] else Recorded(Observations(run[..|run| - 1]), run[|run| - 1])
  }

  /** How many of the latest consecutive observations do not show the track. */
  function Streak(h: History, track: string): (n: nat)
    ensures n <= |h|
  {
    if h == [] || track in h[|h| - 1].tracks then 0 else 1 + Streak(h[..|h| - 1], track)
  }

  /** The streak is what its name says: that many latest observations, and no more, miss the track. */
  lemma {:induction false} StreakCounts(h: History, track: string)
    ensures var n := Streak(h, track);
            && (forall i :: |h| - n <= i < |h| ==> track !in h[i].tracks)
            && (n < |h| ==> track in h[|h| - n - 1].tracks)
  {
    if h != [] && track !in h[|h| - 1].tracks {
      StreakCounts(h[..|h| - 1], track);
    }
  }

  /** The track is missing from enough latest observations, over a long enough time. */
  predicate LongAbsent(c: Config, h: History, track: string) {
    var n := Streak(h, track);
    n > 0 && n >= c.minimumMisses && h[|h| - 1].ms - h[|h| - n].ms >= c.lossConfirmation
  }

  lemma StreakExtends(h: History, o: Observation, track: string)
    ensures Streak(h + [o], track) == if track in o.tracks then 0 else 1 + Streak(h, track)
  {
    assert (h + [o])[..|h|] == h;
  }

  // ---- The invariant ----

  ghost predicate DistinctTracks(players: map<Slot, Player>) {
    forall j, k :: j in players && k in players && j != k ==> players[j].track != players[k].track
  }

  /** Who is seated, and who owns the launcher. */
  ghost predicate Seating(c: Config, s: Session) {
    && (s.phase == Setup <==> s.players == map[])
    && (forall k :: k in s.players ==> k <= c.maxPlayers)
    && DistinctTracks(s.players)
    && (s.launcher.None? <==> s.players == map[])
    && (s.launcher.Some? ==> s.launcher.value in s.players)
  }

  predicate Live(phase: Phase) { phase == Playing || phase == Paused }

  /** While nothing is frozen a player is joined, visible and in the latest observation, or none of these. */
  predicate LivePlayer(visible: set<string>, p: Player) {
    && (p.presence == Joined || p.presence == ConfirmingLoss) && p.lostAt.None?
    && (p.presence == Joined <==> p.visible) && (p.visible <==> p.track in visible)
  }

  predicate FrozenPlayer(visible: set<string>, p: Player) {
    && p.presence != AwaitingResume
    && (p.presence == Reacquiring <==> p.lostAt.Some?)
    && (p.presence == Joined ==> p.visible && p.track in visible)
    && (p.presence == ConfirmingLoss ==> p.track !in visible)
  }

  ghost predicate AllLive(visible: set<string>, players: map<Slot, Player>) {
    forall k :: k in players ==> LivePlayer(visible, players[k])
  }

  ghost predicate AllFrozen(visible: set<string>, players: map<Slot, Player>) {
    forall k :: k in players ==> FrozenPlayer(visible, players[k])
  }

  ghost predicate Watched(s: Session) {
    && (Live(s.phase) ==> AllLive(s.visible, s.players))
    && (s.phase == Frozen ==> AllFrozen(s.visible, s.players))
    && (s.phase == Frozen || s.phase == Recovery ==> !AllJoined(s.players))
  }

  /** A manual overlay has a seated owner, and is paused or frozen on its way back to paused. */
  predicate Owned(s: Session) {
    && Live(s.returnPhase)
    && (s.overlay.Some? ==>
          s.overlay.value in s.players && (s.phase == Paused || (s.phase == Frozen && s.returnPhase == Paused)))
  }

  ghost predicate Sound(c: Config, s: Session) { Seating(c, s) && Watched(s) && Owned(s) }

  /** The loss evidence of a player is the real streak of missing observations. */
  predicate Evidence(h: History, p: Player) {
    p.presence == ConfirmingLoss ==>
      && p.misses == Streak(h, p.track) > 0
      && p.missingSince == Some(h[|h| - p.misses].ms)
  }

  ghost predicate AllEvidence(h: History, players: map<Slot, Player>) {
    forall k :: k in players ==> Evidence(h, players[k])
  }

  ghost predicate Evidenced(h: History, s: Session) {
    && (s.visible != {} || s.players != map[] ==> h != [] && s.visible == h[|h| - 1].tracks)
    && (Live(s.phase) || s.phase == Frozen ==> AllEvidence(h, s.players))
  }

  // ---- Seats ----

  predicate SameSeats(a: map<Slot, Player>, b: map<Slot, Player>) {
    a.Keys == b.Keys && forall k :: k in a ==> a[k].track == b[k].track
  }

  /** A step that moves nobody and neither enters nor leaves setup keeps the seating. */
  lemma SeatsKept(c: Config, s: Session, t: Session)
    requires Seating(c, s) && SameSeats(s.players, t.players) && t.launcher == s.launcher
    requires t.phase == Setup <==> s.phase == Setup
    ensures Seating(c, t)
  {
    assert t.players == map[] <==> t.players.Keys == {};
    assert s.players == map[] <==> s.players.Keys == {};
  }

  // ---- Forced loss ----

  lemma AllLostIsFrozen(players: map<Slot, Player>, visible: set<string>, now: real)
    requires players != map[]
    ensures var lost := AllLost(Refreshed(players, visible), now);
            SameSeats(players, lost) && AllFrozen(visible, lost) && !AllJoined(lost)
  {
    var k :| k in players;
    assert AllLost(Refreshed(players, visible), now)[k].presence != Joined;
  }

  lemma UnconfirmedLostIsFrozen(players: map<Slot, Player>, before: set<string>, visible: set<string>, now: real)
    requires AllFrozen(before, players) && !AllJoined(players)
    ensures var lost := UnconfirmedLost(Refreshed(players, visible), now);
            SameSeats(players, lost) && AllFrozen(visible, lost) && !AllJoined(lost)
  {
    var lost := UnconfirmedLost(Refreshed(players, visible), now);
    forall k | k in players ensures lost[k].presence == Reacquiring && FrozenPlayer(visible, lost[k]) {
      assert FrozenPlayer(before, players[k]);
    }
    var k :| k in players && players[k].presence != Joined;
    assert lost[k].presence != Joined;
  }

  lemma RefreshedSeats(players: map<Slot, Player>, visible: set<string>)
    ensures SameSeats(players, Refreshed(players, visible))
    ensures AllJoined(Refreshed(players, visible)) <==> AllJoined(players)
  {
    var r := Refreshed(players, visible);
    assert forall k :: k in players ==> r[k].presence == players[k].presence;
  }

  /** The session an observation starts from. */
  function Noted(s: Session, now: real, visible: set<string>): Session { s.(visible := visible, last := Some(now)) }

  lemma ForcedLossKeeps(c: Config, s: Session, now: real, visible: set<string>, cause: Cause)
    requires Sound(c, s) && cause != TrackingLoss
    ensures Sound(c, ForcedLoss(Noted(s, now, visible), now, cause).state)
  {
    hide Refreshed, UnconfirmedLost, AllLost, AllFrozen, AllLive, AllJoined, DistinctTracks;
    RefreshedSeats(s.players, visible);
    if s.players == map[] {
      assert Refreshed(s.players, visible).Keys == {};
    } else if cause == HardFault && s.phase == Frozen {
      UnconfirmedLostIsFrozen(s.players, s.visible, visible, now);
    } else if !(cause == HardFault && s.phase == Recovery) {
      AllLostIsFrozen(s.players, visible, now);
    }
    SeatsKept(c, s, ForcedLoss(Noted(s, now, visible), now, cause).state);
  }

  // ---- Ordinary observations ----

  lemma ObservedSeats(c: Config, s: Session, now: real)
    ensures SameSeats(s.players, ObservedPlayers(c, s, now))
  {
  }

  /** After an ordinary observation of a live session, every player is live unless its loss was confirmed. */
  lemma ObservedLive(c: Config, s: Session, before: set<string>, now: real)
    requires Live(s.phase) && AllLive(before, s.players)
    ensures var players := ObservedPlayers(c, s, now);
            && AllFrozen(s.visible, players)
            && (NewlyLost(c, s, now) == {} ==> AllLive(s.visible, players))
            && (NewlyLost(c, s, now) != {} ==> !AllJoined(players))
            && (forall k :: k in players && players[k].lostAt.Some? ==> players[k].lostAt.value == now)
  {
    var players := ObservedPlayers(c, s, now);
    forall k | k in s.players
      ensures FrozenPlayer(s.visible, players[k])
      ensures k !in NewlyLost(c, s, now) ==> LivePlayer(s.visible, players[k])
      ensures k in NewlyLost(c, s, now) ==> players[k].presence != Joined
      ensures players[k].lostAt.Some? ==> players[k].lostAt.value == now
    {
      assert LivePlayer(before, s.players[k]);
    }
    if NewlyLost(c, s, now) != {} {
      var k :| k in NewlyLost(c, s, now);
      assert players[k].presence != Joined;
    }
  }

  lemma ObservedFrozen(c: Config, s: Session, before: set<string>, now: real)
    requires s.phase == Frozen && AllFrozen(before, s.players)
    ensures AllFrozen(s.visible, ObservedPlayers(c, s, now))
  {
    forall k | k in s.players ensures FrozenPlayer(s.visible, ObservedPlayers(c, s, now)[k]) {
      assert FrozenPlayer(before, s.players[k]);
    }
  }

  lemma ObservedRecovery(c: Config, s: Session, now: real)
    requires s.phase == Recovery && !AllJoined(s.players)
    ensures !AllJoined(ObservedPlayers(c, s, now))
  {
    var k :| k in s.players && s.players[k].presence != Joined;
    assert ObservedPlayers(c, s, now)[k].presence != Joined;
  }

  lemma AwaitingSeats(players: map<Slot, Player>)
    ensures SameSeats(players, AllAwaiting(players))
    ensures AllJoined(AllAwaiting(players)) <==> AllJoined(players)
  {
    assert forall k :: k in players ==> (AllAwaiting(players)[k].presence == Joined <==> players[k].presence == Joined);
  }

  lemma FrozenJoinedIsLive(visible: set<string>, players: map<Slot, Player>)
    requires AllFrozen(visible, players) && AllJoined(players)
    ensures AllLive(visible, players)
  {
    forall k | k in players ensures LivePlayer(visible, players[k]) {
      assert FrozenPlayer(visible, players[k]);
    }
  }

  /** The end of an observation keeps the invariant of a frozen session that may be fully joined again. */
  lemma SettledKeeps(c: Config, s: Session, now: real, recovered: set<Slot>, events: seq<Event>)
    requires Seating(c, s) && Owned(s) && s.phase == Frozen && AllFrozen(s.visible, s.players)
    ensures Sound(c, Settled(c, s, now, recovered, events).state)
  {
    hide AllFrozen, AllLive, AllJoined, DistinctTracks, AllAwaiting, SomeExpired;
    if AllJoined(s.players) {
      FrozenJoinedIsLive(s.visible, s.players);
    }
    AwaitingSeats(s.players);
    SeatsKept(c, s, Settled(c, s, now, recovered, events).state);
  }

  lemma OrdinaryKeeps(c: Config, s: Session, now: real, visible: set<string>)
    requires Sound(c, s) && s.players != map[]
    ensures Sound(c, OrdinaryObservation(c, Noted(s, now, visible), now).state)
  {
    hide AllFrozen, AllLive, AllJoined, DistinctTracks, ObservedPlayers, NewlyLost, NewlyRecovered, SomeExpired;
    var n := Noted(s, now, visible);
    var seen := n.(players := ObservedPlayers(c, n, now));
    ObservedSeats(c, n, now);
    SeatsKept(c, s, seen);
    if Live(s.phase) {
      ObservedLive(c, n, s.visible, now);
      if NewlyLost(c, n, now) != {} {
        var frozen := seen.(phase := Frozen, returnPhase := s.phase);
        SeatsKept(c, seen, frozen);
        SettledKeeps(c, frozen, now, NewlyRecovered(c, n, now), [Freeze(TrackingLoss, Sorted(NewlyLost(c, n, now)))]);
      }
    } else if s.phase == Frozen {
      ObservedFrozen(c, n, s.visible, now);
      SettledKeeps(c, seen, now, NewlyRecovered(c, n, now), []);
    } else {
      ObservedRecovery(c, n, now);
    }
  }

  lemma ObserveKeeps(c: Config, s: Session, at: Instant, tracks: seq<string>, fault: bool)
    requires Sound(c, s)
    ensures Sound(c, Next(c, s, Observing(at, tracks, fault)))
  {
    hide Sound, ForcedLoss, OrdinaryObservation, TracksError, Items;
    if IsTime(at) && TracksError(tracks).None? {
      if Regresses(s, at.ms) {
        ForcedLossKeeps(c, s, at.ms, Items(tracks), ClockRegression);
      } else if fault {
        ForcedLossKeeps(c, s, at.ms, Items(tracks), HardFault);
      } else if s.players != map[] {
        OrdinaryKeeps(c, s, at.ms, Items(tracks));
      } else {
        EmptyKeeps(c, s, at.ms, Items(tracks));
      }
    }
  }

  lemma EmptyKeeps(c: Config, s: Session, now: real, visible: set<string>)
    requires Sound(c, s) && s.players == map[]
    ensures Sound(c, Noted(s, now, visible))
  {
    var n := Noted(s, now, visible);
    assert n.phase == Setup;
  }

  // ---- The deliberate commands ----

  lemma JoinKeeps(c: Config, s: Session, track: string)
    requires Sound(c, s)
    ensures Sound(c, Next(c, s, Joining(track)))
  {
    var t := Next(c, s, Joining(track));
    if t != s {
      var slot := FreeSlot(s);
      assert slot !in s.players && slot in t.players;
      forall k | k in t.players ensures LivePlayer(t.visible, t.players[k]) {
        if k != slot { assert s.phase == Playing && LivePlayer(s.visible, s.players[k]); }
      }
      forall j, k | j in t.players && k in t.players && j != k ensures t.players[j].track != t.players[k].track {
        if j == slot { assert s.players[k].track != track; }
        if k == slot { assert s.players[j].track != track; }
      }
    }
  }

  lemma RestSeats(c: Config, s: Session, rest: map<Slot, Player>, slot: int)
    requires Seating(c, s) && rest == s.players - {slot} && rest != map[]
    ensures DistinctTracks(rest) && Sorted(rest.Keys) != [] && Sorted(rest.Keys)[0] in rest
    ensures forall k :: k in rest ==> k <= c.maxPlayers
  {
    assert rest.Keys != {};
    var k :| k in rest;
    assert forall k :: k in rest ==> k in s.players && rest[k] == s.players[k];
  }

  lemma LeaveKeeps(c: Config, s: Session, slot: int)
    requires Sound(c, s)
    ensures Sound(c, Next(c, s, Leaving(slot)))
  {
    if Leave(s, slot).Done? {
      hide DistinctTracks, Sorted;
      var rest := s.players - {slot};
      if rest == map[] {
        assert rest.Keys == {};
        SortedEmpty();
      } else {
        RestSeats(c, s, rest, slot);
      }
      assert forall k :: k in rest ==> k in s.players && rest[k] == s.players[k];
    }
  }

  lemma SortedEmpty()
    ensures Sorted({}) == []
  {
  }

  lemma PauseKeeps(c: Config, s: Session, completions: seq<Completion>)
    requires Sound(c, s)
    ensures Sound(c, Next(c, s, OpeningPause(completions)))
  {
    if s.phase == Playing && Winner(s, completions).Some? {
      assert Winner(s, completions).value.slot in s.players;
    }
  }

  lemma ClosePauseKeeps(c: Config, s: Session, owner: int, destination: Destination)
    requires Sound(c, s)
    ensures Sound(c, Next(c, s, ClosingPause(owner, destination)))
  {
  }

  /** Every player of the session is joined and in the latest observation. */
  ghost predicate AllPresent(s: Session) {
    forall k :: k in s.players ==>
      s.players[k].presence == Joined && s.players[k].visible && s.players[k].track in s.visible && s.players[k].lostAt.None?
  }

  lemma RejoinedPresent(s: Session, kept: set<Slot>, players: map<Slot, Player>)
    requires forall k :: k in kept ==> k in players && players[k].track in s.visible
    ensures var t := Resumed(s, kept, players);
            && t.players.Keys == kept
            && (forall k :: k in t.players ==> k in players && t.players[k].track == players[k].track)
            && AllPresent(t) && AllLive(s.visible, t.players)
  {
  }

  lemma ResumedSeats(c: Config, s: Session, kept: set<Slot>, players: map<Slot, Player>, t: Session)
    requires Seating(c, s) && players.Keys == s.players.Keys && DistinctTracks(players)
    requires kept != {} && kept <= players.Keys
    requires t.phase == Playing && t.launcher == NextLauncher(s.launcher, kept)
    requires t.players.Keys == kept
    requires forall k :: k in t.players ==> t.players[k].track == players[k].track
    ensures Seating(c, t)
  {
    hide DistinctTracks;
    var one :| one in kept;
    assert one in t.players;
    DistinctAmong(players, t.players);
  }

  lemma DistinctAmong(a: map<Slot, Player>, b: map<Slot, Player>)
    requires DistinctTracks(a) && b.Keys <= a.Keys && forall k :: k in b ==> b[k].track == a[k].track
    ensures DistinctTracks(b)
  {
  }

  /** A resumed roster of visible players is a sound live session. */
  lemma ResumedKeeps(c: Config, s: Session, kept: set<Slot>, players: map<Slot, Player>)
    requires Seating(c, s) && Live(s.returnPhase) && s.phase == Recovery
    requires kept != {} && (forall k :: k in kept ==> k in players && players[k].track in s.visible)
    requires players.Keys == s.players.Keys && DistinctTracks(players)
    ensures var t := Resumed(s, kept, players);
            Sound(c, t) && AllPresent(t) && t.phase == Playing && t.players.Keys == kept
  {
    hide Seating, AllPresent, AllLive, Rejoined, DistinctTracks;
    RejoinedPresent(s, kept, players);
    ResumedSeats(c, s, kept, players, Resumed(s, kept, players));
  }

  lemma TakeoverIsDistinct(players: map<Slot, Player>, owner: Slot, track: string)
    requires owner in players && |players| == 1
    ensures DistinctTracks(players[owner := players[owner].(track := track)])
    ensures forall k :: k in players ==> k == owner
  {
    var others := players.Keys - {owner};
    assert |others| == |players.Keys| - 1;
    assert forall k :: k in players && k != owner ==> k in others;
  }

  lemma TakeoverRejoins(c: Config, s: Session, track: string, kept: set<Slot>)
    requires Sound(c, s) && s.phase == Recovery && |s.players| == 1 && track in s.visible
    requires kept != {} && kept <= s.players.Keys
    ensures Lead(kept) in s.players
    ensures var t := Resumed(s, kept, s.players[Lead(kept) := s.players[Lead(kept)].(track := track)]);
            && Sound(c, t) && AllPresent(t) && t.phase == Playing && t.players.Keys == kept
            && Lead(kept) in t.players && t.players[Lead(kept)].track == track
  {
    hide Sound, Seating, AllPresent;
    var one :| one in kept;
    var owner := Lead(kept);
    TakeoverIsDistinct(s.players, owner, track);
    var players := s.players[owner := s.players[owner].(track := track)];
    SoundSeating(c, s);
    ResumedKeeps(c, s, kept, players);
    RejoinedPresent(s, kept, players);
  }

  lemma SoundSeating(c: Config, s: Session)
    requires Sound(c, s)
    ensures Seating(c, s) && Live(s.returnPhase) && DistinctTracks(s.players)
    ensures s.phase == Setup <==> s.players == map[]
  {
  }

  /** A deliberate resume of a recovery leaves every remaining seat joined and visible. */
  lemma ResumeRejoinsEveryone(c: Config, s: Session, track: string, keep: Option<seq<int>>)
    requires Sound(c, s) && ResumeRecovery(s, track, keep).Done?
    ensures var t := Next(c, s, Resuming(track, keep));
            && Sound(c, t) && AllPresent(t) && t.phase == Playing
            && t.players.Keys == Kept(s, keep)
            && (exists k :: k in t.players && t.players[k].track == track)
  {
    hide Sound, Seating, AllPresent, Resumed, Kept, KeepsNobody, KeepsStranger;
    var kept := Kept(s, keep);
    KeptSeats(s, keep);
    if |s.players| == 1 {
      TakeoverRejoins(c, s, track, kept);
    } else {
      RosterRejoins(c, s, track, kept);
    }
  }

  lemma RosterRejoins(c: Config, s: Session, track: string, kept: set<Slot>)
    requires Sound(c, s) && s.phase == Recovery && Controller(s, track, kept).Some?
    requires kept <= s.players.Keys && forall k :: k in kept ==> s.players[k].track in s.visible
    ensures var t := Resumed(s, kept, s.players);
            && Sound(c, t) && AllPresent(t) && t.phase == Playing && t.players.Keys == kept
            && exists k :: k in t.players && t.players[k].track == track
  {
    hide Sound, Seating, AllPresent;
    var owner := Controller(s, track, kept).value;
    assert owner in kept;
    SoundSeating(c, s);
    ResumedKeeps(c, s, kept, s.players);
    RejoinedPresent(s, kept, s.players);
    assert owner in Resumed(s, kept, s.players).players;
  }

  lemma PerformKeeps(c: Config, s: Session, command: Command)
    requires Sound(c, s)
    ensures Sound(c, Next(c, s, command))
  {
    hide Sound, ResumeRecovery, Join, Leave, OpenPause, ClosePause, Observe;
    match command
    case Observing(at, tracks, fault) => ObserveKeeps(c, s, at, tracks, fault);
    case Joining(track) => JoinKeeps(c, s, track);
    case Leaving(slot) => LeaveKeeps(c, s, slot);
    case OpeningPause(completions) => PauseKeeps(c, s, completions);
    case OpeningPauseForTracks(completions) =>
      if OpenPauseForTracks(s, completions).Done? {
        PauseKeeps(c, s, Authorized(s, completions));
      }
    case ClosingPause(owner, destination) => ClosePauseKeeps(c, s, owner, destination);
    case Resuming(controller, keep) =>
      if ResumeRecovery(s, controller, keep).Done? {
        ResumeRejoinsEveryone(c, s, controller, keep);
      }
    case Resetting => InitialSound(c);
  }

  lemma InitialSound(c: Config)
    ensures Sound(c, Initial())
  {
  }

  /** Every reachable session is sound. */
  lemma {:induction false} RunSound(c: Config, run: seq<Command>)
    ensures Sound(c, After(c, run))
  {
    hide Sound, Perform;
    if run == [] {
      InitialSound(c);
    } else {
      RunSound(c, run[..|run| - 1]);
      PerformKeeps(c, After(c, run[..|run| - 1]), run[|run| - 1]);
    }
  }

  // ---- The evidence is real ----

  lemma ObservedEvidence(c: Config, h: History, s: Session, o: Observation)
    requires Live(s.phase) ==> AllLive(s.visible, s.players)
    requires s.phase == Frozen ==> AllFrozen(s.visible, s.players)
    requires Live(s.phase) || s.phase == Frozen
    requires s.players != map[] && Evidenced(h, s)
    ensures AllEvidence(h + [o], ObservedPlayers(c, Noted(s, o.ms, o.tracks), o.ms))
  {
    var n := Noted(s, o.ms, o.tracks);
    var players := ObservedPlayers(c, n, o.ms);
    forall k | k in s.players ensures Evidence(h + [o], players[k]) {
      var p := s.players[k];
      assert Evidence(h, p);
      StreakExtends(h, o, p.track);
      if Live(s.phase) { assert LivePlayer(s.visible, p); } else { assert FrozenPlayer(s.visible, p); }
    }
  }

  lemma ForcedEvidence(h: History, s: Session, n: Session, now: real, cause: Cause)
    requires s.phase == Setup <==> s.players == map[]
    requires s.phase == Frozen ==> AllFrozen(s.visible, s.players)
    requires n == Noted(s, now, n.visible) && cause != TrackingLoss
    ensures var t := ForcedLoss(n, now, cause).state;
            Live(t.phase) || t.phase == Frozen ==> AllEvidence(h, t.players)
  {
    var t := ForcedLoss(n, now, cause).state;
    forall k | k in t.players && (Live(t.phase) || t.phase == Frozen) ensures Evidence(h, t.players[k]) {
      if s.phase == Frozen { assert FrozenPlayer(s.visible, s.players[k]); }
    }
  }

  lemma SettledEvidence(c: Config, h: History, s: Session, now: real, recovered: set<Slot>, events: seq<Event>)
    requires AllEvidence(h, s.players)
    ensures Settled(c, s, now, recovered, events).Done?
    ensures var t := Settled(c, s, now, recovered, events).state;
            t.visible == s.visible && (t.phase != Recovery ==> AllEvidence(h, t.players))
            && (s.phase == Recovery ==> t.phase == Recovery) && (t.players == map[] <==> s.players == map[])
  {
    assert s.players == map[] <==> s.players.Keys == {};
    AwaitingSeats(s.players);
    assert AllAwaiting(s.players) == map[] <==> AllAwaiting(s.players).Keys == {};
  }

  lemma ObserveEvidence(c: Config, h: History, s: Session, at: Instant, tracks: seq<string>, fault: bool)
    requires Sound(c, s) && Evidenced(h, s)
    ensures Evidenced(Recorded(h, Observing(at, tracks, fault)), Next(c, s, Observing(at, tracks, fault)))
  {
    hide AllEvidence, ObservedPlayers, NewlyLost, NewlyRecovered, Settled, AllFrozen, AllLive, AllJoined, TracksError, Items, ForcedLoss;
    if IsTime(at) && TracksError(tracks).None? {
      var o := Observation(at.ms, Items(tracks));
      var n := Noted(s, at.ms, o.tracks);
      if Regresses(s, at.ms) || fault {
        var cause := if Regresses(s, at.ms) then ClockRegression else HardFault;
        ForcedVisible(n, at.ms, cause);
        ForcedEvidence(h + [o], s, n, at.ms, cause);
      } else if s.players != map[] {
        OrdinaryEvidence(c, h, s, o);
      } else {
      }
    }
  }

  lemma ForcedVisible(s: Session, now: real, cause: Cause)
    ensures ForcedLoss(s, now, cause).Done? && ForcedLoss(s, now, cause).state.visible == s.visible
  {
  }

  lemma OrdinaryEvidence(c: Config, h: History, s: Session, o: Observation)
    requires Sound(c, s) && Evidenced(h, s) && s.players != map[]
    ensures OrdinaryObservation(c, Noted(s, o.ms, o.tracks), o.ms).Done?
    ensures Evidenced(h + [o], OrdinaryObservation(c, Noted(s, o.ms, o.tracks), o.ms).state)
  {
    hide AllEvidence, ObservedPlayers, NewlyLost, NewlyRecovered, Settled, AllFrozen, AllLive, AllJoined;
    var n := Noted(s, o.ms, o.tracks);
    var seen := n.(players := ObservedPlayers(c, n, o.ms));
    var lost, recovered := NewlyLost(c, n, o.ms), NewlyRecovered(c, n, o.ms);
    if Live(s.phase) || s.phase == Frozen {
      ObservedEvidence(c, h, s, o);
      SettledEvidence(c, h + [o], seen.(phase := Frozen, returnPhase := s.phase), o.ms, recovered,
                      [Freeze(TrackingLoss, Sorted(lost))]);
      SettledEvidence(c, h + [o], seen, o.ms, recovered, []);
    } else {
      UnfrozenSettles(c, seen, o.ms, recovered);
    }
  }

  lemma UnfrozenSettles(c: Config, s: Session, now: real, recovered: set<Slot>)
    requires s.phase != Frozen
    ensures Settled(c, s, now, recovered, []) == Done(s, [])
  {
  }

  /** A step that keeps the observation and adds no unconfirmed loss keeps the evidence. */
  lemma EvidenceCarries(h: History, s: Session, t: Session)
    requires Evidenced(h, s) && t.visible == s.visible && s.phase != Recovery
    requires s.players == map[] && t.players != map[] ==> s.visible != {}
    requires forall k :: k in t.players ==> t.players[k].presence == Joined || (k in s.players && t.players[k] == s.players[k])
    requires s.phase == Setup <==> s.players == map[]
    ensures Evidenced(h, t)
  {
    forall k | k in t.players ensures Evidence(h, t.players[k]) {
      if t.players[k].presence != Joined { assert Evidence(h, s.players[k]); }
    }
  }

  lemma ResumeEvidence(c: Config, h: History, s: Session, track: string, keep: Option<seq<int>>)
    requires Sound(c, s) && Evidenced(h, s) && ResumeRecovery(s, track, keep).Done?
    ensures Evidenced(h, Next(c, s, Resuming(track, keep)))
  {
    hide Sound, Seating, Kept, Rejoined;
    ResumeRejoinsEveryone(c, s, track, keep);
    SoundSeating(c, s);
    var t := Next(c, s, Resuming(track, keep));
    assert t.visible == s.visible && s.phase == Recovery && t.phase == Playing;
    JoinedNeedNoEvidence(h, s, t);
  }

  lemma JoinedNeedNoEvidence(h: History, s: Session, t: Session)
    requires Evidenced(h, s) && t.visible == s.visible && s.players != map[] && AllPresent(t)
    ensures Evidenced(h, t)
  {
  }

  lemma PauseEvidence(c: Config, h: History, s: Session, completions: seq<Completion>)
    requires Sound(c, s) && Evidenced(h, s)
    ensures Evidenced(h, Next(c, s, OpeningPause(completions)))
  {
  }

  lemma PerformEvidence(c: Config, h: History, s: Session, command: Command)
    requires Sound(c, s) && Evidenced(h, s)
    ensures Evidenced(Recorded(h, command), Next(c, s, command))
  {
    hide Evidenced, Watched, Owned, DistinctTracks, Observe, Winner, Authorized;
    var t := Next(c, s, command);
    match command
    case Observing(at, tracks, fault) => ObserveEvidence(c, h, s, at, tracks, fault);
    case Joining(track) => if t != s { EvidenceCarries(h, s, t); }
    case Leaving(slot) => if t != s { EvidenceCarries(h, s, t); }
    case OpeningPause(completions) => PauseEvidence(c, h, s, completions);
    case OpeningPauseForTracks(completions) =>
      if OpenPauseForTracks(s, completions).Done? { PauseEvidence(c, h, s, Authorized(s, completions)); }
    case ClosingPause(owner, destination) => if t != s { EvidenceCarries(h, s, t); }
    case Resuming(controller, keep) =>
      if ResumeRecovery(s, controller, keep).Done? { ResumeEvidence(c, h, s, controller, keep); }
    case Resetting => InitialEvidenced(h);
  }

  /** In every reachable session the loss evidence of each player is the streak the observations really show. */
  lemma {:induction false} RunEvidenced(c: Config, run: seq<Command>)
    ensures Evidenced(Observations(run), After(c, run))
  {
    hide Evidenced, Perform, Sound;
    if run == [] {
      InitialEvidenced([]);
    } else {
      var before, command := run[..|run| - 1], run[|run| - 1];
      RunSound(c, before);
      RunEvidenced(c, before);
      PerformEvidence(c, Observations(before), After(c, before), command);
    }
  }

  lemma InitialEvidenced(h: History)
    ensures Evidenced(h, Initial())
  {
  }
}
