/** The player-session controller as the source keeps it: fields updated in place, players visited in any order. */
module PlayerSessionController {
  import opened Options
  import opened PlayerSession
  import opened PlayerSessionRuns

  /** What a call returns, or the error it throws. */
  datatype Result = Returned(events: seq<Event>) | Thrown(error: Error)

  /** The call did what the outcome says; a refused one changed nothing. */
  predicate Follows(result: Result, before: Session, after: Session, outcome: Outcome) {
    match outcome
    case Done(state, events) => after == state && result == Returned(events)
    case Refused(error) => after == before && result == Thrown(error)
  }

  lemma {:induction false} FirstErrorAfter(tracks: seq<string>, i: nat, seen: set<string>)
    requires i <= |tracks| && seen == Items(tracks[..i])
    requires forall k :: 0 <= k < i ==> IsTrackId(tracks[k]) && tracks[k] !in tracks[..k]
    ensures FirstTrackError(tracks, {}) == FirstTrackError(tracks[i..], seen)
  {
    if i == 0 {
      assert tracks[0..] == tracks && seen == {};
    } else {
      assert Items(tracks[..i]) == Items(tracks[..i - 1]) + {tracks[i - 1]};
      FirstErrorAfter(tracks, i - 1, Items(tracks[..i - 1]));
      assert tracks[i - 1..][1..] == tracks[i..];
    }
  }

  method UniqueTrackIds(tracks: seq<string>) returns (output: set<string>, error: Option<Error>)
    ensures error == TracksError(tracks)
    ensures error.None? ==> output == Items(tracks)
  {
    output := {};
    if |tracks| > MAX_VISIBLE_TRACKS {
      return output, Some(TooMany);
    }
    var i := 0;
    while i < |tracks|
      invariant 0 <= i <= |tracks| && output == Items(tracks[..i])
      invariant forall k :: 0 <= k < i ==> IsTrackId(tracks[k]) && tracks[k] !in tracks[..k]
    {
      FirstErrorAfter(tracks, i, output);
      assert tracks[..i + 1] == tracks[..i] + [tracks[i]];
      if !IsTrackId(tracks[i]) {
        return output, Some(InvalidTrack);
      }
      if tracks[i] in output {
        return output, Some(RepeatedTrack);
      }
      output := output + {tracks[i]};
      i := i + 1;
    }
    FirstErrorAfter(tracks, |tracks|, output);
    assert tracks[..|tracks|] == tracks;
    error := None;
  }

  class PlayerSessionController {
    const config: Config
    var players: map<Slot, Player>
    var visibleTracks: set<string>
    var phase: Phase
    var launcherOwner: Option<Slot>
    var overlayOwner: Option<Slot>
    var lastUpdate: Option<real>
    var returnPhaseAfterFreeze: Phase

    function State(): Session
      reads this
    {
      Session(players, visibleTracks, phase, launcherOwner, overlayOwner, lastUpdate, returnPhaseAfterFreeze)
    }

    ghost predicate Valid()
      reads this
    {
      ValidConfig(config) && Sound(config, State())
    }

    constructor (config: Config)
      requires ValidConfig(config)
      ensures Valid() && this.config == config && State() == Initial()
    {
      this.config := config;
      players, visibleTracks, phase := map[], {}, Setup;
      launcherOwner, overlayOwner, lastUpdate, returnPhaseAfterFreeze := None, None, None, Playing;
    }

    method Observe(at: Instant, tracks: seq<string>, hardFault: bool) returns (result: Result)
      requires Valid()
      modifies this
      ensures Valid()
      ensures Follows(result, old(State()), State(), PlayerSession.Observe(config, old(State()), at, tracks, hardFault))
    {
      ObserveKeeps(config, State(), at, tracks, hardFault);
      if !IsTime(at) {
        return Thrown(InvalidTime);
      }
      var unique, error := UniqueTrackIds(tracks);
      if error.Some? {
        return Thrown(error.value);
      }
      visibleTracks := unique;
      var regressed := lastUpdate.Some? && at.ms < lastUpdate.value;
      lastUpdate := Some(at.ms);
      var events := [];
      if regressed {
        events := ForceLoss(at.ms, ClockRegression);
      } else if hardFault {
        events := ForceLoss(at.ms, HardFault);
      } else if players != map[] {
        events := Advance(at.ms);
      }
      result := Returned(events);
    }

    /** The part of an observation after the fault checks. */
    method Advance(now: real) returns (events: seq<Event>)
      modifies this
      ensures OrdinaryObservation(config, old(State()), now) == Done(State(), events)
    {
      hide ObservedPlayers, NewlyLost, NewlyRecovered, Settled, Sorted;
      var lost, recovered := VisitPlayers(now);
      events := [];
      if lost != {} && (phase == Playing || phase == Paused) {
        returnPhaseAfterFreeze := phase;
        phase := Frozen;
        events := [Freeze(TrackingLoss, Sorted(lost))];
      }
      events := Settle(now, recovered, events);
    }

    method Settle(now: real, recovered: set<Slot>, before: seq<Event>) returns (events: seq<Event>)
      modifies this
      ensures Settled(config, old(State()), now, recovered, before) == Done(State(), events)
    {
      events := before;
      if phase == Frozen && AllJoined(players) {
        phase := returnPhaseAfterFreeze;
        events := events + [SilentRecovery(Sorted(recovered))];
        return;
      }
      if phase == Frozen && SomeExpired(config, players, now) {
        phase := Recovery;
        overlayOwner := None;
        AwaitResume();
        events := events + [ShowRecovery(Sorted(Unsafe(players)))];
      }
    }

    method VisitPlayers(now: real) returns (lost: set<Slot>, recovered: set<Slot>)
      modifies this`players
      ensures players == ObservedPlayers(config, old(State()), now)
      ensures lost == NewlyLost(config, old(State()), now)
      ensures recovered == NewlyRecovered(config, old(State()), now)
    {
      ghost var s := State();
      hide Progress, ObservedPlayers, NewlyLost, NewlyRecovered, SeenPlayer, MissedPlayer, LosesNow, RecoversNow;
      lost, recovered := {}, {};
      var left := players.Keys;
      StartsVisiting(config, s, now);
      while left != {}
        invariant State() == s.(players := players)
        invariant Progress(config, s, now, left, players, lost, recovered)
        decreases |left|
      {
        var slot :| slot in left;
        VisitStep(config, s, now, left, players, lost, recovered, slot);
        left := left - {slot};
        var player := players[slot];
        if player.track in visibleTracks {
          if RecoversNow(config, phase, player, now) {
            recovered := recovered + {slot};
          }
          players := players[slot := SeenPlayer(phase, player)];
        } else {
          if LosesNow(config, player, now) {
            lost := lost + {slot};
          }
          players := players[slot := MissedPlayer(config, player, now)];
        }
      }
      EndsVisiting(config, s, now, players, lost, recovered);
    }

    method AwaitResume()
      modifies this`players
      ensures players == AllAwaiting(old(players))
    {
      ghost var target := AllAwaiting(players);
      var left := players.Keys;
      while left != {}
        invariant Visited(old(players), target, left, players)
        decreases |left|
      {
        hide Visited;
        var slot :| slot in left;
        VisitOne(old(players), target, left, players, slot);
        left := left - {slot};
        if players[slot].presence != Joined {
          players := players[slot := players[slot].(presence := AwaitingResume)];
        }
      }
      AllVisited(old(players), target, players);
    }

    method RefreshVisibility()
      modifies this`players
      ensures players == Refreshed(old(players), visibleTracks)
    {
      ghost var target := Refreshed(players, visibleTracks);
      var left := players.Keys;
      while left != {}
        invariant Visited(old(players), target, left, players)
        decreases |left|
      {
        hide Visited;
        var slot :| slot in left;
        VisitOne(old(players), target, left, players, slot);
        left := left - {slot};
        players := players[slot := players[slot].(visible := players[slot].track in visibleTracks)];
      }
      AllVisited(old(players), target, players);
    }

    /** Confirms the loss of every player, or only of those not confirmed yet. */
    method ConfirmLosses(now: real, all: bool)
      modifies this`players
      ensures players == if all then AllLost(old(players), now) else UnconfirmedLost(old(players), now)
    {
      ghost var target := if all then AllLost(players, now) else UnconfirmedLost(players, now);
      var left := players.Keys;
      while left != {}
        invariant Visited(old(players), target, left, players)
        decreases |left|
      {
        hide Visited;
        var slot :| slot in left;
        VisitOne(old(players), target, left, players, slot);
        left := left - {slot};
        if all || players[slot].lostAt.None? {
          players := players[slot := ConfirmLoss(players[slot], now)];
        }
      }
      AllVisited(old(players), target, players);
    }

    method ForceLoss(now: real, cause: Cause) returns (events: seq<Event>)
      modifies this
      ensures ForcedLoss(old(State()), now, cause) == Done(State(), events)
    {
      RefreshVisibility();
      events := [];
      if players == map[] {
        EmptyRefreshes(old(players), visibleTracks);
        return;
      }
      if cause == HardFault && phase == Recovery {
        return;
      }
      if cause == HardFault && phase == Frozen {
        ConfirmLosses(now, false);
        return;
      }
      if phase == Playing || phase == Paused {
        returnPhaseAfterFreeze := phase;
      }
      ConfirmLosses(now, true);
      phase := Frozen;
      events := [Freeze(cause, Sorted(players.Keys))];
    }

    method Join(track: string) returns (result: Result)
      requires Valid()
      modifies this
      ensures Valid()
      ensures Follows(result, old(State()), State(), PlayerSession.Join(config, old(State()), track))
    {
      hide Sound;
      JoinKeeps(config, State(), track);
      if !IsTrackId(track) {
        return Thrown(InvalidTrack);
      }
      if track !in visibleTracks {
        return Thrown(NotVisible);
      }
      if exists k :: k in players && players[k].track == track {
        return Thrown(AlreadyJoined);
      }
      if phase != Setup && phase != Playing {
        return Thrown(WrongPhase);
      }
      var slot := if 1 !in players then 1 else if 2 !in players then 2 else 3;
      if slot > config.maxPlayers {
        return Thrown(SessionFull);
      }
      players := players[slot := NewPlayer(track)];
      phase := Playing;
      if launcherOwner.None? {
        launcherOwner := Some(slot);
      }
      result := Returned([PlayerJoined(slot, track)]);
    }

    method Leave(slot: int) returns (result: Result)
      requires Valid()
      modifies this
      ensures Valid()
      ensures Follows(result, old(State()), State(), PlayerSession.Leave(old(State()), slot))
    {
      hide Sound, Sorted;
      LeaveKeeps(config, State(), slot);
      if slot != 1 && slot != 2 {
        return Thrown(InvalidSlot);
      }
      if phase != Playing {
        return Thrown(WrongPhase);
      }
      if slot !in players {
        return Thrown(UnassignedSlot);
      }
      var track := players[slot].track;
      players := players - {slot};
      var remaining := Sorted(players.Keys);
      if launcherOwner == Some(slot) {
        launcherOwner := First(remaining);
      }
      if remaining == [] {
        phase, launcherOwner, overlayOwner, returnPhaseAfterFreeze := Setup, None, None, Playing;
      }
      result := Returned([PlayerLeft(slot, track, remaining)]);
    }

    /** Whichever matching player is found first is the only one. */
    method AuthorizeOwned(track: string, allowed: bool, owner: Option<Slot>, ownerRequired: bool) returns (slot: Option<Slot>)
      requires Valid()
      ensures slot == AuthorizeOwnedTrack(State(), track, allowed, owner, ownerRequired)
    {
      if !allowed || (ownerRequired && owner.None?) {
        return None;
      }
      if k :| k in players && Matches(State(), k, track, owner) {
        slot := Some(k);
      } else {
        slot := None;
      }
    }

    method OpenPauseForTracks(entries: seq<TrackCompletion>) returns (result: Result)
      requires Valid()
      modifies this
      ensures Valid()
      ensures Follows(result, old(State()), State(), PlayerSession.OpenPauseForTracks(old(State()), entries))
    {
      hide Sound, Authorized, AuthorizeOwnedTrack, Winner;
      AuthorizedEnds(State(), entries);
      if |entries| > MAX_ACTION_COMPLETIONS {
        return Thrown(TooMany);
      }
      var authorized := [];
      var i := 0;
      while i < |entries|
        invariant 0 <= i <= |entries|
        invariant State() == old(State())
        invariant forall k :: 0 <= k < i ==> IsTrackId(entries[k].track)
        invariant authorized + Authorized(State(), entries[i..]) == Authorized(State(), entries)
      {
        if !IsTrackId(entries[i].track) {
          assert entries[i] in entries;
          return Thrown(InvalidTrack);
        }
        var slot := AuthorizeOwned(entries[i].track, phase == Playing, None, false);
        AuthorizedStep(State(), entries, i);
        if slot.Some? {
          authorized := authorized + [Completion(slot.value, entries[i].at)];
        }
        i := i + 1;
      }
      result := OpenPause(authorized);
    }

    method OpenPause(completions: seq<Completion>) returns (result: Result)
      requires Valid()
      modifies this
      ensures Valid()
      ensures Follows(result, old(State()), State(), PlayerSession.OpenPause(old(State()), completions))
    {
      PauseKeeps(config, State(), completions);
      if |completions| > MAX_ACTION_COMPLETIONS {
        return Thrown(TooMany);
      }
      if phase != Playing {
        return Returned([]);
      }
      var winner := Winner(State(), completions);
      if winner.None? {
        return Returned([]);
      }
      phase := Paused;
      overlayOwner := Some(winner.value.slot);
      result := Returned([PauseOpened(winner.value.slot)]);
    }

    method ClosePause(owner: int, destination: Destination) returns (result: Result)
      requires Valid()
      modifies this
      ensures Valid()
      ensures Follows(result, old(State()), State(), PlayerSession.ClosePause(old(State()), owner, destination))
    {
      hide Sound;
      ClosePauseKeeps(config, State(), owner, destination);
      if phase != Paused || overlayOwner != Some(owner) {
        return Thrown(NotPauseOwner);
      }
      phase := Playing;
      overlayOwner := None;
      if destination == Launcher {
        launcherOwner := Some(owner);
      }
      result := Returned([PauseClosed(owner, destination)]);
    }

    method ResumeRecovery(track: string, keep: Option<seq<int>>) returns (result: Result)
      requires Valid()
      modifies this
      ensures Valid()
      ensures Follows(result, old(State()), State(), PlayerSession.ResumeRecovery(old(State()), track, keep))
    {
      hide Watched, Owned, Kept, TakenOver, RosterResumed, Seating;
      SoundSeating(config, State());
      PerformKeeps(config, State(), Resuming(track, keep));
      if !IsTrackId(track) {
        return Thrown(InvalidTrack);
      }
      if phase != Recovery {
        return Thrown(WrongPhase);
      }
      if track !in visibleTracks {
        return Thrown(NotVisible);
      }
      if KeepsNobody(State(), keep) {
        return Thrown(EmptyRoster);
      }
      if KeepsStranger(State(), keep) {
        return Thrown(UnknownSlot);
      }
      KeptSeats(State(), keep);
      var kept := Kept(State(), keep);
      if |players| == 1 {
        result := TakeOver(track, kept);
      } else {
        result := ResumeRoster(track, kept);
      }
    }

    method TakeOver(track: string, kept: set<Slot>) returns (result: Result)
      requires |players| == 1 && kept != {} && kept <= players.Keys
      modifies this
      ensures Follows(result, old(State()), State(), TakenOver(old(State()), track, kept))
    {
      hide Sorted, Rejoined;
      SortedEmpty();
      var owner := Lead(kept);
      NobodyElse(players, kept);
      var takeover := players[owner].track != track;
      players := players[owner := players[owner].(track := track)];
      assert players.Keys == old(players.Keys);
      var removed := players.Keys - kept;
      Rejoin(kept);
      assert State() == TakenOver(old(State()), track, kept).state;
      result := Returned([RecoveryResumed(owner, takeover, Sorted(removed))]);
    }

    /** Whichever retained player with that track is found first is the only one. */
    method ResumeRoster(track: string, kept: set<Slot>) returns (result: Result)
      requires DistinctTracks(players) && kept != {} && kept <= players.Keys
      modifies this
      ensures Follows(result, old(State()), State(), RosterResumed(old(State()), track, kept))
    {
      var owner;
      if k :| k in players && players[k].track == track && k in kept {
        owner := k;
      } else {
        return Thrown(NotARetainedTrack);
      }
      if exists k :: k in kept && players[k].track !in visibleTracks {
        return Thrown(RetainedNotVisible);
      }
      var removed := players.Keys - kept;
      Rejoin(kept);
      result := Returned([RecoveryResumed(owner, false, Sorted(removed))]);
    }

    /** Drops everybody not kept and joins the rest. */
    method Rejoin(kept: set<Slot>)
      requires kept != {} && kept <= players.Keys
      modifies this
      ensures State() == Resumed(old(State()), kept, old(players))
    {
      var roster := map k | k in players && k in kept :: players[k];
      ghost var target := Rejoined(visibleTracks, roster);
      players := roster;
      launcherOwner := NextLauncher(launcherOwner, kept);
      ghost var s := State();
      var left := players.Keys;
      while left != {}
        invariant Visited(roster, target, left, players)
        invariant State() == s.(players := players)
        decreases |left|
      {
        hide Visited;
        var slot :| slot in left;
        VisitOne(roster, target, left, players, slot);
        left := left - {slot};
        players := players[slot := ClearLossEvidence(players[slot].(presence := Joined, visible := players[slot].track in visibleTracks))];
      }
      AllVisited(roster, target, players);
      phase := Playing;
      overlayOwner := None;
    }

    method Reset()
      modifies this
      ensures Valid() || !ValidConfig(config)
      ensures State() == Initial()
    {
      players, visibleTracks, phase := map[], {}, Setup;
      launcherOwner, overlayOwner, lastUpdate, returnPhaseAfterFreeze := None, None, None, Playing;
    }
  }

  /** The records once all slots but those left have been visited. */
  predicate Visited(before: map<Slot, Player>, target: map<Slot, Player>, left: set<Slot>, players: map<Slot, Player>) {
    && before.Keys == target.Keys == players.Keys && left <= players.Keys
    && forall k :: k in players ==> players[k] == if k in left then before[k] else target[k]
  }

  lemma VisitOne(before: map<Slot, Player>, target: map<Slot, Player>, left: set<Slot>, players: map<Slot, Player>, slot: Slot)
    requires Visited(before, target, left, players) && slot in left
    ensures slot in before && slot in target && slot in players && players[slot] == before[slot]
    ensures Visited(before, target, left - {slot}, players[slot := target[slot]])
  {
  }

  ghost predicate Progress(c: Config, s: Session, now: real, left: set<Slot>, players: map<Slot, Player>,
                           lost: set<Slot>, recovered: set<Slot>) {
    && Visited(s.players, ObservedPlayers(c, s, now), left, players)
    && lost == NewlyLost(c, s, now) - left && recovered == NewlyRecovered(c, s, now) - left
  }

  lemma StartsVisiting(c: Config, s: Session, now: real)
    ensures Progress(c, s, now, s.players.Keys, s.players, {}, {})
  {
  }

  lemma EndsVisiting(c: Config, s: Session, now: real, players: map<Slot, Player>, lost: set<Slot>, recovered: set<Slot>)
    requires Progress(c, s, now, {}, players, lost, recovered)
    ensures players == ObservedPlayers(c, s, now) && lost == NewlyLost(c, s, now) && recovered == NewlyRecovered(c, s, now)
  {
  }

  lemma ObservedAt(c: Config, s: Session, now: real, slot: Slot)
    requires slot in s.players
    ensures slot in ObservedPlayers(c, s, now)
    ensures var p := s.players[slot];
            && ObservedPlayers(c, s, now)[slot] == (if p.track in s.visible then SeenPlayer(s.phase, p) else MissedPlayer(c, p, now))
            && (slot in NewlyLost(c, s, now) <==> p.track !in s.visible && LosesNow(c, p, now))
            && (slot in NewlyRecovered(c, s, now) <==> p.track in s.visible && RecoversNow(c, s.phase, p, now))
  {
  }

  lemma VisitStep(c: Config, s: Session, now: real, left: set<Slot>, players: map<Slot, Player>,
                  lost: set<Slot>, recovered: set<Slot>, slot: Slot)
    requires Progress(c, s, now, left, players, lost, recovered) && slot in left
    ensures slot in players
    ensures var p := players[slot];
            var seen := p.track in s.visible;
            Progress(c, s, now, left - {slot}, players[slot := if seen then SeenPlayer(s.phase, p) else MissedPlayer(c, p, now)],
                     if !seen && LosesNow(c, p, now) then lost + {slot} else lost,
                     if seen && RecoversNow(c, s.phase, p, now) then recovered + {slot} else recovered)
  {
    hide Visited, SeenPlayer, MissedPlayer, LosesNow, RecoversNow, ObservedPlayers, NewlyLost, NewlyRecovered;
    VisitOne(s.players, ObservedPlayers(c, s, now), left, players, slot);
    ObservedAt(c, s, now, slot);
  }

  lemma AuthorizedEnds(s: Session, entries: seq<TrackCompletion>)
    ensures entries[0..] == entries && Authorized(s, entries[|entries|..]) == []
  {
  }

  lemma AuthorizedStep(s: Session, entries: seq<TrackCompletion>, i: nat)
    requires i < |entries|
    ensures var slot := AuthorizeGameplay(s, entries[i].track);
            Authorized(s, entries[i..])
            == (if slot.None? then [] else [Completion(slot.value, entries[i].at)]) + Authorized(s, entries[i + 1..])
  {
    assert entries[i..][1..] == entries[i + 1..];
  }

  lemma NobodyElse(players: map<Slot, Player>, kept: set<Slot>)
    requires |players| == 1 && kept != {} && kept <= players.Keys
    ensures players.Keys - kept == {}
  {
    var owner :| owner in kept;
    var others := players.Keys - {owner};
    assert |others| == |players.Keys| - 1;
    assert forall k :: k in players && k != owner ==> k in others;
  }

  lemma AllVisited(before: map<Slot, Player>, target: map<Slot, Player>, players: map<Slot, Player>)
    requires Visited(before, target, {}, players)
    ensures players == target
  {
  }

  lemma EmptyRefreshes(players: map<Slot, Player>, visible: set<string>)
    requires Refreshed(players, visible) == map[]
    ensures players == map[]
  {
    assert Refreshed(players, visible).Keys == players.Keys;
  }
}
