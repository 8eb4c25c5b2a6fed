/** What each call of the player session comes to, in the terms its callers see. */
module PlayerSessionOutcomes {
  import Alphabets
  import opened Options
  import opened PlayerSession
  import opened PlayerSessionRuns
  import opened PlayerSessionGuarantees

  // ---- The reacquisition window ----

  predicate Missing(s: Session, k: Slot, tracks: seq<string>) { k in s.players && s.players[k].track !in tracks }

  /** Lost the whole window ago, and not back. */
  predicate OutOfTime(c: Config, s: Session, k: Slot, at: real, tracks: seq<string>) {
    Missing(s, k, tracks) && s.players[k].lostAt.Some? && at >= s.players[k].lostAt.value + c.reacquisition
  }

  /** Seen again, a player is joined without a trace of the loss; otherwise the evidence grows. */
  ghost predicate Watches(c: Config, p: Player, q: Player, seen: bool, now: real) {
    if seen then q == Player(p.track, Joined, true, None, 0, None)
    else
      && q.track == p.track && !q.visible
      && (p.presence == Joined ==> q == p.(visible := false, presence := ConfirmingLoss, missingSince := Some(now), misses := 1))
      && (p.presence == Reacquiring || p.presence == AwaitingResume ==> q == p.(visible := false))
      && (p.presence == ConfirmingLoss && p.missingSince.None? ==> q == p.(visible := false, misses := p.misses + 1))
      && (p.presence == ConfirmingLoss && p.missingSince.Some? ==>
            && q.misses == p.misses + 1 && q.missingSince == p.missingSince
            && (if q.misses >= c.minimumMisses && now >= p.missingSince.value + c.lossConfirmation
                then q.presence == Reacquiring && q.lostAt == Some(now)
                else q.presence == ConfirmingLoss && q.lostAt == p.lostAt))
  }

  lemma ObservedWatches(c: Config, phase: Phase, visible: set<string>, p: Player, now: real)
    requires phase != Recovery && ValidConfig(c)
    ensures Watches(c, p, ObservedPlayer(c, phase, visible, p, now), p.track in visible, now)
  {
  }

  predicate AllSeen(s: Session, tracks: seq<string>) { forall k :: k in s.players ==> s.players[k].track in tracks }

  predicate SomeOutOfTime(c: Config, s: Session, now: real, tracks: seq<string>) { exists k :: OutOfTime(c, s, k, now, tracks) }

  /** Whoever is missing must come back deliberately. */
  predicate MissingAwait(s: Session, tracks: seq<string>, players: map<Slot, Player>) {
    forall k :: Missing(s, k, tracks) ==> k in players && players[k].presence == AwaitingResume && !players[k].visible
  }

  ghost predicate MissingWatched(c: Config, s: Session, now: real, tracks: seq<string>, players: map<Slot, Player>) {
    forall k :: Missing(s, k, tracks) ==> k in players && Watches(c, s.players[k], players[k], false, now)
  }

  /** Everybody is seen; or somebody missing is out of time; or neither. */
  ghost predicate GoesOn(c: Config, s: Session, now: real, tracks: seq<string>, t: Session, events: seq<Event>) {
    if AllSeen(s, tracks) then
      t.phase == s.returnPhase && t.overlay == s.overlay && events == [SilentRecovery(Sorted(InWindow(c, s, now)))]
    else if SomeOutOfTime(c, s, now, tracks) then
      && t.phase == Recovery && t.overlay.None? && events == [ShowRecovery(Sorted(MissingSlots(s, tracks)))]
      && MissingAwait(s, tracks, t.players)
    else
      && t.phase == Frozen && t.overlay == s.overlay && t.returnPhase == s.returnPhase && events == []
      && MissingWatched(c, s, now, tracks, t.players)
  }

  ghost predicate SeatsKept(s: Session, now: real, tracks: seq<string>, t: Session) {
    && t.launcher == s.launcher && t.visible == Items(tracks) && t.last == Some(now)
    && SeenJoined(s, tracks, t.players)
  }

  ghost predicate SeenJoined(s: Session, tracks: seq<string>, players: map<Slot, Player>) {
    && players.Keys == s.players.Keys
    && forall k :: k in s.players && !Missing(s, k, tracks) ==> players[k] == Player(s.players[k].track, Joined, true, None, 0, None)
  }

  /**
   * A frozen session goes on as before once everybody is seen; it asks for a deliberate resume once somebody missing
   * has been lost for the whole window; until then it stays frozen.
   */
  lemma FrozenObservation(c: Config, s: Session, at: Instant, tracks: seq<string>)
    requires ValidConfig(c) && Sound(c, s) && s.phase == Frozen && Ordinary(s, at, tracks)
    ensures var outcome := Observe(c, s, at, tracks, false);
            outcome.Done? && SeatsKept(s, at.ms, tracks, outcome.state) && GoesOn(c, s, at.ms, tracks, outcome.state, outcome.events)
  {
    FrozenStep(c, s, at, tracks);
    var n := Noted(s, at.ms, Items(tracks));
    var seen := n.(players := ObservedPlayers(c, n, at.ms));
    ReturnedAre(c, s, n, at.ms);
    FrozenPlayers(c, s, n, at.ms, tracks);
    hide AllJoined, AllFrozen, SomeExpired, NewlyRecovered, InWindow, AllAwaiting, ObservedPlayers, Observe, Settled, GoesOn, Missing, Sound;
    SettlesWindow(c, s, seen, at.ms, tracks, NewlyRecovered(c, n, at.ms));
    WindowGoes(c, s, seen, at.ms, tracks, NewlyRecovered(c, n, at.ms));
  }

  lemma FrozenStep(c: Config, s: Session, at: Instant, tracks: seq<string>)
    requires Sound(c, s) && s.phase == Frozen && Ordinary(s, at, tracks)
    ensures var n := Noted(s, at.ms, Items(tracks));
            Observe(c, s, at, tracks, false)
            == Settled(c, n.(players := ObservedPlayers(c, n, at.ms)), at.ms, NewlyRecovered(c, n, at.ms), [])
    ensures AllFrozen(s.visible, s.players)
  {
    hide DistinctTracks, NewlyLost, NewlyRecovered, ObservedPlayers, Settled, TracksError;
  }

  lemma WindowGoes(c: Config, s: Session, t: Session, now: real, tracks: seq<string>, recovered: set<Slot>)
    requires t == Noted(s, now, Items(tracks)).(players := t.players) && t.players.Keys == s.players.Keys && s.phase == Frozen
    requires forall k :: k in s.players ==> Watches(c, s.players[k], t.players[k], !Missing(s, k, tracks), now)
    requires forall k :: k in s.players ==> (t.players[k].presence == Joined <==> !Missing(s, k, tracks))
    requires SomeExpired(c, t.players, now) <==> SomeOutOfTime(c, s, now, tracks)
    requires AllSeen(s, tracks) ==> recovered == InWindow(c, s, now)
    ensures var outcome := Settled(c, t, now, recovered, []);
            outcome.Done? && SeatsKept(s, now, tracks, outcome.state) && GoesOn(c, s, now, tracks, outcome.state, outcome.events)
  {
    SettlesWindow(c, s, t, now, tracks, recovered);
    SeatedMissing(c, s, t, now, tracks);
    hide SomeExpired, SomeOutOfTime, InWindow, Sorted, MissingSlots, AllAwaiting, Settled, Watches, Missing, AllSeen, MissingAwait,
         MissingWatched, SeenJoined;
  }

  lemma SeatedMissing(c: Config, s: Session, t: Session, now: real, tracks: seq<string>)
    requires t.players.Keys == s.players.Keys
    requires forall k :: k in s.players ==> Watches(c, s.players[k], t.players[k], !Missing(s, k, tracks), now)
    ensures SeenJoined(s, tracks, t.players) && MissingWatched(c, s, now, tracks, t.players)
  {
    forall k | k in s.players
      ensures Missing(s, k, tracks) ==> Watches(c, s.players[k], t.players[k], false, now)
      ensures !Missing(s, k, tracks) ==> t.players[k] == Player(s.players[k].track, Joined, true, None, 0, None)
    {
      assert Watches(c, s.players[k], t.players[k], !Missing(s, k, tracks), now);
    }
    hide Watches;
  }

  function MissingSlots(s: Session, tracks: seq<string>): set<Slot> { set k | k in s.players && s.players[k].track !in tracks }

  lemma FrozenPlayers(c: Config, s: Session, n: Session, now: real, tracks: seq<string>)
    requires ValidConfig(c) && s.phase == Frozen && AllFrozen(s.visible, s.players) && n == Noted(s, now, Items(tracks))
    ensures var players := ObservedPlayers(c, n, now);
            && players.Keys == s.players.Keys
            && (forall k :: k in s.players ==> Watches(c, s.players[k], players[k], !Missing(s, k, tracks), now))
            && (forall k :: k in s.players ==> (players[k].presence == Joined <==> !Missing(s, k, tracks)))
            && (SomeExpired(c, players, now) <==> SomeOutOfTime(c, s, now, tracks))
  {
    var players := ObservedPlayers(c, n, now);
    forall k | k in s.players
      ensures Watches(c, s.players[k], players[k], !Missing(s, k, tracks), now)
      ensures players[k].presence == Joined <==> !Missing(s, k, tracks)
      ensures Expired(c, players[k], now) <==> OutOfTime(c, s, k, now, tracks)
    {
      assert FrozenPlayer(s.visible, s.players[k]);
      ObservedWatches(c, Frozen, n.visible, s.players[k], now);
    }
    hide ObservedPlayers, Watches, Expired;
    if k: Slot :| OutOfTime(c, s, k, now, tracks) { assert k in players && Expired(c, players[k], now); }
  }

  lemma SettlesWindow(c: Config, s: Session, t: Session, now: real, tracks: seq<string>, recovered: set<Slot>)
    requires t.phase == Frozen && t.players.Keys == s.players.Keys
    requires forall k :: k in s.players ==> (t.players[k].presence == Joined <==> !Missing(s, k, tracks))
    requires forall k :: k in s.players ==> Watches(c, s.players[k], t.players[k], !Missing(s, k, tracks), now)
    ensures Settled(c, t, now, recovered, [])
            == if AllSeen(s, tracks) then Done(t.(phase := t.returnPhase), [SilentRecovery(Sorted(recovered))])
               else if SomeExpired(c, t.players, now) then
                 Done(t.(phase := Recovery, overlay := None, players := AllAwaiting(t.players)),
                      [ShowRecovery(Sorted(MissingSlots(s, tracks)))])
               else Done(t, [])
    ensures MissingAwait(s, tracks, AllAwaiting(t.players)) && SeenJoined(s, tracks, AllAwaiting(t.players))
  {
    hide SomeExpired, Sorted;
    AwaitingPlayers(c, s, t, now, tracks);
    assert AllJoined(t.players) <==> AllSeen(s, tracks);
    hide Watches, AllAwaiting;
  }

  lemma AwaitingPlayers(c: Config, s: Session, t: Session, now: real, tracks: seq<string>)
    requires t.players.Keys == s.players.Keys
    requires forall k :: k in s.players ==> (t.players[k].presence == Joined <==> !Missing(s, k, tracks))
    requires forall k :: k in s.players ==> Watches(c, s.players[k], t.players[k], !Missing(s, k, tracks), now)
    ensures Unsafe(AllAwaiting(t.players)) == MissingSlots(s, tracks)
    ensures MissingAwait(s, tracks, AllAwaiting(t.players)) && SeenJoined(s, tracks, AllAwaiting(t.players))
  {
    var players := AllAwaiting(t.players);
    forall k | k in s.players
      ensures Missing(s, k, tracks) ==> players[k].presence == AwaitingResume && !players[k].visible
      ensures !Missing(s, k, tracks) ==> players[k] == Player(s.players[k].track, Joined, true, None, 0, None)
    {
      assert Watches(c, s.players[k], t.players[k], !Missing(s, k, tracks), now);
    }
    hide Watches;
  }

  /** No loss was confirmed before `from`, and recovery has not been asked for. */
  predicate LostSince(s: Session, from: real) {
    s.phase != Recovery && forall k :: k in s.players && s.players[k].lostAt.Some? ==> s.players[k].lostAt.value >= from
  }

  predicate OrdinaryCall(command: Command, before: real) {
    command.Observing? && !command.fault && (command.at.Finite? ==> command.at.ms < before)
  }

  lemma OrdinaryKeepsWindow(c: Config, s: Session, from: real, command: Command)
    requires ValidConfig(c) && Sound(c, s) && LostSince(s, from) && s.last.Some? && s.last.value >= from
    requires OrdinaryCall(command, from + c.reacquisition) && !ClockRegresses(s, command)
    ensures var t := Next(c, s, command); LostSince(t, from) && t.last.Some? && t.last.value >= from
  {
    var at, tracks := command.at, command.tracks;
    hide TracksError, ObservedPlayers, NewlyLost, NewlyRecovered, Settled, LostSince, AllFrozen, AllLive, DistinctTracks, Sorted;
    if !Ordinary(s, at, tracks) {
    } else if s.phase == Frozen {
      FrozenObservation(c, s, at, tracks);
      FrozenLostSince(c, s, at.ms, tracks, Observe(c, s, at, tracks, false).state, Observe(c, s, at, tracks, false).events, from);
    } else if s.players == map[] {
      NobodyLost(s, Noted(s, at.ms, Items(tracks)), from);
    } else {
      LiveLostSince(c, s, Noted(s, at.ms, Items(tracks)), at.ms, from);
    }
  }

  lemma NobodyLost(s: Session, t: Session, from: real)
    requires LostSince(s, from) && t.players == s.players && t.phase == s.phase
    ensures LostSince(t, from)
  {
  }

  lemma FrozenLostSince(c: Config, s: Session, now: real, tracks: seq<string>, t: Session, events: seq<Event>, from: real)
    requires s.phase == Frozen && Live(s.returnPhase) && AllFrozen(s.visible, s.players) && LostSince(s, from)
    requires SeatsKept(s, now, tracks, t) && GoesOn(c, s, now, tracks, t, events) && from <= now < from + c.reacquisition
    ensures LostSince(t, from)
  {
    NobodyOutOfTime(c, s, now, tracks, from);
    hide Watches, FrozenPlayer, InWindow, Sorted, MissingSlots, AllSeen, SomeOutOfTime;
    forall k | k in t.players && t.players[k].lostAt.Some? ensures t.players[k].lostAt.value >= from {
      assert FrozenPlayer(s.visible, s.players[k]);
      if Missing(s, k, tracks) && !AllSeen(s, tracks) { OneLostSince(c, s.visible, s.players[k], t.players[k], now, from); }
      if Missing(s, k, tracks) { assert !AllSeen(s, tracks) by { SomebodyMissing(s, k, tracks); } }
    }
  }

  lemma SomebodyMissing(s: Session, k: Slot, tracks: seq<string>)
    requires Missing(s, k, tracks)
    ensures !AllSeen(s, tracks)
  {
  }

  lemma NobodyOutOfTime(c: Config, s: Session, now: real, tracks: seq<string>, from: real)
    requires LostSince(s, from) && now < from + c.reacquisition
    ensures !SomeOutOfTime(c, s, now, tracks)
  {
  }

  lemma OneLostSince(c: Config, visible: set<string>, p: Player, q: Player, now: real, from: real)
    requires FrozenPlayer(visible, p) && Watches(c, p, q, false, now) && (p.lostAt.Some? ==> p.lostAt.value >= from) && from <= now
    ensures q.lostAt.Some? ==> q.lostAt.value >= from
  {
  }

  lemma LiveLostSince(c: Config, s: Session, n: Session, now: real, from: real)
    requires ValidConfig(c) && Live(s.phase) && AllLive(s.visible, s.players) && n == Noted(s, now, n.visible) && from <= now
    ensures OrdinaryObservation(c, n, now).Done? && LostSince(OrdinaryObservation(c, n, now).state, from)
  {
    ObservedLive(c, n, s.visible, now);
    hide ObservedPlayers, NewlyLost, NewlyRecovered, AllLive, Sorted, AllFrozen;
    var seen := n.(players := ObservedPlayers(c, n, now));
    if NewlyLost(c, n, now) == {} {
      UnfrozenSettles(c, seen, now, NewlyRecovered(c, n, now));
    } else {
      FreezeSettles(c, seen.(phase := Frozen, returnPhase := s.phase), now, NewlyRecovered(c, n, now),
                    [Freeze(TrackingLoss, Sorted(NewlyLost(c, n, now)))]);
    }
  }

  /**
   * From any state in which no loss was confirmed before `from`, whatever is observed within the reacquisition window
   * after that, nobody is asked for a deliberate resume.
   */
  lemma {:induction false} NoRecoveryWithinWindow(c: Config, run: seq<Command>, n: nat, from: real)
    requires ValidConfig(c) && n <= |run| && LostSince(After(c, run[..n]), from)
    requires After(c, run[..n]).last.Some? && After(c, run[..n]).last.value >= from
    requires forall i :: n <= i < |run| ==> OrdinaryCall(run[i], from + c.reacquisition) && !ClockRegresses(After(c, run[..i]), run[i])
    ensures LostSince(After(c, run), from) && After(c, run).last.Some? && After(c, run).last.value >= from
  {
    hide LostSince, Next, ClockRegresses, Sound, After;
    if n == |run| {
      assert run[..n] == run;
    } else {
      var front := run[..|run| - 1];
      assert front[..n] == run[..n];
      forall i | n <= i < |front| ensures OrdinaryCall(front[i], from + c.reacquisition) && !ClockRegresses(After(c, front[..i]), front[i]) {
        assert front[..i] == run[..i];
      }
      NoRecoveryWithinWindow(c, front, n, from);
      RunSound(c, front);
      OrdinaryKeepsWindow(c, After(c, front), from, run[|run| - 1]);
      assert run[..|run|] == run;
      Prefix(c, run, |run|);
    }
  }

  // ---- Who may join, leave, resume ----

  /** A join succeeds exactly for a seen candidate without a seat, before or while playing, while there is room. */
  lemma JoinIff(c: Config, s: Session, track: string)
    requires Sound(c, s)
    ensures Join(c, s, track).Done? <==>
              && IsTrackId(track) && track in s.visible && (forall k :: k in s.players ==> s.players[k].track != track)
              && (s.phase == Setup || s.phase == Playing) && |s.players| < c.maxPlayers
    ensures Join(c, s, track).Done? ==>
              var t, slot := Join(c, s, track).state, if 1 in s.players then 2 else 1;
              && slot !in s.players && t == s.(players := t.players, phase := Playing, launcher := t.launcher)
              && t.players == s.players[slot := Player(track, Joined, true, None, 0, None)]
              && t.launcher == Some(if s.launcher.Some? then s.launcher.value else slot)
              && Join(c, s, track).events == [PlayerJoined(slot, track)]
  {
    SeatCount(s.players);
    assert Seated(s, track) <==> exists k :: k in s.players && s.players[k].track == track;
  }

  lemma SeatCount(players: map<Slot, Player>)
    ensures |players| == (if 1 in players then 1 else 0) + (if 2 in players then 1 else 0)
  {
    assert players.Keys == (if 1 in players then {1} else {}) + (if 2 in players then {2} else {});
    assert |players| == |players.Keys|;
  }

  /** A seat can be given up exactly while playing; the launcher goes to whoever is left, and with nobody left the
      session is set up afresh. */
  lemma LeaveIff(c: Config, s: Session, slot: int)
    requires Sound(c, s)
    ensures Leave(s, slot).Done? <==> s.phase == Playing && slot in s.players
    ensures Leave(s, slot).Done? ==>
              var t := Leave(s, slot).state;
              && t.players.Keys == s.players.Keys - {slot} && (forall k :: k in t.players ==> t.players[k] == s.players[k])
              && (t.players == map[] ==> t.phase == Setup && t.launcher.None? && t.overlay.None? && t.returnPhase == Playing)
              && (t.players != map[] ==> t.phase == Playing && t.launcher.Some? && t.launcher.value in t.players)
              && t.visible == s.visible && t.last == s.last
              && Leave(s, slot).events == [PlayerLeft(slot, s.players[slot].track, Sorted(t.players.Keys))]
  {
  }

  // ---- Deliberate recovery ----

  /** Those to keep, by default everybody. */
  predicate Keeps(s: Session, keep: Option<seq<int>>, k: int) {
    if keep.Some? then k in keep.value else (k == 1 && 1 in s.players) || (k == 2 && 2 in s.players)
  }

  /** Nobody unknown is kept, and somebody is. */
  predicate Roster(s: Session, keep: Option<seq<int>>) {
    if keep.Some? then keep.value != [] && forall k :: k in keep.value ==> (k == 1 || k == 2) && k in s.players
    else s.players != map[]
  }

  predicate MayResume(s: Session, track: string, keep: Option<seq<int>>) {
    && s.phase == Recovery && track in s.visible && Roster(s, keep)
    && (|s.players| == 1 || MayKeep(s, track, keep))
  }

  /** One of those kept asks, and all of them are seen. */
  predicate MayKeep(s: Session, track: string, keep: Option<seq<int>>) {
    && (exists k :: k in s.players && Keeps(s, keep, k) && s.players[k].track == track)
    && forall k :: k in s.players && Keeps(s, keep, k) ==> s.players[k].track in s.visible
  }

  /** Those kept play on, joined and without a trace of the loss; the lone player's seat goes to whoever asked. */
  ghost predicate Resumes(s: Session, track: string, keep: Option<seq<int>>, t: Session, events: seq<Event>) {
    && t == s.(players := t.players, phase := Playing, overlay := None, launcher := t.launcher)
    && (forall k: Slot :: k in t.players <==> k in s.players && Keeps(s, keep, k))
    && (forall k :: k in t.players ==>
          t.players[k] == Player(if |s.players| == 1 then track else s.players[k].track, Joined, true, None, 0, None))
    && (s.launcher.Some? ==> t.launcher.Some? && t.launcher.value in t.players)
    && (s.launcher.Some? && s.launcher.value in t.players ==> t.launcher == s.launcher)
    && |events| == 1 && events[0].RecoveryResumed? && events[0].owner in t.players && t.players[events[0].owner].track == track
    && events[0].takeover == (s.players[events[0].owner].track != track)
    && events[0].removed == Sorted(s.players.Keys - t.players.Keys)
  }

  lemma ResumeIff(c: Config, s: Session, track: string, keep: Option<seq<int>>)
    requires Sound(c, s)
    ensures ResumeRecovery(s, track, keep).Done? <==> IsTrackId(track) && MayResume(s, track, keep)
    ensures ResumeRecovery(s, track, keep).Done? ==>
              Resumes(s, track, keep, ResumeRecovery(s, track, keep).state, ResumeRecovery(s, track, keep).events)
  {
    RosterIs(s, keep);
    hide Roster, KeepsNobody, KeepsStranger, Keeps, Watched, Kept, TakenOver, RosterResumed, Resumes, Owned, DistinctTracks;
    if Roster(s, keep) && track in s.visible && s.phase == Recovery {
      KeptSeats(s, keep);
      if |s.players| == 1 { TakenOverIs(s, track, keep); } else { RosterResumedIs(s, track, keep); }
    }
  }

  lemma TakenOverIs(s: Session, track: string, keep: Option<seq<int>>)
    requires |s.players| == 1 && Kept(s, keep) != {} && Kept(s, keep) <= s.players.Keys && track in s.visible && s.phase == Recovery
    requires s.launcher.Some? ==> s.launcher.value in s.players
    ensures TakenOver(s, track, Kept(s, keep)).Done?
    ensures Resumes(s, track, keep, TakenOver(s, track, Kept(s, keep)).state, TakenOver(s, track, Kept(s, keep)).events)
  {
    RosterIs(s, keep);
    LoneSeat(s.players, Kept(s, keep));
    hide Kept, Keeps;
    var kept, owner := Kept(s, keep), Lead(Kept(s, keep));
    var players := s.players[owner := s.players[owner].(track := track)];
    assert Rejoined(s.visible, map k | k in players && k in kept :: players[k]) == map[owner := Player(track, Joined, true, None, 0, None)];
    assert s.players.Keys - {owner} == {};
    hide Rejoined, Sorted;
  }

  lemma LoneSeat(players: map<Slot, Player>, kept: set<Slot>)
    requires |players| == 1 && kept != {} && kept <= players.Keys
    ensures kept == players.Keys == {Lead(kept)}
  {
    SeatCount(players);
  }

  lemma RosterResumedIs(s: Session, track: string, keep: Option<seq<int>>)
    requires |s.players| != 1 && Kept(s, keep) != {} && Kept(s, keep) <= s.players.Keys && track in s.visible && s.phase == Recovery
    requires DistinctTracks(s.players)
    ensures RosterResumed(s, track, Kept(s, keep)).Done? <==> MayKeep(s, track, keep)
    ensures RosterResumed(s, track, Kept(s, keep)).Done? ==>
              Resumes(s, track, keep, RosterResumed(s, track, Kept(s, keep)).state, RosterResumed(s, track, Kept(s, keep)).events)
  {
    RosterIs(s, keep);
    ControllerIs(s, track, Kept(s, keep));
    hide Kept, Controller, Resumed, Sorted, Resumes, DistinctTracks;
    var kept := Kept(s, keep);
    if MayKeep(s, track, keep) {
      hide Keeps, MayKeep;
      KeptResumes(s, track, keep);
    }
  }

  lemma ControllerIs(s: Session, track: string, kept: set<Slot>)
    ensures Controller(s, track, kept).Some? <==> exists k :: k in s.players && k in kept && s.players[k].track == track
    ensures Controller(s, track, kept).Some? ==>
              var k := Controller(s, track, kept).value; k in s.players && k in kept && s.players[k].track == track
  {
  }

  lemma KeptResumes(s: Session, track: string, keep: Option<seq<int>>)
    requires |s.players| != 1 && Kept(s, keep) != {} && Kept(s, keep) <= s.players.Keys && s.phase == Recovery
    requires RosterResumed(s, track, Kept(s, keep)).Done?
    ensures Resumes(s, track, keep, RosterResumed(s, track, Kept(s, keep)).state, RosterResumed(s, track, Kept(s, keep)).events)
  {
    RosterIs(s, keep);
    ControllerIs(s, track, Kept(s, keep));
    KeptRejoin(s, Kept(s, keep));
    hide Kept, Keeps, Controller, Rejoined, Sorted;
  }

  lemma KeptRejoin(s: Session, kept: set<Slot>)
    requires kept <= s.players.Keys && forall k :: k in kept ==> s.players[k].track in s.visible
    ensures var players := Rejoined(s.visible, map k | k in s.players && k in kept :: s.players[k]);
            players.Keys == kept && forall k :: k in kept ==> players[k] == Player(s.players[k].track, Joined, true, None, 0, None)
  {
  }

  lemma RosterIs(s: Session, keep: Option<seq<int>>)
    ensures Roster(s, keep) <==> !KeepsNobody(s, keep) && !KeepsStranger(s, keep)
    ensures forall k: Slot :: k in Kept(s, keep) <==> Keeps(s, keep, k)
  {
  }

  // ---- Authority ----

  predicate Obeys(s: Session, k: Option<Slot>, track: string) {
    k.Some? && k.value in s.players && s.players[k.value].track == track && s.players[k.value].presence == Joined && s.players[k.value].visible
  }

  /** The launcher obeys its owner, the overlay its own, and while playing anybody joined and seen may act. */
  lemma AuthorityIff(c: Config, s: Session, track: string)
    requires Sound(c, s)
    ensures AuthorizeLauncher(s, track) == if s.phase == Playing && Obeys(s, s.launcher, track) then s.launcher else None
    ensures AuthorizeOverlay(s, track) == if s.phase == Paused && Obeys(s, s.overlay, track) then s.overlay else None
    ensures AuthorizeGameplay(s, track).Some? <==> s.phase == Playing && exists k :: k in s.players && Obeys(s, Some(k), track)
    ensures AuthorizeGameplay(s, track).Some? ==> Obeys(s, AuthorizeGameplay(s, track), track)
    ensures AuthorizeRecovery(s, track) <==>
              s.phase == Recovery && track in s.visible
              && (|s.players| == 1 || exists k :: k in s.players && s.players[k].track == track && s.players[k].visible)
  {
  }

  // ---- Pausing ----

  /** Only its owner closes a pause, and the session plays on; leaving for the launcher makes the owner its owner too. */
  lemma ClosePauseIff(c: Config, s: Session, owner: int, destination: Destination)
    requires Sound(c, s)
    ensures ClosePause(s, owner, destination).Done? <==> s.phase == Paused && s.overlay == Some(owner)
    ensures ClosePause(s, owner, destination).Done? ==>
              && ClosePause(s, owner, destination).state
                 == s.(phase := Playing, overlay := None, launcher := if destination == Launcher then s.overlay else s.launcher)
              && ClosePause(s, owner, destination).events == [PauseClosed(owner, destination)]
  {
  }

  /** Lists of more than sixteen completions, and tracks that are no identifiers, are refused; nothing pauses but a game. */
  lemma PauseRefusedIff(s: Session, completions: seq<Completion>, entries: seq<TrackCompletion>)
    ensures OpenPause(s, completions).Refused? <==> |completions| > 16
    ensures OpenPauseForTracks(s, entries).Refused? <==> |entries| > 16 || exists e :: e in entries && !IsTrackId(e.track)
    ensures OpenPause(s, completions).Done? && s.phase != Playing ==> OpenPause(s, completions) == Done(s, [])
    ensures OpenPauseForTracks(s, entries).Done? && s.phase != Playing ==> OpenPauseForTracks(s, entries) == Done(s, [])
  {
    hide IsTrackId;
    AuthorizedFew(s, entries);
  }

  // ---- Faults and clock regressions ----

  /** Everybody is lost now, whatever is seen. */
  predicate AllLostAt(s: Session, t: Session, now: real) {
    && t.players.Keys == s.players.Keys
    && forall k :: k in t.players ==> t.players[k] == s.players[k].(presence := Reacquiring, lostAt := Some(now), visible := false)
  }

  /** Nothing but who is visible. */
  predicate OnlyVisible(s: Session, t: Session, k: Slot)
    requires k in s.players && k in t.players
  {
    t.players[k] == s.players[k].(visible := s.players[k].track in t.visible)
  }

  /**
   * A fault or a clock that goes back freezes whoever is seated. A fault does not start a reacquisition window afresh,
   * and does not bring back a session that is being recovered.
   */
  lemma FaultFreezes(c: Config, s: Session, at: Instant, tracks: seq<string>, fault: bool)
    requires Sound(c, s) && at.Finite? && at.ms >= 0.0 && TracksError(tracks).None?
    requires fault || (s.last.Some? && at.ms < s.last.value)
    ensures var regressed := s.last.Some? && at.ms < s.last.value;
            var outcome := Observe(c, s, at, tracks, fault);
            var t := outcome.state;
            && outcome.Done? && t.visible == Items(tracks) && t.last == Some(at.ms)
            && t.launcher == s.launcher && t.overlay == s.overlay && t.players.Keys == s.players.Keys
            && (s.players == map[] ==> t == s.(visible := t.visible, last := t.last) && outcome.events == [])
            && (s.players != map[] ==>
                  if regressed || Live(s.phase) then
                    && t.phase == Frozen && AllLostAt(s, t, at.ms) && t.returnPhase == (if Live(s.phase) then s.phase else s.returnPhase)
                    && outcome.events == [Freeze(if regressed then ClockRegression else HardFault, Sorted(s.players.Keys))]
                  else
                    && t.phase == s.phase && t.returnPhase == s.returnPhase && outcome.events == []
                    && forall k :: k in s.players ==>
                         if s.phase == Frozen && s.players[k].lostAt.None? then
                           t.players[k] == s.players[k].(presence := Reacquiring, lostAt := Some(at.ms), visible := false)
                         else OnlyVisible(s, t, k))
  {
    hide TracksError, Items, Sorted, DistinctTracks, Watched, OrdinaryObservation;
  }

  // ---- Identifiers ----

  predicate Alphanumeric(c: char) { c in Alphabets.UPPER || c in Alphabets.LOWER || c in Alphabets.DIGITS }

  lemma TrackIdIff(t: string)
    ensures IsTrackId(t) <==>
              && t != "" && |t| <= 128 && Alphanumeric(t[0])
              && forall i :: 0 <= i < |t| ==> Alphanumeric(t[i]) || t[i] in "._:-"
  {
    forall i | 0 <= i < |t|
      ensures IsAlphanumeric(t[i]) <==> Alphanumeric(t[i])
      ensures t[i] in "._:-" <==> t[i] in {'.', '_', ':', '-'}
    {
      CharacterIff(t[i]);
    }
    hide IsAlphanumeric, Alphanumeric;
  }

  lemma CharacterIff(c: char)
    ensures IsAlphanumeric(c) <==> Alphanumeric(c)
    ensures c in "._:-" <==> c in {'.', '_', ':', '-'}
  {
    Alphabets.UpperIs(c);
    Alphabets.LowerIs(c);
    Alphabets.DigitIs(c);
  }

  /** A list is accepted exactly when it holds at most sixteen identifiers, none of them twice. */
  lemma TracksAcceptedIff(tracks: seq<string>)
    ensures TracksError(tracks).None? <==>
              && |tracks| <= 16 && (forall t :: t in tracks ==> IsTrackId(t))
              && forall i, j :: 0 <= i < j < |tracks| ==> tracks[i] != tracks[j]
    ensures TracksError(tracks) == Some(TooMany) <==> |tracks| > 16
  {
    FirstErrorIff(tracks, {});
  }

  lemma {:induction false} FirstErrorIff(tracks: seq<string>, seen: set<string>)
    ensures FirstTrackError(tracks, seen).None? <==>
              && (forall t :: t in tracks ==> IsTrackId(t) && t !in seen)
              && forall i, j :: 0 <= i < j < |tracks| ==> tracks[i] != tracks[j]
    ensures FirstTrackError(tracks, seen).Some? ==> FirstTrackError(tracks, seen).value in {InvalidTrack, RepeatedTrack}
  {
    if tracks != [] {
      FirstErrorIff(tracks[1..], seen + {tracks[0]});
      assert forall t :: t in tracks <==> t == tracks[0] || t in tracks[1..];
      assert forall i :: 0 < i < |tracks| ==> tracks[i] == tracks[1..][i - 1];
    }
  }

  // ---- What a refusal tells ----

  predicate Tells(c: Config, s: Session, command: Command, e: Error) {
    match command
    case Observing(at, tracks, _) =>
      || (e == InvalidTime && !(at.Finite? && at.ms >= 0.0)) || (e == TooMany && |tracks| > 16)
      || (e == InvalidTrack && exists t :: t in tracks && !IsTrackId(t))
      || (e == RepeatedTrack && exists i, j :: 0 <= i < j < |tracks| && tracks[i] == tracks[j])
    case Joining(track) =>
      || (e == InvalidTrack && !IsTrackId(track)) || (e == NotVisible && track !in s.visible)
      || (e == AlreadyJoined && exists k :: k in s.players && s.players[k].track == track)
      || (e == WrongPhase && s.phase != Setup && s.phase != Playing) || (e == SessionFull && |s.players| == c.maxPlayers)
    case Leaving(slot) =>
      || (e == InvalidSlot && slot != 1 && slot != 2) || (e == WrongPhase && s.phase != Playing) || (e == UnassignedSlot && slot !in s.players)
    case OpeningPause(completions) => e == TooMany && |completions| > 16
    case OpeningPauseForTracks(entries) =>
      (e == TooMany && |entries| > 16) || (e == InvalidTrack && exists t :: t in entries && !IsTrackId(t.track))
    case ClosingPause(owner, _) => e == NotPauseOwner && !(s.phase == Paused && s.overlay == Some(owner))
    case Resuming(track, keep) =>
      || (e == InvalidTrack && !IsTrackId(track)) || (e == WrongPhase && s.phase != Recovery) || (e == NotVisible && track !in s.visible)
      || (e == EmptyRoster && keep == Some([])) || (e == UnknownSlot && keep.Some? && exists k :: k in keep.value && k !in s.players)
      || (e == NotARetainedTrack && |s.players| == 2 && forall k :: k in s.players && Keeps(s, keep, k) ==> s.players[k].track != track)
      || (e == RetainedNotVisible && |s.players| == 2 && exists k :: k in s.players && Keeps(s, keep, k) && s.players[k].track !in s.visible)
    case Resetting => false
  }

  /** Every refusal is true, and nothing else is refused. */
  lemma RefusalsTell(c: Config, s: Session, command: Command)
    requires Sound(c, s) && Perform(c, s, command).Refused?
    ensures Tells(c, s, command, Perform(c, s, command).error)
  {
    hide IsTrackId, Watched, Owned;
    SeatCount(s.players);
    match command
    case Observing(at, tracks, fault) => ObservationTells(c, s, at, tracks, fault);
    case OpeningPauseForTracks(entries) => AuthorizedFew(s, entries);
    case Resuming(track, keep) => ResumeTells(c, s, track, keep);
    case _ =>
  }

  lemma ObservationTells(c: Config, s: Session, at: Instant, tracks: seq<string>, fault: bool)
    requires Observe(c, s, at, tracks, fault).Refused?
    ensures Tells(c, s, Observing(at, tracks, fault), Observe(c, s, at, tracks, fault).error)
  {
    hide IsTrackId, ForcedLoss, OrdinaryObservation;
    FirstErrorTells(tracks, {});
    NeverRefuses(c, s.(visible := Items(tracks), last := Some(if at.Finite? then at.ms else 0.0)), if at.Finite? then at.ms else 0.0);
  }

  lemma NeverRefuses(c: Config, s: Session, now: real)
    ensures OrdinaryObservation(c, s, now).Done? && forall cause :: ForcedLoss(s, now, cause).Done?
  {
  }

  lemma {:induction false} FirstErrorTells(tracks: seq<string>, seen: set<string>)
    ensures FirstTrackError(tracks, seen) == Some(InvalidTrack) ==> exists t :: t in tracks && !IsTrackId(t)
    ensures FirstTrackError(tracks, seen) == Some(RepeatedTrack) ==>
              (exists t :: t in tracks && t in seen) || exists i, j :: 0 <= i < j < |tracks| && tracks[i] == tracks[j]
    ensures FirstTrackError(tracks, seen).Some? ==> FirstTrackError(tracks, seen).value in {InvalidTrack, RepeatedTrack}
  {
    hide IsTrackId;
    if tracks != [] {
      var rest := tracks[1..];
      FirstErrorTells(rest, seen + {tracks[0]});
      if t :| t in rest && t == tracks[0] {
        var j :| 0 <= j < |rest| && rest[j] == t;
        assert tracks[0] == tracks[j + 1];
      }
      if i, j :| 0 <= i < j < |rest| && rest[i] == rest[j] { assert tracks[i + 1] == tracks[j + 1]; }
    }
  }

  lemma ResumeTells(c: Config, s: Session, track: string, keep: Option<seq<int>>)
    requires Sound(c, s) && ResumeRecovery(s, track, keep).Refused?
    ensures Tells(c, s, Resuming(track, keep), ResumeRecovery(s, track, keep).error)
  {
    hide IsTrackId, Watched, Owned, Resumed, Rejoined;
    SeatCount(s.players);
    RosterIs(s, keep);
    ControllerIs(s, track, Kept(s, keep));
  }
}
