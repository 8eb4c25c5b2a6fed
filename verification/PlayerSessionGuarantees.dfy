/** The promises of the player session, over every run of its commands. */
module PlayerSessionGuarantees {
  import opened Options
  import opened PlayerSession
  import opened PlayerSessionRuns

  // ---- Freezing needs exactly the evidence ----

  /** The observation is accepted, in order, and reports no fault. */
  predicate Ordinary(s: Session, at: Instant, tracks: seq<string>) {
    at.Finite? && at.ms >= 0.0 && TracksError(tracks).None? && (s.last.Some? ==> at.ms >= s.last.value)
  }

  function LongAbsentSlots(c: Config, h: History, s: Session): set<Slot> {
    set k | k in s.players && LongAbsent(c, h, s.players[k].track)
  }

  lemma LosesWhenLongAbsent(c: Config, h: History, p: Player, o: Observation)
    requires ValidConfig(c) && Evidence(h, p)
    requires p.presence == Joined ==> Streak(h, p.track) == 0
    requires p.presence == Joined || p.presence == ConfirmingLoss
    ensures p.track !in o.tracks && LosesNow(c, p, o.ms) <==> LongAbsent(c, h + [o], p.track)
  {
    StreakExtends(h, o, p.track);
  }

  lemma NewlyLostAreLongAbsent(c: Config, h: History, s: Session, o: Observation)
    requires ValidConfig(c) && Live(s.phase) && AllLive(s.visible, s.players) && AllEvidence(h, s.players)
    requires s.players != map[] ==> h != [] && s.visible == h[|h| - 1].tracks
    ensures NewlyLost(c, Noted(s, o.ms, o.tracks), o.ms) == LongAbsentSlots(c, h + [o], s)
  {
    forall k | k in s.players
      ensures k in NewlyLost(c, Noted(s, o.ms, o.tracks), o.ms) <==> k in LongAbsentSlots(c, h + [o], s)
    {
      assert LivePlayer(s.visible, s.players[k]) && Evidence(h, s.players[k]);
      LosesWhenLongAbsent(c, h, s.players[k], o);
    }
  }

  /** A loss just confirmed neither recovers nor expires in the same call. */
  lemma FreezeSettles(c: Config, s: Session, now: real, recovered: set<Slot>, events: seq<Event>)
    requires ValidConfig(c) && s.phase == Frozen && !AllJoined(s.players)
    requires forall k :: k in s.players && s.players[k].lostAt.Some? ==> s.players[k].lostAt.value == now
    ensures Settled(c, s, now, recovered, events) == Done(s, events)
  {
    forall k | k in s.players ensures !Expired(c, s.players[k], now) {
    }
  }

  /**
   * After any run, an ordinary observation of a live session freezes exactly the seats whose tracks the latest
   * observations have missed often enough and for long enough, and reports nothing else.
   */
  lemma FreezesExactlyTheLongAbsent(c: Config, run: seq<Command>, at: Instant, tracks: seq<string>)
    requires ValidConfig(c) && Live(After(c, run).phase) && Ordinary(After(c, run), at, tracks)
    ensures var lost := LongAbsentSlots(c, Observations(run + [Observing(at, tracks, false)]), After(c, run));
            Perform(c, After(c, run), Observing(at, tracks, false)).Done?
            && Perform(c, After(c, run), Observing(at, tracks, false)).events
               == if lost == {} then [] else [Freeze(TrackingLoss, Sorted(lost))]
  {
    var s, h := After(c, run), Observations(run);
    var o := Observation(at.ms, Items(tracks));
    assert (run + [Observing(at, tracks, false)])[..|run|] == run;
    assert Observations(run + [Observing(at, tracks, false)]) == h + [o];
    RunSound(c, run);
    RunEvidenced(c, run);
    LiveObservation(c, h, s, o);
    assert s.players != map[];
  }

  lemma LiveObservation(c: Config, h: History, s: Session, o: Observation)
    requires ValidConfig(c) && Sound(c, s) && Evidenced(h, s) && Live(s.phase)
    ensures OrdinaryObservation(c, Noted(s, o.ms, o.tracks), o.ms).Done?
    ensures var lost := LongAbsentSlots(c, h + [o], s);
            OrdinaryObservation(c, Noted(s, o.ms, o.tracks), o.ms).events
            == if lost == {} then [] else [Freeze(TrackingLoss, Sorted(lost))]
  {
    hide AllLive, AllEvidence, NewlyLost, NewlyRecovered, ObservedPlayers, LongAbsentSlots, Settled, DistinctTracks;
    var n := Noted(s, o.ms, o.tracks);
    var recovered := NewlyRecovered(c, n, o.ms);
    NewlyLostAreLongAbsent(c, h, s, o);
    ObservedLive(c, n, s.visible, o.ms);
    var seen := n.(players := ObservedPlayers(c, n, o.ms));
    var lost := NewlyLost(c, n, o.ms);
    if lost == {} {
      UnfrozenSettles(c, seen, o.ms, recovered);
    } else {
      FreezeSettles(c, seen.(phase := Frozen, returnPhase := s.phase), o.ms, recovered, [Freeze(TrackingLoss, Sorted(lost))]);
    }
  }

  // ---- Leaving recovery is deliberate ----

  predicate ClockRegresses(s: Session, command: Command) {
    command.Observing? && IsTime(command.at) && TracksError(command.tracks).None? && Regresses(s, command.at.ms)
  }

  lemma RecoveryIsLeftDeliberately(c: Config, s: Session, command: Command)
    requires Sound(c, s) && s.phase == Recovery && Next(c, s, command).phase != Recovery
    requires !command.Resetting? && !ClockRegresses(s, command)
    ensures command.Resuming? && Perform(c, s, command).Done? && AllPresent(Next(c, s, command))
  {
    hide DistinctTracks, AllJoined, Kept, Resumed, Controller, AllPresent;
    if command.Resuming? {
      ResumeRejoinsEveryone(c, s, command.controller, command.keep);
    } else if command.Observing? {
      hide ObservedPlayers, NewlyLost, NewlyRecovered, TracksError, Items, Refreshed;
    }
  }

  lemma Prefix(c: Config, run: seq<Command>, j: nat)
    requires 0 < j <= |run|
    ensures After(c, run[..j]) == Next(c, After(c, run[..j - 1]), run[j - 1])
  {
    assert run[..j][..j - 1] == run[..j - 1];
  }

  ghost predicate ResumesAt(c: Config, run: seq<Command>, k: nat)
    requires k < |run|
  {
    && After(c, run[..k]).phase == Recovery
    && run[k].Resuming? && Perform(c, After(c, run[..k]), run[k]).Done?
    && AllPresent(After(c, run[..k + 1]))
  }

  /**
   * While the clock never goes back and nobody resets, a recovering session is not live again before somebody
   * deliberately resumed it, and at that moment every seated player was joined and visible.
   */
  lemma {:induction false} RecoveryNeedsResume(c: Config, run: seq<Command>, i: nat, j: nat)
    requires i < j <= |run| && After(c, run[..i]).phase == Recovery && After(c, run[..j]).phase != Recovery
    requires forall m :: i <= m < j ==> !run[m].Resetting? && !ClockRegresses(After(c, run[..m]), run[m])
    ensures exists k :: i <= k < j && ResumesAt(c, run, k)
    decreases j
  {
    hide Next, Perform, After, Sound, AllPresent;
    var s := After(c, run[..j - 1]);
    Prefix(c, run, j);
    RunSound(c, run[..j - 1]);
    if s.phase == Recovery {
      RecoveryIsLeftDeliberately(c, s, run[j - 1]);
      assert ResumesAt(c, run, j - 1);
    } else {
      RecoveryNeedsResume(c, run, i, j - 1);
    }
  }

  // ---- The overlay owner ----

  /** A manual overlay is up, or frozen over, exactly when somebody owns it. */
  predicate OwnerShown(s: Session) {
    s.overlay.Some? <==> s.phase == Paused || (s.phase == Frozen && s.returnPhase == Paused)
  }

  /** The clock goes back while recovering from a pause, whose owner recovery has already dismissed. */
  predicate Orphans(s: Session, command: Command) {
    s.phase == Recovery && s.returnPhase == Paused && ClockRegresses(s, command)
  }

  lemma ForcedOwner(s: Session, now: real, cause: Cause)
    requires Owned(s) && s.players != map[] && (cause == HardFault || cause == ClockRegression)
    ensures var t := ForcedLoss(s, now, cause).state;
            && ForcedLoss(s, now, cause).Done? && t.overlay == s.overlay
            && t.phase == (if s.phase == Recovery && cause == HardFault then Recovery else Frozen)
            && t.returnPhase == (if Live(s.phase) then s.phase else s.returnPhase)
  {
  }

  lemma SettledOwner(c: Config, s: Session, now: real, recovered: set<Slot>, events: seq<Event>)
    requires OwnerShown(s) && Live(s.returnPhase)
    ensures Settled(c, s, now, recovered, events).Done?
    ensures OwnerShown(Settled(c, s, now, recovered, events).state)
  {
  }

  lemma ObservedOwner(c: Config, s: Session, at: Instant, tracks: seq<string>, fault: bool)
    requires Sound(c, s) && OwnerShown(s)
    ensures OwnerShown(Next(c, s, Observing(at, tracks, fault))) <==> !Orphans(s, Observing(at, tracks, fault))
  {
    hide Settled, ForcedLoss, ObservedPlayers, NewlyLost, NewlyRecovered, TracksError, Items, DistinctTracks, Watched;
    if IsTime(at) && TracksError(tracks).None? && s.players != map[] {
      var n := Noted(s, at.ms, Items(tracks));
      if Regresses(s, at.ms) || fault {
        ForcedOwner(n, at.ms, if Regresses(s, at.ms) then ClockRegression else HardFault);
      } else {
        var lost, recovered := NewlyLost(c, n, at.ms), NewlyRecovered(c, n, at.ms);
        var seen := n.(players := ObservedPlayers(c, n, at.ms));
        SettledOwner(c, seen, at.ms, recovered, []);
        if Live(s.phase) {
          SettledOwner(c, seen.(phase := Frozen, returnPhase := s.phase), at.ms, recovered,
                       [Freeze(TrackingLoss, Sorted(lost))]);
        }
      }
    } else if IsTime(at) && TracksError(tracks).None? {
      NobodyForced(Noted(s, at.ms, Items(tracks)), at.ms);
    }
  }

  lemma NobodyForced(s: Session, now: real)
    requires s.players == map[]
    ensures forall cause :: ForcedLoss(s, now, cause).Done? && OwnerShown(ForcedLoss(s, now, cause).state) == OwnerShown(s)
  {
  }

  /** Every command keeps the overlay and its owner together, except exactly the orphaning regression. */
  lemma OwnerKeptIff(c: Config, s: Session, command: Command)
    requires Sound(c, s) && OwnerShown(s)
    ensures OwnerShown(Next(c, s, command)) <==> !Orphans(s, command)
  {
    hide Observe, DistinctTracks, Watched, Winner, Authorized, Kept, Controller, KeepsNobody, KeepsStranger;
    if command.Observing? {
      ObservedOwner(c, s, command.at, command.tracks, command.fault);
    }
  }

  /** Over a run with no orphaning regression, an overlay and its owner always go together. */
  lemma {:induction false} OwnerKeptOverRun(c: Config, run: seq<Command>)
    requires forall m :: 0 <= m < |run| ==> !Orphans(After(c, run[..m]), run[m])
    ensures OwnerShown(After(c, run))
  {
    if run != [] {
      hide Next, Sound, Orphans, OwnerShown;
      var n := |run| - 1;
      var before := run[..n];
      forall m | 0 <= m < n ensures !Orphans(After(c, before[..m]), before[m]) {
        assert before[..m] == run[..m];
        assert !Orphans(After(c, run[..m]), run[m]);
      }
      OwnerKeptOverRun(c, before);
      RunSound(c, before);
      assert !Orphans(After(c, run[..n]), run[n]);
      OwnerKeptIff(c, After(c, before), run[n]);
    } else {
      assert OwnerShown(Initial());
    }
  }

  // ---- What the orphaning regression leads to ----

  function DefaultConfig(): Config { Config(1, 300.0, 2000.0, 2) }

  lemma AfterOne(c: Config, run: seq<Command>, command: Command)
    ensures After(c, run + [command]) == Next(c, After(c, run), command)
  {
    assert (run + [command])[..|run|] == run;
  }

  const A: string := "a"

  function Sees(ms: real): Command { Observing(Finite(ms), [A], false) }

  function Misses(ms: real): Command { Observing(Finite(ms), [], false) }

  lemma TrackA()
    ensures IsTrackId(A) && TracksError([A]).None? && Items([A]) == {A} && TracksError([]).None? && Items([]) == {}
  {
    assert IsTrackId(A);
    assert [A][1..] == [] && FirstTrackError([], {} + {A}).None?;
    assert FirstTrackError([A], {}).None?;
  }

  function OnlyPlayer(p: Player): map<Slot, Player> { map[1 := p] }

  /** A player joins, a second observation misses it, and a third confirms the loss. */
  lemma LosesOnlyPlayer(s: Session)
    requires s.players == OnlyPlayer(NewPlayer(A)) && s.last == Some(0.0) && Live(s.phase)
    ensures var t := Next(DefaultConfig(), Next(DefaultConfig(), s, Misses(200.0)), Misses(500.0));
            t == s.(players := OnlyPlayer(Player(A, Reacquiring, false, Some(200.0), 2, Some(500.0))), visible := {},
                    phase := Frozen, returnPhase := s.phase, last := Some(500.0))
  {
    TrackA();
    var c := DefaultConfig();
    var one := Next(c, s, Misses(200.0));
    var n := Noted(s, 200.0, {});
    assert s.players[1].track == A;
    assert ObservedPlayers(c, n, 200.0) == OnlyPlayer(Player(A, ConfirmingLoss, false, Some(200.0), 1, None));
    assert NewlyLost(c, n, 200.0) == {};
    assert one == n.(players := OnlyPlayer(Player(A, ConfirmingLoss, false, Some(200.0), 1, None)));
    var m := Noted(one, 500.0, {});
    var lost := OnlyPlayer(Player(A, Reacquiring, false, Some(200.0), 2, Some(500.0)));
    assert ObservedPlayers(c, m, 500.0) == lost;
    assert 1 in NewlyLost(c, m, 500.0);
    assert lost[1].presence != Joined;
    assert !AllJoined(lost);
    assert !SomeExpired(c, lost, 500.0);
  }

  function Joins(): seq<Command> { [Sees(0.0), Joining(A)] }

  lemma JoinsAlone()
    ensures After(DefaultConfig(), Joins())
         == Session(OnlyPlayer(NewPlayer(A)), {A}, Playing, Some(1), None, Some(0.0), Playing)
  {
    var c := DefaultConfig();
    assert After(c, []) == Initial();
    hide After, Next;
    AfterOne(c, [], Sees(0.0));
    assert [] + [Sees(0.0)] == [Sees(0.0)];
    AfterOne(c, [Sees(0.0)], Joining(A));
    assert [Sees(0.0)] + [Joining(A)] == Joins();
    FirstJoin();
  }

  lemma FirstJoin()
    ensures Next(DefaultConfig(), Initial().(visible := {A}, last := Some(0.0)), Joining(A))
         == Session(OnlyPlayer(NewPlayer(A)), {A}, Playing, Some(1), None, Some(0.0), Playing)
  {
    TrackA();
    assert map[][1 := NewPlayer(A)] == OnlyPlayer(NewPlayer(A));
  }

  /** Paused, then lost until recovery, then the clock goes back, then the player is seen again. */
  function OrphaningRun(): seq<Command> {
    Joins() + [OpeningPause([Completion(1, Finite(100.0))])] + [Misses(200.0)] + [Misses(500.0)] + [Misses(2500.0)]
    + [Sees(0.0)] + [Sees(1.0)]
  }

  /** The overlay invariant is not free: after an orphaning regression the session ends up paused with no owner. */
  lemma PausedWithoutOwner()
    ensures var s := After(DefaultConfig(), OrphaningRun());
            s.phase == Paused && s.overlay.None? && s.players.Keys == {1} && AllJoined(s.players)
  {
    hide After, Next;
    var c := DefaultConfig();
    var pause := OpeningPause([Completion(1, Finite(100.0))]);
    var run := Joins();
    JoinsAlone();
    AfterOne(c, run, pause);
    var paused := After(c, run + [pause]);
    OpensPause(After(c, run));
    LosesOnlyPlayer(paused);
    AfterOne(c, run + [pause], Misses(200.0));
    AfterOne(c, run + [pause] + [Misses(200.0)], Misses(500.0));
    var frozen := After(c, run + [pause] + [Misses(200.0)] + [Misses(500.0)]);
    AfterOne(c, run + [pause] + [Misses(200.0)] + [Misses(500.0)], Misses(2500.0));
    ExpiresOnlyPlayer(frozen);
    var recovering := Next(c, frozen, Misses(2500.0));
    AfterOne(c, run + [pause] + [Misses(200.0)] + [Misses(500.0)] + [Misses(2500.0)], Sees(0.0));
    RegressesOnlyPlayer(recovering);
    AfterOne(c, run + [pause] + [Misses(200.0)] + [Misses(500.0)] + [Misses(2500.0)] + [Sees(0.0)], Sees(1.0));
    ReturnsOnlyPlayer(Next(c, recovering, Sees(0.0)), 1.0);
  }

  lemma OpensPause(s: Session)
    requires s == Session(OnlyPlayer(NewPlayer(A)), {A}, Playing, Some(1), None, Some(0.0), Playing)
    ensures Next(DefaultConfig(), s, OpeningPause([Completion(1, Finite(100.0))])) == s.(phase := Paused, overlay := Some(1))
  {
    var e := Completion(1, Finite(100.0));
    assert e in [e] && Eligible(s, e);
    assert Winner(s, [e]).Some?;
    assert Winner(s, [e]).value in [e];
  }

  function LostPlayer(presence: Presence, at: real): map<Slot, Player> {
    OnlyPlayer(Player(A, presence, false, Some(200.0), 2, Some(at)))
  }

  lemma ExpiresOnlyPlayer(s: Session)
    requires s.players == LostPlayer(Reacquiring, 500.0) && s.phase == Frozen && s.last == Some(500.0)
    ensures Next(DefaultConfig(), s, Misses(2500.0))
         == s.(players := LostPlayer(AwaitingResume, 500.0), visible := {}, phase := Recovery, overlay := None, last := Some(2500.0))
  {
    TrackA();
    var c := DefaultConfig();
    var n := Noted(s, 2500.0, {});
    assert s.players[1].track == A;
    assert ObservedPlayers(c, n, 2500.0) == s.players;
    assert Expired(c, s.players[1], 2500.0);
    assert !AllJoined(s.players);
    assert AllAwaiting(s.players) == LostPlayer(AwaitingResume, 500.0);
    assert NewlyLost(c, n, 2500.0) == {};
  }

  lemma RegressesOnlyPlayer(s: Session)
    requires s.players == LostPlayer(AwaitingResume, 500.0) && s.phase == Recovery && s.last == Some(2500.0)
    ensures Next(DefaultConfig(), s, Sees(0.0))
         == s.(players := LostPlayer(Reacquiring, 0.0), visible := {A}, phase := Frozen, last := Some(0.0))
  {
    TrackA();
    var n := Noted(s, 0.0, {A});
    assert s.players[1].track == A;
    assert AllLost(Refreshed(n.players, n.visible), 0.0) == LostPlayer(Reacquiring, 0.0);
  }

  lemma ReturnsOnlyPlayer(s: Session, now: real)
    requires s.players.Keys == {1} && s.players[1].track == A && s.players[1].presence == Reacquiring
    requires s.phase == Frozen && now >= 0.0 && !Regresses(s, now)
    ensures Observe(DefaultConfig(), s, Finite(now), [A], false).Done?
    ensures var t := Next(DefaultConfig(), s, Sees(now));
            t == s.(players := OnlyPlayer(SeenPlayer(Frozen, s.players[1])), visible := {A}, phase := s.returnPhase, last := Some(now))
    ensures Observe(DefaultConfig(), s, Finite(now), [A], false).events
         == [SilentRecovery(Sorted(NewlyRecovered(DefaultConfig(), Noted(s, now, {A}), now)))]
  {
    TrackA();
    var c := DefaultConfig();
    var n := Noted(s, now, {A});
    assert ObservedPlayers(c, n, now) == OnlyPlayer(SeenPlayer(Frozen, s.players[1]));
    assert NewlyLost(c, n, now) == {};
  }

  /** From an unowned pause nothing but an observation or a reset gets out: no pause can be closed any more. */
  lemma UnownedPauseIsStuck(c: Config, s: Session, command: Command)
    requires Sound(c, s) && s.phase == Paused && s.overlay.None?
    requires !command.Observing? && !command.Resetting?
    ensures Next(c, s, command) == s
    ensures command.ClosingPause? ==> Perform(c, s, command).Refused?
    ensures forall t :: AuthorizeGameplay(s, t).None? && AuthorizeOverlay(s, t).None?
  {
    hide Authorized, Winner, Kept, Controller, Watched, DistinctTracks;
  }

  // ---- Silent recovery ----

  /** The confirmed losses still within the reacquisition window. */
  function InWindow(c: Config, s: Session, now: real): set<Slot> {
    set k | k in s.players && s.players[k].lostAt.Some? && now - s.players[k].lostAt.value <= c.reacquisition
  }

  lemma ReturnedAre(c: Config, s: Session, n: Session, now: real)
    requires s.phase == Frozen && AllFrozen(s.visible, s.players) && n == Noted(s, now, n.visible)
    ensures AllJoined(ObservedPlayers(c, n, now)) <==> forall k :: k in s.players ==> s.players[k].track in n.visible
    ensures AllJoined(ObservedPlayers(c, n, now)) ==> NewlyRecovered(c, n, now) == InWindow(c, s, now)
  {
    var players := ObservedPlayers(c, n, now);
    forall k | k in s.players
      ensures players[k].presence == Joined <==> s.players[k].track in n.visible
      ensures s.players[k].track in n.visible ==> (k in InWindow(c, s, now) <==> k in NewlyRecovered(c, n, now))
    {
      assert FrozenPlayer(s.visible, s.players[k]);
    }
  }

  lemma SettlesFrozen(c: Config, s: Session, now: real, recovered: set<Slot>)
    requires s.phase == Frozen && Live(s.returnPhase)
    ensures var outcome := Settled(c, s, now, recovered, []);
            && outcome.Done? && (Live(outcome.state.phase) <==> AllJoined(s.players))
            && (AllJoined(s.players) ==> outcome == Done(s.(phase := s.returnPhase), [SilentRecovery(Sorted(recovered))]))
  {
  }

  /**
   * A frozen session recovers silently exactly when every seated track is seen again, however late; its event lists
   * the confirmed losses that are still within the reacquisition window.
   */
  lemma SilentRecoveryIff(c: Config, s: Session, at: Instant, tracks: seq<string>)
    requires Sound(c, s) && s.phase == Frozen && Ordinary(s, at, tracks)
    ensures var outcome := Observe(c, s, at, tracks, false);
            && outcome.Done?
            && (Live(outcome.state.phase) <==> forall k :: k in s.players ==> s.players[k].track in tracks)
            && (Live(outcome.state.phase) ==>
                  && outcome.state.phase == s.returnPhase
                  && outcome.events == [SilentRecovery(Sorted(InWindow(c, s, at.ms)))])
  {
    hide AllFrozen, AllJoined, DistinctTracks, ObservedPlayers, NewlyRecovered, NewlyLost, Settled, InWindow;
    var n := Noted(s, at.ms, Items(tracks));
    assert s.players != map[];
    ReturnedAre(c, s, n, at.ms);
    SettlesFrozen(c, n.(players := ObservedPlayers(c, n, at.ms)), at.ms, NewlyRecovered(c, n, at.ms));
  }

  /** Some confirmed loss is past its reacquisition window. */
  predicate PastDeadline(c: Config, s: Session, now: real) {
    exists k :: k in s.players && s.players[k].lostAt.Some? && k !in InWindow(c, s, now)
  }

  /** The documented deadline holds of an observation exactly when nobody is past it or somebody is still missing. */
  lemma DeadlineHonouredIff(c: Config, s: Session, at: Instant, tracks: seq<string>)
    requires Sound(c, s) && s.phase == Frozen && Ordinary(s, at, tracks)
    ensures (PastDeadline(c, s, at.ms) ==> !Live(Next(c, s, Observing(at, tracks, false)).phase))
            <==> !PastDeadline(c, s, at.ms) || exists k :: k in s.players && s.players[k].track !in tracks
  {
    hide Sound, InWindow;
    SilentRecoveryIff(c, s, at, tracks);
  }

  lemma ExpiredAfter(c: Config, s: Session, n: Session, now: real)
    requires ValidConfig(c) && s.phase == Frozen && AllFrozen(s.visible, s.players) && n == Noted(s, now, n.visible)
    ensures SomeExpired(c, ObservedPlayers(c, n, now), now) <==>
            exists k :: k in s.players && s.players[k].track !in n.visible && Expired(c, s.players[k], now)
  {
    var players := ObservedPlayers(c, n, now);
    forall k | k in s.players
      ensures Expired(c, players[k], now) <==> s.players[k].track !in n.visible && Expired(c, s.players[k], now)
    {
      assert FrozenPlayer(s.visible, s.players[k]);
    }
    if SomeExpired(c, players, now) {
      var k :| k in players && Expired(c, players[k], now);
      assert k in s.players;
    }
  }

  lemma ShowsRecovery(c: Config, s: Session, now: real, recovered: set<Slot>)
    requires s.phase == Frozen && Live(s.returnPhase)
    ensures Settled(c, s, now, recovered, []).Done?
    ensures Settled(c, s, now, recovered, []).state.phase == Recovery <==> !AllJoined(s.players) && SomeExpired(c, s.players, now)
  {
  }

  /** Recovery is shown exactly when a track still missing was confirmed lost the whole window ago. */
  lemma RecoveryShownIff(c: Config, s: Session, at: Instant, tracks: seq<string>)
    requires ValidConfig(c) && Sound(c, s) && s.phase == Frozen && Ordinary(s, at, tracks)
    ensures Next(c, s, Observing(at, tracks, false)).phase == Recovery <==>
            exists k :: k in s.players && s.players[k].track !in tracks
                        && s.players[k].lostAt.Some? && at.ms - s.players[k].lostAt.value >= c.reacquisition
  {
    hide AllFrozen, AllJoined, DistinctTracks, ObservedPlayers, NewlyRecovered, NewlyLost, Settled, SomeExpired;
    var n := Noted(s, at.ms, Items(tracks));
    assert s.players != map[];
    ReturnedAre(c, s, n, at.ms);
    ExpiredAfter(c, s, n, at.ms);
    ShowsRecovery(c, n.(players := ObservedPlayers(c, n, at.ms)), at.ms, NewlyRecovered(c, n, at.ms));
  }

  /** The lost player returns a minute after the loss, with no observation in between. */
  function LateRun(): seq<Command> { Joins() + [Misses(200.0)] + [Misses(500.0)] }

  /** So a gap between observations that spans the deadline recovers silently, listing nobody. */
  lemma LateRecoveryIsSilent()
    ensures var c := DefaultConfig();
            var s := After(c, LateRun());
            && s.phase == Frozen && AllJoined(Next(c, s, Sees(60500.0)).players) && Next(c, s, Sees(60500.0)).phase == Playing
            && Perform(c, s, Sees(60500.0)).Done? && Perform(c, s, Sees(60500.0)).events == [SilentRecovery([])]
  {
    hide After, ObservedPlayers, Joins;
    var c := DefaultConfig();
    JoinsAlone();
    LosesOnlyPlayer(After(c, Joins()));
    AfterOne(c, Joins(), Misses(200.0));
    AfterOne(c, Joins() + [Misses(200.0)], Misses(500.0));
    var s := After(c, LateRun());
    ReturnsOnlyPlayer(s, 60500.0);
    assert NewlyRecovered(c, Noted(s, 60500.0, {A}), 60500.0) == {};
  }

  // ---- Authority ----

  /** Gameplay authority belongs exactly to the seated tracks of the latest observation while playing. */
  lemma GameplayAuthorityIff(c: Config, s: Session, track: string)
    requires Sound(c, s)
    ensures AuthorizeGameplay(s, track).Some? <==> s.phase == Playing && Seated(s, track) && track in s.visible
    ensures AuthorizeGameplay(s, track).Some? ==>
              AuthorizeGameplay(s, track).value in s.players && s.players[AuthorizeGameplay(s, track).value].track == track
  {
    if s.phase == Playing && Seated(s, track) {
      var k :| k in s.players && s.players[k].track == track;
      assert LivePlayer(s.visible, s.players[k]);
      assert forall j :: j in s.players && s.players[j].track == track ==> j == k;
    }
  }

  /** The launcher obeys at most one track, and the overlay at most one, never both at once. */
  lemma SingleAuthority(c: Config, s: Session, t: string, u: string)
    requires Sound(c, s)
    ensures AuthorizeLauncher(s, t).Some? && AuthorizeLauncher(s, u).Some? ==> t == u
    ensures AuthorizeOverlay(s, t).Some? && AuthorizeOverlay(s, u).Some? ==> t == u
    ensures !(AuthorizeLauncher(s, t).Some? && AuthorizeOverlay(s, u).Some?)
    ensures AuthorizeRecovery(s, t) ==> AuthorizeGameplay(s, u).None? && AuthorizeOverlay(s, u).None?
    ensures AuthorizeLauncher(s, t).Some? ==> AuthorizeGameplay(s, t) == AuthorizeLauncher(s, t)
  {
    hide Owned;
  }

  // ---- The pause race ----

  predicate Contends(s: Session, e: TrackCompletion) {
    Seated(s, e.track) && e.track in s.visible && e.at.Finite? && e.at.ms >= 0.0
  }

  lemma {:induction false} AuthorizedAre(c: Config, s: Session, entries: seq<TrackCompletion>, e: Completion)
    requires Sound(c, s) && s.phase == Playing
    ensures e in Authorized(s, entries) && Eligible(s, e) <==>
            exists t :: t in entries && Contends(s, t) && t.at == e.at && e.slot in s.players && s.players[e.slot].track == t.track
  {
    hide Sound, AuthorizeGameplay, Watched;
    if entries != [] {
      var head := entries[0];
      AuthorizedAre(c, s, entries[1..], e);
      GameplayAuthorityIff(c, s, head.track);
      assert forall t :: t in entries <==> t == head || t in entries[1..];
      HeadContends(c, s, head, e);
    }
  }

  lemma HeadContends(c: Config, s: Session, head: TrackCompletion, e: Completion)
    requires Sound(c, s) && s.phase == Playing
    ensures AuthorizeGameplay(s, head.track) == Some(e.slot) && e.at == head.at && Eligible(s, e) <==>
            Contends(s, head) && head.at == e.at && e.slot in s.players && s.players[e.slot].track == head.track
  {
    GameplayAuthorityIff(c, s, head.track);
    if e.slot in s.players { assert LivePlayer(s.visible, s.players[e.slot]); }
  }

  /** The entry is the owner's, and no contending entry of another player precedes it in time and then slot. */
  ghost predicate Earliest(s: Session, entries: seq<TrackCompletion>, owner: Slot) {
    owner in s.players &&
    exists e :: e in entries && Contends(s, e) && e.track == s.players[owner].track &&
      forall f, k :: f in entries && Contends(s, f) && k in s.players && s.players[k].track == f.track ==>
        e.at.ms < f.at.ms || (e.at.ms == f.at.ms && owner <= k)
  }

  /** Only a seated visible track can pause, and the earliest completion wins, then the lower slot. */
  lemma PauseGoesToEarliest(c: Config, s: Session, entries: seq<TrackCompletion>)
    requires Sound(c, s) && s.phase == Playing && |entries| <= 16
    requires forall e :: e in entries ==> IsTrackId(e.track)
    ensures var outcome := OpenPauseForTracks(s, entries);
            && outcome.Done?
            && (outcome == Done(s, []) <==> forall e :: e in entries ==> !Contends(s, e))
            && (outcome != Done(s, []) ==>
                  exists owner :: Earliest(s, entries, owner)
                    && outcome == Done(s.(phase := Paused, overlay := Some(owner)), [PauseOpened(owner)]))
  {
    hide Sound, Winner, Authorized, Eligible, Contends, Before;
    var completions := Authorized(s, entries);
    AuthorizedFew(s, entries);
    var w := Winner(s, completions);
    if w.None? {
      forall t | t in entries ensures !Contends(s, t) {
        if Contends(s, t) {
          var k := SeatOf(s, t);
          AuthorizedAre(c, s, entries, Completion(k, t.at));
          assert false;
        }
      }
    } else {
      AuthorizedAre(c, s, entries, w.value);
      var e :| e in entries && Contends(s, e) && e.at == w.value.at && s.players[w.value.slot].track == e.track;
      forall f, k | f in entries && Contends(s, f) && k in s.players && s.players[k].track == f.track
        ensures e.at.Finite? && f.at.Finite? && (e.at.ms < f.at.ms || (e.at.ms == f.at.ms && w.value.slot <= k))
      {
        AuthorizedAre(c, s, entries, Completion(k, f.at));
        BeforeMeans(Completion(w.value.slot, e.at), Completion(k, f.at));
      }
      assert Earliest(s, entries, w.value.slot);
    }
  }

  lemma BeforeMeans(a: Completion, b: Completion)
    requires Before(a, b)
    ensures a.at.Finite? && b.at.Finite? && (a.at.ms < b.at.ms || (a.at.ms == b.at.ms && a.slot <= b.slot))
  {
  }

  lemma {:induction false} AuthorizedFew(s: Session, entries: seq<TrackCompletion>)
    ensures |Authorized(s, entries)| <= |entries|
  {
    if entries != [] { AuthorizedFew(s, entries[1..]); }
  }

  ghost function SeatOf(s: Session, e: TrackCompletion): (k: Slot)
    requires Contends(s, e)
    ensures k in s.players && s.players[k].track == e.track
  {
    var k :| k in s.players && s.players[k].track == e.track;
    k
  }

  // ---- One event at a time ----

  /** No call of a reachable session reports two events. */
  lemma AtMostOneEvent(c: Config, run: seq<Command>, command: Command)
    requires ValidConfig(c) && Perform(c, After(c, run), command).Done?
    ensures |Perform(c, After(c, run), command).events| <= 1
  {
    hide After, Observations, Sound, Evidenced;
    var s := After(c, run);
    RunSound(c, run);
    RunEvidenced(c, run);
    if command.Observing? {
      OneObservedEvent(c, Observations(run), s, command.at, command.tracks, command.fault);
    } else {
      hide After;
      OneDeliberateEvent(c, s, command);
    }
  }

  lemma OneDeliberateEvent(c: Config, s: Session, command: Command)
    requires !command.Observing? && Perform(c, s, command).Done?
    ensures |Perform(c, s, command).events| <= 1
  {
    hide Authorized, Winner, Kept, Controller, Resumed, Sorted, KeepsNobody, KeepsStranger, IsTrackId;
  }

  lemma OneObservedEvent(c: Config, h: History, s: Session, at: Instant, tracks: seq<string>, fault: bool)
    requires ValidConfig(c) && Sound(c, s) && Evidenced(h, s) && Observe(c, s, at, tracks, fault).Done?
    ensures |Observe(c, s, at, tracks, fault).events| <= 1
  {
    hide Sound, Evidenced, NewlyLost, NewlyRecovered, ObservedPlayers, TracksError, Items, Refreshed, LongAbsentSlots;
    if Live(s.phase) {
      LiveObservation(c, h, s, Observation(at.ms, Items(tracks)));
    }
  }

  // ---- The launcher ----

  /** Everything that hands the launcher on: a first join, its owner leaving, a pause exiting to it, a dropped owner, a reset. */
  predicate HandsOver(s: Session, command: Command, t: Session) {
    match command
    case Joining(_) => s.launcher.None?
    case Leaving(slot) => s.launcher == Some(slot) && (t.launcher.Some? ==> t.launcher.value != slot)
    case ClosingPause(owner, destination) => destination == Launcher && s.overlay == t.launcher == Some(owner)
    case Resuming(_, keep) =>
      && s.launcher.Some? && s.launcher.value !in Kept(s, keep)
      && t.launcher.Some? && t.launcher.value in Kept(s, keep) && forall k :: k in Kept(s, keep) ==> t.launcher.value <= k
    case Resetting => true
    case _ => false
  }

  /** The launcher changes hands only so, and a pause that exits to the launcher always hands it to the pause owner. */
  lemma LauncherChangesHands(c: Config, s: Session, command: Command)
    requires Sound(c, s)
    ensures Next(c, s, command).launcher != s.launcher ==> HandsOver(s, command, Next(c, s, command))
    ensures command.ClosingPause? && command.destination == Launcher && Perform(c, s, command).Done? ==>
              Next(c, s, command).launcher == Some(command.owner)
  {
    match command
    case Observing(at, tracks, fault) => ObservationKeepsLauncher(c, s, at, tracks, fault);
    case Resuming(track, keep) =>
      if ResumeRecovery(s, track, keep).Done? && ResumeRecovery(s, track, keep).state.launcher != s.launcher { ResumeLauncher(s, track, keep); }
    case Leaving(slot) =>
      if Leave(s, slot).Done? && Leave(s, slot).state.launcher != s.launcher { LeaveLauncher(c, s, slot); }
    case _ => hide Sound, Winner, Authorized, Observe, ResumeRecovery, Leave;
  }

  lemma ObservationKeepsLauncher(c: Config, s: Session, at: Instant, tracks: seq<string>, fault: bool)
    ensures Next(c, s, Observing(at, tracks, fault)).launcher == s.launcher
  {
    hide ObservedPlayers, NewlyLost, NewlyRecovered, TracksError, Items, Refreshed, AllLost, UnconfirmedLost, AllAwaiting,
         AllJoined, SomeExpired, Sorted;
  }

  lemma LeaveLauncher(c: Config, s: Session, slot: int)
    requires Sound(c, s) && Leave(s, slot).Done? && Leave(s, slot).state.launcher != s.launcher
    ensures HandsOver(s, Leaving(slot), Leave(s, slot).state)
  {
  }

  lemma ResumeLauncher(s: Session, track: string, keep: Option<seq<int>>)
    requires ResumeRecovery(s, track, keep).Done? && ResumeRecovery(s, track, keep).state.launcher != s.launcher
    ensures HandsOver(s, Resuming(track, keep), ResumeRecovery(s, track, keep).state)
  {
    KeptSeats(s, keep);
  }
}
