/** The player-session rules as functions from one session state to the next. */
module PlayerSession {
  import opened Options

  /** The two player slots. */
  type Slot = k: int | 1 <= k <= 2 witness 1

  /** A JavaScript number used as a time. */
  datatype Instant = Finite(ms: real) | NotFinite

  datatype Phase = Setup | Playing | Frozen | Recovery | Paused

  datatype Presence = Joined | ConfirmingLoss | Reacquiring | AwaitingResume

  datatype Player = Player(track: string, presence: Presence, visible: bool,
                           missingSince: Option<real>, misses: nat, lostAt: Option<real>)

  datatype Session = Session(players: map<Slot, Player>, visible: set<string>, phase: Phase, launcher: Option<Slot>,
                             overlay: Option<Slot>, last: Option<real>, returnPhase: Phase)

  datatype Config = Config(maxPlayers: Slot, lossConfirmation: real, reacquisition: real, minimumMisses: int)

  datatype Cause = TrackingLoss | HardFault | ClockRegression

  datatype Destination = Game | Launcher

  datatype Event =
    | PlayerJoined(slot: Slot, track: string)
    | PlayerLeft(slot: Slot, track: string, remaining: seq<Slot>)
    | Freeze(cause: Cause, lost: seq<Slot>)
    | SilentRecovery(recovered: seq<Slot>)
    | ShowRecovery(lost: seq<Slot>)
    | PauseOpened(owner: Slot)
    | PauseClosed(owner: Slot, destination: Destination)
    | RecoveryResumed(owner: Slot, takeover: bool, removed: seq<Slot>)

  datatype Error =
    | InvalidTime | TooMany | InvalidTrack | RepeatedTrack | NotVisible | AlreadyJoined | WrongPhase | SessionFull
    | InvalidSlot | UnassignedSlot | NotPauseOwner | EmptyRoster | UnknownSlot | NotARetainedTrack | RetainedNotVisible

  /** A refused call leaves the session as it was. */
  datatype Outcome = Done(state: Session, events: seq<Event>) | Refused(error: Error)

  datatype Completion = Completion(slot: int, at: Instant)

  datatype TrackCompletion = TrackCompletion(track: string, at: Instant)

  const MAX_VISIBLE_TRACKS := 16
  const MAX_ACTION_COMPLETIONS := 16

  predicate ValidConfig(c: Config) {
    c.lossConfirmation > 0.0 && c.reacquisition > 0.0 && c.minimumMisses > 0
  }

  function Initial(): Session {
    Session(map[], {}, Setup, None, None, None, Playing)
  }

  // ---- Identifiers, times and slot lists ----

  predicate IsAlphanumeric(c: char) { 'A' <= c <= 'Z' || 'a' <= c <= 'z' || '0' <= c <= '9' }

  predicate IsTrackId(t: string) {
    && 1 <= |t| <= 128 && IsAlphanumeric(t[0])
    && forall i :: 1 <= i < |t| ==> IsAlphanumeric(t[i]) || t[i] in {'.', '_', ':', '-'}
  }

  predicate IsTime(t: Instant) { t.Finite? && t.ms >= 0.0 }

  function Items(tracks: seq<string>): set<string> { set t | t in tracks }

  predicate NoRepeats(tracks: seq<string>) { forall i, j :: 0 <= i < j < |tracks| ==> tracks[i] != tracks[j] }

  /** Slots are 1 and 2, so ascending order is this. */
  function Sorted(slots: set<Slot>): seq<Slot> {
    (if 1 in slots then [1] else []) + (if 2 in slots then [2] else [])
  }

  // ---- One player record ----

  function ConfirmLoss(p: Player, now: real): Player {
    p.(presence := Reacquiring, lostAt := Some(now), visible := false)
  }

  function ClearLossEvidence(p: Player): Player {
    p.(missingSince := None, misses := 0, lostAt := None)
  }

  function Or(t: Option<real>, other: real): real { if t.Some? then t.value else other }

  /** This missing observation completes the evidence of loss. */
  predicate LosesNow(c: Config, p: Player, now: real) {
    && p.presence == ConfirmingLoss
    && now - Or(p.missingSince, now) >= c.lossConfirmation && p.misses + 1 >= c.minimumMisses
  }

  predicate RecoversNow(c: Config, phase: Phase, p: Player, now: real) {
    p.presence == Reacquiring && phase == Frozen && now - Or(p.lostAt, now) <= c.reacquisition
  }

  function SeenPlayer(phase: Phase, p: Player): Player {
    ClearLossEvidence(p.(visible := true,
                         presence := if phase == Recovery && p.presence != Joined then AwaitingResume else Joined))
  }

  function MissedPlayer(c: Config, p: Player, now: real): Player {
    if p.presence == Joined then
      p.(visible := false, presence := ConfirmingLoss, missingSince := Some(now), misses := 1)
    else if p.presence == ConfirmingLoss then
      var q := p.(visible := false, misses := p.misses + 1);
      if LosesNow(c, p, now) then ConfirmLoss(q, now) else q
    else p.(visible := false)
  }

  function ObservedPlayer(c: Config, phase: Phase, visible: set<string>, p: Player, now: real): Player {
    if p.track in visible then SeenPlayer(phase, p) else MissedPlayer(c, p, now)
  }

  function ObservedPlayers(c: Config, s: Session, now: real): map<Slot, Player> {
    map k | k in s.players :: ObservedPlayer(c, s.phase, s.visible, s.players[k], now)
  }

  function NewlyLost(c: Config, s: Session, now: real): set<Slot> {
    set k | k in s.players && s.players[k].track !in s.visible && LosesNow(c, s.players[k], now)
  }

  function NewlyRecovered(c: Config, s: Session, now: real): set<Slot> {
    set k | k in s.players && s.players[k].track in s.visible && RecoversNow(c, s.phase, s.players[k], now)
  }

  // ---- Observations ----

  function Refreshed(players: map<Slot, Player>, visible: set<string>): map<Slot, Player> {
    map k | k in players :: players[k].(visible := players[k].track in visible)
  }

  function AllLost(players: map<Slot, Player>, now: real): map<Slot, Player> {
    map k | k in players :: ConfirmLoss(players[k], now)
  }

  function UnconfirmedLost(players: map<Slot, Player>, now: real): map<Slot, Player> {
    map k | k in players :: if players[k].lostAt.None? then ConfirmLoss(players[k], now) else players[k]
  }

  function AllAwaiting(players: map<Slot, Player>): map<Slot, Player> {
    map k | k in players :: if players[k].presence == Joined then players[k] else players[k].(presence := AwaitingResume)
  }

  function ForcedLoss(s: Session, now: real, cause: Cause): Outcome {
    var r := s.(players := Refreshed(s.players, s.visible));
    if s.players == map[] then Done(r, [])
    else if cause == HardFault && s.phase == Recovery then Done(r, [])
    else if cause == HardFault && s.phase == Frozen then Done(r.(players := UnconfirmedLost(r.players, now)), [])
    else
      Done(r.(players := AllLost(r.players, now), phase := Frozen,
              returnPhase := if s.phase == Playing || s.phase == Paused then s.phase else s.returnPhase),
           [Freeze(cause, Sorted(s.players.Keys))])
  }

  predicate AllJoined(players: map<Slot, Player>) { forall k :: k in players ==> players[k].presence == Joined }

  predicate Expired(c: Config, p: Player, now: real) { p.lostAt.Some? && now - p.lostAt.value >= c.reacquisition }

  predicate SomeExpired(c: Config, players: map<Slot, Player>, now: real) {
    exists k :: k in players && Expired(c, players[k], now)
  }

  function Unsafe(players: map<Slot, Player>): set<Slot> { set k | k in players && players[k].presence != Joined }

  /** The end of an observation: silent recovery, expiry, or neither. */
  function Settled(c: Config, s: Session, now: real, recovered: set<Slot>, events: seq<Event>): Outcome {
    if s.phase == Frozen && AllJoined(s.players) then
      Done(s.(phase := s.returnPhase), events + [SilentRecovery(Sorted(recovered))])
    else if s.phase == Frozen && SomeExpired(c, s.players, now) then
      var r := s.(phase := Recovery, overlay := None, players := AllAwaiting(s.players));
      Done(r, events + [ShowRecovery(Sorted(Unsafe(r.players)))])
    else Done(s, events)
  }

  /** An observation with no fault and no clock regression, of a session with players. */
  function OrdinaryObservation(c: Config, s: Session, now: real): Outcome {
    var lost := NewlyLost(c, s, now);
    var seen := s.(players := ObservedPlayers(c, s, now));
    if lost != {} && (s.phase == Playing || s.phase == Paused) then
      Settled(c, seen.(phase := Frozen, returnPhase := s.phase), now, NewlyRecovered(c, s, now),
              [Freeze(TrackingLoss, Sorted(lost))])
    else
      Settled(c, seen, now, NewlyRecovered(c, s, now), [])
  }

  predicate Regresses(s: Session, now: real) { s.last.Some? && now < s.last.value }

  function TracksError(tracks: seq<string>): Option<Error> {
    if |tracks| > MAX_VISIBLE_TRACKS then Some(TooMany) else FirstTrackError(tracks, {})
  }

  function FirstTrackError(tracks: seq<string>, seen: set<string>): Option<Error> {
    if tracks == [] then None
    else if !IsTrackId(tracks[0]) then Some(InvalidTrack)
    else if tracks[0] in seen then Some(RepeatedTrack)
    else FirstTrackError(tracks[1..], seen + {tracks[0]})
  }

  function Observe(c: Config, s: Session, at: Instant, tracks: seq<string>, fault: bool): Outcome {
    if !IsTime(at) then Refused(InvalidTime)
    else if TracksError(tracks).Some? then Refused(TracksError(tracks).value)
    else
      var t := s.(visible := Items(tracks), last := Some(at.ms));
      if Regresses(s, at.ms) then ForcedLoss(t, at.ms, ClockRegression)
      else if fault then ForcedLoss(t, at.ms, HardFault)
      else if s.players == map[] then Done(t, [])
      else OrdinaryObservation(c, t, at.ms)
  }

  // ---- Joining and leaving ----

  predicate Seated(s: Session, track: string) { exists k :: k in s.players && s.players[k].track == track }

  function FreeSlot(s: Session): int { if 1 !in s.players then 1 else if 2 !in s.players then 2 else 3 }

  function NewPlayer(track: string): Player { Player(track, Joined, true, None, 0, None) }

  function Join(c: Config, s: Session, track: string): Outcome {
    if !IsTrackId(track) then Refused(InvalidTrack)
    else if track !in s.visible then Refused(NotVisible)
    else if Seated(s, track) then Refused(AlreadyJoined)
    else if s.phase != Setup && s.phase != Playing then Refused(WrongPhase)
    else if FreeSlot(s) > c.maxPlayers then Refused(SessionFull)
    else
      var slot := FreeSlot(s);
      Done(s.(players := s.players[slot := NewPlayer(track)], phase := Playing,
              launcher := if s.launcher.None? then Some(slot) else s.launcher),
           [PlayerJoined(slot, track)])
  }

  function First(slots: seq<Slot>): Option<Slot> { if slots == [] then None else Some(slots[0]) }

  function Leave(s: Session, slot: int): Outcome {
    if slot != 1 && slot != 2 then Refused(InvalidSlot)
    else if s.phase != Playing then Refused(WrongPhase)
    else if slot !in s.players then Refused(UnassignedSlot)
    else
      var rest := s.players - {slot};
      var remaining := Sorted(rest.Keys);
      var event := PlayerLeft(slot, s.players[slot].track, remaining);
      var launcher := if s.launcher == Some(slot) then First(remaining) else s.launcher;
      if remaining == [] then
        Done(s.(players := rest, phase := Setup, launcher := None, overlay := None, returnPhase := Playing), [event])
      else Done(s.(players := rest, launcher := launcher), [event])
  }

  // ---- Authority ----

  predicate Matches(s: Session, k: Slot, track: string, owner: Option<Slot>) {
    && k in s.players && s.players[k].track == track && s.players[k].presence == Joined && s.players[k].visible
    && (owner.None? || owner.value == k)
  }

  function AuthorizeOwnedTrack(s: Session, track: string, allowed: bool, owner: Option<Slot>, ownerRequired: bool): Option<Slot> {
    if !allowed || (ownerRequired && owner.None?) then None
    else if Matches(s, 1, track, owner) then Some(1)
    else if Matches(s, 2, track, owner) then Some(2)
    else None
  }

  function AuthorizeGameplay(s: Session, track: string): Option<Slot> {
    AuthorizeOwnedTrack(s, track, s.phase == Playing, None, false)
  }

  function AuthorizeLauncher(s: Session, track: string): Option<Slot> {
    AuthorizeOwnedTrack(s, track, s.phase == Playing, s.launcher, true)
  }

  function AuthorizeOverlay(s: Session, track: string): Option<Slot> {
    AuthorizeOwnedTrack(s, track, s.phase == Paused, s.overlay, true)
  }

  predicate AuthorizeRecovery(s: Session, track: string) {
    && s.phase == Recovery && track in s.visible
    && (|s.players| == 1 || exists k :: k in s.players && s.players[k].track == track && s.players[k].visible)
  }

  // ---- The manual pause ----

  predicate Eligible(s: Session, e: Completion) {
    e.slot in s.players && s.players[e.slot].presence == Joined && IsTime(e.at)
  }

  predicate Before(a: Completion, b: Completion) {
    a.at.Finite? && b.at.Finite? && (a.at.ms < b.at.ms || (a.at.ms == b.at.ms && a.slot <= b.slot))
  }

  /** The least eligible completion by time and then slot. */
  function Winner(s: Session, completions: seq<Completion>): (w: Option<Completion>)
    ensures w.None? <==> forall e :: e in completions ==> !Eligible(s, e)
    ensures w.Some? ==> w.value in completions && Eligible(s, w.value)
    ensures w.Some? ==> forall e :: e in completions && Eligible(s, e) ==> Before(w.value, e)
  {
    if completions == [] then None else
    var head, rest := completions[0], Winner(s, completions[1..]);
    assert completions == [head] + completions[1..];
    if !Eligible(s, head) then rest
    else if rest.Some? && !Before(head, rest.value) then rest
    else Some(head)
  }

  function OpenPause(s: Session, completions: seq<Completion>): Outcome {
    if |completions| > MAX_ACTION_COMPLETIONS then Refused(TooMany)
    else if s.phase != Playing then Done(s, [])
    else match Winner(s, completions)
      case None => Done(s, [])
      case Some(w) => Done(s.(phase := Paused, overlay := Some(w.slot)), [PauseOpened(w.slot)])
  }

  function Authorized(s: Session, completions: seq<TrackCompletion>): seq<Completion> {
    if completions == [] then [] else
    var slot := AuthorizeGameplay(s, completions[0].track);
    (if slot.None? then [] else [Completion(slot.value, completions[0].at)]) + Authorized(s, completions[1..])
  }

  function OpenPauseForTracks(s: Session, completions: seq<TrackCompletion>): Outcome {
    if |completions| > MAX_ACTION_COMPLETIONS then Refused(TooMany)
    else if exists e :: e in completions && !IsTrackId(e.track) then Refused(InvalidTrack)
    else OpenPause(s, Authorized(s, completions))
  }

  function ClosePause(s: Session, owner: int, destination: Destination): Outcome {
    if s.phase != Paused || s.overlay != Some(owner) then Refused(NotPauseOwner)
    else
      Done(s.(phase := Playing, overlay := None,
              launcher := if destination == Launcher then Some(owner) else s.launcher),
           [PauseClosed(owner, destination)])
  }

  // ---- Deliberate recovery ----

  /** The slots to keep; by default every seated one. */
  function Kept(s: Session, keep: Option<seq<int>>): set<Slot> {
    if keep.Some? then set k: Slot | k in keep.value else s.players.Keys
  }

  predicate KeepsNobody(s: Session, keep: Option<seq<int>>) {
    if keep.Some? then keep.value == [] else s.players == map[]
  }

  predicate KeepsStranger(s: Session, keep: Option<seq<int>>) {
    keep.Some? && exists k :: k in keep.value && k !in s.players
  }

  lemma KeptSeats(s: Session, keep: Option<seq<int>>)
    requires !KeepsNobody(s, keep) && !KeepsStranger(s, keep)
    ensures Kept(s, keep) != {} && Kept(s, keep) <= s.players.Keys
  {
    if keep.Some? {
      var k := keep.value[0];
      assert k in keep.value && k in s.players;
      var slot: Slot := k;
      assert slot in Kept(s, keep);
    } else {
      assert s.players.Keys != {};
    }
  }

  /** The retained seat whose track asks to resume. */
  function Controller(s: Session, track: string, kept: set<Slot>): Option<Slot> {
    if 1 in s.players && s.players[1].track == track && 1 in kept then Some(1)
    else if 2 in s.players && s.players[2].track == track && 2 in kept then Some(2)
    else None
  }

  function Lead(kept: set<Slot>): Slot { if 1 in kept then 1 else 2 }

  function Rejoined(visible: set<string>, players: map<Slot, Player>): map<Slot, Player> {
    map k | k in players :: ClearLossEvidence(players[k].(presence := Joined, visible := players[k].track in visible))
  }

  function NextLauncher(launcher: Option<Slot>, kept: set<Slot>): Option<Slot> {
    if launcher.Some? && launcher.value !in kept then Some(Lead(kept)) else launcher
  }

  function Resumed(s: Session, kept: set<Slot>, players: map<Slot, Player>): Session {
    s.(players := Rejoined(s.visible, map k | k in players && k in kept :: players[k]), phase := Playing, overlay := None,
       launcher := NextLauncher(s.launcher, kept))
  }

  /** A lone player is resumed by any visible candidate, whose track takes the seat over. */
  function TakenOver(s: Session, track: string, kept: set<Slot>): Outcome
    requires kept != {} && kept <= s.players.Keys
  {
    var owner := Lead(kept);
    var players := s.players[owner := s.players[owner].(track := track)];
    Done(Resumed(s, kept, players), [RecoveryResumed(owner, s.players[owner].track != track, [])])
  }

  /** Two players are resumed by a retained track, once every retained track is visible. */
  function RosterResumed(s: Session, track: string, kept: set<Slot>): Outcome
    requires kept <= s.players.Keys
  {
    if Controller(s, track, kept).None? then Refused(NotARetainedTrack)
    else if exists k :: k in kept && s.players[k].track !in s.visible then Refused(RetainedNotVisible)
    else
      Done(Resumed(s, kept, s.players),
           [RecoveryResumed(Controller(s, track, kept).value, false, Sorted(s.players.Keys - kept))])
  }

  function ResumeRecovery(s: Session, track: string, keep: Option<seq<int>>): Outcome {
    if !IsTrackId(track) then Refused(InvalidTrack)
    else if s.phase != Recovery then Refused(WrongPhase)
    else if track !in s.visible then Refused(NotVisible)
    else if KeepsNobody(s, keep) then Refused(EmptyRoster)
    else if KeepsStranger(s, keep) then Refused(UnknownSlot)
    else
      KeptSeats(s, keep);
      if |s.players| == 1 then TakenOver(s, track, Kept(s, keep)) else RosterResumed(s, track, Kept(s, keep))
  }
}
