/** Holds, latches and zones of the gesture engine, with the geometry of each frame taken as read. */
module ActionEngine {
  import opened Options
  import PlayerSession

  type Instant = PlayerSession.Instant

  datatype Name =
    | PlayerJoin | MenuSelect | MenuBack | Pause
    | DodgeLeft | DodgeRight | Duck | Jump
    | SwipeLeft | SwipeRight | SwipeUp | SwipeDown

  datatype Phase = Started | Held | Triggered | Ended | Cancelled

  datatype Action = Action(name: Name, phase: Phase, at: real, duration: real)

  datatype Zone = Rest | Home | Left | Right | Up | Down | Both

  datatype Context = Shell | Game | Overlay

  datatype Hold = Hold(name: Name, startedAt: real, triggered: bool)

  /** A predicate with hysteresis: its value for a latched and for a free action. */
  datatype Reading = Reading(kept: bool, entered: bool)

  /**
   * What the geometry says about the player: whether the hands are together and the arms crossed, when that can be
   * seen; the obstacle movements; the hand zone, which may depend on a zone being held; and a complete baseline sample.
   */
  datatype Posture = Posture(together: Option<bool>, crossed: Option<bool>, dodgeLeft: Reading, dodgeRight: Reading,
                             duck: Reading, jump: Reading, handsSeen: bool, freeZone: Zone, heldZone: Zone, sample: bool)

  datatype Frame = Frame(sequence: Option<int>, source: nat, quality: nat, sourceAt: Instant, startedAt: Instant,
                         completedAt: Instant, publishedAt: Instant, ready: bool, player: Option<Posture>)

  datatype Fault =
    | SequenceInvalid | TimestampOrderInvalid | SourceChanged | QualityChanged | SequenceNotIncreasing
    | SourceTimeRegressed | PublicationTimeRegressed

  /** The frame fields the next frame is checked against. */
  datatype Chronology = Chronology(sequence: int, source: nat, quality: nat, sourceAt: real, publishedAt: real)

  datatype Engine = Engine(
    autoJoin: bool, samples: nat, last: map<Name, real>, latched: set<Name>, zone: Zone, previousAt: real,
    chronology: Option<Chronology>, fault: Option<Fault>, hands: Option<Hold>, arms: Option<Hold>, joined: bool, release: bool)

  const ACTION_COOLDOWN := 650.0
  const BASELINE_SAMPLES := 24

  function Threshold(name: Name): real {
    match name
    case PlayerJoin => 450.0
    case MenuSelect => 450.0
    case MenuBack => 650.0
    case Pause => 1100.0
    case _ => 0.0
  }

  function Initial(autoJoin: bool): Engine {
    Engine(autoJoin, 0, map[], {}, Rest, 0.0, None, None, None, None, false, false)
  }

  // ---- Triggers and holds ----

  predicate Cooled(last: map<Name, real>, name: Name, now: real) { name in last ==> now - last[name] >= ACTION_COOLDOWN }

  function Since(start: real, now: real): real { if now - start > 0.0 then now - start else 0.0 }

  function Terminal(h: Hold, now: real): Action {
    Action(h.name, if h.triggered then Ended else Cancelled, now, Since(h.startedAt, now))
  }

  datatype HoldUpdate = HoldUpdate(hold: Option<Hold>, last: map<Name, real>, actions: seq<Action>, triggered: bool)

  /** A hold of another name ends first where a change of name restarts it. */
  function AdvanceHold(last: map<Name, real>, hold: Option<Hold>, active: bool, requested: Name, threshold: real, now: real,
                       restart: bool): HoldUpdate {
    if restart && hold.Some? && hold.value.name != requested then
      var u := Continue(last, None, active, requested, threshold, now);
      u.(actions := [Terminal(hold.value, now)] + u.actions)
    else Continue(last, hold, active, requested, threshold, now)
  }

  function Continue(last: map<Name, real>, hold: Option<Hold>, active: bool, requested: Name, threshold: real, now: real): HoldUpdate {
    if !active then
      HoldUpdate(None, last, if hold.Some? then [Terminal(hold.value, now)] else [], false)
    else if hold.None? then
      HoldUpdate(Some(Hold(requested, now, false)), last, [Action(requested, Started, now, 0.0)], false)
    else
      var h, duration := hold.value, Since(hold.value.startedAt, now);
      var held := Action(h.name, Held, now, duration);
      if !h.triggered && duration >= threshold && Cooled(last, h.name, now) then
        HoldUpdate(Some(h.(triggered := true)), last[h.name := now], [held, Action(h.name, Triggered, now, duration)], true)
      else HoldUpdate(hold, last, [held], false)
  }

  // ---- Latches ----

  datatype Latches = Latches(latched: set<Name>, last: map<Name, real>, actions: seq<Action>)

  function UpdateDiscrete(l: Latches, name: Name, active: bool, now: real): Latches {
    if !active then l.(latched := l.latched - {name})
    else if name in l.latched then l
    else if Cooled(l.last, name, now) then
      Latches(l.latched + {name}, l.last[name := now], l.actions + [Action(name, Triggered, now, 0.0)])
    else l.(latched := l.latched + {name})
  }

  function Reads(l: Latches, name: Name, r: Reading): bool { if name in l.latched then r.kept else r.entered }

  function Movements(l: Latches, p: Posture, enabled: bool, now: real): Latches {
    var a := UpdateDiscrete(l, DodgeLeft, enabled && Reads(l, DodgeLeft, p.dodgeLeft), now);
    var b := UpdateDiscrete(a, DodgeRight, enabled && Reads(a, DodgeRight, p.dodgeRight), now);
    var c := UpdateDiscrete(b, Duck, enabled && Reads(b, Duck, p.duck), now);
    UpdateDiscrete(c, Jump, enabled && Reads(c, Jump, p.jump), now)
  }

  /** A swipe is the step out of the home zone into one of the four directions. */
  function Swipes(l: Latches, leftHome: bool, zone: Zone, now: real): Latches {
    var a := UpdateDiscrete(l, SwipeLeft, leftHome && zone == Left, now);
    var b := UpdateDiscrete(a, SwipeRight, leftHome && zone == Right, now);
    var c := UpdateDiscrete(b, SwipeUp, leftHome && zone == Up, now);
    UpdateDiscrete(c, SwipeDown, leftHome && zone == Down, now)
  }

  // ---- One frame ----

  function HandsName(e: Engine): Name { if e.joined then MenuSelect else PlayerJoin }

  function ArmsName(context: Context): Name { if context == Game then Pause else MenuBack }

  function Released(e: Engine, p: Posture): bool { e.release && p.together != Some(false) }

  function HandsUpdate(e: Engine, p: Posture, now: real, context: Context): HoldUpdate {
    var active := p.together == Some(true) && context != Game && (e.joined || !Released(e, p));
    AdvanceHold(e.last, e.hands, active, HandsName(e), Threshold(HandsName(e)), now, false)
  }

  /** Arms that cannot be seen end the hold under its own name. */
  function ArmsUpdate(last: map<Name, real>, arms: Option<Hold>, p: Posture, now: real, context: Context): HoldUpdate {
    var name := if p.crossed.None? && arms.Some? then arms.value.name else ArmsName(context);
    AdvanceHold(last, arms, p.crossed == Some(true), name, Threshold(name), now, true)
  }

  predicate SwipesRead(previousAt: real, joined: bool, p: Posture, context: Context) {
    joined && context != Game && p.handsSeen && previousAt > 0.0
  }

  function ZoneSeen(previous: Zone, read: bool, p: Posture): Zone {
    if !read then Rest else if previous != Home && previous != Rest then p.heldZone else p.freeZone
  }

  function Recognize(e: Engine, p: Posture, now: real, context: Context): (Engine, seq<Action>) {
    var hands := HandsUpdate(e, p, now, context);
    var joined := e.joined || (hands.triggered && HandsName(e) == PlayerJoin && e.autoJoin);
    var arms := ArmsUpdate(hands.last, e.arms, p, now, context);
    var moved := Movements(Latches(e.latched, arms.last, hands.actions + arms.actions), p,
                           joined && e.samples >= BASELINE_SAMPLES && context == Game, now);
    var read := SwipesRead(e.previousAt, joined, p, context);
    var zone := ZoneSeen(e.zone, read, p);
    var swiped := Swipes(moved, e.zone == Home && zone != Home && read, zone, now);
    (e.(hands := hands.hold, arms := arms.hold, joined := joined, release := Released(e, p), latched := swiped.latched,
        last := swiped.last, zone := zone),
     swiped.actions)
  }

  function ResetGestures(e: Engine): Engine { e.(hands := None, arms := None, zone := Rest, previousAt := 0.0, latched := {}) }

  function ResetRecognition(e: Engine): Engine {
    ResetGestures(e).(samples := 0, last := map[], joined := false, release := false)
  }

  predicate InOrder(f: Frame) {
    && f.sourceAt.Finite? && f.startedAt.Finite? && f.completedAt.Finite? && f.publishedAt.Finite?
    && f.sourceAt.ms <= f.startedAt.ms <= f.completedAt.ms <= f.publishedAt.ms
  }

  function FaultOf(c: Option<Chronology>, f: Frame): Option<Fault> {
    if f.sequence.None? || f.sequence.value < 0 then Some(SequenceInvalid)
    else if !InOrder(f) then Some(TimestampOrderInvalid)
    else if c.Some? && f.source != c.value.source then Some(SourceChanged)
    else if c.Some? && f.quality != c.value.quality then Some(QualityChanged)
    else if c.Some? && f.sequence.value <= c.value.sequence then Some(SequenceNotIncreasing)
    else if c.Some? && f.sourceAt.ms < c.value.sourceAt then Some(SourceTimeRegressed)
    else if c.Some? && f.publishedAt.ms < c.value.publishedAt then Some(PublicationTimeRegressed)
    else None
  }

  function Recorded(f: Frame): Chronology
    requires f.sequence.Some? && InOrder(f)
  {
    Chronology(f.sequence.value, f.source, f.quality, f.sourceAt.ms, f.publishedAt.ms)
  }

  function Sampled(e: Engine, p: Posture): Engine {
    if p.sample && e.samples < BASELINE_SAMPLES then e.(samples := e.samples + 1) else e
  }

  /** The engine after a frame, and the actions of the first player. */
  function Enrich(e: Engine, f: Frame, context: Context): (Engine, seq<Action>) {
    if e.fault.Some? then (e, [])
    else if FaultOf(e.chronology, f).Some? then (ResetRecognition(e).(fault := FaultOf(e.chronology, f)), [])
    else
      var c := e.(chronology := Some(Recorded(f)));
      if !f.ready || f.player.None? then (ResetGestures(c), [])
      else
        var r := Recognize(Sampled(c, f.player.value), f.player.value, f.publishedAt.ms, context);
        (r.0.(previousAt := f.publishedAt.ms), r.1)
  }

  function Join(e: Engine): Engine { e.(joined := true, release := false) }

  function Leave(e: Engine): Engine { ResetRecognition(e).(release := true) }

  function Suspend(e: Engine): Engine { ResetGestures(e) }

  function Reset(e: Engine): Engine { ResetRecognition(e).(chronology := None, fault := None) }
}
