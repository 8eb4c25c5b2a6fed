/** When each gesture fires, in terms of what a frame shows and what went before. */
module ActionOutcomes {
  import opened Options
  import PlayerSession
  import opened ActionEngine
  import opened ActionRuns

  /** The frame triggers the gesture. */
  predicate Fires(actions: seq<Action>, name: Name) {
    exists i :: 0 <= i < |actions| && actions[i].name == name && actions[i].phase == Triggered
  }

  /** The gesture has not fired for 650 milliseconds. */
  predicate Due(last: map<Name, real>, name: Name, now: real) { name in last ==> now >= last[name] + 650.0 }

  // ---- Latches ----

  /** Nothing has happened to the gesture. */
  predicate Untouched(l: Latches, u: Latches, n: Name) {
    && (n in u.latched <==> n in l.latched) && (Fires(u.actions, n) <==> Fires(l.actions, n))
    && (n in u.last <==> n in l.last) && (n in u.last ==> u.last[n] == l.last[n])
  }

  /** A gesture that is newly read fires if it is due. */
  predicate Latched(l: Latches, u: Latches, n: Name, kept: bool, entered: bool, now: real) {
    && (n in u.latched <==> if n in l.latched then kept else entered)
    && (Fires(u.actions, n) <==> Fires(l.actions, n) || (entered && n !in l.latched && Due(l.last, n, now)))
  }

  lemma FiresMore(actions: seq<Action>, a: Action, n: Name)
    ensures Fires(actions + [a], n) <==> Fires(actions, n) || (a.name == n && a.phase == Triggered)
  {
    var more := actions + [a];
    if Fires(actions, n) {
      var i :| 0 <= i < |actions| && actions[i].name == n && actions[i].phase == Triggered;
      assert more[i] == actions[i];
    }
    if a.name == n && a.phase == Triggered { assert more[|actions|] == a; }
    if Fires(more, n) {
      var i :| 0 <= i < |more| && more[i].name == n && more[i].phase == Triggered;
      if i < |actions| { assert actions[i] == more[i]; }
    }
  }

  lemma OneLatch(l: Latches, name: Name, kept: bool, entered: bool, now: real, n: Name)
    ensures var u := UpdateDiscrete(l, name, if name in l.latched then kept else entered, now);
            if n == name then Latched(l, u, n, kept, entered, now) else Untouched(l, u, n)
  {
    FiresMore(l.actions, Action(name, Triggered, now, 0.0), n);
    hide Fires;
  }

  /** The first step, or the second, is the gesture's own. */
  lemma StepsJoin(l: Latches, a: Latches, u: Latches, n: Name, kept: bool, entered: bool, now: real)
    ensures Untouched(l, a, n) && Untouched(a, u, n) ==> Untouched(l, u, n)
    ensures Latched(l, a, n, kept, entered, now) && Untouched(a, u, n) ==> Latched(l, u, n, kept, entered, now)
    ensures Untouched(l, a, n) && Latched(a, u, n, kept, entered, now) ==> Latched(l, u, n, kept, entered, now)
  {
    hide Fires;
  }

  function ReadingOf(p: Posture, name: Name): Reading {
    match name
    case DodgeLeft => p.dodgeLeft
    case DodgeRight => p.dodgeRight
    case Duck => p.duck
    case _ => p.jump
  }

  predicate IsMovement(name: Name) { name == DodgeLeft || name == DodgeRight || name == Duck || name == Jump }

  lemma MovementsLatch(l: Latches, p: Posture, enabled: bool, now: real, n: Name)
    ensures var u := Movements(l, p, enabled, now);
            if IsMovement(n) then Latched(l, u, n, enabled && ReadingOf(p, n).kept, enabled && ReadingOf(p, n).entered, now)
            else Untouched(l, u, n)
  {
    hide UpdateDiscrete, Untouched, Latched;
    var kept, entered := enabled && ReadingOf(p, n).kept, enabled && ReadingOf(p, n).entered;
    OneLatch(l, DodgeLeft, enabled && p.dodgeLeft.kept, enabled && p.dodgeLeft.entered, now, n);
    var a := UpdateDiscrete(l, DodgeLeft, enabled && Reads(l, DodgeLeft, p.dodgeLeft), now);
    OneLatch(a, DodgeRight, enabled && p.dodgeRight.kept, enabled && p.dodgeRight.entered, now, n);
    var b := UpdateDiscrete(a, DodgeRight, enabled && Reads(a, DodgeRight, p.dodgeRight), now);
    StepsJoin(l, a, b, n, kept, entered, now);
    OneLatch(b, Duck, enabled && p.duck.kept, enabled && p.duck.entered, now, n);
    var c := UpdateDiscrete(b, Duck, enabled && Reads(b, Duck, p.duck), now);
    StepsJoin(l, b, c, n, kept, entered, now);
    OneLatch(c, Jump, enabled && p.jump.kept, enabled && p.jump.entered, now, n);
    StepsJoin(l, c, UpdateDiscrete(c, Jump, enabled && Reads(c, Jump, p.jump), now), n, kept, entered, now);
  }

  /** The zone a swipe goes to. */
  function ZoneOf(name: Name): Zone {
    match name
    case SwipeLeft => Left
    case SwipeRight => Right
    case SwipeUp => Up
    case _ => Down
  }

  lemma SwipesLatch(l: Latches, leftHome: bool, zone: Zone, now: real, n: Name)
    ensures var u := Swipes(l, leftHome, zone, now);
            if IsSwipe(n) then Latched(l, u, n, leftHome && zone == ZoneOf(n), leftHome && zone == ZoneOf(n), now)
            else Untouched(l, u, n)
  {
    hide UpdateDiscrete, Untouched, Latched;
    var enters := leftHome && zone == ZoneOf(n);
    OneLatch(l, SwipeLeft, leftHome && zone == Left, leftHome && zone == Left, now, n);
    var a := UpdateDiscrete(l, SwipeLeft, leftHome && zone == Left, now);
    OneLatch(a, SwipeRight, leftHome && zone == Right, leftHome && zone == Right, now, n);
    var b := UpdateDiscrete(a, SwipeRight, leftHome && zone == Right, now);
    StepsJoin(l, a, b, n, enters, enters, now);
    OneLatch(b, SwipeUp, leftHome && zone == Up, leftHome && zone == Up, now, n);
    var c := UpdateDiscrete(b, SwipeUp, leftHome && zone == Up, now);
    StepsJoin(l, b, c, n, enters, enters, now);
    OneLatch(c, SwipeDown, leftHome && zone == Down, leftHome && zone == Down, now, n);
    StepsJoin(l, c, UpdateDiscrete(c, SwipeDown, leftHome && zone == Down, now), n, enters, enters, now);
  }

  // ---- Holds ----

  /** A hold that goes on: the same one, which triggers once it has lasted and is due. */
  predicate GoesOn(h: Hold, u: HoldUpdate, last: map<Name, real>, limit: real, now: real) {
    var fires := !h.triggered && now - h.startedAt >= limit && Due(last, h.name, now);
    && u.hold == Some(Hold(h.name, h.startedAt, h.triggered || fires)) && u.triggered == fires
    && (Fires(u.actions, h.name) <==> fires) && (forall n :: n != h.name ==> !Fires(u.actions, n))
  }

  lemma FiresAmong(a: Action, b: Action, n: Name)
    ensures Fires([a, b], n) <==> (a.name == n && a.phase == Triggered) || (b.name == n && b.phase == Triggered)
    ensures Fires([a], n) <==> a.name == n && a.phase == Triggered
    ensures !Fires([], n)
  {
    FiresMore([], a, n);
    FiresMore([a], b, n);
    assert [] + [a] == [a] && [a] + [b] == [a, b];
  }

  lemma HoldMeans(last: map<Name, real>, hold: Option<Hold>, active: bool, requested: Name, limit: real, now: real, restart: bool)
    requires limit > 0.0
    ensures var u := AdvanceHold(last, hold, active, requested, limit, now, restart);
            && (u.hold.Some? <==> active)
            && (active && hold.Some? && (!restart || hold.value.name == requested) ==> GoesOn(hold.value, u, last, limit, now))
            && (active && (hold.None? || (restart && hold.value.name != requested)) ==>
                  u.hold == Some(Hold(requested, now, false)) && !u.triggered && forall n :: !Fires(u.actions, n))
            && (!active ==> !u.triggered && forall n :: !Fires(u.actions, n))
            && (forall n :: !(hold.Some? && n == hold.value.name) ==> (n in u.last <==> n in last) && (n in last ==> u.last[n] == last[n]))
  {
    var u := AdvanceHold(last, hold, active, requested, limit, now, restart);
    forall n ensures Fires(u.actions, n) <==> (u.triggered && hold.Some? && n == hold.value.name) {
      if |u.actions| == 2 { assert u.actions == [u.actions[0], u.actions[1]]; FiresAmong(u.actions[0], u.actions[1], n); }
      if |u.actions| == 1 { assert u.actions == [u.actions[0]]; FiresAmong(u.actions[0], u.actions[0], n); }
    }
    hide Fires;
  }

  /** How long each hold takes. */
  lemma HoldTimes()
    ensures Threshold(PlayerJoin) == Threshold(MenuSelect) == 450.0 && Threshold(MenuBack) == 650.0 && Threshold(Pause) == 1100.0
  {
  }

  // ---- One frame ----

  lemma FiresBoth(a: seq<Action>, b: seq<Action>, n: Name)
    ensures Fires(a + b, n) <==> Fires(a, n) || Fires(b, n)
  {
    var all := a + b;
    if Fires(a, n) {
      var i :| 0 <= i < |a| && a[i].name == n && a[i].phase == Triggered;
      assert all[i] == a[i];
    }
    if Fires(b, n) {
      var i :| 0 <= i < |b| && b[i].name == n && b[i].phase == Triggered;
      assert all[|a| + i] == b[i];
    }
    if Fires(all, n) {
      var i :| 0 <= i < |all| && all[i].name == n && all[i].phase == Triggered;
      if i < |a| { assert a[i] == all[i]; } else { assert b[i - |a|] == all[i]; }
    }
  }

  /** The hands are held together where that means something, and have been apart since the player left. */
  predicate HandsHeld(e: Engine, p: Posture, context: Context) {
    p.together == Some(true) && context != Game && (e.joined || !e.release)
  }

  /** What holding the hands together asks for. */
  function HandsAsk(e: Engine): Name { if e.joined then MenuSelect else PlayerJoin }

  function ArmsAsk(context: Context): Name { if context == Game then Pause else MenuBack }

  function HoldTime(name: Name): real { match name case MenuBack => 650.0 case Pause => 1100.0 case _ => 450.0 }

  /** The hold is about to take effect. */
  predicate Completes(hold: Option<Hold>, last: map<Name, real>, limit: real, now: real) {
    hold.Some? && !hold.value.triggered && now - hold.value.startedAt >= limit && Due(last, hold.value.name, now)
  }

  /** The hold that goes on, or a new one. */
  predicate Holds(before: Option<Hold>, after: Option<Hold>, held: bool, name: Name, restart: bool, completes: bool, now: real) {
    if !held then after.None?
    else if before.Some? && (!restart || before.value.name == name) then
      after == Some(Hold(before.value.name, before.value.startedAt, before.value.triggered || completes))
    else after == Some(Hold(name, now, false))
  }

  /** The hands take effect. */
  predicate Joins(e: Engine, p: Posture, now: real, context: Context) {
    HandsHeld(e, p, context) && Completes(e.hands, e.last, 450.0, now)
  }

  /** The arms take effect. */
  predicate Backs(last: map<Name, real>, arms: Option<Hold>, p: Posture, now: real, context: Context) {
    && p.crossed == Some(true) && arms.Some? && arms.value.name == ArmsAsk(context)
    && Completes(arms, last, HoldTime(ArmsAsk(context)), now)
  }

  lemma HandsMean(e: Engine, p: Posture, now: real, context: Context)
    requires HoldsNamed(e)
    ensures var u := HandsUpdate(e, p, now, context);
            && Holds(e.hands, u.hold, HandsHeld(e, p, context), HandsAsk(e), false, Joins(e, p, now, context), now)
            && u.triggered == Joins(e, p, now, context) && (Joins(e, p, now, context) ==> e.hands.Some?)
            && (forall n :: Fires(u.actions, n) <==> Joins(e, p, now, context) && n == e.hands.value.name)
            && (forall n :: !InHands(n) ==> (n in u.last <==> n in e.last) && (n in e.last ==> u.last[n] == e.last[n]))
  {
    hide AdvanceHold, Fires;
    HoldTimes();
    HoldMeans(e.last, e.hands, HandsHeld(e, p, context), HandsName(e), Threshold(HandsName(e)), now, false);
  }

  /** Arms that cannot be seen keep the name of their hold to its end. */
  lemma ArmsMean(last: map<Name, real>, arms: Option<Hold>, p: Posture, now: real, context: Context)
    requires arms.Some? ==> InArms(arms.value.name)
    ensures var u := ArmsUpdate(last, arms, p, now, context);
            && Holds(arms, u.hold, p.crossed == Some(true), ArmsAsk(context), true, Backs(last, arms, p, now, context), now)
            && (forall n :: Fires(u.actions, n) <==> Backs(last, arms, p, now, context) && n == ArmsAsk(context))
            && (forall n :: !InArms(n) ==> (n in u.last <==> n in last) && (n in last ==> u.last[n] == last[n]))
  {
    hide AdvanceHold, Fires;
    HoldTimes();
    var name := if p.crossed.None? && arms.Some? then arms.value.name else ArmsName(context);
    HoldMeans(last, arms, p.crossed == Some(true), name, Threshold(name), now, true);
  }

  /** Hands held together in a menu can be read for swipes. */
  predicate SwipesOn(e: Engine, joined: bool, p: Posture, context: Context) {
    joined && context != Game && p.handsSeen && e.previousAt > 0.0
  }

  /** The zone the hand is in: a free reading from home or rest, a steadier one from a direction. */
  function ZoneNow(e: Engine, on: bool, p: Posture): Zone {
    if !on then Rest else if e.zone == Home || e.zone == Rest then p.freeZone else p.heldZone
  }

  predicate HoldsMean(e: Engine, p: Posture, now: real, context: Context, f: Engine) {
    && Holds(e.hands, f.hands, HandsHeld(e, p, context), HandsAsk(e), false, Joins(e, p, now, context), now)
    && Holds(e.arms, f.arms, p.crossed == Some(true), ArmsAsk(context), true, Backs(e.last, e.arms, p, now, context), now)
    && (f.joined <==> e.joined || (Joins(e, p, now, context) && e.autoJoin))
    && (f.release <==> e.release && p.together != Some(false))
    && f.zone == ZoneNow(e, SwipesOn(e, f.joined, p, context), p)
  }

  predicate NameMeans(e: Engine, p: Posture, now: real, context: Context, f: Engine, actions: seq<Action>, n: Name) {
    if InHands(n) then Fires(actions, n) <==> Joins(e, p, now, context) && n == e.hands.value.name
    else if InArms(n) then Fires(actions, n) <==> Backs(e.last, e.arms, p, now, context) && n == ArmsAsk(context)
    else if IsMovement(n) then
      var on := f.joined && e.samples >= 24 && context == Game;
      && (Fires(actions, n) <==> on && ReadingOf(p, n).entered && n !in e.latched && Due(e.last, n, now))
      && (n in f.latched <==> on && if n in e.latched then ReadingOf(p, n).kept else ReadingOf(p, n).entered)
    else
      var enters := SwipesOn(e, f.joined, p, context) && e.zone == Home && f.zone == ZoneOf(n);
      (Fires(actions, n) <==> enters && n !in e.latched && Due(e.last, n, now)) && (n in f.latched <==> enters)
  }

  ghost predicate Recognizes(e: Engine, p: Posture, now: real, context: Context, f: Engine, actions: seq<Action>) {
    && HoldsMean(e, p, now, context, f) && (forall n :: NameMeans(e, p, now, context, f, actions, n))
    && f == e.(hands := f.hands, arms := f.arms, joined := f.joined, release := f.release, latched := f.latched, last := f.last, zone := f.zone)
  }

  /** The latches of a frame, after its holds. */
  function LatchesOf(e: Engine, p: Posture, now: real, context: Context): Latches {
    var hands := HandsUpdate(e, p, now, context);
    var arms := ArmsUpdate(hands.last, e.arms, p, now, context);
    Latches(e.latched, arms.last, hands.actions + arms.actions)
  }

  lemma FrameLatches(e: Engine, p: Posture, now: real, context: Context, n: Name)
    ensures var (f, actions) := Recognize(e, p, now, context);
            var l, u := LatchesOf(e, p, now, context), Latches(f.latched, f.last, actions);
            var moves := f.joined && e.samples >= 24 && context == Game;
            var swipes := SwipesOn(e, f.joined, p, context);
            var enters := swipes && e.zone == Home && f.zone == ZoneOf(n);
            && f.zone == ZoneNow(e, swipes, p)
            && (IsMovement(n) ==> Latched(l, u, n, moves && ReadingOf(p, n).kept, moves && ReadingOf(p, n).entered, now))
            && (IsSwipe(n) ==> Latched(l, u, n, enters, enters, now))
            && (!IsMovement(n) && !IsSwipe(n) ==> Untouched(l, u, n))
  {
    hide HandsUpdate, ArmsUpdate, Movements, Swipes, Untouched, Latched;
    var f := Recognize(e, p, now, context).0;
    var l := LatchesOf(e, p, now, context);
    var enabled := f.joined && e.samples >= BASELINE_SAMPLES && context == Game;
    var moved := Movements(l, p, enabled, now);
    var read := SwipesRead(e.previousAt, f.joined, p, context);
    var leftHome := e.zone == Home && f.zone != Home && read;
    MovementsLatch(l, p, enabled, now, n);
    SwipesLatch(moved, leftHome, f.zone, now, n);
    var u := Swipes(moved, leftHome, f.zone, now);
    StepsJoin(l, moved, u, n, enabled && ReadingOf(p, n).kept, enabled && ReadingOf(p, n).entered, now);
    StepsJoin(l, moved, u, n, leftHome && f.zone == ZoneOf(n), leftHome && f.zone == ZoneOf(n), now);
  }

  lemma FrameHolds(e: Engine, p: Posture, now: real, context: Context)
    requires HoldsNamed(e)
    ensures Joins(e, p, now, context) ==> e.hands.Some?
    ensures var f := Recognize(e, p, now, context).0;
            var l := LatchesOf(e, p, now, context);
            && Holds(e.hands, f.hands, HandsHeld(e, p, context), HandsAsk(e), false, Joins(e, p, now, context), now)
            && Holds(e.arms, f.arms, p.crossed == Some(true), ArmsAsk(context), true, Backs(e.last, e.arms, p, now, context), now)
            && (f.joined <==> e.joined || (Joins(e, p, now, context) && e.autoJoin))
            && (f.release <==> e.release && p.together != Some(false))
            && (forall n :: Fires(l.actions, n) <==>
                  (Joins(e, p, now, context) && n == e.hands.value.name) || (Backs(e.last, e.arms, p, now, context) && n == ArmsAsk(context)))
            && (forall n :: !InHands(n) && !InArms(n) ==> (n in l.last <==> n in e.last) && (n in e.last ==> l.last[n] == e.last[n]))
  {
    hide HandsUpdate, ArmsUpdate, Movements, Swipes, Fires, ZoneSeen, Holds, HandsHeld, Joins, Backs;
    var hands := HandsUpdate(e, p, now, context);
    var arms := ArmsUpdate(hands.last, e.arms, p, now, context);
    HandsMean(e, p, now, context);
    BacksSame(e.last, hands.last, e.arms, p, now, context);
    ArmsMean(hands.last, e.arms, p, now, context);
    forall n ensures Fires(hands.actions + arms.actions, n) <==> Fires(hands.actions, n) || Fires(arms.actions, n) {
      FiresBoth(hands.actions, arms.actions, n);
    }
  }

  lemma BacksSame(last: map<Name, real>, other: map<Name, real>, arms: Option<Hold>, p: Posture, now: real, context: Context)
    requires forall n :: !InHands(n) ==> (n in other <==> n in last) && (n in last ==> other[n] == last[n])
    requires arms.Some? ==> InArms(arms.value.name)
    ensures Backs(other, arms, p, now, context) == Backs(last, arms, p, now, context)
  {
  }

  lemma FrameName(e: Engine, p: Posture, now: real, context: Context, n: Name)
    requires HoldsNamed(e)
    ensures NameMeans(e, p, now, context, Recognize(e, p, now, context).0, Recognize(e, p, now, context).1, n)
  {
    hide Recognize, LatchesOf, Holds, HandsHeld, SwipesOn, ZoneNow, Fires;
    FrameHolds(e, p, now, context);
    FrameKeeps(e, p, now, context);
    FrameLatches(e, p, now, context, n);
  }

  /** Everything a frame can trigger, and exactly when. */
  lemma FrameMeans(e: Engine, p: Posture, now: real, context: Context)
    requires HoldsNamed(e)
    ensures Recognizes(e, p, now, context, Recognize(e, p, now, context).0, Recognize(e, p, now, context).1)
  {
    hide Recognize, Holds, HandsHeld, SwipesOn, ZoneNow, NameMeans, LatchesOf;
    FrameHolds(e, p, now, context);
    FrameKeeps(e, p, now, context);
    FrameLatches(e, p, now, context, SwipeLeft);
    forall n ensures NameMeans(e, p, now, context, Recognize(e, p, now, context).0, Recognize(e, p, now, context).1, n) {
      FrameName(e, p, now, context, n);
    }
  }

  lemma FrameKeeps(e: Engine, p: Posture, now: real, context: Context)
    ensures var f := Recognize(e, p, now, context).0;
            && f == e.(hands := f.hands, arms := f.arms, joined := f.joined, release := f.release, latched := f.latched, last := f.last, zone := f.zone)
            && LatchesOf(e, p, now, context).latched == e.latched
  {
    hide HandsUpdate, ArmsUpdate, Movements, Swipes, ZoneSeen;
  }

  // ---- Frames in order, and everything that starts afresh ----

  predicate TimesInOrder(f: Frame) {
    && f.sourceAt.Finite? && f.startedAt.Finite? && f.completedAt.Finite? && f.publishedAt.Finite?
    && f.sourceAt.ms <= f.startedAt.ms && f.startedAt.ms <= f.completedAt.ms && f.completedAt.ms <= f.publishedAt.ms
  }

  /** It follows the last accepted frame, from the same source in the same quality. */
  predicate Follows(c: Chronology, f: Frame)
    requires f.sequence.Some? && TimesInOrder(f)
  {
    && f.sequence.value > c.sequence && f.source == c.source && f.quality == c.quality
    && f.sourceAt.ms >= c.sourceAt && f.publishedAt.ms >= c.publishedAt
  }

  /** A frame is accepted exactly when it is in order, in itself and after the last one. */
  lemma AcceptedIff(e: Engine, f: Frame, context: Context)
    requires e.fault.None?
    ensures Enrich(e, f, context).0.fault.None? <==>
              && f.sequence.Some? && f.sequence.value >= 0 && TimesInOrder(f)
              && (e.chronology.Some? ==> Follows(e.chronology.value, f))
    ensures Enrich(e, f, context).0.fault.None? ==>
              Enrich(e, f, context).0.chronology
              == Some(Chronology(f.sequence.value, f.source, f.quality, f.sourceAt.ms, f.publishedAt.ms))
    ensures Enrich(e, f, context).0.fault.Some? ==> Enrich(e, f, context).1 == []
  {
    hide Recognize;
    if FaultOf(e.chronology, f).None? && f.player.Some? {
      KeepsChronology(Sampled(e.(chronology := Some(Recorded(f))), f.player.value), f.player.value, f.publishedAt.ms, context);
    }
  }

  lemma KeepsChronology(e: Engine, p: Posture, now: real, context: Context)
    ensures Recognize(e, p, now, context).0.chronology == e.chronology && Recognize(e, p, now, context).0.fault == e.fault
  {
    hide HandsUpdate, ArmsUpdate, Movements, Swipes, ZoneSeen;
  }

  /** No hold, no latch, no zone and no frame before. */
  predicate NoGestures(e: Engine) { e.hands.None? && e.arms.None? && e.zone == Rest && e.previousAt == 0.0 && e.latched == {} }

  predicate NothingLearnt(e: Engine) { NoGestures(e) && e.samples == 0 && e.last == map[] && !e.joined }

  /** An accepted frame without a player ends every gesture; one with a player is read, at the time it was published. */
  lemma AcceptedFrame(e: Engine, f: Frame, context: Context)
    requires e.fault.None? && Enrich(e, f, context).0.fault.None? && HoldsNamed(e)
    ensures var (t, actions) := Enrich(e, f, context);
            if !f.ready || f.player.None? then
              NoGestures(t) && actions == [] && t.samples == e.samples && t.last == e.last && t.joined == e.joined && t.release == e.release
            else
              && t.previousAt == f.publishedAt.ms && t.autoJoin == e.autoJoin
              && t.samples == (if f.player.value.sample && e.samples < 24 then e.samples + 1 else e.samples)
              && Recognizes(e.(chronology := t.chronology, samples := t.samples), f.player.value, f.publishedAt.ms, context,
                            t.(previousAt := e.previousAt), actions)
  {
    hide Recognize, Recognizes;
    if f.ready && f.player.Some? {
      var p := f.player.value;
      var c := Sampled(e.(chronology := Some(Recorded(f))), p);
      ReadFrame(e, f, context);
      hide Enrich, HoldsNamed;
      NamedStill(e, c);
      FrameMeans(c, p, f.publishedAt.ms, context);
      KeepsRest(c, p, f.publishedAt.ms, context);
    }
  }

  lemma ReadFrame(e: Engine, f: Frame, context: Context)
    requires e.fault.None? && Enrich(e, f, context).0.fault.None? && f.ready && f.player.Some?
    ensures var r := Recognize(Sampled(e.(chronology := Some(Recorded(f))), f.player.value), f.player.value, f.publishedAt.ms, context);
            Enrich(e, f, context) == (r.0.(previousAt := f.publishedAt.ms), r.1)
  {
    hide Recognize;
  }

  lemma NamedStill(e: Engine, c: Engine)
    requires HoldsNamed(e) && c.hands == e.hands && c.arms == e.arms && c.autoJoin == e.autoJoin
    ensures HoldsNamed(c)
  {
  }

  lemma KeepsRest(e: Engine, p: Posture, now: real, context: Context)
    ensures var t := Recognize(e, p, now, context).0;
            t.previousAt == e.previousAt && t.samples == e.samples && t.autoJoin == e.autoJoin && t.chronology == e.chronology
  {
    hide HandsUpdate, ArmsUpdate, Movements, Swipes, ZoneSeen;
  }

  /** Leaving and resetting forget what was learnt; leaving wants the hands apart before joining again, resetting accepts
      any frame; suspending only ends the gestures; joining from outside wants nothing. */
  lemma StartsAfresh(e: Engine)
    ensures NothingLearnt(Leave(e)) && Leave(e).release && Leave(e).chronology == e.chronology && Leave(e).fault == e.fault
    ensures NothingLearnt(Reset(e)) && !Reset(e).release && Reset(e).chronology.None? && Reset(e).fault.None?
    ensures NoGestures(Suspend(e)) && Suspend(e).joined == e.joined && Suspend(e).samples == e.samples && Suspend(e).last == e.last
            && Suspend(e).release == e.release && Suspend(e).chronology == e.chronology && Suspend(e).fault == e.fault
    ensures Join(e) == e.(joined := true, release := false)
    ensures forall auto :: NothingLearnt(Initial(auto)) && !Initial(auto).release && Initial(auto).chronology.None? && Initial(auto).fault.None?
  {
  }
}
