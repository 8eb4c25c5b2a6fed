/** The gesture engine as the source keeps it: hold states, latches and cooldowns updated frame by frame. */
module GestureEngine {
  import opened Options
  import opened ActionEngine
  import ActionRuns

  class GestureEngine {
    const autoJoin: bool
    var baselineSamples: nat
    var lastTriggeredAt: map<Name, real>
    var latchedActions: set<Name>
    var handZone: Zone
    var previousAt: real
    var chronology: Option<Chronology>
    var chronologyFault: Option<Fault>
    var handsHold: Option<Hold>
    var armsHold: Option<Hold>
    var joined: bool
    var joinRequiresRelease: bool

    function State(): Engine
      reads this
    {
      Engine(autoJoin, baselineSamples, lastTriggeredAt, latchedActions, handZone, previousAt, chronology, chronologyFault,
             handsHold, armsHold, joined, joinRequiresRelease)
    }

    /** The hands' hold and the arms' hold carry names of their own family. */
    ghost predicate Valid()
      reads this
    {
      ActionRuns.HoldsNamed(State())
    }

    constructor (autoJoin: bool)
      ensures Valid() && State() == Initial(autoJoin)
    {
      this.autoJoin := autoJoin;
      baselineSamples, lastTriggeredAt, latchedActions, handZone, previousAt := 0, map[], {}, Rest, 0.0;
      chronology, chronologyFault, handsHold, armsHold, joined, joinRequiresRelease := None, None, None, None, false, false;
    }

    method Enrich(frame: Frame, context: Context) returns (actions: seq<Action>)
      requires Valid()
      modifies this
      ensures Valid() && (State(), actions) == ActionEngine.Enrich(old(State()), frame, context)
    {
      hide ActionRuns.HoldsNamed, ActionEngine.Enrich;
      ActionRuns.EnrichNamed(State(), frame, context);
      actions := ProcessFrame(frame, context);
    }

    /** Checks the chronology, then reads the frame. */
    method ProcessFrame(frame: Frame, context: Context) returns (actions: seq<Action>)
      modifies this
      ensures (State(), actions) == ActionEngine.Enrich(old(State()), frame, context)
    {
      hide ActionEngine.Recognize, FaultOf, ResetRecognition, ResetGestures;
      FaultFree(chronology, frame);
      if chronologyFault.Some? {
        return [];
      }
      var fault := FaultOf(chronology, frame);
      if fault.Some? {
        ResetRecognitionState();
        chronologyFault := fault;
        return [];
      }
      chronology := Some(Recorded(frame));
      if !frame.ready || frame.player.None? {
        ResetGestureContinuity();
        return [];
      }
      var posture := frame.player.value;
      if posture.sample && baselineSamples < BASELINE_SAMPLES {
        baselineSamples := baselineSamples + 1;
      }
      actions := Recognize(posture, frame.publishedAt.ms, context);
      previousAt := frame.publishedAt.ms;
    }

    method Join()
      requires Valid()
      modifies this
      ensures Valid() && State() == ActionEngine.Join(old(State()))
    {
      ActionRuns.NextNamed(State(), ActionRuns.Joining);
      joined := true;
      joinRequiresRelease := false;
    }

    method Leave()
      requires Valid()
      modifies this
      ensures Valid() && State() == ActionEngine.Leave(old(State()))
    {
      ActionRuns.NextNamed(State(), ActionRuns.Leaving);
      ResetRecognitionState();
      joinRequiresRelease := true;
    }

    method Suspend()
      requires Valid()
      modifies this
      ensures Valid() && State() == ActionEngine.Suspend(old(State()))
    {
      ActionRuns.NextNamed(State(), ActionRuns.Suspending);
      ResetGestureContinuity();
    }

    method Reset()
      requires Valid()
      modifies this
      ensures Valid() && State() == ActionEngine.Reset(old(State()))
    {
      ActionRuns.NextNamed(State(), ActionRuns.Resetting);
      ResetRecognitionState();
      chronology := None;
      chronologyFault := None;
    }

    method ResetRecognitionState()
      modifies this
      ensures State() == ResetRecognition(old(State()))
    {
      baselineSamples := 0;
      lastTriggeredAt := map[];
      ResetGestureContinuity();
      joined := false;
      joinRequiresRelease := false;
    }

    method ResetGestureContinuity()
      modifies this
      ensures State() == ResetGestures(old(State()))
    {
      handsHold := None;
      armsHold := None;
      handZone := Rest;
      previousAt := 0.0;
      latchedActions := {};
    }

    method Trigger(name: Name, now: real) returns (triggered: bool)
      modifies this`lastTriggeredAt
      ensures triggered == Cooled(old(lastTriggeredAt), name, now)
      ensures lastTriggeredAt == if triggered then old(lastTriggeredAt)[name := now] else old(lastTriggeredAt)
    {
      if name in lastTriggeredAt && now - lastTriggeredAt[name] < ACTION_COOLDOWN {
        return false;
      }
      lastTriggeredAt := lastTriggeredAt[name := now];
      triggered := true;
    }

    method AdvanceHold(current: Option<Hold>, active: bool, requested: Name, threshold: real, now: real, restartOnNameChange: bool)
      returns (hold: Option<Hold>, actions: seq<Action>, triggered: bool)
      modifies this`lastTriggeredAt
      ensures HoldUpdate(hold, lastTriggeredAt, actions, triggered)
           == ActionEngine.AdvanceHold(old(lastTriggeredAt), current, active, requested, threshold, now, restartOnNameChange)
    {
      hold, actions, triggered := current, [], false;
      if hold.Some? && hold.value.name != requested && restartOnNameChange {
        actions := [Terminal(hold.value, now)];
        hold := None;
      }
      if !active {
        if hold.Some? {
          actions := actions + [Terminal(hold.value, now)];
        }
        return None, actions, false;
      }
      if hold.None? {
        return Some(Hold(requested, now, false)), actions + [Action(requested, Started, now, 0.0)], false;
      }
      var state := hold.value;
      var duration := Since(state.startedAt, now);
      actions := actions + [Action(state.name, Held, now, duration)];
      if !state.triggered && duration >= threshold {
        triggered := Trigger(state.name, now);
        if triggered {
          hold := Some(state.(triggered := true));
          actions := actions + [Action(state.name, Triggered, now, duration)];
        }
      }
    }

    method UpdateDiscrete(name: Name, active: bool, now: real, before: seq<Action>) returns (actions: seq<Action>)
      modifies this`latchedActions, this`lastTriggeredAt
      ensures Latches(latchedActions, lastTriggeredAt, actions)
           == ActionEngine.UpdateDiscrete(Latches(old(latchedActions), old(lastTriggeredAt), before), name, active, now)
    {
      actions := before;
      if !active {
        latchedActions := latchedActions - {name};
        return;
      }
      if name in latchedActions {
        return;
      }
      latchedActions := latchedActions + {name};
      var triggered := Trigger(name, now);
      if triggered {
        actions := actions + [Action(name, Triggered, now, 0.0)];
      }
    }

    method Recognize(p: Posture, now: real, context: Context) returns (actions: seq<Action>)
      modifies this
      ensures (State(), actions) == ActionEngine.Recognize(old(State()), p, now, context)
    {
      hide HandsUpdate, ArmsUpdate, Movements, Swipes, ZoneSeen, SwipesRead, Released, HandsName;
      actions := RecognizeHolds(p, now, context);
      actions := RecognizeMovements(p, joined && baselineSamples >= BASELINE_SAMPLES && context == Game, now, actions);
      var zone, leftHome := ReadZone(p, context);
      actions := RecognizeSwipes(leftHome, zone, now, actions);
    }

    method RecognizeHolds(p: Posture, now: real, context: Context) returns (actions: seq<Action>)
      modifies this
      ensures var e := old(State());
              var u := HandsUpdate(e, p, now, context);
              var w := ArmsUpdate(u.last, e.arms, p, now, context);
              && actions == u.actions + w.actions
              && State() == e.(hands := u.hold, arms := w.hold, last := w.last, release := Released(e, p),
                               joined := e.joined || (u.triggered && HandsName(e) == PlayerJoin && e.autoJoin))
    {
      hide HandsUpdate, ArmsUpdate, Released, HandsName;
      var handsActions := RecognizeHands(p, now, context);
      var armsActions := RecognizeArms(p, now, context);
      actions := handsActions + armsActions;
    }

    method ReadZone(p: Posture, context: Context) returns (zone: Zone, leftHome: bool)
      modifies this`handZone
      ensures handZone == zone == ZoneSeen(old(handZone), SwipesRead(previousAt, joined, p, context), p)
      ensures leftHome == (old(handZone) == Home && zone != Home && SwipesRead(previousAt, joined, p, context))
    {
      zone, leftHome := Rest, false;
      if joined && context != Game && p.handsSeen && previousAt > 0.0 {
        zone := if handZone != Home && handZone != Rest then p.heldZone else p.freeZone;
        leftHome := handZone == Home && zone != Home;
      }
      handZone := zone;
    }

    method RecognizeHands(p: Posture, now: real, context: Context) returns (actions: seq<Action>)
      modifies this
      ensures var e := old(State());
              var u := HandsUpdate(e, p, now, context);
              && actions == u.actions
              && State() == e.(hands := u.hold, last := u.last, release := Released(e, p),
                               joined := e.joined || (u.triggered && HandsName(e) == PlayerJoin && e.autoJoin))
    {
      hide ActionEngine.AdvanceHold;
      if p.together == Some(false) && joinRequiresRelease {
        joinRequiresRelease := false;
      }
      var name := if joined then MenuSelect else PlayerJoin;
      var active := p.together == Some(true) && context != Game && (joined || !joinRequiresRelease);
      var triggered;
      handsHold, actions, triggered := AdvanceHold(handsHold, active, name, Threshold(name), now, false);
      if triggered && name == PlayerJoin && autoJoin {
        joined := true;
      }
    }

    method RecognizeArms(p: Posture, now: real, context: Context) returns (actions: seq<Action>)
      modifies this
      ensures var u := ArmsUpdate(old(lastTriggeredAt), old(armsHold), p, now, context);
              actions == u.actions && State() == old(State()).(arms := u.hold, last := u.last)
    {
      hide ActionEngine.AdvanceHold;
      var name := if context == Game then Pause else MenuBack;
      if p.crossed.None? && armsHold.Some? {
        name := armsHold.value.name;
      }
      var triggered;
      armsHold, actions, triggered := AdvanceHold(armsHold, p.crossed == Some(true), name, Threshold(name), now, true);
    }

    method RecognizeMovements(p: Posture, enabled: bool, now: real, before: seq<Action>) returns (actions: seq<Action>)
      modifies this`latchedActions, this`lastTriggeredAt
      ensures Latches(latchedActions, lastTriggeredAt, actions)
           == Movements(Latches(old(latchedActions), old(lastTriggeredAt), before), p, enabled, now)
    {
      hide ActionEngine.UpdateDiscrete;
      actions := UpdateDiscrete(DodgeLeft, enabled && Holds(DodgeLeft, p.dodgeLeft), now, before);
      actions := UpdateDiscrete(DodgeRight, enabled && Holds(DodgeRight, p.dodgeRight), now, actions);
      actions := UpdateDiscrete(Duck, enabled && Holds(Duck, p.duck), now, actions);
      actions := UpdateDiscrete(Jump, enabled && Holds(Jump, p.jump), now, actions);
    }

    function Holds(name: Name, r: Reading): bool
      reads this
    {
      if name in latchedActions then r.kept else r.entered
    }

    method RecognizeSwipes(leftHome: bool, zone: Zone, now: real, before: seq<Action>) returns (actions: seq<Action>)
      modifies this`latchedActions, this`lastTriggeredAt
      ensures Latches(latchedActions, lastTriggeredAt, actions)
           == Swipes(Latches(old(latchedActions), old(lastTriggeredAt), before), leftHome, zone, now)
    {
      hide ActionEngine.UpdateDiscrete;
      actions := UpdateDiscrete(SwipeLeft, leftHome && zone == Left, now, before);
      actions := UpdateDiscrete(SwipeRight, leftHome && zone == Right, now, actions);
      actions := UpdateDiscrete(SwipeUp, leftHome && zone == Up, now, actions);
      actions := UpdateDiscrete(SwipeDown, leftHome && zone == Down, now, actions);
    }
  }

  /** A frame without fault has what the chronology records. */
  lemma FaultFree(c: Option<Chronology>, frame: Frame)
    ensures FaultOf(c, frame).None? ==> frame.sequence.Some? && InOrder(frame)
  {
  }
}
