/** What the gesture engine keeps over every sequence of frames and commands. */
module ActionRuns {
  import opened Options
  import opened ActionEngine

  datatype Command =
    | Seeing(frame: Frame, context: Context)
    | Joining
    | Leaving
    | Suspending
    | Resetting

  /** What an observer sees: an action, the silent end of every hold, or the loss of all cooldowns. */
  datatype Event = Acted(action: Action) | Dropped | Cleared

  function Acts(actions: seq<Action>): (r: seq<Event>)
    ensures |r| == |actions| && forall i :: 0 <= i < |actions| ==> r[i] == Acted(actions[i])
  {
    if actions == [] then [] else Acts(actions[..|actions| - 1]) + [Acted(actions[|actions| - 1])]
  }

  function Next(e: Engine, command: Command): Engine {
    match command
    case Seeing(frame, context) => Enrich(e, frame, context).0
    case Joining => Join(e)
    case Leaving => Leave(e)
    case Suspending => Suspend(e)
    case Resetting => Reset(e)
  }

  function Events(e: Engine, command: Command): seq<Event> {
    match command
    case Seeing(frame, context) =>
      if e.fault.Some? then []
      else if FaultOf(e.chronology, frame).Some? then [Dropped, Cleared]
      else if !frame.ready || frame.player.None? then [Dropped]
      else Acts(Enrich(e, frame, context).1)
    case Joining => []
    case Leaving => [Dropped, Cleared]
    case Suspending => [Dropped]
    case Resetting => [Dropped, Cleared]
  }

  function After(autoJoin: bool, run: seq<Command>): Engine {
    if run == [] then Initial(autoJoin) else Next(After(autoJoin, run[..|run| - 1]), run[|run| - 1])
  }

  function Stream(autoJoin: bool, run: seq<Command>): seq<Event> {
    if run == [] then [] else
    Stream(autoJoin, run[..|run| - 1]) + Events(After(autoJoin, run[..|run| - 1]), run[|run| - 1])
  }

  // ---- The grammar of holds ----

  predicate InHands(name: Name) { name == PlayerJoin || name == MenuSelect }

  predicate InArms(name: Name) { name == MenuBack || name == Pause }

  predicate InFamily(hands: bool, name: Name) { if hands then InHands(name) else InArms(name) }

  /** A reader of the holds of one family: none open, one open and how long it was last held, or a broken grammar. */
  datatype Reader = Idle | Open(name: Name, startedAt: real, triggered: bool, heldFor: Option<real>) | Broken

  /**
   * Started, then held any number of times, at most one trigger, right after a held at least as long as the threshold,
   * and in the end ended if it triggered and cancelled if not; or dropped without a word.
   */
  function Read(hands: bool, r: Reader, event: Event): Reader {
    match event
    case Dropped => if r.Broken? then Broken else Idle
    case Cleared => r
    case Acted(a) =>
      if !InFamily(hands, a.name) then r
      else match r
        case Broken => Broken
        case Idle => if a.phase == Started then Open(a.name, a.at, false, None) else Broken
        case Open(name, startedAt, triggered, heldFor) =>
          if a.name != name || a.duration != Since(startedAt, a.at) then Broken
          else match a.phase
            case Started => Broken
            case Held => r.(heldFor := Some(a.duration))
            case Triggered =>
              if !triggered && heldFor == Some(a.duration) && a.duration >= Threshold(name) then r.(triggered := true) else Broken
            case Ended => if triggered then Idle else Broken
            case Cancelled => if triggered then Broken else Idle
  }

  function ReadAll(hands: bool, r: Reader, events: seq<Event>): Reader {
    if events == [] then r else Read(hands, ReadAll(hands, r, events[..|events| - 1]), events[|events| - 1])
  }

  lemma {:induction false} ReadMore(hands: bool, r: Reader, a: seq<Event>, b: seq<Event>)
    ensures ReadAll(hands, r, a + b) == ReadAll(hands, ReadAll(hands, r, a), b)
  {
    if b == [] {
      assert a + b == a;
    } else {
      assert (a + b)[..|a + b| - 1] == a + b[..|b| - 1];
      ReadMore(hands, r, a, b[..|b| - 1]);
    }
  }

  lemma {:induction false} ReadForeign(hands: bool, r: Reader, actions: seq<Action>)
    requires forall i :: 0 <= i < |actions| ==> !InFamily(hands, actions[i].name)
    ensures ReadAll(hands, r, Acts(actions)) == r
  {
    if actions != [] {
      ReadForeign(hands, r, actions[..|actions| - 1]);
      assert Acts(actions)[..|actions| - 1] == Acts(actions[..|actions| - 1]);
    }
  }

  lemma ActsMore(a: seq<Action>, b: seq<Action>)
    ensures Acts(a + b) == Acts(a) + Acts(b)
  {
  }

  /** The reader has exactly the engine's hold open. */
  predicate Follows(hands: bool, hold: Option<Hold>, r: Reader) {
    match hold
    case None => r == Idle
    case Some(h) =>
      InFamily(hands, h.name) && r.Open? && r.name == h.name && r.startedAt == h.startedAt && r.triggered == h.triggered
  }

  lemma ReadOne(hands: bool, r: Reader, a: Action)
    ensures ReadAll(hands, r, Acts([a])) == Read(hands, r, Acted(a))
  {
    var s := Acts([a]);
    assert s == [Acted(a)] && s[..0] == [];
  }

  lemma ReadTwo(hands: bool, r: Reader, a: Action, b: Action)
    ensures ReadAll(hands, r, Acts([a, b])) == Read(hands, Read(hands, r, Acted(a)), Acted(b))
  {
    assert [a, b] == [a] + [b];
    ActsMore([a], [b]);
    ReadMore(hands, r, Acts([a]), Acts([b]));
    ReadOne(hands, r, a);
    ReadOne(hands, Read(hands, r, Acted(a)), b);
  }

  lemma ReadNone(hands: bool, r: Reader)
    ensures ReadAll(hands, r, Acts([])) == r
  {
  }

  /** What a hold emits in one frame is a sentence of the grammar, and leaves its new state open. */
  lemma ContinueReads(hands: bool, last: map<Name, real>, hold: Option<Hold>, active: bool, requested: Name, threshold: real,
                      now: real, r: Reader)
    requires Follows(hands, hold, r) && InFamily(hands, requested)
    requires hold.Some? ==> threshold == Threshold(hold.value.name)
    ensures var u := Continue(last, hold, active, requested, threshold, now);
            Follows(hands, u.hold, ReadAll(hands, r, Acts(u.actions)))
  {
    hide ReadAll, Acts;
    var u := Continue(last, hold, active, requested, threshold, now);
    if hold.Some? {
      var h, duration := hold.value, Since(hold.value.startedAt, now);
      ReadOne(hands, r, Terminal(h, now));
      ReadOne(hands, r, Action(h.name, Held, now, duration));
      ReadTwo(hands, r, Action(h.name, Held, now, duration), Action(h.name, Triggered, now, duration));
    } else {
      ReadNone(hands, r);
      ReadOne(hands, r, Action(requested, Started, now, 0.0));
    }
  }

  lemma HoldReads(hands: bool, last: map<Name, real>, hold: Option<Hold>, active: bool, requested: Name, now: real,
                  restart: bool, r: Reader)
    requires Follows(hands, hold, r) && InFamily(hands, requested)
    requires !restart ==> forall name :: InFamily(hands, name) ==> Threshold(name) == Threshold(requested)
    ensures var u := AdvanceHold(last, hold, active, requested, Threshold(requested), now, restart);
            Follows(hands, u.hold, ReadAll(hands, r, Acts(u.actions)))
  {
    hide ReadAll, Acts, Continue, Threshold;
    if restart && hold.Some? && hold.value.name != requested {
      var before := [Terminal(hold.value, now)];
      var u := Continue(last, None, active, requested, Threshold(requested), now);
      ReadOne(hands, r, Terminal(hold.value, now));
      ContinueReads(hands, last, None, active, requested, Threshold(requested), now, Idle);
      ActsMore(before, u.actions);
      ReadMore(hands, r, Acts(before), Acts(u.actions));
    } else {
      ContinueReads(hands, last, hold, active, requested, Threshold(requested), now, r);
    }
  }

  // ---- Cooldowns ----

  /** The last trigger of each name since cooldowns were last forgotten. */
  function Log(m: map<Name, real>, event: Event): map<Name, real> {
    match event
    case Acted(a) => if a.phase == Triggered then m[a.name := a.at] else m
    case Dropped => m
    case Cleared => map[]
  }

  function LogAll(m: map<Name, real>, events: seq<Event>): map<Name, real> {
    if events == [] then m else Log(LogAll(m, events[..|events| - 1]), events[|events| - 1])
  }

  predicate FitsLog(m: map<Name, real>, event: Event) {
    event.Acted? && event.action.phase == Triggered ==> Cooled(m, event.action.name, event.action.at)
  }

  /** Every trigger comes at least a cooldown after the one before it. */
  predicate Spaced(m: map<Name, real>, events: seq<Event>) {
    events != [] ==> Spaced(m, events[..|events| - 1]) && FitsLog(LogAll(m, events[..|events| - 1]), events[|events| - 1])
  }

  lemma {:induction false} LogMore(m: map<Name, real>, a: seq<Event>, b: seq<Event>)
    ensures LogAll(m, a + b) == LogAll(LogAll(m, a), b)
    ensures Spaced(m, a + b) <==> Spaced(m, a) && Spaced(LogAll(m, a), b)
  {
    if b == [] {
      assert a + b == a;
    } else {
      assert (a + b)[..|a + b| - 1] == a + b[..|b| - 1];
      LogMore(m, a, b[..|b| - 1]);
    }
  }

  lemma LogOne(m: map<Name, real>, a: Action)
    ensures LogAll(m, Acts([a])) == Log(m, Acted(a))
    ensures Spaced(m, Acts([a])) <==> FitsLog(m, Acted(a))
  {
    var s := Acts([a]);
    assert s == [Acted(a)] && s[..0] == [];
  }

  /** The actions so far explain the cooldowns so far. */
  predicate Explains(m: map<Name, real>, actions: seq<Action>, last: map<Name, real>) {
    LogAll(m, Acts(actions)) == last && Spaced(m, Acts(actions))
  }

  lemma ExplainsMore(m: map<Name, real>, actions: seq<Action>, last: map<Name, real>, a: Action)
    requires Explains(m, actions, last) && (a.phase == Triggered ==> Cooled(last, a.name, a.at))
    ensures Explains(m, actions + [a], Log(last, Acted(a)))
  {
    ActsMore(actions, [a]);
    LogMore(m, Acts(actions), Acts([a]));
    LogOne(last, a);
  }

  lemma ExplainsBoth(m: map<Name, real>, a: seq<Action>, middle: map<Name, real>, b: seq<Action>, last: map<Name, real>)
    requires Explains(m, a, middle) && Explains(middle, b, last)
    ensures Explains(m, a + b, last)
  {
    ActsMore(a, b);
    LogMore(m, Acts(a), Acts(b));
  }

  lemma ExplainsOne(m: map<Name, real>, a: Action)
    requires a.phase == Triggered ==> Cooled(m, a.name, a.at)
    ensures Explains(m, [a], Log(m, Acted(a)))
  {
    LogOne(m, a);
  }

  lemma ExplainsTwo(m: map<Name, real>, a: Action, b: Action)
    requires a.phase == Triggered ==> Cooled(m, a.name, a.at)
    requires b.phase == Triggered ==> Cooled(Log(m, Acted(a)), b.name, b.at)
    ensures Explains(m, [a, b], Log(Log(m, Acted(a)), Acted(b)))
  {
    ExplainsOne(m, a);
    ExplainsMore(m, [a], Log(m, Acted(a)), b);
    assert [a] + [b] == [a, b];
  }

  lemma ContinueExplains(last: map<Name, real>, hold: Option<Hold>, active: bool, requested: Name, threshold: real, now: real)
    ensures var u := Continue(last, hold, active, requested, threshold, now);
            Explains(last, u.actions, u.last)
  {
    hide Explains;
    LogsNothing(last);
    if hold.Some? {
      var h, duration := hold.value, Since(hold.value.startedAt, now);
      ExplainsOne(last, Terminal(h, now));
      ExplainsOne(last, Action(h.name, Held, now, duration));
      if Cooled(last, h.name, now) {
        ExplainsTwo(last, Action(h.name, Held, now, duration), Action(h.name, Triggered, now, duration));
      }
    }
    ExplainsOne(last, Action(requested, Started, now, 0.0));
  }

  lemma HoldExplains(last: map<Name, real>, hold: Option<Hold>, active: bool, requested: Name, threshold: real, now: real, restart: bool)
    ensures var u := AdvanceHold(last, hold, active, requested, threshold, now, restart);
            Explains(last, u.actions, u.last)
  {
    hide Explains, Continue;
    ContinueExplains(last, hold, active, requested, threshold, now);
    if restart && hold.Some? && hold.value.name != requested {
      var u := Continue(last, None, active, requested, threshold, now);
      ContinueExplains(last, None, active, requested, threshold, now);
      ExplainsOne(last, Terminal(hold.value, now));
      ExplainsBoth(last, [Terminal(hold.value, now)], last, u.actions, u.last);
    }
  }

  lemma LogsNothing(m: map<Name, real>)
    ensures Explains(m, [], m)
  {
  }

  predicate Discrete(name: Name) { !InHands(name) && !InArms(name) }

  /** Latched actions only add triggers of their own names, each explained. */
  predicate Extends(m: map<Name, real>, before: seq<Action>, l: Latches) {
    && |before| <= |l.actions| && l.actions[..|before|] == before
    && (forall i :: |before| <= i < |l.actions| ==> Discrete(l.actions[i].name))
    && Explains(m, l.actions, l.last)
  }

  lemma DiscreteExtends(m: map<Name, real>, before: seq<Action>, l: Latches, name: Name, active: bool, now: real)
    requires Extends(m, before, l) && Discrete(name)
    ensures Extends(m, before, UpdateDiscrete(l, name, active, now))
  {
    hide Explains;
    if active && name !in l.latched && Cooled(l.last, name, now) {
      ExplainsMore(m, l.actions, l.last, Action(name, Triggered, now, 0.0));
    }
  }

  lemma MovementsExtend(m: map<Name, real>, before: seq<Action>, l: Latches, p: Posture, enabled: bool, now: real)
    requires Extends(m, before, l)
    ensures Extends(m, before, Movements(l, p, enabled, now))
  {
    hide Extends, UpdateDiscrete;
    DiscreteExtends(m, before, l, DodgeLeft, enabled && Reads(l, DodgeLeft, p.dodgeLeft), now);
    var a := UpdateDiscrete(l, DodgeLeft, enabled && Reads(l, DodgeLeft, p.dodgeLeft), now);
    DiscreteExtends(m, before, a, DodgeRight, enabled && Reads(a, DodgeRight, p.dodgeRight), now);
    var b := UpdateDiscrete(a, DodgeRight, enabled && Reads(a, DodgeRight, p.dodgeRight), now);
    DiscreteExtends(m, before, b, Duck, enabled && Reads(b, Duck, p.duck), now);
    var c := UpdateDiscrete(b, Duck, enabled && Reads(b, Duck, p.duck), now);
    DiscreteExtends(m, before, c, Jump, enabled && Reads(c, Jump, p.jump), now);
  }

  lemma SwipesExtend(m: map<Name, real>, before: seq<Action>, l: Latches, leftHome: bool, zone: Zone, now: real)
    requires Extends(m, before, l)
    ensures Extends(m, before, Swipes(l, leftHome, zone, now))
  {
    hide Extends, UpdateDiscrete;
    DiscreteExtends(m, before, l, SwipeLeft, leftHome && zone == Left, now);
    var a := UpdateDiscrete(l, SwipeLeft, leftHome && zone == Left, now);
    DiscreteExtends(m, before, a, SwipeRight, leftHome && zone == Right, now);
    var b := UpdateDiscrete(a, SwipeRight, leftHome && zone == Right, now);
    DiscreteExtends(m, before, b, SwipeUp, leftHome && zone == Up, now);
    var c := UpdateDiscrete(b, SwipeUp, leftHome && zone == Up, now);
    DiscreteExtends(m, before, c, SwipeDown, leftHome && zone == Down, now);
  }

  // ---- One frame ----

  predicate HoldsNamed(e: Engine) {
    (e.hands.Some? ==> InHands(e.hands.value.name)) && (e.arms.Some? ==> InArms(e.arms.value.name))
  }

  function HoldActions(e: Engine, p: Posture, now: real, context: Context): seq<Action> {
    HandsUpdate(e, p, now, context).actions + ArmsUpdate(HandsUpdate(e, p, now, context).last, e.arms, p, now, context).actions
  }

  /** A frame's actions are those of the two holds, then triggers of latched actions; together they explain the cooldowns. */
  lemma FrameExplains(e: Engine, p: Posture, now: real, context: Context)
    ensures var (v, actions) := Recognize(e, p, now, context);
            Extends(e.last, HoldActions(e, p, now, context), Latches(v.latched, v.last, actions))
  {
    hide Explains, Movements, Swipes, AdvanceHold;
    var hands := HandsUpdate(e, p, now, context);
    var arms := ArmsUpdate(hands.last, e.arms, p, now, context);
    HoldExplains(e.last, e.hands, p.together == Some(true) && context != Game && (e.joined || !Released(e, p)), HandsName(e),
                 Threshold(HandsName(e)), now, false);
    var name := if p.crossed.None? && e.arms.Some? then e.arms.value.name else ArmsName(context);
    HoldExplains(hands.last, e.arms, p.crossed == Some(true), name, Threshold(name), now, true);
    ExplainsBoth(e.last, hands.actions, hands.last, arms.actions, arms.last);
    var before := hands.actions + arms.actions;
    var l := Latches(e.latched, arms.last, before);
    var joined := e.joined || (hands.triggered && HandsName(e) == PlayerJoin && e.autoJoin);
    var enabled := joined && e.samples >= BASELINE_SAMPLES && context == Game;
    MovementsExtend(e.last, before, l, p, enabled, now);
    var read := SwipesRead(e.previousAt, joined, p, context);
    var zone := ZoneSeen(e.zone, read, p);
    SwipesExtend(e.last, before, Movements(l, p, enabled, now), e.zone == Home && zone != Home && read, zone, now);
  }

  lemma ReadParts(hands: bool, r: Reader, a: seq<Action>, b: seq<Action>, all: seq<Action>)
    requires |a + b| <= |all| && all[..|a + b|] == a + b
    requires forall i :: |a + b| <= i < |all| ==> Discrete(all[i].name)
    ensures ReadAll(hands, r, Acts(all)) == ReadAll(hands, ReadAll(hands, r, Acts(a)), Acts(b))
  {
    hide ReadAll, Acts;
    var tail := all[|a + b|..];
    assert all == (a + b) + tail;
    ActsMore(a + b, tail);
    ActsMore(a, b);
    ReadMore(hands, r, Acts(a + b), Acts(tail));
    ReadMore(hands, r, Acts(a), Acts(b));
    ReadForeign(hands, ReadAll(hands, r, Acts(a + b)), tail);
  }

  /** A frame's actions, read for one family, are that family's hold alone. */
  lemma FrameReads(hands: bool, e: Engine, p: Posture, now: real, context: Context, r: Reader)
    requires HoldsNamed(e) && Follows(hands, if hands then e.hands else e.arms, r)
    ensures var (v, actions) := Recognize(e, p, now, context);
            Follows(hands, if hands then v.hands else v.arms, ReadAll(hands, r, Acts(actions)))
  {
    hide ReadAll, Acts, AdvanceHold, Movements, Swipes, Explains, Follows, HoldsNamed;
    var u := HandsUpdate(e, p, now, context);
    var w := ArmsUpdate(u.last, e.arms, p, now, context);
    FrameExplains(e, p, now, context);
    ReadParts(hands, r, u.actions, w.actions, Recognize(e, p, now, context).1);
    NamesOfHands(e, p, now, context);
    NamesOfArms(e, p, now, context, u.last);
    NamesOf(e);
    if hands {
      var active := p.together == Some(true) && context != Game && (e.joined || !Released(e, p));
      HoldReads(true, e.last, e.hands, active, HandsName(e), now, false, r);
      ReadForeign(hands, ReadAll(hands, r, Acts(u.actions)), w.actions);
    } else {
      ReadForeign(hands, r, u.actions);
      var name := if p.crossed.None? && e.arms.Some? then e.arms.value.name else ArmsName(context);
      HoldReads(false, u.last, e.arms, p.crossed == Some(true), name, now, true, r);
    }
  }

  lemma NamesOf(e: Engine)
    requires HoldsNamed(e)
    ensures e.arms.Some? ==> InArms(e.arms.value.name)
  {
  }

  lemma NamesOfHands(e: Engine, p: Posture, now: real, context: Context)
    requires HoldsNamed(e)
    ensures forall i :: 0 <= i < |HandsUpdate(e, p, now, context).actions| ==> InHands(HandsUpdate(e, p, now, context).actions[i].name)
  {
  }

  lemma NamesOfArms(e: Engine, p: Posture, now: real, context: Context, last: map<Name, real>)
    requires HoldsNamed(e)
    ensures forall i :: 0 <= i < |ArmsUpdate(last, e.arms, p, now, context).actions| ==> InArms(ArmsUpdate(last, e.arms, p, now, context).actions[i].name)
  {
  }

  // ---- Every run ----

  lemma RecognizeNamed(e: Engine, p: Posture, now: real, context: Context)
    requires HoldsNamed(e)
    ensures HoldsNamed(Recognize(e, p, now, context).0)
  {
    hide Movements, Swipes;
  }

  lemma NextNamed(e: Engine, command: Command)
    requires HoldsNamed(e)
    ensures HoldsNamed(Next(e, command))
  {
    hide Recognize;
    if command.Seeing? && command.frame.player.Some? {
      var p, now := command.frame.player.value, command.frame.publishedAt;
      if now.Finite? && FaultOf(e.chronology, command.frame).None? {
        RecognizeNamed(Sampled(e.(chronology := Some(Recorded(command.frame))), p), p, now.ms, command.context);
      }
    }
  }

  lemma EnrichNamed(e: Engine, frame: Frame, context: Context)
    requires HoldsNamed(e)
    ensures HoldsNamed(Enrich(e, frame, context).0)
  {
    NextNamed(e, Seeing(frame, context));
  }

  lemma {:induction false} RunNamed(autoJoin: bool, run: seq<Command>)
    ensures HoldsNamed(After(autoJoin, run))
  {
    if run != [] {
      RunNamed(autoJoin, run[..|run| - 1]);
      NextNamed(After(autoJoin, run[..|run| - 1]), run[|run| - 1]);
    }
  }

  lemma ReadDrops(hands: bool, r: Reader)
    requires !r.Broken?
    ensures ReadAll(hands, r, [Dropped]) == Idle && ReadAll(hands, r, [Dropped, Cleared]) == Idle && ReadAll(hands, r, []) == r
  {
    assert [Dropped][..0] == [] && [Dropped, Cleared][..1] == [Dropped];
  }

  function HoldOf(hands: bool, e: Engine): Option<Hold> { if hands then e.hands else e.arms }

  lemma NextReads(hands: bool, e: Engine, command: Command, r: Reader)
    requires HoldsNamed(e) && Follows(hands, HoldOf(hands, e), r) && (e.fault.Some? ==> HoldOf(hands, e).None?)
    ensures Follows(hands, HoldOf(hands, Next(e, command)), ReadAll(hands, r, Events(e, command)))
    ensures Next(e, command).fault.Some? ==> HoldOf(hands, Next(e, command)).None?
  {
    hide Recognize, ReadAll;
    ReadDrops(hands, r);
    if command.Seeing? && e.fault.None? && FaultOf(e.chronology, command.frame).None? && command.frame.ready && command.frame.player.Some? {
      var p, c := command.frame.player.value, e.(chronology := Some(Recorded(command.frame)));
      SampledHolds(c, p);
      FrameReads(hands, Sampled(c, p), p, command.frame.publishedAt.ms, command.context, r);
      RecognizeKeepsFault(Sampled(c, p), p, command.frame.publishedAt.ms, command.context);
    }
  }

  lemma SampledHolds(e: Engine, p: Posture)
    ensures Sampled(e, p) == e.(samples := Sampled(e, p).samples)
  {
  }

  lemma RecognizeKeepsFault(e: Engine, p: Posture, now: real, context: Context)
    ensures Recognize(e, p, now, context).0.fault == e.fault
  {
  }

  /** Over every run, each family's events are sentences of the hold grammar, and the reader knows the engine's hold. */
  lemma {:induction false} HoldsFollowTheGrammar(hands: bool, autoJoin: bool, run: seq<Command>)
    ensures Follows(hands, HoldOf(hands, After(autoJoin, run)), ReadAll(hands, Idle, Stream(autoJoin, run)))
    ensures After(autoJoin, run).fault.Some? ==> HoldOf(hands, After(autoJoin, run)).None?
  {
    if run != [] {
      hide Next, Events, Follows, ReadAll, HoldsNamed;
      var front, e := run[..|run| - 1], After(autoJoin, run[..|run| - 1]);
      HoldsFollowTheGrammar(hands, autoJoin, front);
      RunNamed(autoJoin, front);
      NextReads(hands, e, run[|run| - 1], ReadAll(hands, Idle, Stream(autoJoin, front)));
      ReadMore(hands, Idle, Stream(autoJoin, front), Events(e, run[|run| - 1]));
    }
  }

  lemma LogDrops(m: map<Name, real>)
    ensures LogAll(m, [Dropped]) == m && Spaced(m, [Dropped]) && LogAll(m, []) == m && Spaced(m, [])
    ensures LogAll(m, [Dropped, Cleared]) == map[] && Spaced(m, [Dropped, Cleared])
  {
    assert [Dropped][..0] == [] && [Dropped, Cleared][..1] == [Dropped];
  }

  lemma NextExplains(e: Engine, command: Command)
    ensures LogAll(e.last, Events(e, command)) == Next(e, command).last && Spaced(e.last, Events(e, command))
  {
    hide Recognize, LogAll, Spaced;
    LogDrops(e.last);
    if command.Seeing? && e.fault.None? && FaultOf(e.chronology, command.frame).None? && command.frame.ready && command.frame.player.Some? {
      var p, c := command.frame.player.value, e.(chronology := Some(Recorded(command.frame)));
      SampledHolds(c, p);
      FrameExplains(Sampled(c, p), p, command.frame.publishedAt.ms, command.context);
    }
  }

  lemma {:induction false} RunSpaced(autoJoin: bool, run: seq<Command>)
    ensures LogAll(map[], Stream(autoJoin, run)) == After(autoJoin, run).last && Spaced(map[], Stream(autoJoin, run))
  {
    if run != [] {
      hide Next, Events, LogAll, Spaced;
      var front, e := run[..|run| - 1], After(autoJoin, run[..|run| - 1]);
      RunSpaced(autoJoin, front);
      NextExplains(e, run[|run| - 1]);
      LogMore(map[], Stream(autoJoin, front), Events(e, run[|run| - 1]));
    } else {
      LogDrops(map[]);
    }
  }

  predicate Triggers(event: Event, name: Name) { event.Acted? && event.action.phase == Triggered && event.action.name == name }

  /** A trigger stays in the log, or a later one replaces it, until cooldowns are forgotten. */
  lemma {:induction false} TriggerStays(events: seq<Event>, i: nat, n: nat, name: Name)
    requires Spaced(map[], events) && i < n <= |events| && Triggers(events[i], name)
    requires forall k :: i < k < n ==> events[k] != Cleared
    ensures name in LogAll(map[], events[..n]) && LogAll(map[], events[..n])[name] >= events[i].action.at
    decreases n
  {
    assert events[..n][..n - 1] == events[..n - 1];
    if i < n - 1 {
      TriggerStays(events, i, n - 1, name);
      SpacedPrefix(events, n);
    }
  }

  lemma {:induction false} SpacedPrefix(events: seq<Event>, n: nat)
    requires Spaced(map[], events) && 0 < n <= |events|
    ensures Spaced(map[], events[..n]) && FitsLog(LogAll(map[], events[..n - 1]), events[n - 1])
    decreases |events|
  {
    if n < |events| {
      assert events[..|events| - 1][..n] == events[..n] && events[..|events| - 1][..n - 1] == events[..n - 1];
      SpacedPrefix(events[..|events| - 1], n);
    } else {
      assert events[..n] == events;
    }
  }

  /** Two triggers of one name are at least 650 ms apart, unless a leave, a reset or a fault lies between them. */
  lemma TriggersApart(autoJoin: bool, run: seq<Command>, i: nat, j: nat, name: Name)
    requires i < j < |Stream(autoJoin, run)|
    requires Triggers(Stream(autoJoin, run)[i], name) && Triggers(Stream(autoJoin, run)[j], name)
    requires forall k :: i < k < j ==> Stream(autoJoin, run)[k] != Cleared
    ensures Stream(autoJoin, run)[j].action.at - Stream(autoJoin, run)[i].action.at >= ACTION_COOLDOWN
  {
    hide Stream, Spaced, LogAll;
    var events := Stream(autoJoin, run);
    RunSpaced(autoJoin, run);
    TriggerStays(events, i, j, name);
    SpacedPrefix(events, j + 1);
  }

  // ---- Swipes ----

  predicate IsSwipe(name: Name) { name == SwipeLeft || name == SwipeRight || name == SwipeUp || name == SwipeDown }

  predicate Swiped(events: seq<Event>) { exists i :: 0 <= i < |events| && events[i].Acted? && IsSwipe(events[i].action.name) }

  predicate NoSwipes(actions: seq<Action>) { forall i :: 0 <= i < |actions| ==> !IsSwipe(actions[i].name) }

  lemma KeepsNoSwipes(l: Latches, name: Name, active: bool, now: real)
    requires NoSwipes(l.actions) && (!active || !IsSwipe(name))
    ensures NoSwipes(UpdateDiscrete(l, name, active, now).actions)
  {
  }

  lemma NoSwipesAtHome(l: Latches, zone: Zone, now: real)
    requires NoSwipes(l.actions)
    ensures NoSwipes(Swipes(l, false, zone, now).actions)
  {
    hide NoSwipes, UpdateDiscrete;
    KeepsNoSwipes(l, SwipeLeft, false, now);
    var a := UpdateDiscrete(l, SwipeLeft, false, now);
    KeepsNoSwipes(a, SwipeRight, false, now);
    var b := UpdateDiscrete(a, SwipeRight, false, now);
    KeepsNoSwipes(b, SwipeUp, false, now);
    KeepsNoSwipes(UpdateDiscrete(b, SwipeUp, false, now), SwipeDown, false, now);
  }

  lemma NoSwipesMoving(l: Latches, p: Posture, enabled: bool, now: real)
    requires NoSwipes(l.actions)
    ensures NoSwipes(Movements(l, p, enabled, now).actions)
  {
    hide NoSwipes, UpdateDiscrete;
    KeepsNoSwipes(l, DodgeLeft, enabled && Reads(l, DodgeLeft, p.dodgeLeft), now);
    var a := UpdateDiscrete(l, DodgeLeft, enabled && Reads(l, DodgeLeft, p.dodgeLeft), now);
    KeepsNoSwipes(a, DodgeRight, enabled && Reads(a, DodgeRight, p.dodgeRight), now);
    var b := UpdateDiscrete(a, DodgeRight, enabled && Reads(a, DodgeRight, p.dodgeRight), now);
    KeepsNoSwipes(b, Duck, enabled && Reads(b, Duck, p.duck), now);
    var c := UpdateDiscrete(b, Duck, enabled && Reads(b, Duck, p.duck), now);
    KeepsNoSwipes(c, Jump, enabled && Reads(c, Jump, p.jump), now);
  }

  /** A swipe is read only on leaving home. */
  lemma FrameSwipes(e: Engine, p: Posture, now: real, context: Context)
    requires HoldsNamed(e)
    ensures var (v, actions) := Recognize(e, p, now, context);
            !NoSwipes(actions) ==> e.zone == Home && v.zone != Home
  {
    hide HandsUpdate, ArmsUpdate, Movements, Swipes, HoldsNamed;
    var u := HandsUpdate(e, p, now, context);
    var w := ArmsUpdate(u.last, e.arms, p, now, context);
    NamesOfHands(e, p, now, context);
    NamesOfArms(e, p, now, context, u.last);
    var joined := e.joined || (u.triggered && HandsName(e) == PlayerJoin && e.autoJoin);
    var l := Latches(e.latched, w.last, u.actions + w.actions);
    var enabled := joined && e.samples >= BASELINE_SAMPLES && context == Game;
    assert NoSwipes(l.actions);
    NoSwipesMoving(l, p, enabled, now);
    NoSwipesAtHome(Movements(l, p, enabled, now), ZoneSeen(e.zone, SwipesRead(e.previousAt, joined, p, context), p), now);
  }

  lemma SwipeLeavesHome(e: Engine, command: Command)
    requires HoldsNamed(e) && Swiped(Events(e, command))
    ensures e.zone == Home && Next(e, command).zone != Home
  {
    hide Recognize;
    var p, c := command.frame.player.value, e.(chronology := Some(Recorded(command.frame)));
    SampledHolds(c, p);
    FrameSwipes(Sampled(c, p), p, command.frame.publishedAt.ms, command.context);
  }

  predicate IsSwiping(e: Event) { e.Acted? && IsSwipe(e.action.name) }

  /** The zones are distinct, so at most one of the four latches can fire. */
  lemma SwipesAddOne(l: Latches, leftHome: bool, zone: Zone, now: real)
    ensures var more := Swipes(l, leftHome, zone, now).actions;
            l.actions <= more && |more| <= |l.actions| + 1
  {
  }

  lemma FrameSwipesOnce(e: Engine, p: Posture, now: real, context: Context)
    requires HoldsNamed(e)
    ensures var actions := Recognize(e, p, now, context).1;
            forall i, j :: 0 <= i < j < |actions| ==> !(IsSwipe(actions[i].name) && IsSwipe(actions[j].name))
  {
    hide HandsUpdate, ArmsUpdate, Movements, Swipes, HoldsNamed;
    var u := HandsUpdate(e, p, now, context);
    var w := ArmsUpdate(u.last, e.arms, p, now, context);
    NamesOfHands(e, p, now, context);
    NamesOfArms(e, p, now, context, u.last);
    var joined := e.joined || (u.triggered && HandsName(e) == PlayerJoin && e.autoJoin);
    var l := Latches(e.latched, w.last, u.actions + w.actions);
    var enabled := joined && e.samples >= BASELINE_SAMPLES && context == Game;
    assert NoSwipes(l.actions);
    NoSwipesMoving(l, p, enabled, now);
    var moved := Movements(l, p, enabled, now);
    var read := SwipesRead(e.previousAt, joined, p, context);
    var zone := ZoneSeen(e.zone, read, p);
    SwipesAddOne(moved, e.zone == Home && zone != Home && read, zone, now);
  }

  /** One step of a run never emits two swipes. */
  lemma OneSwipeAtATime(autoJoin: bool, run: seq<Command>, command: Command)
    ensures var events := Events(After(autoJoin, run), command);
            forall i, j :: 0 <= i < j < |events| ==> !(IsSwiping(events[i]) && IsSwiping(events[j]))
  {
    var e := After(autoJoin, run);
    RunNamed(autoJoin, run);
    hide Recognize, After;
    if command.Seeing? && e.fault.None? && FaultOf(e.chronology, command.frame).None? && command.frame.player.Some? {
      var p, c := command.frame.player.value, e.(chronology := Some(Recorded(command.frame)));
      SampledHolds(c, p);
      FrameSwipesOnce(Sampled(c, p), p, command.frame.publishedAt.ms, command.context);
    }
  }

  /** Between two swipes there is always a step after which the hand is home again. */
  lemma HomeBetweenSwipes(autoJoin: bool, run: seq<Command>, i: nat, j: nat)
    requires i < j < |run|
    requires Swiped(Events(After(autoJoin, run[..i]), run[i])) && Swiped(Events(After(autoJoin, run[..j]), run[j]))
    ensures exists k :: i < k < j && run[k].Seeing? && After(autoJoin, run[..k]).zone != Home && After(autoJoin, run[..k + 1]).zone == Home
  {
    hide Next, Swiped, Events, HoldsNamed;
    RunNamed(autoJoin, run[..i]);
    SwipeLeavesHome(After(autoJoin, run[..i]), run[i]);
    assert run[..i + 1][..i] == run[..i];
    RunNamed(autoJoin, run[..j]);
    SwipeLeavesHome(After(autoJoin, run[..j]), run[j]);
    ComesHome(autoJoin, run, i + 1, j);
  }

  lemma {:induction false} ComesHome(autoJoin: bool, run: seq<Command>, i: nat, j: nat)
    requires i <= j <= |run| && After(autoJoin, run[..i]).zone != Home && After(autoJoin, run[..j]).zone == Home
    ensures exists k :: i <= k < j && run[k].Seeing? && After(autoJoin, run[..k]).zone != Home && After(autoJoin, run[..k + 1]).zone == Home
    decreases j
  {
    hide Next;
    assert run[..j][..j - 1] == run[..j - 1];
    if After(autoJoin, run[..j - 1]).zone == Home {
      ComesHome(autoJoin, run, i, j - 1);
    } else {
      OnlyFramesComeHome(After(autoJoin, run[..j - 1]), run[j - 1]);
    }
  }

  lemma OnlyFramesComeHome(e: Engine, command: Command)
    requires e.zone != Home && Next(e, command).zone == Home
    ensures command.Seeing?
  {
  }

  // ---- Faults ----

  /** A chronology fault silences everything until a reset, whatever else happens. */
  lemma {:induction false} FaultSilences(autoJoin: bool, run: seq<Command>, i: nat, j: nat)
    requires i <= j <= |run| && After(autoJoin, run[..i]).fault.Some?
    requires forall k :: i <= k < j ==> !run[k].Resetting?
    ensures After(autoJoin, run[..j]).fault == After(autoJoin, run[..i]).fault
    ensures j < |run| ==> forall event :: event in Events(After(autoJoin, run[..j]), run[j]) ==> !event.Acted?
    decreases j
  {
    hide Recognize;
    if i < j {
      assert run[..j][..j - 1] == run[..j - 1];
      FaultSilences(autoJoin, run, i, j - 1);
    }
  }

  /** And the frame that brings the fault is silent itself, drops every hold and forgets every cooldown. */
  lemma FaultDrops(e: Engine, frame: Frame, context: Context)
    requires e.fault.None? && FaultOf(e.chronology, frame).Some?
    ensures var v := Next(e, Seeing(frame, context));
            && v.fault == FaultOf(e.chronology, frame) && Events(e, Seeing(frame, context)) == [Dropped, Cleared]
            && v.hands.None? && v.arms.None? && v.last == map[] && !v.joined
  {
  }

  /** Frames accepted between two resets come in increasing sequence and never back in time. */
  lemma AcceptedInOrder(e: Engine, frame: Frame, context: Context)
    requires e.fault.None? && e.chronology.Some? && Next(e, Seeing(frame, context)).fault.None?
    ensures var c := Next(e, Seeing(frame, context)).chronology;
            && c.Some? && c.value.sequence > e.chronology.value.sequence && c.value.publishedAt >= e.chronology.value.publishedAt
            && c.value.sourceAt >= e.chronology.value.sourceAt && c.value.source == e.chronology.value.source
  {
    hide HandsUpdate, ArmsUpdate, Movements, Swipes, ZoneSeen;
  }

  /** After leaving, hands still together cannot join again before they have been seen apart. */
  lemma RejoinNeedsRelease(e: Engine, p: Posture, now: real, context: Context)
    requires e.release && !e.joined && e.hands.None? && p.together != Some(false)
    ensures Recognize(e, p, now, context).0.release && Recognize(e, p, now, context).0.hands.None?
    ensures HandsUpdate(e, p, now, context).actions == []
  {
    hide ArmsUpdate, Movements, Swipes, ZoneSeen;
  }
}
