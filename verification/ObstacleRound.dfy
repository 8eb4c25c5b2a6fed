/** The rules of the obstacle round as functions from one round state to the next. */
module ObstacleRound {
  import opened Options
  import PlayerSession

  type Slot = PlayerSession.Slot

  datatype Phase = Waiting | Countdown | Playing | Finished

  datatype Stance = Standing | Jumping | Ducking

  datatype Kind = LaneObstacle | JumpObstacle | DuckObstacle

  datatype LastResult = Ready | Clear | Hit

  datatype Action = DodgeLeft | DodgeRight | Jump | Duck | OtherAction

  /** A seated player; `since` counts the pairs spawned before it was seated. */
  datatype Runner = Runner(lane: int, stance: Stance, stanceRemaining: real, score: nat, lives: nat, last: LastResult, since: nat)

  datatype Obstacle = Obstacle(id: nat, slot: Slot, kind: Kind, lane: int, remaining: real, resolved: bool)

  datatype Round = Round(joined: seq<Slot>, runners: map<Slot, Runner>, obstacles: seq<Obstacle>, phase: Phase, suspended: bool,
                         countdown: real, remaining: real, spawn: real, sequence: nat, winner: Option<Slot>)

  datatype Rules = Rules(countdown: real, round: real, interval: real, travel: real, lives: nat)

  datatype Outcome = Next(round: Round) | Thrown

  const MAX_PLAYERS := 2
  const RESOLVED_OBSTACLE_VISIBLE := 450.0

  predicate ValidRules(c: Rules) { c.countdown > 0.0 && c.round > 0.0 && c.interval > 0.0 && c.travel > 0.0 && c.lives > 0 }

  function Initial(): Round { Round([], map[], [], Waiting, false, 0.0, 0.0, 0.0, 0, None) }

  // ---- Rosters and fresh rounds ----

  function Fresh(c: Rules, since: nat): Runner { Runner(1, Standing, 0.0, 0, c.lives, Ready, since) }

  function StartFresh(c: Rules, r: Round): Round {
    r.(runners := map k | k in r.joined :: Fresh(c, 0), obstacles := [], sequence := 0, winner := None,
       remaining := c.round, spawn := 0.0,
       phase := if r.joined == [] then Waiting else Countdown, countdown := if r.joined == [] then 0.0 else c.countdown)
  }

  predicate IsRoster(slots: seq<int>) { forall k :: k in slots ==> k == 1 || k == 2 }

  function Roster(slots: seq<int>): seq<Slot> { PlayerSession.Sorted(set k: Slot | k in slots) }

  function Seat(c: Rules, r: Round, next: seq<Slot>): Round {
    r.(joined := next, runners := map k | k in next :: if k in r.runners then r.runners[k] else Fresh(c, r.sequence))
  }

  predicate UnderWay(r: Round) { r.phase == Countdown || r.phase == Playing }

  predicate OnlyJoins(before: seq<Slot>, next: seq<Slot>) { forall k :: k in before ==> k in next }

  function SetRoster(c: Rules, r: Round, slots: seq<int>): Outcome {
    if !IsRoster(slots) then Thrown else
    var next := Roster(slots);
    if next == r.joined then Next(r)
    else if UnderWay(r) && OnlyJoins(r.joined, next) then Next(Seat(c, r, next))
    else Next(StartFresh(c, r.(joined := next)))
  }

  function Act(r: Round, action: Action, slot: int): Round {
    if r.phase != Playing || r.suspended || slot !in r.runners || r.runners[slot].lives == 0 then r else
    var p := r.runners[slot];
    var q := match action
             case DodgeLeft => p.(lane := if p.lane - 1 < 0 then 0 else p.lane - 1)
             case DodgeRight => p.(lane := if p.lane + 1 > 2 then 2 else p.lane + 1)
             case Jump => p.(stance := Jumping, stanceRemaining := 650.0)
             case Duck => p.(stance := Ducking, stanceRemaining := 800.0)
             case OtherAction => p;
    r.(runners := r.runners[slot := q])
  }

  // ---- Spawning ----

  function KindOf(sequence: nat, slot: Slot): Kind {
    match (sequence + slot - 1) % 3 case 0 => LaneObstacle case 1 => JumpObstacle case _ => DuckObstacle
  }

  function ObstacleOf(c: Rules, sequence: nat, slot: Slot): Obstacle {
    var kind := KindOf(sequence, slot);
    Obstacle(sequence * MAX_PLAYERS + slot, slot, kind,
             if kind == LaneObstacle then (sequence / 3 + slot - 1) % 3 else 1, c.travel, false)
  }

  /** The obstacles of one spawn, for the first slots of the roster that have lives left. */
  function PairFor(c: Rules, r: Round, slots: seq<Slot>): seq<Obstacle> {
    if slots == [] then [] else
    var slot := slots[|slots| - 1];
    PairFor(c, r, slots[..|slots| - 1])
    + if slot in r.runners && r.runners[slot].lives > 0 then [ObstacleOf(c, r.sequence, slot)] else []
  }

  function SpawnPair(c: Rules, r: Round): Round {
    r.(obstacles := r.obstacles + PairFor(c, r, r.joined), sequence := r.sequence + 1)
  }

  /** Each turn takes one interval off what is due. */
  function Due(c: Rules, r: Round): real
    requires c.interval > 0.0
  {
    (c.interval - r.spawn) / c.interval
  }

  lemma DueFalls(spawn: real, interval: real)
    requires interval > 0.0
    ensures (interval - (spawn + interval)) / interval == (interval - spawn) / interval - 1.0
  {
    var q := (interval - spawn) / interval;
    assert (q - 1.0) * interval == q * interval - interval == -spawn;
    assert interval - (spawn + interval) == -spawn;
    var y := -spawn / interval;
    assert y * interval == -spawn;
    assert (y - (q - 1.0)) * interval == y * interval - (q - 1.0) * interval == 0.0;
    NoZeroFactor(y - (q - 1.0), interval);
  }

  lemma NoZeroFactor(x: real, y: real)
    requires x * y == 0.0 && y > 0.0
    ensures x == 0.0
  {
  }

  lemma DueIsPositive(spawn: real, interval: real)
    requires interval > 0.0 && spawn <= 0.0
    ensures (interval - spawn) / interval >= 1.0
  {
  }

  function SpawnDue(c: Rules, r: Round): Round
    requires c.interval > 0.0
    decreases if r.spawn <= 0.0 then Due(c, r) else 0.0
  {
    if r.spawn <= 0.0 && r.remaining > 0.0 then
      DueFalls(r.spawn, c.interval);
      DueIsPositive(r.spawn, c.interval);
      SpawnDue(c, SpawnPair(c, r).(spawn := r.spawn + c.interval))
    else r
  }

  // ---- Obstacles pass, and are resolved on the players ----

  function Rested(p: Runner, delta: real): Runner {
    var left := if p.stanceRemaining - delta > 0.0 then p.stanceRemaining - delta else 0.0;
    p.(stanceRemaining := left, stance := if left == 0.0 then Standing else p.stance)
  }

  function AllRested(runners: map<Slot, Runner>, delta: real): map<Slot, Runner> {
    map k | k in runners :: Rested(runners[k], delta)
  }

  predicate Avoids(p: Runner, o: Obstacle) {
    || (o.kind == LaneObstacle && p.lane != o.lane)
    || (o.kind == JumpObstacle && p.stance == Jumping)
    || (o.kind == DuckObstacle && p.stance == Ducking)
  }

  function Resolve(runners: map<Slot, Runner>, o: Obstacle): map<Slot, Runner> {
    if o.slot !in runners || runners[o.slot].lives == 0 then runners else
    var p := runners[o.slot];
    runners[o.slot := if Avoids(p, o) then p.(score := p.score + 100, last := Clear)
                      else p.(lives := p.lives - 1, last := Hit)]
  }

  predicate ResolvesNow(o: Obstacle, delta: real) { !o.resolved && o.remaining - delta <= 0.0 }

  function Moved(o: Obstacle, delta: real): Obstacle {
    o.(remaining := o.remaining - delta, resolved := o.resolved || o.remaining - delta <= 0.0)
  }

  function AllMoved(obstacles: seq<Obstacle>, delta: real): (moved: seq<Obstacle>)
    ensures |moved| == |obstacles| && forall i :: 0 <= i < |moved| ==> moved[i] == Moved(obstacles[i], delta)
  {
    if obstacles == [] then [] else
    AllMoved(obstacles[..|obstacles| - 1], delta) + [Moved(obstacles[|obstacles| - 1], delta)]
  }

  /** The players after the first obstacles of the queue have moved past. */
  function Faced(runners: map<Slot, Runner>, obstacles: seq<Obstacle>, delta: real): map<Slot, Runner> {
    if obstacles == [] then runners else
    var before := Faced(runners, obstacles[..|obstacles| - 1], delta);
    var o := obstacles[|obstacles| - 1];
    if ResolvesNow(o, delta) then Resolve(before, o) else before
  }

  function Pruned(obstacles: seq<Obstacle>): seq<Obstacle> {
    if obstacles != [] && obstacles[0].remaining < -RESOLVED_OBSTACLE_VISIBLE then Pruned(obstacles[1..]) else obstacles
  }

  // ---- The clock ----

  predicate AllOut(r: Round) { forall k :: k in r.runners ==> r.runners[k].lives == 0 }

  function Rank(p: Runner): nat { p.score * 100 + p.lives }

  function Ranked(runners: map<Slot, Runner>): Option<Slot> {
    if 1 !in runners || 2 !in runners || Rank(runners[1]) == Rank(runners[2]) then None
    else if Rank(runners[1]) > Rank(runners[2]) then Some(1) else Some(2)
  }

  function Finish(r: Round): Round { r.(phase := Finished, obstacles := [], winner := Ranked(r.runners)) }

  /** Players and obstacles after some playing time, before new obstacles appear. */
  function Ran(r: Round, delta: real): Round {
    var runners := AllRested(r.runners, delta);
    r.(runners := Faced(runners, r.obstacles, delta), obstacles := Pruned(AllMoved(r.obstacles, delta)),
       remaining := if r.remaining - delta > 0.0 then r.remaining - delta else 0.0, spawn := r.spawn - delta)
  }

  function AdvancePlaying(c: Rules, r: Round, delta: real): Round
    requires c.interval > 0.0
  {
    var s := SpawnDue(c, Ran(r, delta));
    if s.remaining == 0.0 || AllOut(s) then Finish(s) else s
  }

  function Min(a: real, b: real): real { if a < b then a else b }

  /** The countdown's share of an update. */
  function CountDown(c: Rules, r: Round, delta: real): Round {
    var left := r.countdown - Min(delta, r.countdown);
    var s := r.(countdown := left);
    if left == 0.0 then SpawnPair(c, s.(phase := Playing)).(spawn := c.interval) else s
  }

  function Update(c: Rules, r: Round, delta: PlayerSession.Instant): Outcome
    requires c.interval > 0.0
  {
    if !delta.Finite? || delta.ms < 0.0 then Thrown
    else if r.suspended || r.phase == Waiting || r.phase == Finished then Next(r)
    else
      var s := if r.phase == Countdown then CountDown(c, r, delta.ms) else r;
      var left := if r.phase == Countdown then delta.ms - Min(delta.ms, r.countdown) else delta.ms;
      if s.phase != Playing || left == 0.0 then Next(s) else Next(AdvancePlaying(c, s, Min(left, s.remaining)))
  }
}
