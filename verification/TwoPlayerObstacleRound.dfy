/** The obstacle round as the source keeps it: clocks, players and a queue updated in place. */
module TwoPlayerObstacleRound {
  import opened Options
  import PlayerSession
  import opened ObstacleRound
  import opened ObstacleRuns

  class TwoPlayerObstacleRound {
    const rules: Rules
    var joinedSlots: seq<Slot>
    var players: map<Slot, Runner>
    var obstacles: seq<Obstacle>
    var phase: Phase
    var suspended: bool
    var countdownRemaining: real
    var roundRemaining: real
    var spawnRemaining: real
    var spawnSequence: nat
    var winnerSlot: Option<Slot>

    function State(): Round
      reads this
    {
      Round(joinedSlots, players, obstacles, phase, suspended, countdownRemaining, roundRemaining, spawnRemaining, spawnSequence, winnerSlot)
    }

    predicate Valid()
      reads this
    {
      ValidRules(rules) && Sound(rules, State())
    }

    constructor (rules: Rules)
      requires ValidRules(rules)
      ensures Valid() && this.rules == rules && State() == Initial()
    {
      this.rules := rules;
      joinedSlots, players, obstacles, phase, suspended := [], map[], [], Waiting, false;
      countdownRemaining, roundRemaining, spawnRemaining, spawnSequence, winnerSlot := 0.0, 0.0, 0.0, 0, None;
    }

    method StartFreshRound()
      modifies this
      ensures State() == StartFresh(rules, old(State()))
    {
      players := map k | k in joinedSlots :: Fresh(rules, 0);
      obstacles, spawnSequence, winnerSlot := [], 0, None;
      roundRemaining, spawnRemaining := rules.round, 0.0;
      if joinedSlots != [] {
        phase, countdownRemaining := Countdown, rules.countdown;
      } else {
        phase, countdownRemaining := Waiting, 0.0;
      }
    }

    method SetRoster(slots: seq<int>) returns (accepted: bool)
      requires Valid()
      modifies this
      ensures Valid() && accepted == IsRoster(slots)
      ensures State() == Perform(rules, old(State()), Seating(slots))
    {
      hide Sound, StartFresh, Roster;
      SeatingKeeps(rules, State(), slots);
      if exists k :: k in slots && k != 1 && k != 2 {
        return false;
      }
      var next := Roster(slots);
      accepted := true;
      if next == joinedSlots {
        return;
      }
      var onlyJoins := OnlyJoins(joinedSlots, next);
      joinedSlots := next;
      if (phase == Countdown || phase == Phase.Playing) && onlyJoins {
        players := map k | k in next :: if k in players then players[k] else Fresh(rules, spawnSequence);
        return;
      }
      StartFreshRound();
    }

    method Reset()
      requires Valid()
      modifies this
      ensures Valid() && State() == StartFresh(rules, old(State()))
    {
      FreshKeeps(rules, State());
      StartFreshRound();
    }

    method SetPaused(paused: bool)
      requires Valid()
      modifies this
      ensures Valid() && State() == old(State()).(suspended := paused)
    {
      PausingKeeps(rules, State(), paused);
      suspended := paused;
    }

    method HandleAction(action: Action, slot: int)
      requires Valid()
      modifies this
      ensures Valid() && State() == Act(old(State()), action, slot)
    {
      ActKeeps(rules, State(), action, slot);
      if phase != Phase.Playing || suspended || slot !in players || players[slot].lives == 0 {
        return;
      }
      var player := players[slot];
      match action {
        case DodgeLeft => player := player.(lane := if player.lane - 1 < 0 then 0 else player.lane - 1);
        case DodgeRight => player := player.(lane := if player.lane + 1 > 2 then 2 else player.lane + 1);
        case Jump => player := player.(stance := Jumping, stanceRemaining := 650.0);
        case Duck => player := player.(stance := Ducking, stanceRemaining := 800.0);
        case OtherAction =>
      }
      players := players[slot := player];
    }

    method Update(delta: PlayerSession.Instant) returns (accepted: bool)
      requires Valid()
      modifies this
      ensures Valid() && accepted == (delta.Finite? && delta.ms >= 0.0)
      ensures State() == Perform(rules, old(State()), Updating(delta))
    {
      hide Sound, ObstacleRound.AdvancePlaying, ObstacleRound.SpawnPair;
      UpdateKeeps(rules, State(), delta);
      if !delta.Finite? || delta.ms < 0.0 {
        return false;
      }
      accepted := true;
      if suspended || phase == Waiting || phase == Finished {
        return;
      }
      var remainingDelta := delta.ms;
      if phase == Countdown {
        var countdownDelta := Min(remainingDelta, countdownRemaining);
        countdownRemaining := countdownRemaining - countdownDelta;
        remainingDelta := remainingDelta - countdownDelta;
        if countdownRemaining == 0.0 {
          phase := Phase.Playing;
          SpawnPair();
          spawnRemaining := rules.interval;
        }
      }
      if phase != Phase.Playing || remainingDelta == 0.0 {
        return;
      }
      AdvancePlaying(Min(remainingDelta, roundRemaining));
    }

    method AdvancePlaying(delta: real)
      requires rules.interval > 0.0
      modifies this
      ensures State() == ObstacleRound.AdvancePlaying(rules, old(State()), delta)
    {
      hide Faced, Pruned, AllMoved, AllRested, SpawnDue;
      Rest(delta);
      MoveObstacles(delta);
      Prune();
      roundRemaining := if roundRemaining - delta > 0.0 then roundRemaining - delta else 0.0;
      spawnRemaining := spawnRemaining - delta;
      assert State() == Ran(old(State()), delta);
      SpawnAllDue();
      if roundRemaining == 0.0 || forall k :: k in players ==> players[k].lives == 0 {
        phase := Finished;
        obstacles := [];
        winnerSlot := Ranked(players);
      }
    }

    method Rest(delta: real)
      modifies this`players
      ensures players == AllRested(old(players), delta)
    {
      var left := players.Keys;
      while left != {}
        invariant left <= players.Keys == old(players.Keys)
        invariant forall k :: k in players ==> players[k] == if k in left then old(players)[k] else Rested(old(players)[k], delta)
        decreases |left|
      {
        var slot :| slot in left;
        left := left - {slot};
        players := players[slot := Rested(players[slot], delta)];
      }
    }

    /** Every obstacle moves, and is resolved on its player when its time is up. */
    method MoveObstacles(delta: real)
      modifies this`players, this`obstacles
      ensures players == Faced(old(players), old(obstacles), delta) && obstacles == AllMoved(old(obstacles), delta)
    {
      hide AllMoved, Faced, Resolve;
      MovesNone(players, obstacles, delta);
      var i := 0;
      while i < |obstacles|
        invariant 0 <= i <= |obstacles| == |old(obstacles)|
        invariant obstacles == AllMoved(old(obstacles)[..i], delta) + old(obstacles)[i..]
        invariant players == Faced(old(players), old(obstacles)[..i], delta)
      {
        MovesOne(old(players), old(obstacles), obstacles, i, delta);
        var obstacle := obstacles[i];
        if !obstacle.resolved && obstacle.remaining - delta <= 0.0 {
          ResolveObstacle(obstacle);
        }
        obstacles := obstacles[i := Moved(obstacle, delta)];
        i := i + 1;
      }
      assert old(obstacles)[..i] == old(obstacles);
      assert old(obstacles)[i..] == [];
    }

    method ResolveObstacle(obstacle: Obstacle)
      modifies this`players
      ensures players == Resolve(old(players), obstacle)
    {
      if obstacle.slot !in players || players[obstacle.slot].lives == 0 {
        return;
      }
      var player := players[obstacle.slot];
      if Avoids(player, obstacle) {
        player := player.(score := player.score + 100, last := Clear);
      } else {
        player := player.(lives := player.lives - 1, last := Hit);
      }
      players := players[obstacle.slot := player];
    }

    method Prune()
      modifies this`obstacles
      ensures obstacles == Pruned(old(obstacles))
    {
      while obstacles != [] && obstacles[0].remaining < -RESOLVED_OBSTACLE_VISIBLE
        invariant Pruned(obstacles) == Pruned(old(obstacles))
        decreases |obstacles|
      {
        obstacles := obstacles[1..];
      }
    }

    method SpawnAllDue()
      requires rules.interval > 0.0
      modifies this
      ensures State() == SpawnDue(rules, old(State()))
    {
      while spawnRemaining <= 0.0 && roundRemaining > 0.0
        invariant SpawnDue(rules, State()) == SpawnDue(rules, old(State()))
        decreases if spawnRemaining <= 0.0 then Due(rules, State()) else 0.0
      {
        SpawnDueTurns(rules, State());
        SpawnPair();
        spawnRemaining := spawnRemaining + rules.interval;
      }
    }

    method SpawnPair()
      modifies this`obstacles, this`spawnSequence
      ensures State() == ObstacleRound.SpawnPair(rules, old(State()))
    {
      var i := 0;
      while i < |joinedSlots|
        invariant 0 <= i <= |joinedSlots|
        invariant spawnSequence == old(spawnSequence)
        invariant obstacles == old(obstacles) + PairFor(rules, old(State()), joinedSlots[..i])
      {
        var slot := joinedSlots[i];
        assert joinedSlots[..i + 1][..i] == joinedSlots[..i];
        if slot in players && players[slot].lives > 0 {
          obstacles := obstacles + [ObstacleOf(rules, spawnSequence, slot)];
        }
        i := i + 1;
      }
      assert joinedSlots[..i] == joinedSlots;
      spawnSequence := spawnSequence + 1;
    }
  }

  lemma MovesNone(players: map<Slot, Runner>, queue: seq<Obstacle>, delta: real)
    ensures queue[..0] == [] && AllMoved([], delta) == [] && Faced(players, [], delta) == players
    ensures AllMoved(queue[..0], delta) + queue[0..] == queue
  {
  }

  /** One turn of the loop over the obstacles. */
  lemma MovesOne(players: map<Slot, Runner>, queue: seq<Obstacle>, current: seq<Obstacle>, i: nat, delta: real)
    requires i < |queue| && current == AllMoved(queue[..i], delta) + queue[i..]
    ensures |current| == |queue| && current[i] == queue[i]
    ensures current[i := Moved(queue[i], delta)] == AllMoved(queue[..i + 1], delta) + queue[i + 1..]
    ensures Faced(players, queue[..i + 1], delta)
         == if ResolvesNow(queue[i], delta) then Resolve(Faced(players, queue[..i], delta), queue[i])
            else Faced(players, queue[..i], delta)
  {
    hide Resolve;
    assert queue[..i + 1][..i] == queue[..i];
    assert AllMoved(queue[..i + 1], delta) == AllMoved(queue[..i], delta) + [Moved(queue[i], delta)];
  }
}
