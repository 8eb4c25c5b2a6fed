/** What a player does about an obstacle, and what becomes of the player. */
module ObstacleEncounters {
  import opened Options
  import PlayerSession
  import opened ObstacleRound
  import opened ObstacleRuns

  /** A living player in a round that is being played. */
  predicate Faces(r: Round, slot: Slot) {
    r.phase == Phase.Playing && !r.suspended && slot in r.runners && r.runners[slot].lives > 0
  }

  /** The player some time after an action, when an obstacle arrives. */
  function Meeting(r: Round, action: Action, slot: Slot, elapsed: real, o: Obstacle): Runner
    requires Faces(r, slot) && o.slot == slot
  {
    ActedOn(r, action, slot);
    Resolve(AllRested(Act(r, action, slot).runners, elapsed), o)[slot]
  }

  lemma ActedOn(r: Round, action: Action, slot: Slot)
    requires Faces(r, slot)
    ensures slot in Act(r, action, slot).runners && Act(r, action, slot).runners[slot].lives > 0
  {
  }

  /** A hundred points, or a life. */
  predicate Clears(before: Runner, after: Runner) {
    after.score == before.score + 100 && after.lives == before.lives && after.last == Clear
  }

  predicate IsHit(before: Runner, after: Runner) {
    after.score == before.score && after.lives == before.lives - 1 && after.last == Hit
  }

  /** A jump carries over a jump obstacle for 650 milliseconds, and over nothing else but by the lane. */
  lemma JumpLasts(r: Round, slot: Slot, elapsed: real, o: Obstacle)
    requires Faces(r, slot) && o.slot == slot && elapsed >= 0.0
    ensures var before, after := r.runners[slot], Meeting(r, Jump, slot, elapsed, o);
            && (o.kind == JumpObstacle ==> if elapsed < 650.0 then Clears(before, after) else IsHit(before, after))
            && (o.kind == DuckObstacle ==> IsHit(before, after))
            && (o.kind == LaneObstacle ==> if before.lane == o.lane then IsHit(before, after) else Clears(before, after))
  {
    ActedOn(r, Jump, slot);
  }

  /** Ducking gets under a duck obstacle for 800 milliseconds. */
  lemma DuckLasts(r: Round, slot: Slot, elapsed: real, o: Obstacle)
    requires Faces(r, slot) && o.slot == slot && elapsed >= 0.0
    ensures var before, after := r.runners[slot], Meeting(r, Duck, slot, elapsed, o);
            && (o.kind == DuckObstacle ==> if elapsed < 800.0 then Clears(before, after) else IsHit(before, after))
            && (o.kind == JumpObstacle ==> IsHit(before, after))
            && (o.kind == LaneObstacle ==> if before.lane == o.lane then IsHit(before, after) else Clears(before, after))
  {
    ActedOn(r, Duck, slot);
  }

  /** Dodging moves one lane to the side within the three lanes, and leaves the stance alone. */
  lemma DodgeMoves(r: Round, slot: Slot, o: Obstacle)
    requires Faces(r, slot) && o.slot == slot && o.kind == LaneObstacle && 0 <= r.runners[slot].lane <= 2
    ensures var p := r.runners[slot];
            && Act(r, DodgeLeft, slot).runners[slot] == p.(lane := if p.lane == 0 then 0 else p.lane - 1)
            && Act(r, DodgeRight, slot).runners[slot] == p.(lane := if p.lane == 2 then 2 else p.lane + 1)
            && (p.lane == o.lane && p.lane != 0 ==> Clears(p, Meeting(r, DodgeLeft, slot, 0.0, o)))
            && (p.lane == o.lane && p.lane != 2 ==> Clears(p, Meeting(r, DodgeRight, slot, 0.0, o)))
            && (p.lane == o.lane && p.lane == 0 ==> IsHit(p, Meeting(r, DodgeLeft, slot, 0.0, o)))
            && (p.lane == o.lane && p.lane == 2 ==> IsHit(p, Meeting(r, DodgeRight, slot, 0.0, o)))
  {
    ActedOn(r, DodgeLeft, slot);
    ActedOn(r, DodgeRight, slot);
  }

  /** An action concerns the player of its slot alone, and nobody who is out, waiting or suspended. */
  lemma ActsOnOne(r: Round, action: Action, slot: int)
    ensures Act(r, action, slot).runners.Keys == r.runners.Keys && Act(r, action, slot) == r.(runners := Act(r, action, slot).runners)
    ensures forall k :: k in r.runners && k != slot ==> Act(r, action, slot).runners[k] == r.runners[k]
    ensures !(slot == 1 || slot == 2) || !Faces(r, slot) ==> Act(r, action, slot) == r
  {
  }

  /** Each player meets the lane obstacles in the three lanes in turn. */
  lemma LanesTurn(c: Rules, sequence: nat, slot: Slot)
    requires KindOf(sequence, slot) == LaneObstacle
    ensures var o := ObstacleOf(c, sequence, slot);
            && 0 <= o.lane <= 2 && o.remaining == c.travel && !o.resolved && o.slot == slot && o.id == 2 * sequence + slot
            && KindOf(sequence + 3, slot) == LaneObstacle && ObstacleOf(c, sequence + 3, slot).lane == (o.lane + 1) % 3
    ensures ObstacleOf(c, 0, 1).kind == ObstacleOf(c, 2, 2).kind == LaneObstacle && ObstacleOf(c, 0, 1).lane == 0 && ObstacleOf(c, 2, 2).lane == 1
  {
    ThreeLater(sequence, slot);
  }

  lemma ThreeLater(sequence: nat, slot: Slot)
    ensures (sequence + 3 + slot - 1) % 3 == (sequence + slot - 1) % 3
    ensures (sequence + 3) / 3 + slot - 1 == sequence / 3 + slot - 1 + 1
  {
  }

  /** Between two of them comes a jump and then a duck. */
  lemma JumpThenDuck(c: Rules, sequence: nat, slot: Slot)
    requires KindOf(sequence, slot) == LaneObstacle
    ensures KindOf(sequence + 1, slot) == JumpObstacle && KindOf(sequence + 2, slot) == DuckObstacle
    ensures ObstacleOf(c, sequence + 1, slot).lane == 1 && ObstacleOf(c, sequence + 2, slot).lane == 1
  {
  }

  /** Time must not run backwards; while nothing is played it does not run at all. */
  lemma UpdateThrownIff(c: Rules, r: Round, delta: PlayerSession.Instant)
    requires c.interval > 0.0
    ensures Update(c, r, delta).Thrown? <==> !(delta.Finite? && delta.ms >= 0.0)
    ensures Update(c, r, delta).Next? && (r.suspended || r.phase == Waiting || r.phase == Finished) ==> Update(c, r, delta).round == r
  {
    hide AdvancePlaying, CountDown;
  }

  // ---- Beginnings ----

  /** Everybody stands in the middle lane with all lives and no points; the countdown runs if anybody is there. */
  lemma StartsOver(c: Rules, r: Round)
    ensures var s := StartFresh(c, r);
            && s.joined == r.joined && s.suspended == r.suspended && s.obstacles == [] && s.winner.None? && s.sequence == 0
            && s.remaining == c.round && s.spawn == 0.0
            && (forall k :: k in s.runners <==> k in r.joined)
            && (forall k :: k in s.runners ==> s.runners[k] == Runner(1, Standing, 0.0, 0, c.lives, Ready, 0))
            && (if r.joined == [] then s.phase == Waiting && s.countdown == 0.0 else s.phase == Countdown && s.countdown == c.countdown)
    ensures Initial() == Round([], map[], [], Waiting, false, 0.0, 0.0, 0.0, 0, None)
  {
  }

  /** A roster of other slots is refused, the same roster changes nothing, and somebody who only joins is seated where
      the round stands. */
  lemma RosterChanges(c: Rules, r: Round, slots: seq<int>)
    requires RosterOk(r)
    ensures SetRoster(c, r, slots).Thrown? <==> exists k :: k in slots && k != 1 && k != 2
    ensures SetRoster(c, r, slots).Next? ==>
              var s := SetRoster(c, r, slots).round;
              && ((forall k: Slot :: k in slots <==> k in r.joined) ==> s == r)
              && (UnderWay(r) && (forall k: Slot :: k in r.joined ==> k in slots) && (exists k: Slot :: k in slots && k !in r.joined) ==>
                    && s == r.(joined := s.joined, runners := s.runners)
                    && forall k :: k in s.runners ==>
                         s.runners[k] == if k in r.runners then r.runners[k] else Runner(1, Standing, 0.0, 0, c.lives, Ready, r.sequence))
  {
    hide StartFresh;
  }

  /** Any other change starts over. */
  lemma RosterStartsOver(c: Rules, r: Round, slots: seq<int>)
    requires RosterOk(r) && SetRoster(c, r, slots).Next?
    ensures var s := SetRoster(c, r, slots).round;
            && (forall k: Slot :: k in s.joined <==> k in slots)
            && ((!UnderWay(r) || exists k: Slot :: k in r.joined && k !in slots) && (exists k: Slot :: (k in slots) != (k in r.joined)) ==>
                  s == StartFresh(c, r.(joined := s.joined)))
  {
    assert StartFresh(c, r.(joined := Roster(slots))).joined == Roster(slots);
    hide StartFresh, Seat;
  }
}
