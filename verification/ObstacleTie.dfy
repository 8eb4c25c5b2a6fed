/** A round that the player with more points does not win. */
module ObstacleTie {
  import opened Options
  import PlayerSession
  import opened ObstacleRound
  import opened ObstacleRuns
  import opened ObstacleOutcome

  /** Obstacles pass half an interval after they appear, so that there is one at a time. */
  function LongRound(lives: nat): Rules { Rules(1.0, 10_000_500.0, 1000.0, 500.0, lives) }

  const HALF := Updating(PlayerSession.Instant.Finite(500.0))

  lemma OneMore(c: Rules, run: seq<Command>, command: Command)
    requires c.interval > 0.0
    ensures After(c, run + [command]) == Perform(c, After(c, run), command)
  {
    assert (run + [command])[..|run|] == run;
  }

  // ---- One player, running into every obstacle ----

  /** The `n`-th obstacle has just appeared. */
  function Alone(lives: nat, n: nat, p: Runner): Round {
    Round([1], map[1 := p], [ObstacleOf(LongRound(lives), n, 1)], Phase.Playing, false, 0.0, 10_000_500.0 - 1000.0 * n as real, 1000.0, n + 1, None)
  }

  /** It has just passed. */
  function Passed(lives: nat, n: nat, p: Runner): Round {
    Alone(lives, n, p).(obstacles := [Moved(ObstacleOf(LongRound(lives), n, 1), 500.0)], spawn := 500.0,
                        remaining := 10_000_000.0 - 1000.0 * n as real)
  }

  function Met(p: Runner, o: Obstacle): Runner
    requires p.lives > 0
  {
    if Avoids(p, o) then p.(score := p.score + 100, last := Clear) else p.(lives := p.lives - 1, last := Hit)
  }

  predicate Idle(p: Runner) { p.stance == Standing && p.stanceRemaining == 0.0 }

  lemma Passes(lives: nat, n: nat, p: Runner)
    requires lives > 0 && n < 10_000 && Idle(p) && p.lives > 1
    ensures var o := ObstacleOf(LongRound(lives), n, 1);
            Perform(LongRound(lives), Alone(lives, n, p), HALF) == Passed(lives, n, Met(p, o))
  {
    var c, r, o := LongRound(lives), Alone(lives, n, p), ObstacleOf(LongRound(lives), n, 1);
    RunsPast(lives, n, p);
    hide Ran, ObstacleOf, Avoids;
    assert SpawnDue(c, Passed(lives, n, Met(p, o))) == Passed(lives, n, Met(p, o));
  }

  lemma RunsPast(lives: nat, n: nat, p: Runner)
    requires lives > 0 && n < 10_000 && Idle(p) && p.lives > 1
    ensures Ran(Alone(lives, n, p), 500.0) == Passed(lives, n, Met(p, ObstacleOf(LongRound(lives), n, 1)))
  {
    hide Avoids, KindOf;
    var r, o := Alone(lives, n, p), ObstacleOf(LongRound(lives), n, 1);
    assert AllRested(r.runners, 500.0) == map[1 := p];
    OneFaced(map[1 := p], o);
    OneMoved(o);
    assert Resolve(map[1 := p], o) == map[1 := Met(p, o)];
  }

  lemma OneFaced(runners: map<Slot, Runner>, o: Obstacle)
    ensures Faced(runners, [o], 500.0) == if ResolvesNow(o, 500.0) then Resolve(runners, o) else runners
  {
    assert [o][..0] == [];
    assert Faced(runners, [], 500.0) == runners;
  }

  lemma OneMoved(o: Obstacle)
    ensures AllMoved([o], 500.0) == [Moved(o, 500.0)]
    ensures Pruned([Moved(o, 500.0)]) == if o.remaining - 500.0 < -450.0 then [] else [Moved(o, 500.0)]
  {
    assert [o][..0] == [];
    assert Pruned([]) == [];
  }

  lemma NextAppears(lives: nat, n: nat, p: Runner)
    requires lives > 0 && n < 10_000 && Idle(p) && p.lives > 0
    ensures Perform(LongRound(lives), Passed(lives, n, p), HALF) == Alone(lives, n + 1, p)
  {
    var c, r, o := LongRound(lives), Passed(lives, n, p), Moved(ObstacleOf(LongRound(lives), n, 1), 500.0);
    assert AllRested(r.runners, 500.0) == map[1 := p];
    OneFaced(map[1 := p], o);
    OneMoved(o);
    var s := Ran(r, 500.0);
    assert s.remaining == 10_000_500.0 - 1000.0 * (n + 1) as real && s.spawn == 0.0 && s.obstacles == [];
    assert PairFor(c, s, [1]) == [ObstacleOf(c, n + 1, 1)] by { assert [1][..0] == []; }
    var t := SpawnPair(c, s).(spawn := 1000.0);
    assert SpawnDue(c, s) == t;
    assert t == Alone(lives, n + 1, p);
  }

  /** To the far left, and then to the lane. */
  function Steer(run: seq<Command>, lane: nat): seq<Command> {
    var left := run + [Acting(DodgeLeft, 1)] + [Acting(DodgeLeft, 1)];
    if lane == 0 then left
    else if lane == 1 then left + [Acting(DodgeRight, 1)]
    else left + [Acting(DodgeRight, 1)] + [Acting(DodgeRight, 1)]
  }

  /** The lane in which the obstacle comes, if it comes in one. */
  function LaneOf(n: nat): nat { n / 3 % 3 }

  lemma Steers(lives: nat, run: seq<Command>, r: Round, lane: nat)
    requires After(LongRound(lives), run) == r && r.phase == Phase.Playing && !r.suspended && lane <= 2
    requires 1 in r.runners && r.runners[1].lives > 0 && 0 <= r.runners[1].lane <= 2
    ensures After(LongRound(lives), Steer(run, lane)) == r.(runners := r.runners[1 := r.runners[1].(lane := lane)])
  {
    var c, left := LongRound(lives), run + [Acting(DodgeLeft, 1)] + [Acting(DodgeLeft, 1)];
    OneMore(c, run, Acting(DodgeLeft, 1));
    OneMore(c, run + [Acting(DodgeLeft, 1)], Acting(DodgeLeft, 1));
    OneMore(c, left, Acting(DodgeRight, 1));
    OneMore(c, left + [Acting(DodgeRight, 1)], Acting(DodgeRight, 1));
    hide After;
    var p := r.runners[1];
    assert After(c, left) == r.(runners := r.runners[1 := p.(lane := 0)]);
  }

  /** Meets every obstacle but the first. */
  function Runs(n: nat): seq<Command> {
    if n == 0 then [Seating([1]), Updating(PlayerSession.Instant.Finite(1.0))]
    else if n == 1 then Runs(0) + [HALF] + [HALF]
    else Steer(Runs(n - 1), LaneOf(n - 1)) + [HALF] + [HALF]
  }

  function Left(lives: nat, n: nat): Runner
    requires 0 < n <= lives
  {
    Runner(if n == 1 then 1 else LaneOf(n - 1), Standing, 0.0, 100, lives - (n - 1), if n == 1 then Clear else Hit, 0)
  }

  lemma Begins(lives: nat)
    requires lives > 0
    ensures After(LongRound(lives), Runs(0)) == Alone(lives, 0, Fresh(LongRound(lives), 0))
  {
    var c := LongRound(lives);
    var joined := Perform(c, Initial(), Seating([1]));
    assert joined == Round([1], map[1 := Fresh(c, 0)], [], Countdown, false, 1.0, 10_000_500.0, 0.0, 0, None);
    var s := joined.(countdown := 0.0, phase := Phase.Playing);
    assert PairFor(c, s, [1]) == [ObstacleOf(c, 0, 1)] by { assert [1][..0] == []; }
    assert CountDown(c, joined, 1.0) == Alone(lives, 0, Fresh(c, 0));
    OneMore(c, [], Seating([1]));
    OneMore(c, [Seating([1])], Updating(PlayerSession.Instant.Finite(1.0)));
    assert Runs(0) == [Seating([1])] + [Updating(PlayerSession.Instant.Finite(1.0))];
  }

  lemma Cycle(lives: nat, run: seq<Command>, n: nat, p: Runner)
    requires lives > 0 && n < 10_000 && Idle(p) && p.lives > 1 && After(LongRound(lives), run) == Alone(lives, n, p)
    ensures After(LongRound(lives), run + [HALF] + [HALF]) == Alone(lives, n + 1, Met(p, ObstacleOf(LongRound(lives), n, 1)))
  {
    hide After, Perform, Alone, Passed;
    OneMore(LongRound(lives), run, HALF);
    OneMore(LongRound(lives), run + [HALF], HALF);
    Passes(lives, n, p);
    NextAppears(lives, n, Met(p, ObstacleOf(LongRound(lives), n, 1)));
  }

  lemma {:induction false} RunsIntoAll(lives: nat, n: nat)
    requires 0 < n <= 10_000 <= lives
    ensures After(LongRound(lives), Runs(n)) == Alone(lives, n, Left(lives, n))
  {
    hide After;
    if n == 1 {
      Begins(lives);
      Cycle(lives, Runs(0), 0, Fresh(LongRound(lives), 0));
    } else {
      RunsIntoAll(lives, n - 1);
      var p := Left(lives, n - 1);
      Steers(lives, Runs(n - 1), Alone(lives, n - 1, p), LaneOf(n - 1));
      assert map[1 := p][1 := p.(lane := LaneOf(n - 1))] == map[1 := p.(lane := LaneOf(n - 1))];
      Cycle(lives, Steer(Runs(n - 1), LaneOf(n - 1)), n - 1, p.(lane := LaneOf(n - 1)));
    }
  }

  // ---- A second player joins at the end ----

  function Joined(lives: nat, n: nat, p: Runner): Round {
    Alone(lives, n, p).(joined := [1, 2], runners := map[1 := p, 2 := Fresh(LongRound(lives), n + 1)])
  }

  lemma Joins(lives: nat, n: nat, p: Runner)
    ensures Perform(LongRound(lives), Alone(lives, n, p), Seating([1, 2])) == Joined(lives, n, p)
  {
    assert Roster([1, 2]) == [1, 2];
    assert IsRoster([1, 2]);
  }

  /** The last obstacle takes the first player's ten thousandth life, and time is up. */
  lemma TimeIsUp(lives: nat, n: nat, p: Runner)
    requires n == 10_000 <= lives && Idle(p) && p.score == 100 && p.lives == lives - 9999 && p.lane == LaneOf(n)
    ensures var r := Perform(LongRound(lives), Joined(lives, n, p), HALF);
            && r.phase == Finished && r.runners.Keys == {1, 2} && r.winner.None?
            && r.runners[1].score == 100 && r.runners[2].score == 0
  {
    var c, r := LongRound(lives), Joined(lives, n, p);
    LastHit(lives, n, p);
    var s := Ran(r, 500.0);
    hide Ran, ObstacleOf;
    assert SpawnDue(c, s) == s;
  }

  lemma LastHit(lives: nat, n: nat, p: Runner)
    requires n == 10_000 <= lives && Idle(p) && p.lives == lives - 9999 && p.lane == LaneOf(n)
    ensures var s := Ran(Joined(lives, n, p), 500.0);
            && s.remaining == 0.0 && s.spawn == 500.0
            && s.runners == map[1 := p.(lives := lives - 10_000, last := Hit), 2 := Fresh(LongRound(lives), n + 1)]
  {
    var r, o := Joined(lives, n, p), ObstacleOf(LongRound(lives), n, 1);
    assert AllRested(r.runners, 500.0) == r.runners;
    OneFaced(r.runners, o);
    assert !Avoids(p, o);
    hide Avoids, KindOf, AllMoved, Pruned, Faced;
  }

  function Unwon(n: nat): seq<Command> { Steer(Runs(n) + [Seating([1, 2])], LaneOf(n)) + [HALF] }

  lemma EndsUnwon(lives: nat, n: nat)
    requires n == 10_000 <= lives
    ensures var r := After(LongRound(lives), Unwon(n));
            r.phase == Finished && r.runners.Keys == {1, 2} && Beats(r.runners[1], r.runners[2]) && r.winner.None?
  {
    hide After, Runs, Perform;
    var c, p := LongRound(lives), Left(lives, n);
    RunsIntoAll(lives, n);
    OneMore(c, Runs(n), Seating([1, 2]));
    Joins(lives, n, p);
    var q := p.(lane := LaneOf(n));
    Steers(lives, Runs(n) + [Seating([1, 2])], Joined(lives, n, p), LaneOf(n));
    assert Joined(lives, n, p).runners[1 := q] == Joined(lives, n, q).runners;
    OneMore(c, Steer(Runs(n) + [Seating([1, 2])], LaneOf(n)), HALF);
    TimeIsUp(lives, n, q);
  }

  /** A finished round of two. */
  predicate Decided(r: Round) { r.phase == Finished && r.runners.Keys == {1, 2} }

  predicate RightWinner(r: Round)
    requires Decided(r)
  {
    && (r.winner == Some(1) <==> Beats(r.runners[1], r.runners[2]))
    && (r.winner == Some(2) <==> Beats(r.runners[2], r.runners[1]))
  }

  /** Every reachable finish has the right winner exactly up to 9999 starting lives: with more, a player who has lost ten
      thousand of them but leads in points can fail to beat one who joined late. */
  lemma WinnerIsRightIff(lives: nat)
    requires lives > 0
    ensures (forall c, run :: ValidRules(c) && c.lives == lives && Decided(After(c, run)) ==> RightWinner(After(c, run)))
            <==> lives <= 9999
  {
    if lives <= 9999 {
      forall c, run | ValidRules(c) && c.lives == lives && Decided(After(c, run)) ensures RightWinner(After(c, run)) {
        WinnerBeatsTheOther(c, run);
      }
    } else {
      hide After, Unwon;
      EndsUnwon(lives, 10_000);
      assert ValidRules(LongRound(lives)) && Decided(After(LongRound(lives), Unwon(10_000)));
    }
  }
}
