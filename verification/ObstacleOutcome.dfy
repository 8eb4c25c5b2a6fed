/** When an obstacle round ends, and who wins it. */
module ObstacleOutcome {
  import opened Options
  import PlayerSession
  import opened ObstacleRound
  import opened ObstacleRuns

  // ---- Every round ends in time ----

  predicate Restarts(r: Round, command: Command) {
    match command
    case Restarting => true
    case Seating(slots) =>
      IsRoster(slots) && Roster(slots) != r.joined && !(UnderWay(r) && OnlyJoins(r.joined, Roster(slots)))
    case _ => false
  }

  /** The unsuspended time of the accepted updates since the round last started afresh. */
  function Elapsed(c: Rules, run: seq<Command>): real
    requires c.interval > 0.0
  {
    if run == [] then 0.0 else
    var front, command := run[..|run| - 1], run[|run| - 1];
    if Restarts(After(c, front), command) then 0.0
    else if command.Updating? && command.delta.Finite? && command.delta.ms >= 0.0 && !After(c, front).suspended then
      Elapsed(c, front) + command.delta.ms
    else Elapsed(c, front)
  }

  /** The clocks of a round that has not ended show the time elapsed. */
  predicate Shows(c: Rules, r: Round, elapsed: real) {
    && (r.phase == Countdown ==> elapsed == c.countdown - r.countdown)
    && (r.phase == Phase.Playing ==> elapsed == c.countdown + c.round - r.remaining)
  }

  lemma SpawnDueTime(c: Rules, r: Round)
    requires ValidRules(c) && Between(c, r)
    ensures SpawnDue(c, r).remaining == r.remaining && SpawnDue(c, r).phase == r.phase
  {
    hide Between, SpawnDue;
    SpawnDueKeeps(c, r);
    BetweenPlays(c, r);
    BetweenPlays(c, SpawnDue(c, r));
  }

  lemma BetweenPlays(c: Rules, r: Round)
    requires Between(c, r)
    ensures r.phase == Phase.Playing
  {
  }

  lemma UpdateShows(c: Rules, r: Round, delta: real, elapsed: real)
    requires ValidRules(c) && Sound(c, r) && Shows(c, r, elapsed) && delta >= 0.0 && !r.suspended
    ensures Shows(c, Perform(c, r, Updating(PlayerSession.Finite(delta))), elapsed + delta)
  {
    hide AdvancePlaying, SpawnPair, Queue, NoneOverdue, AllAccounted, RosterOk;
    if UnderWay(r) {
      var s := if r.phase == Countdown then CountDown(c, r, delta) else r;
      var left := if r.phase == Countdown then delta - Min(delta, r.countdown) else delta;
      if r.phase == Countdown {
        CountDownKeeps(c, r, delta);
        SpawnKeepsTime(c, r.(countdown := r.countdown - Min(delta, r.countdown), phase := Phase.Playing));
      }
      if s.phase == Phase.Playing && left != 0.0 { AdvanceShows(c, s, Min(left, s.remaining)); }
    }
  }

  lemma AdvanceShows(c: Rules, r: Round, delta: real)
    requires ValidRules(c) && Sound(c, r) && r.phase == Phase.Playing && 0.0 < delta <= r.remaining
    ensures var s := AdvancePlaying(c, r, delta);
            s.phase != Countdown && (s.phase == Phase.Playing ==> s.remaining == r.remaining - delta > 0.0)
  {
    hide SpawnDue, Between, Sound;
    RanKeeps(c, r, delta);
    SpawnDueTime(c, Ran(r, delta));
    BetweenPlays(c, Ran(r, delta));
  }

  lemma {:induction false} ClockShowsElapsed(c: Rules, run: seq<Command>)
    requires ValidRules(c)
    ensures Shows(c, After(c, run), Elapsed(c, run))
  {
    if run != [] {
      hide Sound, Perform;
      var front, command := run[..|run| - 1], run[|run| - 1];
      RunSound(c, front);
      ClockShowsElapsed(c, front);
      CommandShows(c, After(c, front), command, Elapsed(c, front));
    }
  }

  lemma CommandShows(c: Rules, r: Round, command: Command, elapsed: real)
    requires ValidRules(c) && Sound(c, r) && Shows(c, r, elapsed)
    ensures Shows(c, Perform(c, r, command),
                  if Restarts(r, command) then 0.0
                  else if command.Updating? && command.delta.Finite? && command.delta.ms >= 0.0 && !r.suspended then elapsed + command.delta.ms
                  else elapsed)
  {
    if command.Updating? && command.delta.Finite? && command.delta.ms >= 0.0 && !r.suspended {
      UpdateShows(c, r, command.delta.ms, elapsed);
    } else {
      hide Sound, Roster, AdvancePlaying, CountDown;
    }
  }

  /** However the time was sliced, a round is over once the unsuspended time reaches countdown and round together. */
  lemma EveryRoundEnds(c: Rules, run: seq<Command>)
    requires ValidRules(c) && After(c, run).phase != Waiting && Elapsed(c, run) >= c.countdown + c.round
    ensures After(c, run).phase == Finished
  {
    RunSound(c, run);
    ClockShowsElapsed(c, run);
  }

  /** And it is over before that only when everybody is out of lives. */
  lemma EndsEarlyOnlyWhenAllOut(c: Rules, run: seq<Command>)
    requires ValidRules(c) && After(c, run).phase == Finished
    ensures After(c, run).remaining == 0.0 || AllOut(After(c, run))
  {
    RunSound(c, run);
  }

  // ---- The winner ----

  /** More points, or as many points and more lives. */
  predicate Beats(p: Runner, q: Runner) { p.score > q.score || (p.score == q.score && p.lives > q.lives) }

  predicate InBounds(p: Runner, lives: nat) { p.score % 100 == 0 && p.lives <= lives }

  /** What the ranking number misjudges: a lead in points that a lead in lives outweighs. */
  predicate Outweighed(p: Runner, q: Runner) { p.score > q.score && (p.score - q.score) * 100 <= q.lives - p.lives }

  lemma RankOrderIff(p: Runner, q: Runner)
    ensures (Rank(p) > Rank(q) <==> Beats(p, q)) && (Rank(q) > Rank(p) <==> Beats(q, p)) <==> !Outweighed(p, q) && !Outweighed(q, p)
  {
  }

  /** The ranking is the lexicographic order of points and lives for all results exactly up to 9999 starting lives. */
  lemma RankIsLexicographicIff(lives: nat)
    ensures (forall p, q :: InBounds(p, lives) && InBounds(q, lives) ==> (Rank(p) > Rank(q) <==> Beats(p, q))) <==> lives <= 9999
  {
    if lives <= 9999 {
      forall p, q | InBounds(p, lives) && InBounds(q, lives) ensures Rank(p) > Rank(q) <==> Beats(p, q) {
        if p.score > q.score { assert p.score >= q.score + 100; }
        if q.score > p.score { assert q.score >= p.score + 100; }
      }
    } else {
      var p := Runner(1, Standing, 0.0, 100, 0, Clear, 0);
      var q := Runner(1, Standing, 0.0, 0, 10000, Hit, 0);
      assert InBounds(p, lives) && InBounds(q, lives) && Beats(p, q) && Rank(p) == Rank(q);
    }
  }

  /** With up to 9999 starting lives the winner of a two-player round is the one that beats the other. */
  lemma WinnerBeatsTheOther(c: Rules, run: seq<Command>)
    requires ValidRules(c) && c.lives <= 9999 && After(c, run).phase == Finished && After(c, run).runners.Keys == {1, 2}
    ensures var r := After(c, run);
            && (r.winner == Some(1) <==> Beats(r.runners[1], r.runners[2]))
            && (r.winner == Some(2) <==> Beats(r.runners[2], r.runners[1]))
  {
    hide After, Queue, NoneOverdue;
    RunSound(c, run);
    var r := After(c, run);
    assert Accounted(c, r, 1) && Accounted(c, r, 2);
    RankIsLexicographicIff(c.lives);
    assert InBounds(r.runners[1], c.lives) && InBounds(r.runners[2], c.lives);
  }

  /** A round alone, or an unfinished one, has no winner. */
  lemma NoWinnerAlone(c: Rules, run: seq<Command>)
    requires ValidRules(c) && (After(c, run).phase != Finished || |After(c, run).joined| < 2)
    ensures After(c, run).winner.None?
  {
    RunSound(c, run);
  }

  // ---- What is spawned ----

  /** The two obstacles of a pair differ in kind, and each player meets every kind in any three spawns in a row. */
  lemma KindsAlternate(sequence: nat, slot: Slot, kind: Kind)
    ensures KindOf(sequence, 1) != KindOf(sequence, 2)
    ensures exists n :: sequence <= n < sequence + 3 && KindOf(n, slot) == kind
  {
    var k := (sequence + slot - 1) % 3;
    assert (sequence + 1 + slot - 1) % 3 == (k + 1) % 3 && (sequence + 2 + slot - 1) % 3 == (k + 2) % 3;
    assert KindOf(sequence, slot) == kind || KindOf(sequence + 1, slot) == kind || KindOf(sequence + 2, slot) == kind;
  }
}
