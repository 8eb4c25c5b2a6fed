/** What every obstacle round keeps, however its time is sliced into updates. */
module ObstacleRuns {
  import opened Options
  import PlayerSession
  import opened ObstacleRound

  datatype Command =
    | Seating(slots: seq<int>)
    | Pausing(paused: bool)
    | Acting(action: Action, slot: int)
    | Updating(delta: PlayerSession.Instant)
    | Restarting

  function Perform(c: Rules, r: Round, command: Command): Round
    requires c.interval > 0.0
  {
    match command
    case Seating(slots) => Settle(r, SetRoster(c, r, slots))
    case Pausing(paused) => r.(suspended := paused)
    case Acting(action, slot) => Act(r, action, slot)
    case Updating(delta) => Settle(r, Update(c, r, delta))
    case Restarting => StartFresh(c, r)
  }

  /** A call that throws changes nothing. */
  function Settle(r: Round, outcome: Outcome): Round { match outcome case Next(s) => s case Thrown => r }

  function After(c: Rules, run: seq<Command>): Round
    requires c.interval > 0.0
  {
    if run == [] then Initial() else Perform(c, After(c, run[..|run| - 1]), run[|run| - 1])
  }

  // ---- The invariant ----

  predicate RosterOk(r: Round) {
    && (r.joined == [] || r.joined == [1] || r.joined == [2] || r.joined == [1, 2])
    && r.runners.Keys == set k | k in r.joined
  }

  /** One interval is due after each spawn; what is left of it follows from the time played. */
  predicate Paced(c: Rules, r: Round) {
    && 0.0 <= r.remaining <= c.round && r.sequence >= 1 && r.countdown == 0.0
    && r.spawn == c.interval * (r.sequence as real) - (c.round - r.remaining) && r.spawn <= c.interval
  }

  predicate Clock(c: Rules, r: Round) {
    && (r.winner.Some? ==> r.phase == Finished)
    && (r.phase == Waiting <==> r.joined == [])
    && (r.phase == Countdown ==> 0.0 < r.countdown <= c.countdown && r.remaining == c.round && r.sequence == 0 && r.obstacles == [])
    && (r.phase == Phase.Playing ==> Paced(c, r) && r.remaining > 0.0 && r.spawn > 0.0)
    && (r.phase == Finished ==> r.obstacles == [] && r.winner == Ranked(r.runners) && (r.remaining == 0.0 || AllOut(r)))
    && (r.phase == Waiting ==> r.obstacles == [])
  }

  predicate ObstacleOk(c: Rules, sequence: nat, o: Obstacle) {
    && o.remaining <= c.travel && (o.resolved <==> o.remaining <= 0.0)
    && o.id <= sequence * MAX_PLAYERS && o.id % MAX_PLAYERS == o.slot % MAX_PLAYERS && 0 <= o.lane <= 2
  }

  /** Sorted by the time left, with strictly increasing identities, and resolved exactly when that time is up. */
  predicate Queue(c: Rules, obstacles: seq<Obstacle>, sequence: nat) {
    && (forall i :: 0 <= i < |obstacles| ==> ObstacleOk(c, sequence, obstacles[i]))
    && (forall i, j :: 0 <= i < j < |obstacles| ==> Ahead(obstacles[i], obstacles[j]))
  }

  predicate Ahead(a: Obstacle, b: Obstacle) { a.remaining <= b.remaining && a.id < b.id }

  predicate NoneOverdue(obstacles: seq<Obstacle>) {
    forall i :: 0 <= i < |obstacles| ==> obstacles[i].remaining >= -RESOLVED_OBSTACLE_VISIBLE
  }

  /** The obstacles of a slot that have not been resolved yet. */
  function Coming(obstacles: seq<Obstacle>, slot: Slot): nat {
    if obstacles == [] then 0 else
    Coming(obstacles[..|obstacles| - 1], slot)
    + if obstacles[|obstacles| - 1].slot == slot && !obstacles[|obstacles| - 1].resolved then 1 else 0
  }

  /** Clears and hits. */
  function Decided(c: Rules, p: Runner): int { p.score / 100 + c.lives - p.lives }

  /** Every pair spawned for a living player is still coming, was cleared or was a hit. */
  predicate Accounted(c: Rules, r: Round, k: Slot)
    requires k in r.runners
  {
    var p := r.runners[k];
    && p.score % 100 == 0 && p.lives <= c.lives && p.since <= r.sequence && 0 <= p.lane <= 2 && p.stanceRemaining >= 0.0
    && (p.lives > 0 && r.phase != Finished ==> r.sequence - p.since == Coming(r.obstacles, k) + Decided(c, p))
    && r.sequence - p.since >= Decided(c, p)
  }

  predicate AllAccounted(c: Rules, r: Round) {
    && (forall k :: k in r.runners ==> Accounted(c, r, k))
    && (forall k: Slot :: k !in r.runners ==> Coming(r.obstacles, k) == 0)
  }

  predicate Sound(c: Rules, r: Round) {
    RosterOk(r) && Clock(c, r) && Queue(c, r.obstacles, r.sequence) && NoneOverdue(r.obstacles) && AllAccounted(c, r)
  }

  // ---- Moving past ----

  lemma MovedQueue(c: Rules, obstacles: seq<Obstacle>, sequence: nat, delta: real)
    requires Queue(c, obstacles, sequence) && delta >= 0.0
    ensures Queue(c, AllMoved(obstacles, delta), sequence)
  {
    var moved := AllMoved(obstacles, delta);
    forall i | 0 <= i < |moved| ensures ObstacleOk(c, sequence, moved[i]) {
      assert ObstacleOk(c, sequence, obstacles[i]);
    }
    forall i, j | 0 <= i < j < |moved| ensures Ahead(moved[i], moved[j]) {
      assert Ahead(obstacles[i], obstacles[j]);
    }
  }

  /** Pruning at the head is complete: nothing overdue is left anywhere, and nothing else is dropped. */
  lemma {:induction false} PrunedQueue(c: Rules, obstacles: seq<Obstacle>, sequence: nat, k: Slot)
    requires Queue(c, obstacles, sequence)
    ensures Queue(c, Pruned(obstacles), sequence) && NoneOverdue(Pruned(obstacles))
    ensures Coming(Pruned(obstacles), k) == Coming(obstacles, k)
    ensures forall o :: o in obstacles && o.remaining >= -RESOLVED_OBSTACLE_VISIBLE ==> o in Pruned(obstacles)
  {
    if obstacles != [] && obstacles[0].remaining < -RESOLVED_OBSTACLE_VISIBLE {
      var rest := obstacles[1..];
      assert obstacles == [obstacles[0]] + rest;
      assert forall i :: 0 <= i < |rest| ==> rest[i] == obstacles[i + 1];
      PrunedQueue(c, rest, sequence, k);
      assert ObstacleOk(c, sequence, obstacles[0]);
      ResolvedHead(obstacles, k);
    } else if obstacles != [] {
      assert forall i :: 0 < i < |obstacles| ==> Ahead(obstacles[0], obstacles[i]);
    }
  }

  lemma {:induction false} ResolvedHead(obstacles: seq<Obstacle>, k: Slot)
    requires obstacles != [] && obstacles[0].resolved
    ensures Coming(obstacles, k) == Coming(obstacles[1..], k)
  {
    if |obstacles| > 1 {
      var front := obstacles[..|obstacles| - 1];
      assert front[1..] == obstacles[1..][..|obstacles| - 2];
      ResolvedHead(front, k);
    }
  }

  /** Coming obstacles became clears and hits one for one, unless the player ran out of lives. */
  predicate Conserved(c: Rules, p: Runner, coming: nat, q: Runner, left: nat) {
    && q == p.(score := q.score, lives := q.lives, last := q.last)
    && q.score % 100 == 0 && q.lives <= p.lives && Decided(c, q) >= Decided(c, p)
    && left + Decided(c, q) <= coming + Decided(c, p)
    && (q.lives > 0 ==> left + Decided(c, q) == coming + Decided(c, p))
    && (p.lives == 0 ==> q == p)
  }

  lemma {:induction false} FacedConserves(c: Rules, runners: map<Slot, Runner>, obstacles: seq<Obstacle>, sequence: nat, delta: real, k: Slot)
    requires k in runners && Queue(c, obstacles, sequence) && delta >= 0.0 && runners[k].score % 100 == 0
    ensures Faced(runners, obstacles, delta).Keys == runners.Keys
    ensures Conserved(c, runners[k], Coming(obstacles, k), Faced(runners, obstacles, delta)[k], Coming(AllMoved(obstacles, delta), k))
  {
    if obstacles != [] {
      hide Conserved, Resolve, ResolvesNow, Queue, Coming, AllMoved, ObstacleOk;
      var front, o := obstacles[..|obstacles| - 1], obstacles[|obstacles| - 1];
      QueueFront(c, obstacles, sequence);
      FacedConserves(c, runners, front, sequence, delta, k);
      var before := Faced(runners, front, delta);
    } else {
      assert AllMoved(obstacles, delta) == [];
    }
  }

  lemma QueueFront(c: Rules, obstacles: seq<Obstacle>, sequence: nat)
    requires Queue(c, obstacles, sequence) && obstacles != []
    ensures Queue(c, obstacles[..|obstacles| - 1], sequence)
    ensures obstacles[|obstacles| - 1].resolved <==> obstacles[|obstacles| - 1].remaining <= 0.0
  {
    assert forall i :: 0 <= i < |obstacles| - 1 ==> obstacles[..|obstacles| - 1][i] == obstacles[i];
    assert ObstacleOk(c, sequence, obstacles[|obstacles| - 1]);
  }

  // ---- Playing time ----

  /** Between running and spawning, the clock may be at zero and a spawn may be due. */
  predicate Between(c: Rules, r: Round) {
    && RosterOk(r) && r.joined != [] && Paced(c, r) && Queue(c, r.obstacles, r.sequence) && NoneOverdue(r.obstacles)
    && AllAccounted(c, r) && r.winner.None? && r.phase == Phase.Playing
  }

  lemma RanKeeps(c: Rules, r: Round, delta: real)
    requires ValidRules(c) && Sound(c, r) && r.phase == Phase.Playing && 0.0 < delta <= r.remaining
    ensures Between(c, Ran(r, delta))
  {
    hide Faced, Coming, Queue, NoneOverdue, Decided, Accounted, Rested, AllRested, Pruned;
    RanKeys(c, r, delta);
    MovedQueue(c, r.obstacles, r.sequence, delta);
    PrunedQueue(c, AllMoved(r.obstacles, delta), r.sequence, 1);
    forall k | k in r.runners ensures Accounted(c, Ran(r, delta), k) {
      RanAccount(c, r, delta, k);
    }
    forall k: Slot | k !in r.runners ensures Coming(Ran(r, delta).obstacles, k) == 0 {
      MovedComing(r.obstacles, delta, k);
      PrunedQueue(c, AllMoved(r.obstacles, delta), r.sequence, k);
    }
  }

  lemma {:induction false} MovedComing(obstacles: seq<Obstacle>, delta: real, k: Slot)
    ensures Coming(AllMoved(obstacles, delta), k) <= Coming(obstacles, k)
  {
    if obstacles != [] {
      var front := obstacles[..|obstacles| - 1];
      MovedComing(front, delta, k);
      assert AllMoved(obstacles, delta)[..|front|] == AllMoved(front, delta);
    }
  }

  lemma RanAccount(c: Rules, r: Round, delta: real, k: Slot)
    requires Queue(c, r.obstacles, r.sequence) && k in r.runners && Accounted(c, r, k) && delta >= 0.0 && r.phase == Phase.Playing
    ensures k in Ran(r, delta).runners && Accounted(c, Ran(r, delta), k)
  {
    hide Faced, Coming, Queue, NoneOverdue, Decided, Rested, Pruned;
    var moved := AllMoved(r.obstacles, delta);
    RanKeys(c, r, delta);
    MovedQueue(c, r.obstacles, r.sequence, delta);
    RestedAccount(c, r.runners[k], delta);
    FacedConserves(c, AllRested(r.runners, delta), r.obstacles, r.sequence, delta, k);
    PrunedQueue(c, moved, r.sequence, k);
  }

  lemma RestedAccount(c: Rules, p: Runner, delta: real)
    requires p.score % 100 == 0
    ensures var q := Rested(p, delta);
            q.score == p.score && q.lives == p.lives && q.since == p.since && q.lane == p.lane && q.stanceRemaining >= 0.0
            && Decided(c, q) == Decided(c, p)
  {
  }

  lemma {:induction false} FacedKeys(runners: map<Slot, Runner>, obstacles: seq<Obstacle>, delta: real)
    ensures Faced(runners, obstacles, delta).Keys == runners.Keys
  {
    if obstacles != [] { FacedKeys(runners, obstacles[..|obstacles| - 1], delta); }
  }

  lemma RanKeys(c: Rules, r: Round, delta: real)
    ensures Ran(r, delta).runners.Keys == r.runners.Keys
  {
    FacedKeys(AllRested(r.runners, delta), r.obstacles, delta);
  }

  // ---- Spawning ----

  predicate Alive(r: Round, k: Slot) { k in r.runners && r.runners[k].lives > 0 }

  function One(c: Rules, r: Round, k: Slot): seq<Obstacle> { if Alive(r, k) then [ObstacleOf(c, r.sequence, k)] else [] }

  lemma PairIs(c: Rules, r: Round)
    requires RosterOk(r)
    ensures PairFor(c, r, r.joined) == (if 1 in r.joined then One(c, r, 1) else []) + (if 2 in r.joined then One(c, r, 2) else [])
  {
    hide ObstacleOf;
    PairOfOne(c, r, 1);
    PairOfOne(c, r, 2);
    if r.joined == [1, 2] { assert r.joined[..1] == [1]; }
  }

  lemma PairOfOne(c: Rules, r: Round, k: Slot)
    ensures PairFor(c, r, [k]) == One(c, r, k)
  {
    assert [k][..0] == [];
  }

  lemma ComingOne(c: Rules, r: Round, of: Slot, k: Slot)
    ensures Coming(One(c, r, of), k) == if Alive(r, of) && of == k then 1 else 0
  {
    var o := ObstacleOf(c, r.sequence, of);
    assert [o][..0] == [];
  }

  lemma PairShape(c: Rules, r: Round, pair: seq<Obstacle>)
    requires pair == (if 1 in r.joined then One(c, r, 1) else []) + (if 2 in r.joined then One(c, r, 2) else [])
    ensures |pair| <= 2
    ensures forall i :: 0 <= i < |pair| ==> pair[i] == ObstacleOf(c, r.sequence, pair[i].slot)
    ensures |pair| == 2 ==> pair[0].slot == 1 && pair[1].slot == 2
  {
  }

  lemma PairComing(c: Rules, r: Round, k: Slot)
    requires RosterOk(r)
    ensures Coming(PairFor(c, r, r.joined), k) == if Alive(r, k) then 1 else 0
  {
    hide PairFor, Coming, One;
    PairIs(c, r);
    ComingMore(if 1 in r.joined then One(c, r, 1) else [], if 2 in r.joined then One(c, r, 2) else [], k);
    ComingOne(c, r, 1, k);
    ComingOne(c, r, 2, k);
    ComingNone(k);
  }

  /** A spawn gives each living player exactly one obstacle, the lower slot first. */
  lemma SpawnedPair(c: Rules, r: Round)
    requires RosterOk(r)
    ensures var pair := PairFor(c, r, r.joined);
            && |pair| <= 2
            && (forall i :: 0 <= i < |pair| ==> pair[i] == ObstacleOf(c, r.sequence, pair[i].slot))
            && (|pair| == 2 ==> pair[0].slot == 1 && pair[1].slot == 2)
            && (forall k :: Coming(pair, k) == if Alive(r, k) then 1 else 0)
  {
    hide PairFor, Coming, One, RosterOk, ObstacleOf;
    PairIs(c, r);
    PairShape(c, r, PairFor(c, r, r.joined));
    forall k ensures Coming(PairFor(c, r, r.joined), k) == if Alive(r, k) then 1 else 0 {
      PairComing(c, r, k);
    }
  }

  lemma ComingNone(k: Slot)
    ensures Coming([], k) == 0
  {
  }

  lemma {:induction false} ComingMore(a: seq<Obstacle>, b: seq<Obstacle>, k: Slot)
    ensures Coming(a + b, k) == Coming(a, k) + Coming(b, k)
  {
    if b == [] {
      assert a + b == a;
    } else {
      assert (a + b)[..|a + b| - 1] == a + b[..|b| - 1];
      ComingMore(a, b[..|b| - 1], k);
    }
  }

  lemma NewObstacleOk(c: Rules, sequence: nat, slot: Slot)
    requires c.travel > 0.0
    ensures var o := ObstacleOf(c, sequence, slot);
            ObstacleOk(c, sequence + 1, o) && o.remaining == c.travel && o.slot == slot && o.id == sequence * MAX_PLAYERS + slot
  {
  }

  lemma QueueGrows(c: Rules, r: Round, pair: seq<Obstacle>)
    requires c.travel > 0.0 && Queue(c, r.obstacles, r.sequence) && NoneOverdue(r.obstacles) && |pair| <= 2
    requires forall i :: 0 <= i < |pair| ==> pair[i] == ObstacleOf(c, r.sequence, pair[i].slot)
    requires |pair| == 2 ==> pair[0].slot == 1 && pair[1].slot == 2
    ensures Queue(c, r.obstacles + pair, r.sequence + 1) && NoneOverdue(r.obstacles + pair)
  {
    hide ObstacleOf;
    NewObstacleOk(c, r.sequence, 1);
    NewObstacleOk(c, r.sequence, 2);
    var all := r.obstacles + pair;
    forall i | 0 <= i < |all| ensures ObstacleOk(c, r.sequence + 1, all[i]) && all[i].remaining >= -RESOLVED_OBSTACLE_VISIBLE {
      if i < |r.obstacles| {
        assert ObstacleOk(c, r.sequence, r.obstacles[i]);
      } else {
        NewObstacleOk(c, r.sequence, pair[i - |r.obstacles|].slot);
      }
    }
    forall i, j | 0 <= i < j < |all| ensures Ahead(all[i], all[j]) {
      if j < |r.obstacles| {
        assert Ahead(r.obstacles[i], r.obstacles[j]);
      } else if i < |r.obstacles| {
        assert ObstacleOk(c, r.sequence, r.obstacles[i]);
        NewObstacleOk(c, r.sequence, pair[j - |r.obstacles|].slot);
      }
    }
  }

  /** A spawn keeps the queue and the accounts. */
  lemma SpawnKeeps(c: Rules, r: Round)
    requires ValidRules(c) && RosterOk(r) && Queue(c, r.obstacles, r.sequence) && NoneOverdue(r.obstacles) && AllAccounted(c, r)
    ensures var s := SpawnPair(c, r);
            RosterOk(s) && Queue(c, s.obstacles, s.sequence) && NoneOverdue(s.obstacles) && AllAccounted(c, s)
  {
    hide Queue, NoneOverdue, Coming, PairFor, Decided;
    var pair := PairFor(c, r, r.joined);
    SpawnedPair(c, r);
    QueueGrows(c, r, pair);
    forall k | k in r.runners ensures Accounted(c, SpawnPair(c, r), k) {
      assert Accounted(c, r, k);
      ComingMore(r.obstacles, pair, k);
    }
    forall k: Slot | k !in r.runners ensures Coming(r.obstacles + pair, k) == 0 {
      ComingMore(r.obstacles, pair, k);
    }
  }

  lemma SpawnTurn(c: Rules, r: Round)
    requires ValidRules(c) && Between(c, r) && r.spawn <= 0.0
    ensures Between(c, Turned(c, r))
  {
    hide Queue, NoneOverdue, Accounted, PairFor;
    SpawnKeeps(c, r);
    var s := SpawnPair(c, r).(spawn := r.spawn + c.interval);
    assert (s.sequence as real) == (r.sequence as real) + 1.0;
    assert c.interval * (s.sequence as real) == c.interval * (r.sequence as real) + c.interval;
    SpawnAccounts(c, SpawnPair(c, r), s);
  }

  lemma SpawnAccounts(c: Rules, r: Round, s: Round)
    requires AllAccounted(c, r) && s == r.(spawn := s.spawn)
    ensures AllAccounted(c, s)
  {
    forall k | k in s.runners ensures Accounted(c, s, k) {
      assert Accounted(c, r, k);
    }
  }

  /** The round after one turn of the spawn loop. */
  function Turned(c: Rules, r: Round): Round { SpawnPair(c, r).(spawn := r.spawn + c.interval) }

  lemma SpawnDueTurns(c: Rules, r: Round)
    requires c.interval > 0.0 && r.spawn <= 0.0
    ensures r.remaining > 0.0 ==> SpawnDue(c, r) == SpawnDue(c, Turned(c, r))
    ensures Turned(c, r).remaining == r.remaining
    ensures Due(c, r) >= 1.0 && (Turned(c, r).spawn <= 0.0 ==> Due(c, Turned(c, r)) == Due(c, r) - 1.0)
  {
    hide SpawnPair;
    DueFalls(r.spawn, c.interval);
    DueIsPositive(r.spawn, c.interval);
    assert Turned(c, r).spawn == r.spawn + c.interval;
    assert SpawnPair(c, r).remaining == r.remaining by { SpawnKeepsTime(c, r); }
  }

  lemma SpawnKeepsTime(c: Rules, r: Round)
    ensures SpawnPair(c, r).remaining == r.remaining && SpawnPair(c, r).phase == r.phase && SpawnPair(c, r).countdown == r.countdown
  {
  }

  lemma {:induction false} SpawnDueKeeps(c: Rules, r: Round)
    requires ValidRules(c) && Between(c, r)
    ensures Between(c, SpawnDue(c, r)) && SpawnDue(c, r).remaining == r.remaining
    ensures SpawnDue(c, r).spawn > 0.0 || r.remaining == 0.0
    decreases if r.spawn <= 0.0 then Due(c, r) else 0.0
  {
    assert r.remaining >= 0.0;
    if r.spawn <= 0.0 && r.remaining > 0.0 {
      hide Between, SpawnDue, Due, Turned;
      SpawnDueTurns(c, r);
      SpawnTurn(c, r);
      SpawnDueKeeps(c, Turned(c, r));
    }
  }

  lemma AdvanceKeeps(c: Rules, r: Round, delta: real)
    requires ValidRules(c) && Sound(c, r) && r.phase == Phase.Playing && 0.0 < delta <= r.remaining
    ensures Sound(c, AdvancePlaying(c, r, delta))
  {
    hide Queue, NoneOverdue, AllAccounted, Ran, SpawnDue;
    RanKeeps(c, r, delta);
    SpawnDueKeeps(c, Ran(r, delta));
    FinishKeeps(c, SpawnDue(c, Ran(r, delta)));
  }

  lemma FinishKeeps(c: Rules, r: Round)
    requires Between(c, r)
    ensures r.remaining == 0.0 || AllOut(r) ==> Sound(c, Finish(r))
  {
    forall k | k in r.runners ensures Accounted(c, Finish(r), k) {
      assert Accounted(c, r, k);
    }
  }

  // ---- Every command keeps the invariant ----

  lemma CountDownKeeps(c: Rules, r: Round, delta: real)
    requires ValidRules(c) && Sound(c, r) && r.phase == Countdown && delta >= 0.0
    ensures Sound(c, CountDown(c, r, delta))
  {
    hide Queue, NoneOverdue, PairFor, Coming, Decided;
    var s := r.(countdown := r.countdown - Min(delta, r.countdown));
    if s.countdown == 0.0 {
      SpawnKeeps(c, s.(phase := Phase.Playing));
    }
  }

  lemma UpdateKeeps(c: Rules, r: Round, delta: PlayerSession.Instant)
    requires ValidRules(c) && Sound(c, r)
    ensures Sound(c, Perform(c, r, Updating(delta)))
  {
    hide AdvancePlaying, CountDown, Queue, NoneOverdue, AllAccounted, RosterOk;
    if delta.Finite? && delta.ms >= 0.0 && !r.suspended && UnderWay(r) {
      var s := if r.phase == Countdown then CountDown(c, r, delta.ms) else r;
      var left := if r.phase == Countdown then delta.ms - Min(delta.ms, r.countdown) else delta.ms;
      if r.phase == Countdown { CountDownKeeps(c, r, delta.ms); }
      if s.phase == Phase.Playing && left != 0.0 { AdvanceKeeps(c, s, Min(left, s.remaining)); }
    }
  }

  lemma FreshKeeps(c: Rules, r: Round)
    requires ValidRules(c) && (r.joined == [] || r.joined == [1] || r.joined == [2] || r.joined == [1, 2])
    ensures Sound(c, StartFresh(c, r))
  {
    var s := StartFresh(c, r);
    forall k | k in s.runners ensures Accounted(c, s, k) {
      assert s.runners[k] == Fresh(c, 0);
    }
  }

  lemma SeatAccount(c: Rules, r: Round, next: seq<Slot>, k: Slot)
    requires ValidRules(c) && AllAccounted(c, r) && UnderWay(r) && k in next
    ensures Accounted(c, Seat(c, r, next), k)
  {
    hide Coming;
    if k in r.runners { assert Accounted(c, r, k); }
  }

  lemma SeatKeeps(c: Rules, r: Round, next: seq<Slot>)
    requires ValidRules(c) && Sound(c, r) && UnderWay(r) && OnlyJoins(r.joined, next)
    requires next == [1] || next == [2] || next == [1, 2]
    ensures Sound(c, Seat(c, r, next))
  {
    hide Queue, NoneOverdue, Coming, Accounted, Decided;
    forall k | k in next ensures Accounted(c, Seat(c, r, next), k) {
      SeatAccount(c, r, next, k);
    }
  }

  lemma ActedAccount(c: Rules, r: Round, action: Action, slot: int, k: Slot)
    requires k in r.runners && Accounted(c, r, k)
    ensures k in Act(r, action, slot).runners && Accounted(c, Act(r, action, slot), k)
  {
    hide Coming, Decided;
    if slot in r.runners && slot == k { ActedDecides(c, r, action, k); }
  }

  lemma ActedDecides(c: Rules, r: Round, action: Action, k: Slot)
    requires k in r.runners
    ensures Decided(c, Act(r, action, k).runners[k]) == Decided(c, r.runners[k])
  {
  }

  lemma ActedFrame(r: Round, action: Action, slot: int)
    ensures var s := Act(r, action, slot);
            s == r.(runners := s.runners) && s.runners.Keys == r.runners.Keys && (s == r || r.phase == Phase.Playing)
  {
  }

  lemma ActKeeps(c: Rules, r: Round, action: Action, slot: int)
    requires Sound(c, r)
    ensures Sound(c, Act(r, action, slot))
  {
    hide Queue, NoneOverdue, Coming, Act, Accounted;
    ActedFrame(r, action, slot);
    forall k | k in r.runners ensures Accounted(c, Act(r, action, slot), k) {
      ActedAccount(c, r, action, slot, k);
    }
  }

  lemma RosterShape(slots: seq<int>)
    ensures var next := Roster(slots); next == [] || next == [1] || next == [2] || next == [1, 2]
  {
  }

  lemma SeatingKeeps(c: Rules, r: Round, slots: seq<int>)
    requires ValidRules(c) && Sound(c, r)
    ensures Sound(c, Perform(c, r, Seating(slots)))
  {
    hide Sound, Seat, StartFresh, Roster;
    if IsRoster(slots) {
      var next := Roster(slots);
      RosterShape(slots);
      if next != r.joined {
        FreshKeeps(c, r.(joined := next));
        if UnderWay(r) && OnlyJoins(r.joined, next) {
          JoinsSomebody(c, r, next);
          SeatKeeps(c, r, next);
        }
      }
    }
  }

  lemma JoinsSomebody(c: Rules, r: Round, next: seq<Slot>)
    requires Sound(c, r) && UnderWay(r) && OnlyJoins(r.joined, next)
    ensures next != []
  {
    assert r.joined != [];
    assert r.joined[0] in r.joined;
  }

  lemma PerformKeeps(c: Rules, r: Round, command: Command)
    requires ValidRules(c) && Sound(c, r)
    ensures Sound(c, Perform(c, r, command))
  {
    match command
    case Seating(slots) => SeatingKeeps(c, r, slots);
    case Pausing(paused) => PausingKeeps(c, r, paused);
    case Acting(action, slot) => ActKeeps(c, r, action, slot);
    case Updating(delta) => UpdateKeeps(c, r, delta);
    case Restarting => FreshKeeps(c, r);
  }

  lemma PausingKeeps(c: Rules, r: Round, paused: bool)
    requires Sound(c, r)
    ensures Sound(c, r.(suspended := paused))
  {
    hide Queue, NoneOverdue, Coming;
  }

  lemma {:induction false} RunSound(c: Rules, run: seq<Command>)
    requires ValidRules(c)
    ensures Sound(c, After(c, run))
  {
    hide Sound, Perform;
    if run == [] {
      InitialSound(c);
    } else {
      RunSound(c, run[..|run| - 1]);
      PerformKeeps(c, After(c, run[..|run| - 1]), run[|run| - 1]);
    }
  }

  lemma InitialSound(c: Rules)
    ensures Sound(c, Initial())
  {
  }

  // ---- What follows ----

  /** While a round plays, the pairs spawned follow from the time played alone, however it was sliced. */
  lemma PairsFollowTime(c: Rules, run: seq<Command>)
    requires ValidRules(c) && After(c, run).phase == Phase.Playing
    ensures var r := After(c, run); r.sequence == ((c.round - r.remaining) / c.interval).Floor + 1
  {
    hide After, Queue, NoneOverdue, AllAccounted, RosterOk;
    RunSound(c, run);
    var r := After(c, run);
    FloorOf(c.round - r.remaining, c.interval, r.sequence);
  }

  lemma FloorOf(played: real, interval: real, sequence: nat)
    requires interval > 0.0 && sequence >= 1
    requires interval * (sequence as real) - played > 0.0 && interval * (sequence as real) - played <= interval
    ensures (played / interval).Floor + 1 == sequence
  {
    var n, q := sequence as real, played / interval;
    assert q * interval == played;
    var left := interval * n - played;
    Between0And1(n - q, interval, left);
  }

  lemma Between0And1(x: real, interval: real, product: real)
    requires interval > 0.0 && product == x * interval && 0.0 < product <= interval
    ensures 0.0 < x <= 1.0
  {
    assert x > 1.0 ==> (x - 1.0) * interval > 0.0;
    assert (x - 1.0) * interval == product - interval;
  }

  /** For every living player, what was spawned for it is still coming, was cleared for 100 points, or cost a life. */
  lemma NothingIsLost(c: Rules, run: seq<Command>, k: Slot)
    requires ValidRules(c) && k in After(c, run).runners
    ensures var r := After(c, run);
            var p := r.runners[k];
            && p.score == 100 * (p.score / 100) && p.lives <= c.lives
            && (p.lives > 0 && r.phase != Finished ==>
                  r.sequence - p.since == Coming(r.obstacles, k) + p.score / 100 + (c.lives - p.lives))
            && p.score / 100 + (c.lives - p.lives) <= r.sequence - p.since
  {
    RunSound(c, run);
    assert Accounted(c, After(c, run), k);
  }

  /** The queue is sorted and unique at all times, so looking at its head alone never leaves anything overdue. */
  lemma QueueInOrder(c: Rules, run: seq<Command>, i: nat, j: nat)
    requires ValidRules(c) && i < j < |After(c, run).obstacles|
    ensures var q := After(c, run).obstacles;
            && q[i].remaining <= q[j].remaining && q[i].id < q[j].id
            && (q[j].resolved <==> q[j].remaining <= 0.0) && q[i].remaining >= -RESOLVED_OBSTACLE_VISIBLE
  {
    RunSound(c, run);
    assert Ahead(After(c, run).obstacles[i], After(c, run).obstacles[j]);
    assert ObstacleOk(c, After(c, run).sequence, After(c, run).obstacles[j]);
  }
}
