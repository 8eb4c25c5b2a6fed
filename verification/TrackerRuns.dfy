/** What every interleaving of starts, stops, answers and frames keeps. */
module TrackerRuns {
  import opened Options
  import opened Tracker

  // ---- Attempts ----

  /** Only the current attempt is neither aborted nor over, and nothing runs before it is over. */
  ghost predicate Starting(running: bool, runId: nat, startup: Option<nat>, aborted: set<nat>, starts: map<nat, Stage>) {
    && (startup.Some? ==> startup.value in starts && startup.value !in aborted)
    && (forall k :: k in starts ==> k <= runId)
    && (forall k :: k in aborted ==> k <= runId)
    && (forall k :: k in starts && k !in aborted && starts[k] != Settling ==> startup == Some(k) && runId == k && !running)
  }

  /** The stage of the current attempt; one that is over when there is none. */
  function Current(startup: Option<nat>, starts: map<nat, Stage>): Stage {
    if startup.Some? && startup.value in starts then starts[startup.value] else Settling
  }

  // ---- Streams ----

  ghost predicate Streaming(running: bool, startup: Option<nat>, starts: map<nat, Stage>, stream: Option<nat>,
                            live: set<nat>, streams: nat) {
    && (running ==> stream.Some?)
    && (!running && stream.Some? ==> Current(startup, starts) == AwaitingPlay(stream.value))
    && (Current(startup, starts).AwaitingPlay? ==> stream == Some(Current(startup, starts).stream))
    && live == Of(stream) + Held(starts)
    && (forall s :: s in live ==> s < streams)
    && (stream.Some? ==> stream.value !in Held(starts))
    && HeldApart(starts)
  }

  /** The streams the camera has granted to attempts that have not continued yet. */
  function Held(starts: map<nat, Stage>): set<nat> { set k | k in starts && starts[k].Granted? :: starts[k].stream }

  predicate HeldApart(starts: map<nat, Stage>) {
    forall j, k :: j in starts && k in starts && j != k && starts[j].Granted? ==> starts[j] != starts[k]
  }

  predicate IsGranted(starts: map<nat, Stage>, k: nat) { k in starts && starts[k].Granted? }

  lemma Moved(starts: map<nat, Stage>, k: nat, stage: Stage)
    requires HeldApart(starts) && !IsGranted(starts, k) && (stage.Granted? ==> stage.stream !in Held(starts))
    ensures HeldApart(starts[k := stage])
    ensures Held(starts[k := stage]) == Held(starts) + (if stage.Granted? then {stage.stream} else {})
  {
    var after := starts[k := stage];
    assert k in after && after[k] == stage;
    forall s | s in Held(starts) ensures s in Held(after) {
      var j :| j in starts && starts[j].Granted? && starts[j].stream == s;
      assert after[j] == starts[j];
    }
  }

  lemma Taken(starts: map<nat, Stage>, k: nat, stage: Stage)
    requires HeldApart(starts) && IsGranted(starts, k) && !stage.Granted?
    ensures HeldApart(starts[k := stage]) && Held(starts[k := stage]) == Held(starts) - {starts[k].stream}
  {
    var after := starts[k := stage];
    forall s | s in Held(starts) && s != starts[k].stream ensures s in Held(after) {
      var j :| j in starts && starts[j].Granted? && starts[j].stream == s;
      assert after[j] == starts[j];
    }
  }

  lemma Removed(starts: map<nat, Stage>, k: nat)
    requires HeldApart(starts) && !IsGranted(starts, k)
    ensures HeldApart(starts - {k}) && Held(starts - {k}) == Held(starts)
  {
    forall s | s in Held(starts) ensures s in Held(starts - {k}) {
      var j :| j in starts && starts[j].Granted? && starts[j].stream == s;
      assert j in starts - {k};
    }
  }

  // ---- Backends ----

  ghost predicate Backed(running: bool, stage: Stage, backend: Backend, worker: Option<nat>, workers: set<nat>,
                         spawned: nat, landmarker: bool) {
    && workers == Of(worker)
    && (worker.Some? ==> worker.value < spawned)
    && (backend == WorkerBackend ==> worker.Some?)
    && (backend == MainThread ==> landmarker && worker.None?)
    && (running ==> backend != NoBackend)
    && (backend == NoBackend && worker.Some? ==> stage == AwaitingWorker(worker.value))
    && (stage.AwaitingWorker? ==> worker == Some(stage.worker) && backend == NoBackend)
    && (stage.AwaitingLandmarker? ==> worker.None? && backend == NoBackend)
    && (stage.BackendReady? || stage.AwaitingCamera? || stage.Granted? || stage.AwaitingPlay? ==> backend != NoBackend)
  }

  // ---- Frames ----

  predicate InLoop(a: Activity, run: nat) { a.run == run && !a.Posted? }

  predicate InFlight(a: Activity, run: nat) { a.run == run && !a.Callback? }

  /** The frame loop of the run. */
  function Loop(pending: map<nat, Activity>, run: nat): set<nat> { set t | t in pending && InLoop(pending[t], run) }

  /** The frames of the run that the gate has let through and nobody has answered. */
  function Outstanding(pending: map<nat, Activity>, run: nat): set<nat> { set t | t in pending && InFlight(pending[t], run) }

  ghost predicate One(s: set<nat>) { exists t :: s == {t} }

  predicate FrameOk(a: Activity, run: nat, backend: Backend, worker: Option<nat>, sequence: nat, delivered: seq<Delivery>) {
    && a.run <= run
    && (a.run == run && !a.Callback? ==> worker == Some(a.worker) && backend == WorkerBackend)
    && (a.run == run && a.Posted? ==> a.sequence < sequence && DeliveredBefore(delivered, a.sequence))
  }

  predicate DeliveredBefore(delivered: seq<Delivery>, sequence: nat) {
    forall i :: 0 <= i < |delivered| ==> delivered[i].sequence < sequence
  }

  predicate Increasing(delivered: seq<Delivery>) {
    forall i, j :: 0 <= i < j < |delivered| ==> delivered[i].sequence < delivered[j].sequence
  }

  ghost predicate Framing(running: bool, run: nat, pending: map<nat, Activity>, tickets: nat, busy: bool, backend: Backend,
                          worker: Option<nat>, sequence: nat, delivered: seq<Delivery>) {
    && (forall t :: t in pending ==> t < tickets && FrameOk(pending[t], run, backend, worker, sequence, delivered))
    && (if running then One(Loop(pending, run)) else Loop(pending, run) == {})
    && (if busy then One(Outstanding(pending, run)) else Outstanding(pending, run) == {})
    && (busy ==> running)
    && Increasing(delivered) && DeliveredBefore(delivered, sequence)
  }

  ghost predicate StartingOf(w: World) { Starting(w.running, w.runId, w.startup, w.aborted, w.starts) }

  ghost predicate StreamingOf(w: World) { Streaming(w.running, w.startup, w.starts, w.stream, w.live, w.streams) }

  ghost predicate BackedOf(w: World) {
    Backed(w.running, Current(w.startup, w.starts), w.backend, w.worker, w.workers, w.spawned, w.landmarker)
  }

  ghost predicate FramingOf(w: World) {
    Framing(w.running, w.runId, w.pending, w.tickets, w.busy, w.backend, w.worker, w.sequence, w.delivered)
  }

  ghost predicate Sound(w: World) { StartingOf(w) && StreamingOf(w) && BackedOf(w) && FramingOf(w) }

  // ---- Attempts keep the invariant ----

  lemma StartKeeps(w: World)
    requires Sound(w)
    ensures Sound(Start(w))
  {
    hide Held, HeldApart, Framing;
    if !w.running && w.startup.None? {
      NewRun(w, Start(w));
      Moved(w.starts, w.runId + 1, Scheduled);
    }
  }

  /** A later run that has not begun has no frames, whatever was under way. */
  lemma NewRun(w: World, v: World)
    requires FramingOf(w) && v.runId > w.runId && !v.running && v.pending == w.pending
    requires v.busy ==> w.busy && !w.running
    requires v.tickets == w.tickets && v.sequence == w.sequence && v.delivered == w.delivered
    ensures FramingOf(v)
  {
    hide DeliveredBefore, Increasing;
  }

  predicate BeforeStream(stage: Stage) { !stage.Settling? && !stage.Granted? && !stage.AwaitingPlay? }

  /** A move among the stages before a stream leaves the streams and frames alone. */
  lemma MoveKeeps(w: World, k: nat, stage: Stage)
    requires Sound(w) && k in w.starts && BeforeStream(w.starts[k]) && (BeforeStream(stage) || stage.Settling?)
    ensures StartingOf(Suspend(w, k, stage)) && StreamingOf(Suspend(w, k, stage)) && FramingOf(Suspend(w, k, stage))
  {
    hide Held, HeldApart, Framing;
    Moved(w.starts, k, stage);
  }

  lemma EnterKeeps(w: World, k: nat)
    requires Sound(w) && At(w, k, Scheduled)
    ensures Sound(EnterStart(w, k))
  {
    hide Held, HeldApart, Loop, Outstanding;
    MoveKeeps(w, k, EnterStart(w, k).starts[k]);
  }

  lemma WorkerAnswersKeeps(w: World, k: nat, ready: bool)
    requires Sound(w) && k in w.starts && w.starts[k].AwaitingWorker?
    ensures Sound(WorkerAnswers(w, k, ready))
  {
    hide Held, HeldApart, Loop, Outstanding;
    MoveKeeps(w, k, WorkerAnswers(w, k, ready).starts[k]);
  }

  lemma LandmarkerAnswersKeeps(w: World, k: nat, ready: bool)
    requires Sound(w) && At(w, k, AwaitingLandmarker)
    ensures Sound(LandmarkerAnswers(w, k, ready))
  {
    hide Held, HeldApart, Loop, Outstanding;
    MoveKeeps(w, k, LandmarkerAnswers(w, k, ready).starts[k]);
  }

  lemma AskForCameraKeeps(w: World, k: nat)
    requires Sound(w) && At(w, k, BackendReady)
    ensures Sound(AskForCamera(w, k))
  {
    hide Held, HeldApart, Loop, Outstanding;
    MoveKeeps(w, k, AskForCamera(w, k).starts[k]);
  }

  lemma CameraAnswersKeeps(w: World, k: nat, granted: bool)
    requires Sound(w) && At(w, k, AwaitingCamera)
    ensures Sound(CameraAnswers(w, k, granted))
  {
    hide Held, HeldApart, Framing;
    if granted {
      Moved(w.starts, k, Granted(w.streams));
    } else {
      MoveKeeps(w, k, Settling);
    }
  }

  lemma TakeStreamKeeps(w: World, k: nat)
    requires Sound(w) && k in w.starts && w.starts[k].Granted?
    ensures Sound(TakeStream(w, k, w.starts[k].stream))
  {
    hide HeldApart, Framing;
    Taken(w.starts, k, if k in w.aborted then Settling else AwaitingPlay(w.starts[k].stream));
    HeldHas(w.starts, k);
    hide Held;
  }

  lemma HeldHas(starts: map<nat, Stage>, k: nat)
    requires IsGranted(starts, k)
    ensures starts[k].stream in Held(starts)
  {
  }

  lemma PlayAnswersKeeps(w: World, k: nat, playing: bool)
    requires Sound(w) && k in w.starts && w.starts[k].AwaitingPlay?
    ensures Sound(PlayAnswers(w, k, w.starts[k].stream, playing))
  {
    hide Held, HeldApart, Framing, Backed;
    Moved(w.starts, k, Settling);
    PlayBacked(w, k, playing);
    if k !in w.aborted && playing { FramingBegins(w, PlayAnswers(w, k, w.starts[k].stream, playing)); }
  }

  lemma PlayBacked(w: World, k: nat, playing: bool)
    requires StartingOf(w) && BackedOf(w) && k in w.starts && w.starts[k].AwaitingPlay?
    ensures BackedOf(PlayAnswers(w, k, w.starts[k].stream, playing))
  {
  }

  lemma FramingBegins(w: World, v: World)
    requires FramingOf(w) && !w.running && v == Schedule(v.(pending := w.pending, tickets := w.tickets)) && v.running
    requires v.runId == w.runId && !v.busy && v.backend == w.backend && v.worker == w.worker
    requires v.sequence == w.sequence && v.delivered == w.delivered
    ensures FramingOf(v)
  {
    hide DeliveredBefore, Increasing;
    LoopBegins(w.pending, w.tickets, w.runId);
  }

  lemma LoopBegins(pending: map<nat, Activity>, ticket: nat, run: nat)
    requires ticket !in pending && Loop(pending, run) == {}
    ensures Loop(pending[ticket := Callback(run)], run) == {ticket}
    ensures Outstanding(pending[ticket := Callback(run)], run) == Outstanding(pending, run)
  {
    var after := pending[ticket := Callback(run)];
    assert forall t :: t in pending ==> after[t] == pending[t];
    assert forall t :: t in Loop(after, run) ==> t == ticket || t in Loop(pending, run);
  }

  lemma SettleKeeps(w: World, k: nat)
    requires Sound(w) && At(w, k, Settling)
    ensures Sound(Settle(w, k))
  {
    hide Held, HeldApart, Framing;
    Removed(w.starts, k);
  }

  // ---- Stopping keeps it ----

  lemma StopAttempts(w: World)
    requires StartingOf(w) && StreamingOf(w)
    ensures StartingOf(Stop(w)) && StreamingOf(Stop(w))
  {
    hide Held, HeldApart;
  }

  lemma StopKeeps(w: World)
    requires Sound(w)
    ensures Sound(Stop(w))
  {
    hide Held, HeldApart, Framing, Starting, Streaming;
    StopAttempts(w);
    NewRun(w, Stop(w));
  }

  lemma CloseKeeps(w: World)
    requires Sound(w)
    ensures Sound(Close(w))
  {
    hide Sound, Stop, DiscardWorker;
    StopKeeps(w);
    ClosesStopped(w);
    IdleCloses(Stop(w));
  }

  lemma ClosesStopped(w: World)
    ensures Close(w) == DiscardWorker(Stop(w)).(landmarker := false, backend := NoBackend)
    ensures !Stop(w).running && Stop(w).startup.None? && !Stop(w).busy
  {
  }

  lemma IdleCloses(w: World)
    requires Sound(w) && !w.running && w.startup.None? && !w.busy
    ensures Sound(DiscardWorker(w).(landmarker := false, backend := NoBackend))
  {
    hide Starting, Streaming, DeliveredBefore, Increasing;
    forall t | t in w.pending ensures w.pending[t].run < w.runId {
      assert t !in Loop(w.pending, w.runId) && t !in Outstanding(w.pending, w.runId);
    }
  }

  // ---- Frames keep it ----

  /** A step that ends one activity of another run, or a callback of this one, keeps nothing else. */
  lemma StaleGone(w: World, t: nat)
    requires FramingOf(w) && t in w.pending && w.pending[t].run != w.runId
    ensures FramingOf(Without(w, t))
  {
    hide DeliveredBefore, Increasing;
    assert Loop(w.pending - {t}, w.runId) == Loop(w.pending, w.runId);
    assert Outstanding(w.pending - {t}, w.runId) == Outstanding(w.pending, w.runId);
  }

  lemma LoopIs(w: World, t: nat)
    requires FramingOf(w) && t in w.pending && InLoop(w.pending[t], w.runId)
    ensures w.running && Loop(w.pending, w.runId) == {t}
  {
    assert t in Loop(w.pending, w.runId);
  }

  lemma OutstandingIs(w: World, t: nat)
    requires FramingOf(w) && t in w.pending && InFlight(w.pending[t], w.runId)
    ensures w.running && w.busy && Outstanding(w.pending, w.runId) == {t}
  {
    assert t in Outstanding(w.pending, w.runId);
  }

  /** While a run lasts, its loop and its gate stand like this between the pieces of a frame step. */
  ghost predicate Paced(w: World, loop: set<nat>, outstanding: set<nat>) {
    && (forall t :: t in w.pending ==> t < w.tickets && FrameOk(w.pending[t], w.runId, w.backend, w.worker, w.sequence, w.delivered))
    && Loop(w.pending, w.runId) == loop && Outstanding(w.pending, w.runId) == outstanding
    && Increasing(w.delivered) && DeliveredBefore(w.delivered, w.sequence)
  }

  lemma Ends(w: World, t: nat)
    requires FramingOf(w) && t in w.pending && w.pending[t].run == w.runId
    ensures Paced(Without(w, t), Loop(w.pending, w.runId) - {t}, Outstanding(w.pending, w.runId) - {t})
  {
    hide DeliveredBefore, Increasing;
  }

  lemma Schedules(w: World, outstanding: set<nat>)
    requires w.running && Paced(w, {}, outstanding)
    ensures Paced(Schedule(w), {w.tickets}, outstanding)
  {
    hide DeliveredBefore, Increasing;
    var v := Schedule(w);
    assert forall t :: t in w.pending ==> v.pending[t] == w.pending[t];
    assert Outstanding(v.pending, v.runId) == Outstanding(w.pending, w.runId);
    assert forall t :: t in Loop(v.pending, v.runId) ==> t == w.tickets || t in Loop(w.pending, w.runId);
  }

  lemma Captures(w: World, v: World)
    requires w.running && Paced(w, {}, {}) && w.worker.Some? && w.backend == WorkerBackend
    requires v == w.(busy := true, pending := w.pending[w.tickets := Capturing(w.runId, w.worker.value)], tickets := w.tickets + 1)
    ensures Paced(v, {w.tickets}, {w.tickets})
  {
    hide DeliveredBefore, Increasing;
    assert forall t :: t in w.pending ==> v.pending[t] == w.pending[t];
    assert forall t :: t in Loop(v.pending, v.runId) ==> t == w.tickets || t in Loop(w.pending, w.runId);
    assert forall t :: t in Outstanding(v.pending, v.runId) ==> t == w.tickets || t in Outstanding(w.pending, w.runId);
  }

  lemma Posts(w: World, t: nat, worker: nat, v: World)
    requires w.running && Paced(w, {}, {}) && w.worker == Some(worker) && w.backend == WorkerBackend && t !in w.pending && t < w.tickets
    requires v == w.(pending := w.pending[t := Posted(w.runId, worker, w.sequence)], sequence := w.sequence + 1)
    ensures Paced(v, {}, {t})
  {
    hide Increasing;
    forall u | u in v.pending ensures FrameOk(v.pending[u], v.runId, v.backend, v.worker, v.sequence, v.delivered) {
      if u != t { assert v.pending[u] == w.pending[u]; }
    }
    assert forall u :: u in Loop(v.pending, v.runId) ==> u == t || u in Loop(w.pending, w.runId);
    assert forall u :: u in Outstanding(v.pending, v.runId) ==> u == t || u in Outstanding(w.pending, w.runId);
  }

  /** A number that no frame gets. */
  lemma Numbers(w: World, loop: set<nat>, outstanding: set<nat>)
    requires Paced(w, loop, outstanding)
    ensures Paced(w.(sequence := w.sequence + 1), loop, outstanding)
  {
    hide Increasing;
    forall t | t in w.pending ensures FrameOk(w.pending[t], w.runId, w.backend, w.worker, w.sequence + 1, w.delivered) {
    }
  }

  /** Delivering a frame later than all delivered ones, when none is outstanding. */
  lemma Delivers(w: World, loop: set<nat>, d: Delivery, sequence: nat)
    requires Paced(w, loop, {}) && DeliveredBefore(w.delivered, d.sequence) && d.sequence < sequence && w.sequence <= sequence
    ensures Paced(w.(delivered := w.delivered + [d], sequence := sequence), loop, {})
  {
    forall t | t in w.pending
      ensures FrameOk(w.pending[t], w.runId, w.backend, w.worker, sequence, w.delivered + [d])
    {
      assert t !in Outstanding(w.pending, w.runId);
    }
  }

  lemma PacedFrames(w: World, loop: set<nat>, outstanding: set<nat>)
    requires w.running && Paced(w, loop, outstanding) && One(loop)
    requires if w.busy then One(outstanding) else outstanding == {}
    ensures FramingOf(w)
  {
  }

  /** The second world differs from the first in frames only. */
  predicate SameRun(w: World, v: World) {
    v == w.(pending := v.pending, tickets := v.tickets, busy := v.busy, dropped := v.dropped, sequence := v.sequence,
            lastMediaTime := v.lastMediaTime, delivered := v.delivered)
  }

  lemma EndOfRun(w: World, v: World, loop: set<nat>, outstanding: set<nat>)
    requires Sound(w) && w.running && SameRun(w, v) && Paced(v, loop, outstanding)
    ensures Sound(FailRunning(v)) && Sound(FailWorker(v))
  {
    hide Held, HeldApart, Framing;
    NoFramesYet(v, FailRunning(v), loop, outstanding);
    NoFramesYet(v, FailWorker(v), loop, outstanding);
  }

  lemma NoFramesYet(w: World, v: World, loop: set<nat>, outstanding: set<nat>)
    requires Paced(w, loop, outstanding) && v.runId > w.runId && !v.running && !v.busy && v.pending == w.pending
    requires v.tickets == w.tickets && v.sequence == w.sequence && v.delivered == w.delivered
    ensures FramingOf(v)
  {
    hide DeliveredBefore, Increasing;
  }

  lemma SameRunKeeps(w: World, v: World)
    requires Sound(w) && SameRun(w, v) && FramingOf(v)
    ensures Sound(v)
  {
    hide Starting, Streaming, Backed, Framing;
  }

  /** The loop goes on after a frame step. */
  lemma LoopGoesOn(w: World, v: World, outstanding: set<nat>)
    requires Sound(w) && w.running && SameRun(w, v) && Paced(v, {}, outstanding)
    requires if v.busy then One(outstanding) else outstanding == {}
    ensures Sound(Schedule(v))
  {
    hide Starting, Streaming, Backed, Paced, Framing;
    Schedules(v, outstanding);
    PacedFrames(Schedule(v), {v.tickets}, outstanding);
    SameRunKeeps(w, Schedule(v));
  }

  lemma SoundFrames(w: World)
    requires Sound(w)
    ensures w.busy ==> w.running && One(Outstanding(w.pending, w.runId))
    ensures !w.busy ==> Outstanding(w.pending, w.runId) == {}
    ensures w.running ==> w.backend != NoBackend && (w.backend == WorkerBackend ==> w.worker.Some?)
    ensures w.running && w.backend == MainThread ==> w.landmarker && !w.busy
  {
    if w.busy {
      var t :| Outstanding(w.pending, w.runId) == {t};
      assert t in Outstanding(w.pending, w.runId);
    }
  }

  lemma FrameCallbackKeeps(w: World, t: nat, mediaTime: real, detected: bool)
    requires Sound(w) && t in w.pending && w.pending[t].Callback?
    ensures Sound(FrameCallback(w, t, w.pending[t].run, mediaTime, detected))
  {
    hide Sound, Paced, FailRunning, FailWorker, Schedule, Loop, Outstanding;
    if w.pending[t].run != w.runId {
      StaleKeeps(w, t);
    } else {
      CallbackKeeps(w, t, mediaTime, detected);
    }
  }

  lemma StaleKeeps(w: World, t: nat)
    requires Sound(w) && t in w.pending && w.pending[t].run != w.runId
    ensures Sound(Without(w, t))
  {
    hide Starting, Streaming, Backed, Framing;
    StaleGone(w, t);
    SameRunKeeps(w, Without(w, t));
  }

  lemma CallbackKeeps(w: World, t: nat, mediaTime: real, detected: bool)
    requires Sound(w) && t in w.pending && w.pending[t] == Callback(w.runId)
    ensures Sound(ProcessFrame(Without(w, t), mediaTime, detected))
  {
    hide Starting, Streaming, Backed, Paced, FailRunning, FailWorker, Schedule, Loop, Outstanding, Framing, One;
    SoundFrames(w);
    LoopIs(w, t);
    Ends(w, t);
    NotInFlight(w, t);
    assert Loop(w.pending, w.runId) - {t} == {};
    var u := Without(w, t);
    var v := u.(lastMediaTime := mediaTime);
    var outstanding := Outstanding(w.pending, w.runId);
    PacedSame(u, v, {}, outstanding);
    PacedSame(u, v.(dropped := v.dropped + 1), {}, outstanding);
    EndOfRun(w, v, {}, outstanding);
    if mediaTime == w.lastMediaTime {
      LoopGoesOn(w, u, outstanding);
    } else if w.backend == WorkerBackend && w.busy {
      LoopGoesOn(w, v.(dropped := v.dropped + 1), outstanding);
    } else if w.backend == WorkerBackend {
      var c := v.(busy := true, pending := v.pending[v.tickets := Capturing(v.runId, v.worker.value)], tickets := v.tickets + 1);
      Captures(v, c);
      OneOf(v.tickets);
      PacedFrames(c, {v.tickets}, {v.tickets});
      SameRunKeeps(w, c);
    } else if w.landmarker && detected {
      PacedBefore(v, {}, outstanding);
      Delivers(v, {}, Delivery(v.runId, v.sequence), v.sequence + 1);
      LoopGoesOn(w, v.(delivered := v.delivered + [Delivery(v.runId, v.sequence)], sequence := v.sequence + 1), {});
    }
  }

  lemma OneOf(t: nat)
    ensures One({t})
  {
  }

  lemma NotInFlight(w: World, t: nat)
    requires t in w.pending && w.pending[t].Callback?
    ensures Outstanding(w.pending, w.runId) - {t} == Outstanding(w.pending, w.runId)
  {
  }

  lemma PacedSame(u: World, v: World, loop: set<nat>, outstanding: set<nat>)
    requires Paced(u, loop, outstanding) && v == u.(lastMediaTime := v.lastMediaTime, dropped := v.dropped, busy := v.busy)
    ensures Paced(v, loop, outstanding)
  {
  }

  lemma PacedBefore(w: World, loop: set<nat>, outstanding: set<nat>)
    requires Paced(w, loop, outstanding)
    ensures DeliveredBefore(w.delivered, w.sequence)
  {
  }

  lemma TransferFailureKeeps(w: World, t: nat)
    requires Sound(w) && t in w.pending && w.pending[t].Capturing? && w.pending[t].run == w.runId
    ensures Sound(CaptureAnswers(w, t, w.runId, w.pending[t].worker, TransferFailed))
  {
    hide Starting, Streaming, Backed, Paced, FailRunning, FailWorker, Loop, Outstanding, One;
    LoopIs(w, t);
    OutstandingIs(w, t);
    Ends(w, t);
    assert w.worker == Some(w.pending[t].worker);
    hide Framing;
    var v := Without(w, t);
    assert Loop(w.pending, w.runId) - {t} == {} && Outstanding(w.pending, w.runId) - {t} == {};
    Numbers(v, {}, {});
    EndOfRun(w, v.(sequence := v.sequence + 1), {}, {});
  }

  lemma CaptureAnswersKeeps(w: World, t: nat, capture: Capture)
    requires Sound(w) && t in w.pending && w.pending[t].Capturing?
    ensures Sound(CaptureAnswers(w, t, w.pending[t].run, w.pending[t].worker, capture))
  {
    var run, worker := w.pending[t].run, w.pending[t].worker;
    if w.runId != run {
      StaleKeeps(w, t);
    } else if capture.TransferFailed? {
      TransferFailureKeeps(w, t);
    } else {
      hide Starting, Streaming, Backed, Paced, FailRunning, FailWorker, Schedule, Loop, Outstanding, One;
      LoopIs(w, t);
      OutstandingIs(w, t);
      Ends(w, t);
      assert w.worker == Some(worker) && w.backend == WorkerBackend && t < w.tickets;
      hide Framing;
      var v := Without(w, t);
      EndOfRun(w, v, {}, {});
      var posted := v.(pending := v.pending[t := Posted(run, worker, v.sequence)], sequence := v.sequence + 1);
      Posts(v, t, worker, posted);
      OneOf(t);
      LoopGoesOn(w, posted, {t});
    }
  }

  lemma WorkerAnswersFrameKeeps(w: World, t: nat, inferred: bool)
    requires Sound(w) && t in w.pending && w.pending[t].Posted?
    ensures Sound(WorkerAnswersFrame(w, t, w.pending[t].run, w.pending[t].sequence, inferred))
  {
    var run, sequence := w.pending[t].run, w.pending[t].sequence;
    if w.runId != run {
      StaleKeeps(w, t);
    } else {
      hide Starting, Streaming, Backed, Paced, FailRunning, FailWorker, Loop, Outstanding;
      OutstandingIs(w, t);
      Ends(w, t);
      NotInLoop(w, t);
      assert DeliveredBefore(w.delivered, sequence) && sequence < w.sequence;
      var loop := Loop(w.pending, w.runId);
      assert One(loop);
      hide Framing, One;
      var v := Without(w, t);
      EndOfRun(w, v, loop, {});
      Delivers(v, loop, Delivery(run, sequence), v.sequence);
      var d := v.(busy := false, delivered := v.delivered + [Delivery(run, sequence)]);
      PacedSame(v.(delivered := v.delivered + [Delivery(run, sequence)]), d, loop, {});
      PacedFrames(d, loop, {});
      SameRunKeeps(w, d);
    }
  }

  lemma NotInLoop(w: World, t: nat)
    requires t in w.pending && w.pending[t].Posted?
    ensures Loop(w.pending, w.runId) - {t} == Loop(w.pending, w.runId)
  {
  }

  lemma FailureKeeps(w: World)
    requires Sound(w) && w.running
    ensures Sound(FailWorker(w)) && Sound(FailRunning(w.(busy := false)))
  {
    var v := w.(busy := false);
    EndOfRun(w, w, Loop(w.pending, w.runId), Outstanding(w.pending, w.runId));
    EndOfRun(w, v, Loop(w.pending, w.runId), Outstanding(w.pending, w.runId));
  }

  // ---- Every run ----

  lemma TakeKeeps(w: World, step: Step)
    requires Sound(w)
    ensures Sound(Take(w, step))
  {
    hide Sound, Start, Stop, Close, EnterStart, WorkerAnswers, LandmarkerAnswers, AskForCamera, CameraAnswers, TakeStream,
         PlayAnswers, Settle, FrameCallback, CaptureAnswers, WorkerAnswersFrame, FailWorker, FailRunning;
    match step
    case Starts => StartKeeps(w);
    case Stops => StopKeeps(w);
    case Closes => CloseKeeps(w);
    case Enters(k) => if At(w, k, Scheduled) { EnterKeeps(w, k); }
    case WorkerReplies(k, ready) => if k in w.starts && w.starts[k].AwaitingWorker? { WorkerAnswersKeeps(w, k, ready); }
    case LandmarkerReplies(k, ready) => if At(w, k, AwaitingLandmarker) { LandmarkerAnswersKeeps(w, k, ready); }
    case AsksForCamera(k) => if At(w, k, BackendReady) { AskForCameraKeeps(w, k); }
    case CameraReplies(k, granted) => if At(w, k, AwaitingCamera) { CameraAnswersKeeps(w, k, granted); }
    case TakesStream(k) => if k in w.starts && w.starts[k].Granted? { TakeStreamKeeps(w, k); }
    case PlayReplies(k, playing) => if k in w.starts && w.starts[k].AwaitingPlay? { PlayAnswersKeeps(w, k, playing); }
    case Settles(k) => if At(w, k, Settling) { SettleKeeps(w, k); }
    case Calls(t, mediaTime, detected) =>
      if t in w.pending && w.pending[t].Callback? { FrameCallbackKeeps(w, t, mediaTime, detected); }
    case CaptureReplies(t, capture) => if t in w.pending && w.pending[t].Capturing? { CaptureAnswersKeeps(w, t, capture); }
    case WorkerRepliesFrame(t, inferred) => if t in w.pending && w.pending[t].Posted? { WorkerAnswersFrameKeeps(w, t, inferred); }
    case WorkerErrors(worker) => if w.running { FailureKeeps(w); }
    case CameraEnding(run) => if w.running { FailureKeeps(w); }
  }

  lemma {:induction false} RunSound(steps: seq<Step>)
    ensures Sound(After(steps))
  {
    if steps == [] {
      InitialSound();
    } else {
      hide Sound, Take;
      RunSound(steps[..|steps| - 1]);
      TakeKeeps(After(steps[..|steps| - 1]), steps[|steps| - 1]);
    }
  }

  lemma InitialSound()
    ensures Sound(Initial())
  {
  }

  // ---- What follows ----

  /** The only live camera streams are the current one and those granted to attempts that have yet to continue. */
  lemma OnlyCurrentStreamLives(steps: seq<Step>, s: nat)
    ensures var w := After(steps);
            s in w.live <==> w.stream == Some(s) || exists k :: At(w, k, Granted(s))
  {
    var w := After(steps);
    RunSound(steps);
    if s in w.live && w.stream != Some(s) {
      var k :| k in w.starts && w.starts[k].Granted? && w.starts[k].stream == s;
      assert At(w, k, Granted(s));
    }
    if k :| At(w, k, Granted(s)) { HeldHas(w.starts, k); }
  }

  /** No stream the tracker holds survives a stop; what lives on was granted to a stopped attempt yet to continue. */
  lemma NoStreamSurvivesStop(steps: seq<Step>)
    ensures var w := Stop(After(steps));
            && w.stream.None? && !w.running && w.startup.None?
            && forall s :: s in w.live ==> exists k :: k in w.aborted && At(w, k, Granted(s))
  {
    hide Framing, Backed, After;
    RunSound(steps);
    StopAttempts(After(steps));
    var w := Stop(After(steps));
    forall s | s in w.live ensures exists k :: k in w.aborted && At(w, k, Granted(s)) {
      var k :| k in w.starts && w.starts[k].Granted? && w.starts[k].stream == s;
      assert k in w.aborted && At(w, k, Granted(s));
    }
  }

  /** A stopped attempt that was granted a stream kills it when it continues, and leaves the current one alone. */
  lemma LateStreamDies(steps: seq<Step>, k: nat)
    requires var w := After(steps); k in w.aborted && k in w.starts && w.starts[k].Granted?
    ensures var w := After(steps);
            Take(w, TakesStream(k)).live == w.live - {w.starts[k].stream} && w.stream != Some(w.starts[k].stream)
            && Take(w, TakesStream(k)).stream == w.stream
  {
    hide Framing, Backed, After, Starting;
    RunSound(steps);
    HeldHas(After(steps).starts, k);
  }

  /** The gate is busy exactly when one frame of the current run is outstanding, and never more than one is. */
  lemma BusyIffOneOutstanding(steps: seq<Step>)
    ensures var w := After(steps);
            && (w.busy <==> exists t :: t in w.pending && InFlight(w.pending[t], w.runId))
            && (forall t, u :: t in w.pending && u in w.pending && InFlight(w.pending[t], w.runId) && InFlight(w.pending[u], w.runId) ==> t == u)
  {
    var w := After(steps);
    RunSound(steps);
    if w.busy {
      var t :| Outstanding(w.pending, w.runId) == {t};
      assert t in Outstanding(w.pending, w.runId);
    }
    forall t, u | t in w.pending && u in w.pending && InFlight(w.pending[t], w.runId) && InFlight(w.pending[u], w.runId)
      ensures t == u
    {
      OutstandingIs(w, t);
      OutstandingIs(w, u);
    }
    if t :| t in w.pending && InFlight(w.pending[t], w.runId) { OutstandingIs(w, t); }
  }

  /** Frames are delivered in strictly increasing sequence over the tracker's whole life, so none twice. */
  lemma DeliveredInOrder(steps: seq<Step>)
    ensures Increasing(After(steps).delivered)
  {
    RunSound(steps);
  }

  /** There is never more than one worker, and none is left when nothing needs it. */
  lemma OneWorker(steps: seq<Step>)
    ensures |After(steps).workers| <= 1 && Close(After(steps)).workers == {}
  {
    RunSound(steps);
    CloseKeeps(After(steps));
  }

  /** A running tracker always has the backend its frame loop looks for. */
  lemma BackendAvailable(steps: seq<Step>)
    requires After(steps).running
    ensures After(steps).backend == WorkerBackend ==> After(steps).worker.Some?
    ensures After(steps).backend != WorkerBackend ==> After(steps).backend == MainThread && After(steps).landmarker
  {
    hide After, Starting, Streaming, Framing;
    RunSound(steps);
  }

  /** What a continuation can change: the tracker's own state and what it has delivered. */
  predicate Unmoved(w: World, v: World) {
    && v.running == w.running && v.runId == w.runId && v.startup == w.startup && v.backend == w.backend && v.worker == w.worker
    && v.landmarker == w.landmarker && v.stream == w.stream && v.busy == w.busy && v.sequence == w.sequence && v.delivered == w.delivered
    && v.workers == w.workers
  }

  /** A stopped attempt, whatever it was waiting for. */
  predicate StaleStart(w: World, step: Step) {
    match step
    case Enters(k) => k in w.aborted
    case WorkerReplies(k, _) => k in w.aborted
    case LandmarkerReplies(k, _) => k in w.aborted
    case AsksForCamera(k) => k in w.aborted
    case CameraReplies(k, _) => k in w.aborted
    case TakesStream(k) => k in w.aborted
    case PlayReplies(k, _) => k in w.aborted
    case Settles(k) => k in w.aborted
    case _ => false
  }

  /** A frame step left over from an earlier run. */
  predicate StaleFrame(w: World, step: Step) {
    match step
    case Calls(t, _, _) => t in w.pending && w.pending[t].run != w.runId
    case CaptureReplies(t, _) => t in w.pending && w.pending[t].run != w.runId
    case WorkerRepliesFrame(t, _) => t in w.pending && w.pending[t].run != w.runId
    case WorkerErrors(worker) => w.worker != Some(worker)
    case CameraEnding(run) => run != w.runId
    case _ => false
  }

  lemma AbortedIsInert(w: World, k: nat, answer: bool)
    requires k in w.aborted
    ensures Unmoved(w, EnterStart(w, k)) && Unmoved(w, WorkerAnswers(w, k, answer)) && Unmoved(w, LandmarkerAnswers(w, k, answer))
    ensures Unmoved(w, AskForCamera(w, k)) && Unmoved(w, CameraAnswers(w, k, answer))
  {
  }

  lemma AbortedStreamIsInert(w: World, k: nat, stream: nat, playing: bool)
    requires k in w.aborted
    ensures Unmoved(w, TakeStream(w, k, stream)) && Unmoved(w, PlayAnswers(w, k, stream, playing))
    ensures w.startup != Some(k) ==> Unmoved(w, Settle(w, k))
  {
  }

  lemma StaleStartIsInert(w: World, step: Step)
    requires StartingOf(w) && StaleStart(w, step)
    ensures Unmoved(w, Take(w, step))
  {
    assert step.Settles? ==> w.startup != Some(step.start);
    hide Starting, EnterStart, WorkerAnswers, LandmarkerAnswers, AskForCamera, CameraAnswers, TakeStream, PlayAnswers, Settle;
    var k := step.start;
    AbortedIsInert(w, k, true);
    AbortedIsInert(w, k, false);
    if k in w.starts && w.starts[k].Granted? { AbortedStreamIsInert(w, k, w.starts[k].stream, true); }
    if step.PlayReplies? && k in w.starts && w.starts[k].AwaitingPlay? { AbortedStreamIsInert(w, k, w.starts[k].stream, step.playing); }
    AbortedStreamIsInert(w, k, 0, true);
  }

  lemma StaleFrameIsInert(w: World, step: Step)
    requires StaleFrame(w, step)
    ensures Unmoved(w, Take(w, step))
  {
    hide Start, Stop, Close, ProcessFrame, FailWorker, FailRunning, Schedule, EnterStart, WorkerAnswers, LandmarkerAnswers,
         AskForCamera, CameraAnswers, TakeStream, PlayAnswers, Settle;
  }

  /** Whatever continues after its attempt was stopped or its run was over touches neither the tracker nor its gate. */
  lemma StaleIsInert(steps: seq<Step>, step: Step)
    requires StaleStart(After(steps), step) || StaleFrame(After(steps), step)
    ensures Unmoved(After(steps), Take(After(steps), step))
  {
    hide Take, Unmoved, After, StaleStart, StaleFrame, Streaming, Backed, Framing;
    RunSound(steps);
    if StaleStart(After(steps), step) { StaleStartIsInert(After(steps), step); } else { StaleFrameIsInert(After(steps), step); }
  }

  /** Everything of a stopped run and every aborted attempt stays stale from then on. */
  lemma {:induction false} StoppedStaysStale(steps: seq<Step>, more: seq<Step>)
    ensures Grows(Stop(After(steps)), After(steps + [Stops] + more))
    ensures forall t :: t in Stop(After(steps)).pending ==>
              Stop(After(steps)).pending[t].run < After(steps + [Stops] + more).runId
  {
    hide Sound, Take, Stop;
    var w := Stop(After(steps));
    StopEndsRun(steps);
    if more == [] {
      assert steps + [Stops] + [] == steps + [Stops] && (steps + [Stops])[..|steps|] == steps;
      StopIsTaken(After(steps));
    } else {
      var front := more[..|more| - 1];
      assert (steps + [Stops] + more)[..|steps| + 1 + |front|] == steps + [Stops] + front;
      StoppedStaysStale(steps, front);
      Monotone(After(steps + [Stops] + front), more[|more| - 1]);
    }
  }

  lemma StopIsTaken(w: World)
    ensures Take(w, Stops) == Stop(w)
  {
  }

  lemma StopEndsRun(steps: seq<Step>)
    ensures forall t :: t in Stop(After(steps)).pending ==> Stop(After(steps)).pending[t].run < Stop(After(steps)).runId
  {
    hide Starting, Streaming, Backed, Loop, Outstanding, After;
    RunSound(steps);
  }

  predicate Grows(w: World, v: World) { w.runId <= v.runId && w.aborted <= v.aborted }

  lemma RunsGrow(w: World)
    ensures Grows(w, FailRunning(w)) && Grows(w, FailWorker(w)) && Grows(w, Schedule(w)) && Grows(w, Start(w))
    ensures Grows(w, Stop(w)) && Grows(w, Close(w)) && Grows(w, DiscardWorker(w)) && Grows(w, ReleaseStream(w))
  {
  }

  lemma FramesGrow(w: World, mediaTime: real, detected: bool)
    ensures Grows(w, ProcessFrame(w, mediaTime, detected))
  {
  }

  lemma AttemptsGrow(w: World, k: nat, stream: nat, answer: bool)
    ensures Grows(w, EnterStart(w, k)) && Grows(w, WorkerAnswers(w, k, answer)) && Grows(w, LandmarkerAnswers(w, k, answer))
    ensures Grows(w, AskForCamera(w, k)) && Grows(w, CameraAnswers(w, k, answer)) && Grows(w, TakeStream(w, k, stream))
    ensures Grows(w, Settle(w, k))
  {
  }

  lemma PlayGrows(w: World, k: nat, stream: nat, playing: bool)
    ensures Grows(w, PlayAnswers(w, k, stream, playing))
  {
  }

  lemma AnswersGrow(w: World, t: nat, run: nat, worker: nat, sequence: nat, capture: Capture, inferred: bool)
    ensures Grows(w, CaptureAnswers(w, t, run, worker, capture)) && Grows(w, WorkerAnswersFrame(w, t, run, sequence, inferred))
  {
    hide FailWorker;
    var v := Without(w, t);
    RunsGrow(v);
    RunsGrow(v.(sequence := v.sequence + 1));
  }

  lemma EventsGrow(w: World, t: nat, run: nat, mediaTime: real, detected: bool)
    ensures Grows(w, w) && Grows(w, WorkerFails(w, t)) && Grows(w, CameraEnds(w, run))
    ensures Grows(w, FrameCallback(w, t, run, mediaTime, detected))
  {
    hide ProcessFrame, FailRunning, FailWorker;
    RunsGrow(w);
    RunsGrow(w.(busy := false));
    FramesGrow(Without(w, t), mediaTime, detected);
  }

  lemma Monotone(w: World, step: Step)
    ensures Grows(w, Take(w, step))
  {
    hide Grows, Start, Stop, Close, FailRunning, FailWorker, EnterStart, WorkerAnswers, LandmarkerAnswers, AskForCamera,
         CameraAnswers, TakeStream, PlayAnswers, Settle, CaptureAnswers, WorkerAnswersFrame, FrameCallback, WorkerFails, CameraEnds;
    RunsGrow(w);
    EventsGrow(w, 0, 0, 0.0, true);
    match step
    case Enters(k) => AttemptsGrow(w, k, 0, true);
    case WorkerReplies(k, ready) => AttemptsGrow(w, k, 0, ready);
    case LandmarkerReplies(k, ready) => AttemptsGrow(w, k, 0, ready);
    case AsksForCamera(k) => AttemptsGrow(w, k, 0, true);
    case CameraReplies(k, granted) => AttemptsGrow(w, k, 0, granted);
    case TakesStream(k) => if k in w.starts && w.starts[k].Granted? { AttemptsGrow(w, k, w.starts[k].stream, true); }
    case PlayReplies(k, playing) => if k in w.starts && w.starts[k].AwaitingPlay? { PlayGrows(w, k, w.starts[k].stream, playing); }
    case Settles(k) => AttemptsGrow(w, k, 0, true);
    case Calls(t, mediaTime, detected) =>
      if t in w.pending && w.pending[t].Callback? { EventsGrow(w, t, w.pending[t].run, mediaTime, detected); }
    case CaptureReplies(t, capture) =>
      if t in w.pending && w.pending[t].Capturing? { AnswersGrow(w, t, w.pending[t].run, w.pending[t].worker, 0, capture, true); }
    case WorkerRepliesFrame(t, inferred) =>
      if t in w.pending && w.pending[t].Posted? { AnswersGrow(w, t, w.pending[t].run, 0, w.pending[t].sequence, NoBitmap, inferred); }
    case WorkerErrors(worker) => EventsGrow(w, worker, 0, 0.0, true);
    case CameraEnding(run) => EventsGrow(w, 0, run, 0.0, true);
    case _ =>
  }

  // ---- Progress ----

  /** A new attempt up to a ready backend, with nothing in between. */
  function Prepared(w: World, k: nat): World {
    var entered := Take(Take(w, Starts), Enters(k));
    if w.backend == NoBackend then Take(entered, WorkerReplies(k, true)) else entered
  }

  function Streamed(w: World, k: nat): World { Take(Take(Take(w, AsksForCamera(k)), CameraReplies(k, true)), TakesStream(k)) }

  /** Whatever happened before, an attempt of an idle tracker that nothing disturbs ends running on a new live stream. */
  lemma UndisturbedStartRuns(steps: seq<Step>)
    requires !After(steps).running && After(steps).startup.None?
    ensures var w, k := After(steps), After(steps).runId + 1; var r := Take(Streamed(Prepared(w, k), k), PlayReplies(k, true));
            && r.running && r.runId == k && r.stream == Some(w.streams) && w.streams in r.live && r.backend != NoBackend
            && !r.busy && r.pending == w.pending[w.tickets := Callback(k)]
  {
    var w, k := After(steps), After(steps).runId + 1;
    hide After, Prepared, Streamed, Streaming, Backed, Framing;
    RunSound(steps);
    PreparedReady(w, k);
    StreamedAwaits(Prepared(w, k), k);
  }

  predicate ReadyAfter(w: World, r: World, k: nat) {
    && At(r, k, BackendReady) && r.backend != NoBackend && r.runId == k && r.aborted == w.aborted
    && r.streams == w.streams && r.pending == w.pending && r.tickets == w.tickets
  }

  lemma PreparedReady(w: World, k: nat)
    requires !w.running && w.startup.None? && k == w.runId + 1 && k !in w.aborted
    ensures ReadyAfter(w, Prepared(w, k), k)
  {
    hide Take, EnterStart, WorkerAnswers;
    var started := Take(w, Starts);
    StartSchedules(w, k);
    if w.backend == NoBackend { EntersNewWorker(started, k); } else { EntersReady(started, k); }
  }

  lemma StartSchedules(w: World, k: nat)
    requires !w.running && w.startup.None? && k == w.runId + 1
    ensures Take(w, Starts) == w.(runId := k, startup := Some(k), starts := w.starts[k := Scheduled])
  {
  }

  lemma EntersReady(w: World, k: nat)
    requires At(w, k, Scheduled) && k !in w.aborted && w.backend != NoBackend
    ensures Take(w, Enters(k)) == w.(starts := w.starts[k := BackendReady])
  {
  }

  lemma EntersNewWorker(w: World, k: nat)
    requires At(w, k, Scheduled) && k !in w.aborted && w.backend == NoBackend && w.runId == k
    ensures ReadyAfter(w, Take(Take(w, Enters(k)), WorkerReplies(k, true)), k)
  {
    hide Start, Stop, Close, LandmarkerAnswers, PlayAnswers, FrameCallback, CaptureAnswers, WorkerAnswersFrame, WorkerFails, CameraEnds;
  }

  lemma StreamedAwaits(w: World, k: nat)
    requires At(w, k, BackendReady) && k !in w.aborted
    ensures var r := Streamed(w, k); At(r, k, AwaitingPlay(w.streams)) && r.stream == Some(w.streams) && w.streams in r.live
                                     && r.(starts := w.starts, stream := w.stream, live := w.live, streams := w.streams) == w
  {
  }
}
