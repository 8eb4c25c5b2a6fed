/** The camera tracker as a protocol: every piece of code between two awaits is one step that any other may overtake. */
module Tracker {
  import opened Options

  datatype Backend = NoBackend | WorkerBackend | MainThread

  /** Where a call of the asynchronous start is suspended; a settling one has returned or thrown. */
  datatype Stage =
    | Scheduled
    | AwaitingWorker(worker: nat)
    | AwaitingLandmarker
    | BackendReady
    | AwaitingCamera
    | Granted(stream: nat)
    | AwaitingPlay(stream: nat)
    | Settling

  /** A frame callback that was requested, a bitmap being created, or a frame posted to the worker. */
  datatype Activity =
    | Callback(run: nat)
    | Capturing(run: nat, worker: nat)
    | Posted(run: nat, worker: nat, sequence: nat)

  datatype Delivery = Delivery(run: nat, sequence: nat)

  /** The bitmap could not be created, could not be transferred after it got its number, or is with the worker. */
  datatype Capture = NoBitmap | TransferFailed | Transferred

  /** The fields of the tracker, and what is going on outside it. */
  datatype World = World(
    running: bool, runId: nat, startup: Option<nat>, backend: Backend, worker: Option<nat>, landmarker: bool,
    stream: Option<nat>, busy: bool, dropped: nat, sequence: nat, lastMediaTime: real,
    aborted: set<nat>, starts: map<nat, Stage>, live: set<nat>, workers: set<nat>, pending: map<nat, Activity>,
    delivered: seq<Delivery>, streams: nat, spawned: nat, tickets: nat)

  function Initial(): World {
    World(false, 0, None, NoBackend, None, false, None, false, 0, 0, -1.0, {}, map[], {}, {}, map[], [], 0, 0, 0)
  }

  function Of(id: Option<nat>): set<nat> { if id.Some? then {id.value} else {} }

  // ---- The private helpers ----

  function ReleaseStream(w: World): World { w.(live := w.live - Of(w.stream), stream := None) }

  function DiscardWorker(w: World): World {
    w.(workers := w.workers - Of(w.worker), worker := None,
       backend := if w.backend == WorkerBackend then NoBackend else w.backend)
  }

  function FailRunning(w: World): World {
    ReleaseStream(w.(running := false, runId := w.runId + 1, busy := false, dropped := 0))
  }

  function Schedule(w: World): World {
    if w.running then w.(pending := w.pending[w.tickets := Callback(w.runId)], tickets := w.tickets + 1) else w
  }

  function Suspend(w: World, k: nat, stage: Stage): World { w.(starts := w.starts[k := stage]) }

  function Without(w: World, t: nat): World { w.(pending := w.pending - {t}) }

  // ---- Starting ----

  /** A new attempt, unless the tracker runs or an attempt is under way. */
  function Start(w: World): World {
    if w.running || w.startup.Some? then w
    else Suspend(w.(runId := w.runId + 1, startup := Some(w.runId + 1)), w.runId + 1, Scheduled)
  }

  /** Up to the first await that really waits: a ready backend, or a new worker. */
  function EnterStart(w: World, k: nat): World {
    if k in w.aborted then Suspend(w, k, Settling)
    else if w.backend != NoBackend then Suspend(w, k, BackendReady)
    else Suspend(w.(worker := Some(w.spawned), workers := w.workers + {w.spawned}, spawned := w.spawned + 1), k, AwaitingWorker(w.spawned))
  }

  function WorkerAnswers(w: World, k: nat, ready: bool): World {
    if k in w.aborted then Suspend(w, k, Settling)
    else if ready then Suspend(w.(backend := WorkerBackend), k, BackendReady)
    else Suspend(DiscardWorker(w), k, AwaitingLandmarker)
  }

  function LandmarkerAnswers(w: World, k: nat, ready: bool): World {
    if k in w.aborted || !ready then Suspend(w, k, Settling)
    else Suspend(w.(landmarker := true, backend := MainThread), k, BackendReady)
  }

  function AskForCamera(w: World, k: nat): World {
    Suspend(w, k, if k in w.aborted then Settling else AwaitingCamera)
  }

  /** The permission answer; a granted stream is live before the tracker learns of it. */
  function CameraAnswers(w: World, k: nat, granted: bool): World {
    if granted then Suspend(w.(live := w.live + {w.streams}, streams := w.streams + 1), k, Granted(w.streams))
    else Suspend(w, k, Settling)
  }

  function TakeStream(w: World, k: nat, stream: nat): World {
    if k in w.aborted then Suspend(w.(live := w.live - {stream}), k, Settling)
    else Suspend(w.(stream := Some(stream)), k, AwaitingPlay(stream))
  }

  function PlayAnswers(w: World, k: nat, stream: nat, playing: bool): World {
    if k in w.aborted then Suspend(w, k, Settling)
    else if playing then Schedule(Suspend(w.(running := true, lastMediaTime := -1.0, busy := false, dropped := 0), k, Settling))
    else Suspend(if w.stream == Some(stream) then ReleaseStream(w) else w, k, Settling)
  }

  /** The promise's last handler forgets the attempt, if it is still the current one. */
  function Settle(w: World, k: nat): World {
    w.(starts := w.starts - {k}, startup := if w.startup == Some(k) then None else w.startup)
  }

  // ---- Stopping ----

  function Stop(w: World): World { ReleaseStream(AbortStartup(w).(busy := false, dropped := 0)) }

  /** Ends the run and aborts the attempt under way, with its worker if it has got no further. */
  function AbortStartup(w: World): World {
    var a := w.(running := false, runId := w.runId + 1, startup := None, aborted := w.aborted + Of(w.startup));
    if w.startup.Some? && w.backend == NoBackend then DiscardWorker(a) else a
  }

  function Close(w: World): World { DiscardWorker(Stop(w)).(landmarker := false, backend := NoBackend) }

  // ---- Frames ----

  /** What ends a run after a worker failure. */
  function FailWorker(w: World): World { FailRunning(DiscardWorker(w.(busy := false))) }

  function ProcessFrame(w: World, mediaTime: real, detected: bool): World {
    if !w.running then w
    else if mediaTime == w.lastMediaTime then Schedule(w)
    else
      var v := w.(lastMediaTime := mediaTime);
      if w.backend == WorkerBackend then
        if w.busy then Schedule(v.(dropped := v.dropped + 1))
        else if w.worker.None? then FailWorker(v)
        else v.(busy := true, pending := v.pending[v.tickets := Capturing(v.runId, v.worker.value)], tickets := v.tickets + 1)
      else if !w.landmarker || !detected then FailRunning(v)
      else Schedule(v.(delivered := v.delivered + [Delivery(v.runId, v.sequence)], sequence := v.sequence + 1))
  }

  function FrameCallback(w: World, t: nat, run: nat, mediaTime: real, detected: bool): World {
    var v := Without(w, t);
    if w.runId == run then ProcessFrame(v, mediaTime, detected) else v
  }

  predicate Stale(w: World, run: nat, worker: nat) { !w.running || w.worker != Some(worker) || w.runId != run }

  function CaptureAnswers(w: World, t: nat, run: nat, worker: nat, capture: Capture): World {
    var v := Without(w, t);
    if Stale(w, run, worker) then v
    else match capture
      case NoBitmap => FailWorker(v)
      case TransferFailed => FailWorker(v.(sequence := v.sequence + 1))
      case Transferred => Schedule(v.(pending := v.pending[t := Posted(run, worker, v.sequence)], sequence := v.sequence + 1))
  }

  function WorkerAnswersFrame(w: World, t: nat, run: nat, sequence: nat, inferred: bool): World {
    var v := Without(w, t);
    if !w.running || run != w.runId then v
    else if inferred then v.(busy := false, delivered := v.delivered + [Delivery(run, sequence)])
    else FailWorker(v)
  }

  function WorkerFails(w: World, worker: nat): World {
    if !w.running || w.worker != Some(worker) then w else FailWorker(w)
  }

  function CameraEnds(w: World, run: nat): World {
    if w.runId != run || !w.running then w else FailRunning(w.(busy := false))
  }

  // ---- Any interleaving ----

  datatype Step =
    | Starts | Stops | Closes
    | Enters(start: nat)
    | WorkerReplies(start: nat, ready: bool)
    | LandmarkerReplies(start: nat, ready: bool)
    | AsksForCamera(start: nat)
    | CameraReplies(start: nat, granted: bool)
    | TakesStream(start: nat)
    | PlayReplies(start: nat, playing: bool)
    | Settles(start: nat)
    | Calls(ticket: nat, mediaTime: real, detected: bool)
    | CaptureReplies(ticket: nat, capture: Capture)
    | WorkerRepliesFrame(ticket: nat, inferred: bool)
    | WorkerErrors(worker: nat)
    | CameraEnding(run: nat)

  predicate At(w: World, k: nat, stage: Stage) { k in w.starts && w.starts[k] == stage }

  /** The world after a step; a step with nothing suspended to continue does nothing. */
  function Take(w: World, step: Step): World {
    match step
    case Starts => Start(w)
    case Stops => Stop(w)
    case Closes => Close(w)
    case Enters(k) => if At(w, k, Scheduled) then EnterStart(w, k) else w
    case WorkerReplies(k, ready) => if k in w.starts && w.starts[k].AwaitingWorker? then WorkerAnswers(w, k, ready) else w
    case LandmarkerReplies(k, ready) => if At(w, k, AwaitingLandmarker) then LandmarkerAnswers(w, k, ready) else w
    case AsksForCamera(k) => if At(w, k, BackendReady) then AskForCamera(w, k) else w
    case CameraReplies(k, granted) => if At(w, k, AwaitingCamera) then CameraAnswers(w, k, granted) else w
    case TakesStream(k) => if k in w.starts && w.starts[k].Granted? then TakeStream(w, k, w.starts[k].stream) else w
    case PlayReplies(k, playing) => if k in w.starts && w.starts[k].AwaitingPlay? then PlayAnswers(w, k, w.starts[k].stream, playing) else w
    case Settles(k) => if At(w, k, Settling) then Settle(w, k) else w
    case Calls(t, mediaTime, detected) =>
      if t in w.pending && w.pending[t].Callback? then FrameCallback(w, t, w.pending[t].run, mediaTime, detected) else w
    case CaptureReplies(t, capture) =>
      if t in w.pending && w.pending[t].Capturing? then CaptureAnswers(w, t, w.pending[t].run, w.pending[t].worker, capture) else w
    case WorkerRepliesFrame(t, inferred) =>
      if t in w.pending && w.pending[t].Posted? then WorkerAnswersFrame(w, t, w.pending[t].run, w.pending[t].sequence, inferred) else w
    case WorkerErrors(worker) => WorkerFails(w, worker)
    case CameraEnding(run) => CameraEnds(w, run)
  }

  function After(steps: seq<Step>): World {
    if steps == [] then Initial() else Take(After(steps[..|steps| - 1]), steps[|steps| - 1])
  }
}
