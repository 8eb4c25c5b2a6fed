/** What becomes of a frame, of a failure and of a refused start, whatever the tracker did before. */
module TrackerOutcomes {
  import opened Options
  import opened Tracker
  import opened TrackerRuns

  // ---- Frames ----

  /** The frame callback that the current run waits for. */
  predicate Waits(w: World, t: nat) { w.running && t in w.pending && w.pending[t] == Callback(w.runId) }

  /** The step has asked for one more frame callback, and left the rest of the protocol alone. */
  predicate AsksAgain(w: World, v: World, t: nat) {
    && v.running && v.runId == w.runId && v.stream == w.stream && v.live == w.live && v.backend == w.backend && v.worker == w.worker
    && v.workers == w.workers && v.starts == w.starts && v.startup == w.startup && v.landmarker == w.landmarker
    && Waits(v, t)
  }

  /** A frame the tracker has already seen is not looked at again. */
  lemma RepeatedFrameSkipped(w: World, t: nat, detected: bool)
    requires Waits(w, t)
    ensures var v := Take(w, Calls(t, w.lastMediaTime, detected));
            && AsksAgain(w, v, w.tickets) && v.delivered == w.delivered && v.busy == w.busy && v.dropped == w.dropped && v.sequence == w.sequence
  {
  }

  /** While the worker is busy a new frame is dropped, and counted. */
  lemma BusyDropsFrame(w: World, t: nat, mediaTime: real, detected: bool)
    requires Waits(w, t) && w.backend == WorkerBackend && w.busy && mediaTime != w.lastMediaTime
    ensures var v := Take(w, Calls(t, mediaTime, detected));
            && AsksAgain(w, v, w.tickets) && v.dropped == w.dropped + 1 && v.lastMediaTime == mediaTime
            && v.delivered == w.delivered && v.busy && v.sequence == w.sequence
  {
  }

  /** On the main thread a new frame is delivered at once. */
  lemma MainThreadDelivers(steps: seq<Step>, t: nat, mediaTime: real)
    requires var w := After(steps); Waits(w, t) && w.backend == MainThread && mediaTime != w.lastMediaTime
    ensures var w := After(steps);
            var v := Take(w, Calls(t, mediaTime, true));
            && AsksAgain(w, v, w.tickets) && v.delivered == w.delivered + [Delivery(w.runId, w.sequence)]
            && v.sequence == w.sequence + 1 && v.lastMediaTime == mediaTime && v.busy == w.busy
  {
    RunSound(steps);
    hide After;
  }

  /** With the worker free, a new frame takes the gate; once its bitmap is with the worker the next callback is asked for;
      and the worker's answer delivers it, numbered, and frees the gate. */
  lemma WorkerDelivers(steps: seq<Step>, t: nat, mediaTime: real)
    requires var w := After(steps); Waits(w, t) && w.backend == WorkerBackend && !w.busy && mediaTime != w.lastMediaTime
    ensures var w := After(steps);
            var k := w.tickets;
            var captured := Take(w, Calls(t, mediaTime, true));
            var posted := Take(captured, CaptureReplies(k, Transferred));
            var done := Take(posted, WorkerRepliesFrame(k, true));
            && captured.running && captured.busy && captured.delivered == w.delivered && captured.lastMediaTime == mediaTime
            && AsksAgain(w, posted, k + 1) && posted.busy && posted.delivered == w.delivered
            && AsksAgain(w, done, k + 1) && !done.busy && done.delivered == w.delivered + [Delivery(w.runId, w.sequence)]
            && done.sequence == w.sequence + 1 && done.dropped == w.dropped
  {
    RunSound(steps);
    hide After, StreamingOf, StartingOf;
  }

  // ---- The end of a run ----

  /** The run is over, its stream stopped and its gate free; nothing waits for a frame any more. */
  predicate RunOver(w: World, v: World) {
    && !v.running && v.runId == w.runId + 1 && v.stream.None? && v.live == w.live - Of(w.stream) && !v.busy && v.dropped == 0
    && v.delivered == w.delivered && v.starts == w.starts && v.startup == w.startup && v.landmarker == w.landmarker
  }

  predicate KeepsBackend(w: World, v: World) { v.backend == w.backend && v.worker == w.worker && v.workers == w.workers }

  /** The worker is gone too; the next start makes a new one. */
  predicate LosesWorker(w: World, v: World) { v.backend == NoBackend && v.worker.None? && v.workers == w.workers - Of(w.worker) }

  /** The camera ending, or a detection that throws on the main thread, ends the run. */
  lemma CameraEndsRun(w: World)
    requires w.running
    ensures RunOver(w, Take(w, CameraEnding(w.runId))) && KeepsBackend(w, Take(w, CameraEnding(w.runId)))
  {
  }

  lemma DetectionEndsRun(w: World, t: nat, mediaTime: real)
    requires Waits(w, t) && w.backend == MainThread && mediaTime != w.lastMediaTime
    ensures RunOver(w, Take(w, Calls(t, mediaTime, false))) && KeepsBackend(w, Take(w, Calls(t, mediaTime, false)))
  {
  }

  /** An error of the worker, or a frame it cannot be given or fails on, ends the run and the worker. */
  lemma WorkerErrorEndsRun(w: World)
    requires w.running && w.worker.Some? && w.backend == WorkerBackend
    ensures RunOver(w, Take(w, WorkerErrors(w.worker.value))) && LosesWorker(w, Take(w, WorkerErrors(w.worker.value)))
  {
  }

  lemma CaptureEndsRun(w: World, t: nat, capture: Capture)
    requires w.running && w.worker.Some? && w.backend == WorkerBackend && capture != Transferred
    requires t in w.pending && w.pending[t] == Capturing(w.runId, w.worker.value)
    ensures RunOver(w, Take(w, CaptureReplies(t, capture))) && LosesWorker(w, Take(w, CaptureReplies(t, capture)))
    ensures Take(w, CaptureReplies(t, capture)).sequence == w.sequence + if capture == NoBitmap then 0 else 1
  {
  }

  lemma InferenceEndsRun(w: World, t: nat, worker: nat, sequence: nat)
    requires w.running && w.worker.Some? && w.backend == WorkerBackend && t in w.pending && w.pending[t] == Posted(w.runId, worker, sequence)
    ensures RunOver(w, Take(w, WorkerRepliesFrame(t, false))) && LosesWorker(w, Take(w, WorkerRepliesFrame(t, false)))
  {
  }

  /** Stopping ends a run or an attempt alike; a worker that is ready is kept for the next one, one that is not is dropped. */
  lemma StopEnds(w: World)
    ensures var v := Take(w, Stops);
            && !v.running && v.startup.None? && v.runId == w.runId + 1 && v.stream.None? && v.live == w.live - Of(w.stream)
            && !v.busy && v.dropped == 0 && v.delivered == w.delivered && v.landmarker == w.landmarker
            && v.aborted == w.aborted + Of(w.startup) && v.starts == w.starts && v.pending == w.pending
            && (w.startup.None? || w.backend != NoBackend ==> KeepsBackend(w, v))
            && (w.startup.Some? && w.backend == NoBackend ==> LosesWorker(w, v))
  {
  }

  lemma CloseEnds(w: World)
    ensures var v := Take(w, Closes);
            && !v.running && v.startup.None? && v.stream.None? && v.live == w.live - Of(w.stream) && !v.busy
            && v.worker.None? && v.workers == w.workers - Of(w.worker) && !v.landmarker && v.backend == NoBackend
  {
  }

  // ---- Refused starts ----

  /** The attempt is about to report its end, and holds nothing. */
  predicate GivesUp(w: World, v: World, k: nat) {
    At(v, k, Settling) && !v.running && v.live == w.live - Of(w.stream) && v.stream.None? && v.delivered == w.delivered
  }

  /** An attempt whose worker fails falls back to the main thread; one that fails there too, or is denied the camera or
      cannot play its stream, gives up, and the tracker can be started again. */
  lemma FailingStartGivesUp(steps: seq<Step>, k: nat)
    requires var w := After(steps); w.startup == Some(k)
    ensures var w := After(steps);
            && (At(w, k, AwaitingLandmarker) ==> GivesUp(w, Take(w, LandmarkerReplies(k, false)), k))
            && (At(w, k, AwaitingCamera) ==> GivesUp(w, Take(w, CameraReplies(k, false)), k))
            && k in w.starts && (w.starts[k].AwaitingPlay? ==> GivesUp(w, Take(w, PlayReplies(k, false)), k))
            && (w.starts[k].AwaitingWorker? ==>
                  var v := Take(w, WorkerReplies(k, false));
                  At(v, k, AwaitingLandmarker) && v.worker.None? && v.workers == {} && v.backend == NoBackend)
  {
    RunSound(steps);
    hide After, Held, HeldApart;
  }

  lemma SettledIsIdle(w: World, k: nat)
    requires At(w, k, Settling) && w.startup == Some(k)
    ensures var v := Take(w, Settles(k)); v.startup.None? && k !in v.starts && v == w.(startup := None, starts := v.starts)
  {
  }

  /** A worker or landmarker that is ready serves the attempt. */
  lemma BackendServes(w: World, k: nat)
    requires k in w.starts && k !in w.aborted
    ensures w.starts[k].AwaitingWorker? ==>
              var v := Take(w, WorkerReplies(k, true)); At(v, k, BackendReady) && v.backend == WorkerBackend && v.worker == w.worker
    ensures At(w, k, AwaitingLandmarker) ==>
              var v := Take(w, LandmarkerReplies(k, true)); At(v, k, BackendReady) && v.backend == MainThread && v.landmarker
  {
  }

  // ---- Beginnings ----

  /** A new tracker has nothing and has delivered nothing. */
  lemma StartsIdle()
    ensures var w := Initial();
            && !w.running && w.startup.None? && w.backend == NoBackend && w.worker.None? && !w.landmarker && w.stream.None?
            && !w.busy && w.dropped == 0 && w.sequence == 0 && w.delivered == [] && w.starts == map[] && w.pending == map[]
            && w.live == {} && w.workers == {} && w.aborted == {}
  {
  }

  /** However far the last run got, every frame time is new to the one that begins. */
  lemma FirstFrameIsNew(w: World, k: nat)
    requires k in w.starts && w.starts[k].AwaitingPlay? && k !in w.aborted
    ensures var v := Take(w, PlayReplies(k, true));
            v.running && !v.busy && v.dropped == 0 && v.lastMediaTime < 0.0 && Waits(v, w.tickets) && At(v, k, Settling)
  {
  }

  /** An attempt without a backend makes a new worker; one with a backend goes straight on to the camera. */
  lemma EntersFor(w: World, k: nat)
    requires At(w, k, Scheduled) && k !in w.aborted
    ensures var v := Take(w, Enters(k));
            if w.backend == NoBackend then
              At(v, k, AwaitingWorker(w.spawned)) && v.worker == Some(w.spawned) && v.workers == w.workers + {w.spawned} && v.spawned > w.spawned
            else v == w.(starts := v.starts) && At(v, k, BackendReady)
  {
  }
}
