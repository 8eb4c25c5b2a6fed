/** The tracker object: the fields the source updates, one method for each piece of code between two awaits. */
module MediaPipeTracker {
  import opened Options
  import opened Tracker
  import TrackerRuns

  class FrameGate {
    var busy: bool
    var droppedFrames: nat

    constructor ()
      ensures !busy && droppedFrames == 0
    {
      busy, droppedFrames := false, 0;
    }

    method TryAcquire() returns (acquired: bool)
      modifies this
      ensures busy && acquired == !old(busy)
      ensures droppedFrames == old(droppedFrames) + if acquired then 0 else 1
    {
      if busy {
        droppedFrames := droppedFrames + 1;
        return false;
      }
      busy := true;
      acquired := true;
    }

    method Release()
      modifies this
      ensures !busy && droppedFrames == old(droppedFrames)
    {
      busy := false;
    }

    method Reset()
      modifies this
      ensures !busy && droppedFrames == 0
    {
      busy, droppedFrames := false, 0;
    }
  }

  class MediaPipeTracker {
    const frameGate: FrameGate
    var running: bool
    var runId: nat
    var startup: Option<nat>
    var backend: Backend
    var worker: Option<nat>
    var landmarker: bool
    var stream: Option<nat>
    var sequence: nat
    var lastMediaTime: real
    // The browser's side: abort signals, suspended attempts, live streams and workers, frame activities, delivered frames.
    var aborted: set<nat>
    var starts: map<nat, Stage>
    var live: set<nat>
    var workers: set<nat>
    var pending: map<nat, Activity>
    var delivered: seq<Delivery>
    var streams: nat
    var spawned: nat
    var tickets: nat

    function State(): World
      reads this, frameGate
    {
      World(running, runId, startup, backend, worker, landmarker, stream, frameGate.busy, frameGate.droppedFrames, sequence,
            lastMediaTime, aborted, starts, live, workers, pending, delivered, streams, spawned, tickets)
    }

    /** The world invariant that every interleaving keeps. */
    ghost predicate Valid()
      reads this, frameGate
    {
      TrackerRuns.Sound(State())
    }

    constructor ()
      ensures Valid() && State() == Initial() && fresh(frameGate)
    {
      TrackerRuns.InitialSound();
      frameGate := new FrameGate();
      running, runId, startup, backend, worker, landmarker, stream := false, 0, None, NoBackend, None, false, None;
      sequence, lastMediaTime := 0, -1.0;
      aborted, starts, live, workers, pending, delivered := {}, map[], {}, {}, map[], [];
      streams, spawned, tickets := 0, 0, 0;
    }

    method ReleaseStream()
      modifies this
      ensures State() == Tracker.ReleaseStream(old(State()))
    {
      if stream.Some? {
        live := live - {stream.value};
      }
      stream := None;
    }

    method DiscardWorkerBackend()
      modifies this
      ensures State() == DiscardWorker(old(State()))
    {
      if worker.Some? {
        workers := workers - {worker.value};
        worker := None;
      }
      if backend == WorkerBackend {
        backend := NoBackend;
      }
    }

    method FailRunningTracker()
      modifies this, frameGate
      ensures State() == FailRunning(old(State()))
    {
      running := false;
      runId := runId + 1;
      frameGate.Reset();
      ReleaseStream();
    }

    method ScheduleFrame()
      modifies this
      ensures State() == Schedule(old(State()))
    {
      if !running {
        return;
      }
      pending := pending[tickets := Callback(runId)];
      tickets := tickets + 1;
    }

    method Start()
      requires Valid()
      modifies this
      ensures Valid() && State() == Tracker.Start(old(State()))
    {
      hide TrackerRuns.Sound;
      TrackerRuns.TakeKeeps(State(), Starts);
      if running || startup.Some? {
        return;
      }
      runId := runId + 1;
      startup := Some(runId);
      starts := starts[runId := Scheduled];
    }

    method EnterStart(k: nat)
      requires Valid() && At(State(), k, Scheduled)
      modifies this
      ensures Valid() && State() == Tracker.EnterStart(old(State()), k)
    {
      hide TrackerRuns.Sound;
      TrackerRuns.TakeKeeps(State(), Enters(k));
      if k in aborted {
        starts := starts[k := Settling];
        return;
      }
      if backend != NoBackend {
        starts := starts[k := BackendReady];
        return;
      }
      SpawnWorker(k);
    }

    method SpawnWorker(k: nat)
      modifies this
      ensures State() == old(State()).(worker := Some(old(spawned)), workers := old(workers) + {old(spawned)},
                                       starts := old(starts)[k := AwaitingWorker(old(spawned))], spawned := old(spawned) + 1)
    {
      worker := Some(spawned);
      workers := workers + {spawned};
      starts := starts[k := AwaitingWorker(spawned)];
      spawned := spawned + 1;
    }

    method WorkerAnswers(k: nat, ready: bool)
      requires Valid() && k in starts && starts[k].AwaitingWorker?
      modifies this
      ensures Valid() && State() == Tracker.WorkerAnswers(old(State()), k, ready)
    {
      hide TrackerRuns.Sound;
      TrackerRuns.TakeKeeps(State(), WorkerReplies(k, ready));
      if k in aborted {
        starts := starts[k := Settling];
      } else if ready {
        backend := WorkerBackend;
        starts := starts[k := BackendReady];
      } else {
        DiscardWorkerBackend();
        starts := starts[k := AwaitingLandmarker];
      }
    }

    method LandmarkerAnswers(k: nat, ready: bool)
      requires Valid() && At(State(), k, AwaitingLandmarker)
      modifies this
      ensures Valid() && State() == Tracker.LandmarkerAnswers(old(State()), k, ready)
    {
      hide TrackerRuns.Sound;
      TrackerRuns.TakeKeeps(State(), LandmarkerReplies(k, ready));
      if k in aborted || !ready {
        starts := starts[k := Settling];
        return;
      }
      landmarker := true;
      backend := MainThread;
      starts := starts[k := BackendReady];
    }

    method AskForCamera(k: nat)
      requires Valid() && At(State(), k, BackendReady)
      modifies this
      ensures Valid() && State() == Tracker.AskForCamera(old(State()), k)
    {
      hide TrackerRuns.Sound;
      TrackerRuns.TakeKeeps(State(), AsksForCamera(k));
      if k in aborted {
        starts := starts[k := Settling];
      } else {
        starts := starts[k := AwaitingCamera];
      }
    }

    method CameraAnswers(k: nat, granted: bool)
      requires Valid() && At(State(), k, AwaitingCamera)
      modifies this
      ensures Valid() && State() == Tracker.CameraAnswers(old(State()), k, granted)
    {
      hide TrackerRuns.Sound;
      TrackerRuns.TakeKeeps(State(), CameraReplies(k, granted));
      if !granted {
        starts := starts[k := Settling];
        return;
      }
      live := live + {streams};
      starts := starts[k := Granted(streams)];
      streams := streams + 1;
    }

    method TakeStream(k: nat, granted: nat)
      requires Valid() && At(State(), k, Granted(granted))
      modifies this
      ensures Valid() && State() == Tracker.TakeStream(old(State()), k, granted)
    {
      hide TrackerRuns.Sound;
      TrackerRuns.TakeKeeps(State(), TakesStream(k));
      if k in aborted {
        live := live - {granted};
        starts := starts[k := Settling];
        return;
      }
      stream := Some(granted);
      starts := starts[k := AwaitingPlay(granted)];
    }

    method PlayAnswers(k: nat, granted: nat, playing: bool)
      requires Valid() && At(State(), k, AwaitingPlay(granted))
      modifies this, frameGate
      ensures Valid() && State() == Tracker.PlayAnswers(old(State()), k, granted, playing)
    {
      hide TrackerRuns.Sound, Schedule;
      TrackerRuns.PlayAnswersKeeps(State(), k, playing);
      if k in aborted {
        starts := starts[k := Settling];
        return;
      }
      if playing {
        BeginRun(k);
        return;
      }
      if stream == Some(granted) {
        ReleaseStream();
      }
      starts := starts[k := Settling];
    }

    method BeginRun(k: nat)
      modifies this, frameGate
      ensures State() == Schedule(Suspend(old(State()).(running := true, lastMediaTime := -1.0, busy := false, dropped := 0), k, Settling))
    {
      hide Schedule;
      running := true;
      lastMediaTime := -1.0;
      frameGate.Reset();
      starts := starts[k := Settling];
      ScheduleFrame();
    }

    method Settle(k: nat)
      requires Valid() && At(State(), k, Settling)
      modifies this
      ensures Valid() && State() == Tracker.Settle(old(State()), k)
    {
      hide TrackerRuns.Sound;
      TrackerRuns.TakeKeeps(State(), Settles(k));
      if startup == Some(k) {
        startup := None;
      }
      starts := starts - {k};
    }

    method Stop()
      requires Valid()
      modifies this, frameGate
      ensures Valid() && State() == Tracker.Stop(old(State()))
    {
      hide TrackerRuns.Sound;
      TrackerRuns.TakeKeeps(State(), Stops);
      AbortStartup();
      frameGate.Reset();
      ReleaseStream();
    }

    method AbortStartup()
      modifies this
      ensures State() == Tracker.AbortStartup(old(State()))
    {
      running := false;
      runId := runId + 1;
      var attempt := startup;
      startup := None;
      if attempt.Some? {
        aborted := aborted + {attempt.value};
        if backend == NoBackend {
          DiscardWorkerBackend();
        }
      }
    }

    method Close()
      requires Valid()
      modifies this, frameGate
      ensures Valid() && State() == Tracker.Close(old(State()))
    {
      hide TrackerRuns.Sound;
      TrackerRuns.TakeKeeps(State(), Closes);
      Stop();
      DiscardWorkerBackend();
      landmarker := false;
      backend := NoBackend;
    }

    method EndAfterWorkerFailure()
      modifies this, frameGate
      ensures State() == FailWorker(old(State()))
    {
      frameGate.Release();
      DiscardWorkerBackend();
      FailRunningTracker();
    }

    method ProcessFrame(mediaTime: real, detected: bool)
      modifies this, frameGate
      ensures State() == Tracker.ProcessFrame(old(State()), mediaTime, detected)
    {
      hide Schedule, FailWorker, FailRunning;
      if !running {
        return;
      }
      if mediaTime == lastMediaTime {
        ScheduleFrame();
        return;
      }
      lastMediaTime := mediaTime;
      if backend == WorkerBackend {
        CaptureFrame();
        return;
      }
      if !landmarker || !detected {
        FailRunningTracker();
        return;
      }
      DeliverFrame();
    }

    method DeliverFrame()
      modifies this
      ensures State() == Schedule(old(State()).(delivered := old(delivered) + [Delivery(old(runId), old(sequence))], sequence := old(sequence) + 1))
    {
      hide Schedule;
      delivered := delivered + [Delivery(runId, sequence)];
      sequence := sequence + 1;
      ScheduleFrame();
    }

    /** Asks for a bitmap if the gate lets the frame through. */
    method CaptureFrame()
      modifies this, frameGate
      ensures State() ==
                if old(frameGate.busy) then Schedule(old(State()).(dropped := old(frameGate.droppedFrames) + 1))
                else if old(worker).None? then FailWorker(old(State()))
                else old(State()).(busy := true, pending := old(pending)[old(tickets) := Capturing(runId, old(worker).value)],
                                   tickets := old(tickets) + 1)
    {
      var acquired := frameGate.TryAcquire();
      if !acquired {
        ScheduleFrame();
        return;
      }
      if worker.None? {
        EndAfterWorkerFailure();
        return;
      }
      pending := pending[tickets := Capturing(runId, worker.value)];
      tickets := tickets + 1;
    }

    method FrameCallback(t: nat, run: nat, mediaTime: real, detected: bool)
      requires Valid() && t in pending && pending[t] == Callback(run)
      modifies this, frameGate
      ensures Valid() && State() == Tracker.FrameCallback(old(State()), t, run, mediaTime, detected)
    {
      hide TrackerRuns.Sound;
      TrackerRuns.TakeKeeps(State(), Calls(t, mediaTime, detected));
      pending := pending - {t};
      if runId == run {
        ProcessFrame(mediaTime, detected);
      }
    }

    method CaptureAnswers(t: nat, run: nat, of: nat, capture: Capture)
      requires Valid() && t in pending && pending[t] == Capturing(run, of)
      modifies this, frameGate
      ensures Valid() && State() == Tracker.CaptureAnswers(old(State()), t, run, of, capture)
    {
      hide TrackerRuns.Sound, Schedule, FailWorker;
      TrackerRuns.TakeKeeps(State(), CaptureReplies(t, capture));
      pending := pending - {t};
      if !running || worker != Some(of) || runId != run {
        return;
      }
      if capture.NoBitmap? {
        EndAfterWorkerFailure();
        return;
      }
      PostFrame(t, run, of, capture.Transferred?);
    }

    /** The frame gets its number before it is transferred. */
    method PostFrame(t: nat, run: nat, of: nat, transferred: bool)
      modifies this, frameGate
      ensures var numbered := old(State()).(sequence := old(sequence) + 1);
              State() == if transferred then Schedule(numbered.(pending := old(pending)[t := Posted(run, of, old(sequence))]))
                         else FailWorker(numbered)
    {
      hide Schedule, FailWorker;
      var number := sequence;
      sequence := sequence + 1;
      if !transferred {
        EndAfterWorkerFailure();
        return;
      }
      pending := pending[t := Posted(run, of, number)];
      ScheduleFrame();
    }

    method HandleWorkerMessage(t: nat, run: nat, answered: nat, inferred: bool)
      requires Valid() && t in pending && pending[t].Posted? && pending[t].run == run && pending[t].sequence == answered
      modifies this, frameGate
      ensures Valid() && State() == WorkerAnswersFrame(old(State()), t, run, answered, inferred)
    {
      hide TrackerRuns.Sound;
      TrackerRuns.TakeKeeps(State(), WorkerRepliesFrame(t, inferred));
      pending := pending - {t};
      if !running || run != runId {
        return;
      }
      if !inferred {
        EndAfterWorkerFailure();
        return;
      }
      frameGate.Release();
      delivered := delivered + [Delivery(run, answered)];
    }

    method HandleWorkerRuntimeError(of: nat)
      requires Valid()
      modifies this, frameGate
      ensures Valid() && State() == WorkerFails(old(State()), of)
    {
      hide TrackerRuns.Sound;
      TrackerRuns.TakeKeeps(State(), WorkerErrors(of));
      if running && worker == Some(of) {
        EndAfterWorkerFailure();
      }
    }

    method HandleCameraEnded(run: nat)
      requires Valid()
      modifies this, frameGate
      ensures Valid() && State() == CameraEnds(old(State()), run)
    {
      hide TrackerRuns.Sound;
      TrackerRuns.TakeKeeps(State(), CameraEnding(run));
      if runId == run && running {
        frameGate.Release();
        FailRunningTracker();
      }
    }
  }
}
