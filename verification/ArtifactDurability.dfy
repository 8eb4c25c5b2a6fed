/** Why a lost power supply never damages a ready artifact, and what an acknowledgement is worth. */
module ArtifactDurability {
  import opened DeveloperSession
  import opened ArtifactStore
  import opened Collections
  import opened ArtifactRuns

  predicate ActiveTransfer(w: World, id: nat) { id in w.transfers && IsLive(w, w.transfers[id].session) }

  /** A transfer that begins shares its receipt with no other one whose session is live. */
  ghost predicate Sole(w: World, step: Step) {
    step.Beginning? && IsLive(w, step.session) ==> forall id :: ActiveTransfer(w, id) ==> w.transfers[id].receipt != step.receipt
  }

  ghost predicate AllSole(worlds: seq<World>, steps: seq<Step>)
    requires |worlds| == |steps| + 1
  {
    forall i :: 0 <= i < |steps| ==> Sole(worlds[i], steps[i])
  }

  // ---- Why the session authority provides that ----

  /** Sessions are numbered apart, and each transfer consumes one of the operations its session's authority admitted;
      `uses` says which of them the step consumes. */
  ghost predicate ConsumesAdmitted(steps: seq<Step>, admitted: map<nat, seq<AuthorizedOperation>>, uses: seq<nat>) {
    && |uses| == |steps| && (forall s :: s in admitted ==> DeveloperSession.OnceEach(admitted[s]))
    && (forall i :: 0 <= i < |steps| && steps[i].Beginning? ==>
          && steps[i].session in admitted && uses[i] < |admitted[steps[i].session]|
          && steps[i].receipt.requestId == admitted[steps[i].session][uses[i]].request.id)
    && forall i, j :: 0 <= i < j < |steps| && steps[i].Beginning? && steps[j].Beginning? && steps[i].session == steps[j].session
                      ==> uses[i] != uses[j]
  }

  /** An authority starts only after the one before it was closed, as dropping it does. */
  ghost predicate OneAuthority(worlds: seq<World>, steps: seq<Step>)
    requires |worlds| == |steps| + 1
  {
    forall i :: 0 <= i < |steps| && steps[i].Opening? ==> forall s :: !IsLive(worlds[i], s)
  }

  /** Every transfer was begun by one of the first steps. */
  ghost predicate Begun(w: World, steps: seq<Step>) { forall id :: id in w.transfers ==> BegunBy(w.transfers[id], steps) }

  ghost predicate BegunBy(t: Transfer, steps: seq<Step>) {
    exists i :: 0 <= i < |steps| && steps[i].Beginning? && steps[i].session == t.session && steps[i].receipt == t.receipt
  }

  ghost predicate OneLive(w: World) { forall s, t :: IsLive(w, s) && IsLive(w, t) ==> s == t }

  lemma TransfersFrom(sha: Bytes -> string, w: World, step: Step, v: World)
    requires Happens(sha, w, step, v)
    ensures forall id :: id in v.transfers ==>
              || (id in w.transfers && v.transfers[id].session == w.transfers[id].session && v.transfers[id].receipt == w.transfers[id].receipt)
              || (step.Beginning? && v.transfers[id].session == step.session && v.transfers[id].receipt == step.receipt)
  {
    hide Begins, Appends, Finalizes, Cancels, Recovers;
  }

  lemma LivesFrom(sha: Bytes -> string, w: World, step: Step, v: World)
    requires Happens(sha, w, step, v)
    ensures forall s :: IsLive(v, s) ==> IsLive(w, s) || (step.Opening? && s == step.session)
  {
    hide Begins, Appends, Finalizes, Cancels, Recovers;
  }

  lemma {:induction false} RunBegun(sha: Bytes -> string, worlds: seq<World>, steps: seq<Step>, n: nat)
    requires Run(sha, worlds, steps) && OneAuthority(worlds, steps) && n < |worlds|
    ensures Begun(worlds[n], steps[..n]) && OneLive(worlds[n])
  {
    if n > 0 {
      RunBegun(sha, worlds, steps, n - 1);
      TransfersFrom(sha, worlds[n - 1], steps[n - 1], worlds[n]);
      LivesFrom(sha, worlds[n - 1], steps[n - 1], worlds[n]);
      hide Happens, Run;
      BegunMore(worlds[n - 1], worlds[n], steps, n);
    }
  }

  lemma BegunMore(w: World, v: World, steps: seq<Step>, n: nat)
    requires 0 < n <= |steps| && Begun(w, steps[..n - 1])
    requires forall id :: id in v.transfers ==>
              || (id in w.transfers && v.transfers[id].session == w.transfers[id].session && v.transfers[id].receipt == w.transfers[id].receipt)
              || (steps[n - 1].Beginning? && v.transfers[id].session == steps[n - 1].session && v.transfers[id].receipt == steps[n - 1].receipt)
    ensures Begun(v, steps[..n])
  {
    forall id | id in v.transfers ensures BegunBy(v.transfers[id], steps[..n]) {
      if steps[n - 1].Beginning? && v.transfers[id].session == steps[n - 1].session && v.transfers[id].receipt == steps[n - 1].receipt {
        assert steps[..n][n - 1] == steps[n - 1];
      } else {
        assert BegunBy(w.transfers[id], steps[..n - 1]);
        var i :| 0 <= i < n - 1 && steps[i].Beginning? && steps[i].session == v.transfers[id].session && steps[i].receipt == v.transfers[id].receipt;
        assert steps[..n][i] == steps[i];
      }
    }
  }

  /** One authority at a time, and request identifiers admitted once by each. */
  lemma AdmittedOnceIsSole(sha: Bytes -> string, worlds: seq<World>, steps: seq<Step>,
                           admitted: map<nat, seq<AuthorizedOperation>>, uses: seq<nat>)
    requires Run(sha, worlds, steps) && OneAuthority(worlds, steps) && ConsumesAdmitted(steps, admitted, uses)
    ensures AllSole(worlds, steps)
  {
    forall i | 0 <= i < |steps| ensures Sole(worlds[i], steps[i]) {
      RunBegun(sha, worlds, steps, i);
      hide Run, OneAuthority;
      BeginsAlone(worlds[i], steps, i, admitted, uses);
    }
  }

  lemma BeginsAlone(w: World, steps: seq<Step>, n: nat, admitted: map<nat, seq<AuthorizedOperation>>, uses: seq<nat>)
    requires n < |steps| && Begun(w, steps[..n]) && OneLive(w) && ConsumesAdmitted(steps, admitted, uses)
    ensures Sole(w, steps[n])
  {
    if steps[n].Beginning? && IsLive(w, steps[n].session) {
      forall id | ActiveTransfer(w, id) ensures w.transfers[id].receipt != steps[n].receipt {
        assert BegunBy(w.transfers[id], steps[..n]);
        var i :| 0 <= i < n && steps[i].Beginning? && steps[i].session == w.transfers[id].session && steps[i].receipt == w.transfers[id].receipt;
        OperationsDiffer(admitted[steps[n].session], uses[i], uses[n]);
      }
    }
  }

  lemma OperationsDiffer(admitted: seq<AuthorizedOperation>, i: nat, j: nat)
    requires DeveloperSession.OnceEach(admitted) && i < |admitted| && j < |admitted| && i != j
    ensures admitted[i].request.id != admitted[j].request.id
  {
    assert if i < j then admitted[i].request.id != admitted[j].request.id else admitted[j].request.id != admitted[i].request.id;
  }

  // ---- The invariant ----

  ghost predicate Attached(w: World) { forall id :: id in w.transfers ==> w.transfers[id].session in w.sessions }

  ghost predicate Apart(w: World) {
    forall i, j :: ActiveTransfer(w, i) && ActiveTransfer(w, j) && i != j ==> w.transfers[i].receipt != w.transfers[j].receipt
  }

  /** A staged artifact with unsynchronized bytes does not fit any transfer that could still publish it. */
  predicate Stuck(s: Store, t: Transfer) {
    t.receipt.requestId in s.staging && t.receipt.requestId in s.loose ==> PendingError(s, t.receipt, t.received).Failed?
  }

  ghost predicate AllStuck(w: World) { forall id :: ActiveTransfer(w, id) ==> Stuck(w.store, w.transfers[id]) }

  ghost predicate Whole(w: World) {
    Attached(w) && Apart(w) && AllStuck(w) && w.store.loose !! w.store.ready.Keys && w.damaged == {}
  }

  // ---- Each step keeps it ----

  lemma CheckedWhole(w: World, session: nat, now: nat)
    requires Whole(w) && session in w.sessions
    ensures Whole(CheckedAt(w, session, now))
    ensures forall id :: ActiveTransfer(CheckedAt(w, session, now), id) ==> ActiveTransfer(w, id)
  {
    var c := CheckedAt(w, session, now);
    assert forall id :: ActiveTransfer(c, id) ==> ActiveTransfer(w, id);
  }

  lemma BeginStuck(s: Store, r: Receipt, t: Store, outcome: Outcome<()>, other: Transfer)
    requires Begins(s, r, t, outcome) && Stuck(s, other) && (outcome.Failed? ==> other.receipt != r)
    ensures Stuck(t, other) && (s.loose !! s.ready.Keys ==> t.loose !! t.ready.Keys)
  {
  }

  lemma BeginWhole(c: World, id: nat, session: nat, r: Receipt, v: World)
    requires Whole(c) && session in c.sessions && id !in c.transfers && BeginStep(c, id, session, r, v)
    requires forall other :: ActiveTransfer(c, other) ==> c.transfers[other].receipt != r
    ensures Whole(v)
  {
    hide Stuck, Begins;
    var outcome: Outcome<()> :| Begins(c.store, r, v.store, outcome)
      && v == c.(store := v.store, transfers := if outcome.Success? then c.transfers[id := Transfer(session, r, 0, [], [])] else c.transfers);
    forall other | ActiveTransfer(v, other) ensures Stuck(v.store, v.transfers[other]) {
      if other == id { FreshStuck(c.store, r, v.store, outcome, v.transfers[id]); }
      else {
        assert ActiveTransfer(c, other);
        BeginStuck(c.store, r, v.store, outcome, c.transfers[other]);
      }
    }
    forall i, j | ActiveTransfer(v, i) && ActiveTransfer(v, j) && i != j ensures v.transfers[i].receipt != v.transfers[j].receipt {
      assert i != id ==> ActiveTransfer(c, i);
      assert j != id ==> ActiveTransfer(c, j);
    }
    LooseBegin(c.store, r, v.store, outcome);
  }

  lemma FreshStuck(s: Store, r: Receipt, t: Store, outcome: Outcome<()>, mine: Transfer)
    requires Begins(s, r, t, outcome) && outcome.Success? && mine.receipt == r
    ensures Stuck(t, mine)
  {
  }

  lemma LooseBegin(s: Store, r: Receipt, t: Store, outcome: Outcome<()>)
    requires Begins(s, r, t, outcome) && s.loose !! s.ready.Keys
    ensures t.loose !! t.ready.Keys
  {
  }

  /** A failed append leaves the artifact longer than the transfer believes. */
  lemma AppendStuck(s: Store, mine: Transfer, chunk: Bytes, t: Store, outcome: Outcome<nat>, other: Transfer)
    requires Appends(s, mine.receipt, mine.received, chunk, t, outcome) && Stuck(s, other)
    requires other == mine || other.receipt != mine.receipt
    ensures outcome.Failed? || other != mine ==> Stuck(t, other)
    ensures outcome.Success? ==> mine.receipt.requestId !in t.loose
  {
  }

  lemma AppendWhole(c: World, id: nat, chunk: Bytes, v: World)
    requires Whole(c) && ActiveTransfer(c, id) && AppendStep(c, id, chunk, v) && Journaled(c.store)
    ensures Whole(v)
  {
    hide Stuck, Appends;
    var t := c.transfers[id];
    var outcome: Outcome<nat> :| Appends(c.store, t.receipt, t.received, chunk, v.store, outcome)
      && v == c.(store := v.store,
                 transfers := if outcome.Success? then
                                c.transfers[id := Transfer(t.session, t.receipt, outcome.value, t.hashed + chunk, t.chunks + [chunk])]
                              else c.transfers);
    assert forall other :: ActiveTransfer(v, other) <==> ActiveTransfer(c, other);
    forall other | ActiveTransfer(v, other) ensures Stuck(v.store, v.transfers[other]) {
      AppendStuck(c.store, t, chunk, v.store, outcome, c.transfers[other]);
      if other == id && outcome.Success? { SynchronizedStuck(v.store, v.transfers[id]); }
    }
    LooseAppend(c.store, t.receipt, t.received, chunk, v.store, outcome);
  }

  lemma SynchronizedStuck(s: Store, t: Transfer)
    requires t.receipt.requestId !in s.loose
    ensures Stuck(s, t)
  {
  }

  lemma LooseAppend(s: Store, r: Receipt, received: nat, chunk: Bytes, t: Store, outcome: Outcome<nat>)
    requires Appends(s, r, received, chunk, t, outcome) && Journaled(s) && s.loose !! s.ready.Keys
    ensures t.loose !! t.ready.Keys
  {
    PresentBounded(s);
  }

  lemma FinalizeWhole(sha: Bytes -> string, c: World, id: nat, now: nat, v: World)
    requires Whole(c) && ActiveTransfer(c, id) && FinalizeStep(sha, c, id, now, v)
    ensures Whole(v)
  {
    var t := c.transfers[id];
    assert Stuck(c.store, t);
    assert forall other :: ActiveTransfer(v, other) ==> ActiveTransfer(c, other) && v.transfers[other] == c.transfers[other];
    hide Stuck;
    forall other | ActiveTransfer(v, other) ensures Stuck(v.store, v.transfers[other]) {
      UnstagedStuck(c.store, v.store, c.transfers[other]);
    }
  }

  /** Removing staged transactions frees nothing that was stuck. */
  lemma UnstagedStuck(s: Store, t: Store, other: Transfer)
    requires Stuck(s, other) && t.loose == s.loose
    requires forall id :: id in t.staging ==> id in s.staging && Reduced(s.staging[id], t.staging[id])
    ensures Stuck(t, other)
  {
  }

  lemma RemovalWhole(w: World, s: Store, transfers: map<nat, Transfer>)
    requires Whole(w) && s.ready == w.store.ready && s.loose == w.store.loose
    requires forall id :: id in s.staging ==> id in w.store.staging && Reduced(w.store.staging[id], s.staging[id])
    requires forall id :: id in transfers ==> id in w.transfers && transfers[id] == w.transfers[id]
    ensures Whole(w.(store := s, transfers := transfers))
  {
    var v := w.(store := s, transfers := transfers);
    assert forall other :: ActiveTransfer(v, other) ==> ActiveTransfer(w, other) && v.transfers[other] == w.transfers[other];
    forall other | ActiveTransfer(v, other) ensures Stuck(v.store, v.transfers[other]) {
      UnstagedStuck(w.store, s, w.transfers[other]);
    }
  }

  lemma CancelReduces(s: Store, r: Receipt, received: nat, t: Store)
    requires exists outcome :: Cancels(s, r, received, t, outcome)
    ensures t.ready == s.ready && t.loose == s.loose
    ensures forall id :: id in t.staging ==> id in s.staging && Reduced(s.staging[id], t.staging[id])
  {
  }

  lemma RecoverReduces(s: Store, t: Store)
    requires exists outcome :: Recovers(s, t, outcome)
    ensures t.ready == s.ready && t.loose == s.loose
    ensures forall id :: id in t.staging ==> id in s.staging && Reduced(s.staging[id], t.staging[id])
  {
  }

  lemma SessionsWhole(w: World, v: World)
    requires Whole(w) && v.store == w.store && v.damaged == w.damaged
    requires v.transfers == map[] || (v.transfers == w.transfers && w.sessions.Keys <= v.sessions.Keys)
    requires forall id :: ActiveTransfer(v, id) ==> ActiveTransfer(w, id) && v.transfers[id] == w.transfers[id]
    ensures Whole(v)
  {
  }

  lemma HappensWhole(sha: Bytes -> string, w: World, step: Step, v: World)
    requires Whole(w) && Journaled(w.store) && Happens(sha, w, step, v) && Sole(w, step)
    ensures Whole(v)
  {
    hide Whole, BeginStep, AppendStep, FinalizeStep, Cancels, Recovers, Journaled;
    match step
    case Beginning(id, session, r, now) =>
      var c := CheckedAt(w, session, now);
      CheckedWhole(w, session, now);
      if v != c {
        assert IsLive(w, session);
        BeginWhole(c, id, session, r, v);
      }
    case Appending(id, chunk, now) =>
      var c := CheckedAt(w, w.transfers[id].session, now);
      CheckedWhole(w, w.transfers[id].session, now);
      if v != c { AppendWhole(c, id, chunk, v); }
    case Finalizing(id, now) =>
      var c := CheckedAt(w, w.transfers[id].session, now);
      CheckedWhole(w, w.transfers[id].session, now);
      if v == c.(transfers := c.transfers - {id}) { DroppedWhole(c, id); } else { FinalizeWhole(sha, c, id, now, v); }
    case Cancelling(id) =>
      CancelReduces(w.store, w.transfers[id].receipt, w.transfers[id].received, v.store);
      RemovalWhole(w, v.store, w.transfers - {id});
    case Recovering =>
      RecoverReduces(w.store, v.store);
      RemovalWhole(w, v.store, w.transfers);
    case PowerLoss => RebootWhole(w, v);
    case _ => SessionsStep(sha, w, step, v);
  }

  lemma DroppedWhole(c: World, id: nat)
    requires Whole(c)
    ensures Whole(c.(transfers := c.transfers - {id}))
  {
    RemovalWhole(c, c.store, c.transfers - {id});
  }

  lemma RebootWhole(w: World, v: World)
    requires Whole(w) && exists kept :: kept in w.store.journal && Reboots(w, kept, v)
    requires Journaled(w.store)
    ensures Whole(v)
  {
    hide Bounded;
  }

  lemma SessionsStep(sha: Bytes -> string, w: World, step: Step, v: World)
    requires Whole(w) && Happens(sha, w, step, v) && (step.Opening? || step.Closing? || step.Crashing?)
    ensures Whole(v)
  {
    SessionsWhole(w, v);
  }

  // ---- Whole runs ----

  lemma {:induction false} RunWhole(sha: Bytes -> string, worlds: seq<World>, steps: seq<Step>, n: nat)
    requires Run(sha, worlds, steps) && CollisionFree(sha, worlds, steps) && AllSole(worlds, steps) && n < |worlds|
    ensures Whole(worlds[n])
  {
    hide Whole, Happens, NoCollision, Sole, Sound;
    if n == 0 {
      StartWhole();
    } else {
      RunWhole(sha, worlds, steps, n - 1);
      RunSound(sha, worlds, steps, n - 1);
      SoundJournaled(sha, worlds[n - 1]);
      HappensWhole(sha, worlds[n - 1], steps[n - 1], worlds[n]);
    }
  }

  lemma StartWhole()
    ensures Whole(Start())
  {
  }

  /** Power may fail at any moment: no ready artifact is ever damaged, so each of them is exact. */
  lemma NothingDamaged(sha: Bytes -> string, worlds: seq<World>, steps: seq<Step>, n: nat)
    requires Run(sha, worlds, steps) && CollisionFree(sha, worlds, steps) && AllSole(worlds, steps) && n < |worlds|
    ensures worlds[n].damaged == {} && worlds[n].store.loose !! worlds[n].store.ready.Keys
  {
    RunWhole(sha, worlds, steps, n);
  }

  /** A publication that was acknowledged is there for ever, with exactly the bytes the transfer appended. */
  lemma AcknowledgedForever(sha: Bytes -> string, worlds: seq<World>, steps: seq<Step>, m: nat, n: nat, ready: Ready)
    requires Run(sha, worlds, steps) && CollisionFree(sha, worlds, steps) && AllSole(worlds, steps) && m < n < |worlds|
    requires steps[m].Finalizing? && steps[m].transfer in worlds[m].transfers
    requires var t := worlds[m].transfers[steps[m].transfer];
             Finalizes(sha, worlds[m].store, t.receipt, t.received, t.hashed, worlds[m + 1].store, Success(ready))
    ensures var t := worlds[m].transfers[steps[m].transfer]; var id := t.receipt.requestId;
            && Durable(worlds[n].store, id)
            && worlds[n].store.ready[id] == Transaction(Written(t.receipt), Written(Concat(t.chunks)))
  {
    var t := worlds[m].transfers[steps[m].transfer];
    assert Happens(sha, worlds[m], steps[m], worlds[m + 1]) && NoCollision(sha, worlds[m], steps[m]);
    NothingDamaged(sha, worlds, steps, m + 1);
    RunSound(sha, worlds, steps, m);
    assert Faithful(t);
    hide Run, CollisionFree, AllSole, Sound, Happens;
    AcknowledgedIsDurable(sha, worlds[m].store, t.receipt, t.received, t.hashed, worlds[m + 1].store, Success(ready));
    AcknowledgedContent(sha, worlds[m].store, t, worlds[m + 1].store, ready);
    DurableForever(sha, worlds, steps, m + 1, n, t.receipt.requestId);
  }

  lemma AcknowledgedContent(sha: Bytes -> string, s: Store, t: Transfer, v: Store, ready: Ready)
    requires Finalizes(sha, s, t.receipt, t.received, t.hashed, v, Success(ready))
    requires var file := PendingError(s, t.receipt, t.received); file.Success? && sha(file.value) == sha(t.hashed) ==> file.value == t.hashed
    ensures v.ready[t.receipt.requestId] == Transaction(Written(t.receipt), Written(t.hashed)) && v.loose == s.loose
  {
  }
}
