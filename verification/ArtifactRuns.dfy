/** Every interleaving of transfers, recoveries, session endings and crashes over one artifact store. */
module ArtifactRuns {
  import opened Collections
  import opened DeveloperSession
  import opened ArtifactStore

  datatype Life = Life(expiresAt: nat, active: bool)

  /** A transfer in memory, with the chunks it has successfully appended. */
  datatype Transfer = Transfer(session: nat, receipt: Receipt, received: nat, hashed: Bytes, chunks: seq<Bytes>)

  /** A rename into the ready directory, with the bytes published, the transfer's chunks and its session at that moment. */
  datatype Publication = Publication(receipt: Receipt, bytes: Bytes, chunks: seq<Bytes>, life: Life, now: nat)

  /** `damaged` are the ready artifacts that lost power before all of their bytes were synchronized. */
  datatype World = World(store: Store, sessions: map<nat, Life>, transfers: map<nat, Transfer>, published: seq<Publication>,
                         damaged: set<string>)

  datatype Step =
    | Opening(session: nat, expiresAt: nat)
    | Closing(session: nat)
    | Beginning(transfer: nat, session: nat, receipt: Receipt, now: nat)
    | Appending(transfer: nat, chunk: Bytes, now: nat)
    | Finalizing(transfer: nat, now: nat)
    | Cancelling(transfer: nat)
    | Recovering
    | Crashing
    | PowerLoss

  function Start(): World { World(Store(map[], map[], [Listing({}, {})], {}), map[], map[], [], {}) }

  /** The session as the liveness check leaves it; expiry is remembered. */
  function Checked(life: Life, now: nat): Life { life.(active := life.active && now < life.expiresAt) }

  function CheckedAt(w: World, session: nat, now: nat): World
    requires session in w.sessions
  {
    w.(sessions := w.sessions[session := Checked(w.sessions[session], now)])
  }

  predicate IsLive(w: World, session: nat) { session in w.sessions && w.sessions[session].active }

  ghost predicate BeginStep(c: World, id: nat, session: nat, r: Receipt, v: World) {
    exists outcome: Outcome<()> ::
      && Begins(c.store, r, v.store, outcome)
      && v == c.(store := v.store, transfers := if outcome.Success? then c.transfers[id := Transfer(session, r, 0, [], [])] else c.transfers)
  }

  ghost predicate AppendStep(c: World, id: nat, chunk: Bytes, v: World)
    requires id in c.transfers
  {
    var t := c.transfers[id];
    exists outcome: Outcome<nat> ::
      && Appends(c.store, t.receipt, t.received, chunk, v.store, outcome)
      && v == c.(store := v.store,
                 transfers := if outcome.Success? then
                                c.transfers[id := Transfer(t.session, t.receipt, outcome.value, t.hashed + chunk, t.chunks + [chunk])]
                              else c.transfers)
  }

  ghost predicate FinalizeStep(sha: Bytes -> string, c: World, id: nat, now: nat, v: World)
    requires id in c.transfers && c.transfers[id].session in c.sessions
  {
    var t := c.transfers[id];
    exists outcome: Outcome<Ready> ::
      && Finalizes(sha, c.store, t.receipt, t.received, t.hashed, v.store, outcome)
      && v == c.(store := v.store, transfers := c.transfers - {id},
                 published := if v.store.ready == c.store.ready then c.published
                              else c.published + [Publication(t.receipt, PendingError(c.store, t.receipt, t.received).value,
                                                              t.chunks, c.sessions[t.session], now)])
  }

  /** One step of the world; every operation of the store may also fail wherever it can. */
  ghost predicate Happens(sha: Bytes -> string, w: World, step: Step, v: World) {
    match step
    case Opening(session, expiresAt) => session !in w.sessions && v == w.(sessions := w.sessions[session := Life(expiresAt, true)])
    case Closing(session) => session in w.sessions && v == w.(sessions := w.sessions[session := w.sessions[session].(active := false)])
    case Beginning(id, session, r, now) =>
      && session in w.sessions && id !in w.transfers
      && var c := CheckedAt(w, session, now);
         (v == c || (IsLive(c, session) && BeginStep(c, id, session, r, v)))
    case Appending(id, chunk, now) =>
      && id in w.transfers && w.transfers[id].session in w.sessions
      && var c := CheckedAt(w, w.transfers[id].session, now);
         (v == c || (IsLive(c, w.transfers[id].session) && AppendStep(c, id, chunk, v)))
    case Finalizing(id, now) =>
      && id in w.transfers && w.transfers[id].session in w.sessions
      && var c := CheckedAt(w, w.transfers[id].session, now);
         (v == c.(transfers := c.transfers - {id}) || (IsLive(c, w.transfers[id].session) && FinalizeStep(sha, c, id, now, v)))
    case Cancelling(id) =>
      && id in w.transfers
      && exists outcome: Outcome<()> ::
           && Cancels(w.store, w.transfers[id].receipt, w.transfers[id].received, v.store, outcome)
           && v == w.(store := v.store, transfers := w.transfers - {id})
    case Recovering => exists outcome: Outcome<nat> :: Recovers(w.store, v.store, outcome) && v == w.(store := v.store)
    case Crashing => v == w.(sessions := map[], transfers := map[])
    case PowerLoss => exists kept :: kept in w.store.journal && Reboots(w, kept, v)
  }

  /** One of the listings since the last synchronization persists. Files with unsynchronized bytes come back with any
      content, and so does everything in staging. */
  ghost predicate Reboots(w: World, kept: Listing, v: World) {
    && v == World(v.store, map[], map[], Kept(w.published, kept.ready), (w.damaged + w.store.loose) * kept.ready)
    && ListingOf(v.store) == kept && v.store.journal == [kept] && v.store.loose == {}
    && forall id :: id in kept.ready && id in w.store.ready && id !in w.store.loose ==> v.store.ready[id] == w.store.ready[id]
  }

  /** The publications whose rename persisted. */
  function Kept(published: seq<Publication>, ids: set<string>): seq<Publication> {
    if published == [] then [] else
    var last := published[|published| - 1];
    Kept(published[..|published| - 1], ids) + if last.receipt.requestId in ids then [last] else []
  }

  /** The file that would be published does not collide with what its transfer hashed. */
  predicate NoCollision(sha: Bytes -> string, w: World, step: Step) {
    step.Finalizing? && step.transfer in w.transfers ==>
      var t := w.transfers[step.transfer];
      var file := PendingError(w.store, t.receipt, t.received);
      file.Success? && sha(file.value) == sha(t.hashed) ==> file.value == t.hashed
  }

  // ---- The invariant ----

  /** At most one staged transaction, never a ready one, and room for it. */
  predicate Bounded(l: Listing) {
    |l.staging| <= 1 && |l.ready| + |l.staging| <= MAX_READY_DEVELOPER_ARTIFACTS && l.staging !! l.ready
  }

  /** That holds of every listing that may persist, the present one is the last, and no other has more ready. */
  predicate Journaled(s: Store) {
    && s.journal != [] && s.journal[|s.journal| - 1] == ListingOf(s)
    && forall l :: l in s.journal ==> Bounded(l) && l.ready <= s.ready.Keys
  }

  predicate Exact(sha: Bytes -> string, p: Publication) {
    && p.bytes == Concat(p.chunks) && |p.bytes| == p.receipt.bytes && sha(p.bytes) == p.receipt.sha256
    && p.life.active && p.now < p.life.expiresAt
  }

  predicate AllExact(sha: Bytes -> string, published: seq<Publication>) { forall p :: p in published ==> Exact(sha, p) }

  predicate OnceEach(published: seq<Publication>) {
    forall i, j :: 0 <= i < j < |published| ==> published[i].receipt.requestId != published[j].receipt.requestId
  }

  /** The ready directory after these publications. */
  function ReadyAfter(published: seq<Publication>): map<string, Transaction> {
    if published == [] then map[] else
    var p := published[|published| - 1];
    ReadyAfter(published[..|published| - 1])[p.receipt.requestId := Transaction(Written(p.receipt), Written(p.bytes))]
  }

  predicate Faithful(t: Transfer) { t.hashed == Concat(t.chunks) && t.received == |t.hashed| }

  predicate AllFaithful(transfers: map<nat, Transfer>) { forall id :: id in transfers ==> Faithful(transfers[id]) }

  predicate Agrees(ready: map<string, Transaction>, expected: map<string, Transaction>, damaged: set<string>) {
    ready.Keys == expected.Keys && forall id :: id in ready && id !in damaged ==> ready[id] == expected[id]
  }

  ghost predicate Sound(sha: Bytes -> string, w: World) {
    && Journaled(w.store) && AllFaithful(w.transfers)
    && AllExact(sha, w.published) && OnceEach(w.published) && Agrees(w.store.ready, ReadyAfter(w.published), w.damaged)
  }

  // ---- Each step keeps it ----

  lemma PresentBounded(s: Store)
    requires Journaled(s)
    ensures Bounded(ListingOf(s)) && |s.staging| <= 1 && |s.ready| + |s.staging| <= MAX_READY_DEVELOPER_ARTIFACTS
    ensures forall id :: id in s.staging ==> id !in s.ready
  {
    assert ListingOf(s) in s.journal;
    assert |s.staging| == |s.staging.Keys| && |s.ready| == |s.ready.Keys|;
  }

  lemma RecordedJournal(s: Store, t: Store)
    requires Journaled(s) && t.journal == s.journal && s.ready.Keys <= t.ready.Keys && Bounded(ListingOf(t))
    ensures Journaled(Recorded(t)) && Journaled(Synchronized(t))
  {
  }

  lemma BeginJournal(s: Store, r: Receipt, t: Store, outcome: Outcome<()>)
    requires Begins(s, r, t, outcome) && Journaled(s)
    ensures Journaled(t) && t.ready == s.ready
  {
    if t != s {
      PresentBounded(s);
      if outcome.Success? {
        OneStaged(s, s.(staging := map[r.requestId := Transaction(Written(r), Written([]))], loose := s.loose - {r.requestId}), r);
      } else {
        var left :| Started(left, r) && Leaves(s, r, left, t);
        OneStaged(s, Leaving(s, r, left), r);
      }
    }
  }

  lemma OneStaged(s: Store, t: Store, r: Receipt)
    requires Journaled(s) && BeginError(s, r).Success?
    requires t.staging.Keys == {r.requestId} && t.ready == s.ready && t.journal == s.journal
    ensures Journaled(Recorded(t)) && Journaled(Synchronized(t))
  {
    assert |s.ready| == |s.ready.Keys|;
    RecordedJournal(s, t);
  }

  lemma FewerBounded(l: Listing, fewer: set<string>)
    requires Bounded(l) && fewer <= l.staging
    ensures Bounded(Listing(fewer, l.ready))
  {
    SubsetSize(fewer, l.staging);
  }

  lemma ShrinksJournal(s: Store, t: Store)
    requires Journaled(s) && t.ready == s.ready && Shrinks(s, t)
    ensures Journaled(t)
  {
    PresentBounded(s);
    forall l | l in t.journal ensures Bounded(l) && l.ready <= t.ready.Keys {
      if l !in s.journal {
        var i :| 0 <= i < |t.journal| && t.journal[i] == l;
        FewerBounded(ListingOf(s), l.staging);
        assert l == Listing(l.staging, s.ready.Keys);
      }
    }
  }

  lemma AppendJournal(s: Store, r: Receipt, received: nat, chunk: Bytes, t: Store, outcome: Outcome<nat>)
    requires Appends(s, r, received, chunk, t, outcome) && Journaled(s)
    ensures Journaled(t) && t.ready == s.ready
  {
    assert t.staging.Keys == s.staging.Keys;
  }

  lemma PublishJournal(s: Store, r: Receipt)
    requires Journaled(s) && r.requestId in s.staging
    ensures Journaled(Recorded(Published(s, r))) && Journaled(Synchronized(Published(s, r)))
  {
    PresentBounded(s);
    var t := Published(s, r);
    assert t.staging.Keys == s.staging.Keys - {r.requestId};
    assert t.ready.Keys == s.ready.Keys + {r.requestId};
    RecordedJournal(s, t);
  }

  lemma {:induction false} ReadyIds(published: seq<Publication>)
    ensures forall id :: id in ReadyAfter(published) <==> exists p :: p in published && p.receipt.requestId == id
  {
    if published != [] {
      var front, last := published[..|published| - 1], published[|published| - 1];
      assert published == front + [last];
      ReadyIds(front);
    }
  }

  lemma PublishesOnce(sha: Bytes -> string, published: seq<Publication>, p: Publication)
    requires OnceEach(published) && AllExact(sha, published) && Exact(sha, p) && p.receipt.requestId !in ReadyAfter(published)
    ensures OnceEach(published + [p]) && AllExact(sha, published + [p])
    ensures ReadyAfter(published + [p]) == ReadyAfter(published)[p.receipt.requestId := Transaction(Written(p.receipt), Written(p.bytes))]
  {
    hide OnceEach, Exact;
    var more := published + [p];
    assert more[..|published|] == published;
    assert forall q :: q in more <==> q in published || q == p;
    NewId(published, p);
  }

  lemma NewId(published: seq<Publication>, p: Publication)
    requires OnceEach(published) && p.receipt.requestId !in ReadyAfter(published)
    ensures OnceEach(published + [p])
  {
    ReadyIds(published);
    assert forall i :: 0 <= i < |published| ==> published[i] in published;
  }

  lemma FinalizeKeeps(sha: Bytes -> string, c: World, id: nat, now: nat, v: World)
    requires id in c.transfers && c.transfers[id].session in c.sessions && FinalizeStep(sha, c, id, now, v)
    requires Sound(sha, c) && NoCollision(sha, c, Finalizing(id, now))
    requires c.sessions[c.transfers[id].session].active && now < c.sessions[c.transfers[id].session].expiresAt
    ensures Sound(sha, v)
  {
    hide OnceEach, AllExact, ReadyAfter, Journaled;
    var t := c.transfers[id];
    assert Faithful(t);
    if v.store != c.store {
      var file := FinalizeError(sha, c.store, t.receipt, t.received, t.hashed).value;
      assert file == t.hashed;
      assert c.store.staging[t.receipt.requestId] == Transaction(Written(t.receipt), Written(file));
      assert v.store.ready != c.store.ready by { assert t.receipt.requestId in v.store.ready; }
      PublishJournal(c.store, t.receipt);
      PublishesOnce(sha, c.published, Publication(t.receipt, file, t.chunks, c.sessions[t.session], now));
    }
  }

  lemma CheckedKeeps(sha: Bytes -> string, w: World, session: nat, now: nat)
    requires Sound(sha, w) && session in w.sessions
    ensures Sound(sha, CheckedAt(w, session, now))
  {
  }

  lemma AppendKeeps(sha: Bytes -> string, c: World, id: nat, chunk: Bytes, v: World)
    requires id in c.transfers && AppendStep(c, id, chunk, v) && Sound(sha, c)
    ensures Sound(sha, v)
  {
    hide OnceEach, AllExact, ReadyAfter, Journaled, Appends;
    var t := c.transfers[id];
    var outcome: Outcome<nat> :| Appends(c.store, t.receipt, t.received, chunk, v.store, outcome)
      && v == c.(store := v.store,
                 transfers := if outcome.Success? then
                                c.transfers[id := Transfer(t.session, t.receipt, outcome.value, t.hashed + chunk, t.chunks + [chunk])]
                              else c.transfers);
    AppendJournal(c.store, t.receipt, t.received, chunk, v.store, outcome);
    AppendCounts(c.store, t.receipt, t.received, chunk, v.store, outcome);
    assert Faithful(t);
    assert (t.chunks + [chunk])[..|t.chunks|] == t.chunks;
  }

  lemma AppendCounts(s: Store, r: Receipt, received: nat, chunk: Bytes, t: Store, outcome: Outcome<nat>)
    requires Appends(s, r, received, chunk, t, outcome)
    ensures outcome.Success? ==> outcome.value == received + |chunk|
  {
  }

  lemma BeginKeeps(sha: Bytes -> string, c: World, id: nat, session: nat, r: Receipt, v: World)
    requires BeginStep(c, id, session, r, v) && Sound(sha, c)
    ensures Sound(sha, v)
  {
    hide OnceEach, AllExact, ReadyAfter, Journaled, Begins;
    var outcome: Outcome<()> :| Begins(c.store, r, v.store, outcome)
      && v == c.(store := v.store, transfers := if outcome.Success? then c.transfers[id := Transfer(session, r, 0, [], [])] else c.transfers);
    BeginJournal(c.store, r, v.store, outcome);
  }

  lemma RemovalKeeps(sha: Bytes -> string, w: World, s: Store, transfers: map<nat, Transfer>)
    requires Sound(sha, w) && s.ready == w.store.ready && Journaled(s)
    requires forall id :: id in transfers ==> id in w.transfers && transfers[id] == w.transfers[id]
    ensures Sound(sha, w.(store := s, transfers := transfers))
  {
    hide OnceEach, AllExact, ReadyAfter, Journaled;
  }

  lemma EmptiedJournal(s: Store, staging: map<string, Transaction>)
    requires Journaled(s) && staging.Keys <= s.staging.Keys
    ensures Journaled(Synchronized(s.(staging := staging)))
  {
    PresentBounded(s);
    FewerBounded(ListingOf(s), staging.Keys);
  }

  lemma CancelShrinks(s: Store, r: Receipt, received: nat, t: Store)
    requires Journaled(s) && exists outcome :: Cancels(s, r, received, t, outcome)
    ensures t.ready == s.ready && Journaled(t)
  {
    var outcome :| Cancels(s, r, received, t, outcome);
    if outcome.Success? { EmptiedJournal(s, s.staging - {r.requestId}); }
    else if t != s { ShrinksJournal(s, t); }
  }

  lemma RecoverShrinks(s: Store, t: Store)
    requires Journaled(s) && exists outcome :: Recovers(s, t, outcome)
    ensures t.ready == s.ready && Journaled(t)
  {
    var outcome :| Recovers(s, t, outcome);
    if outcome.Success? { EmptiedJournal(s, map[]); } else { ShrinksJournal(s, t); }
  }

  lemma {:induction false} KeptPart(published: seq<Publication>, ids: set<string>)
    ensures forall p :: p in Kept(published, ids) ==> p in published
  {
    if published != [] {
      var front, last := published[..|published| - 1], published[|published| - 1];
      assert published == front + [last];
      KeptPart(front, ids);
    }
  }

  lemma {:induction false} KeptReady(published: seq<Publication>, ids: set<string>)
    ensures ReadyAfter(Kept(published, ids)) == map id | id in ReadyAfter(published) && id in ids :: ReadyAfter(published)[id]
  {
    if published != [] {
      var front, last := published[..|published| - 1], published[|published| - 1];
      KeptReady(front, ids);
      if last.receipt.requestId in ids {
        assert (Kept(front, ids) + [last])[..|Kept(front, ids)|] == Kept(front, ids);
      } else {
        assert Kept(published, ids) == Kept(front, ids);
      }
    }
  }

  lemma {:induction false} KeptOnce(published: seq<Publication>, ids: set<string>)
    requires OnceEach(published)
    ensures OnceEach(Kept(published, ids))
  {
    if published != [] {
      hide OnceEach, ReadyAfter;
      var front, last := published[..|published| - 1], published[|published| - 1];
      LastIsNew(published);
      KeptOnce(front, ids);
      KeptReady(front, ids);
      if last.receipt.requestId in ids { NewId(Kept(front, ids), last); }
      else { assert Kept(published, ids) == Kept(front, ids); }
    }
  }

  lemma LastIsNew(published: seq<Publication>)
    requires OnceEach(published) && published != []
    ensures OnceEach(published[..|published| - 1])
    ensures published[|published| - 1].receipt.requestId !in ReadyAfter(published[..|published| - 1])
  {
    hide ReadyAfter;
    var front := published[..|published| - 1];
    ReadyIds(front);
    assert forall i :: 0 <= i < |front| ==> front[i] == published[i];
  }

  lemma RebootKeeps(sha: Bytes -> string, w: World, kept: Listing, v: World)
    requires Sound(sha, w) && kept in w.store.journal && Reboots(w, kept, v)
    ensures Sound(sha, v)
  {
    hide OnceEach, Exact, ReadyAfter, Bounded, Kept;
    KeptReady(w.published, kept.ready);
    KeptPart(w.published, kept.ready);
    KeptOnce(w.published, kept.ready);
  }

  lemma FinalizingKeeps(sha: Bytes -> string, w: World, id: nat, now: nat, v: World)
    requires Sound(sha, w) && Happens(sha, w, Finalizing(id, now), v) && NoCollision(sha, w, Finalizing(id, now))
    ensures Sound(sha, v)
  {
    SoundJournaled(sha, w);
    hide Sound, FinalizeStep, NoCollision, Journaled;
    var c := CheckedAt(w, w.transfers[id].session, now);
    CheckedKeeps(sha, w, w.transfers[id].session, now);
    RemovalKeeps(sha, c, c.store, c.transfers - {id});
    if v != c.(transfers := c.transfers - {id}) {
      SameCollision(sha, w, c, Finalizing(id, now));
      FinalizeKeeps(sha, c, id, now, v);
    }
  }

  lemma CancellingKeeps(sha: Bytes -> string, w: World, id: nat, v: World)
    requires Sound(sha, w) && Happens(sha, w, Cancelling(id), v)
    ensures Sound(sha, v)
  {
    SoundJournaled(sha, w);
    hide Sound, Cancels, Journaled;
    CancelShrinks(w.store, w.transfers[id].receipt, w.transfers[id].received, v.store);
    RemovalKeeps(sha, w, v.store, w.transfers - {id});
  }

  lemma PowerLossKeeps(sha: Bytes -> string, w: World, v: World)
    requires Sound(sha, w) && Happens(sha, w, PowerLoss, v)
    ensures Sound(sha, v)
  {
    hide Sound, Reboots;
    var kept :| kept in w.store.journal && Reboots(w, kept, v);
    RebootKeeps(sha, w, kept, v);
  }

  lemma HappensKeeps(sha: Bytes -> string, w: World, step: Step, v: World)
    requires Sound(sha, w) && Happens(sha, w, step, v) && NoCollision(sha, w, step)
    ensures Sound(sha, v)
  {
    SoundJournaled(sha, w);
    hide Sound, BeginStep, AppendStep, FinalizeStep, NoCollision, Cancels, Recovers, Journaled, Reboots;
    match step
    case Beginning(id, session, r, now) =>
      CheckedKeeps(sha, w, session, now);
      if v != CheckedAt(w, session, now) { BeginKeeps(sha, CheckedAt(w, session, now), id, session, r, v); }
    case Appending(id, chunk, now) =>
      var c := CheckedAt(w, w.transfers[id].session, now);
      CheckedKeeps(sha, w, w.transfers[id].session, now);
      if v != c { AppendKeeps(sha, c, id, chunk, v); }
    case Finalizing(id, now) => FinalizingKeeps(sha, w, id, now, v);
    case Cancelling(id) => CancellingKeeps(sha, w, id, v);
    case Recovering =>
      RecoverShrinks(w.store, v.store);
      RemovalKeeps(sha, w, v.store, w.transfers);
    case PowerLoss => PowerLossKeeps(sha, w, v);
    case _ => SessionsKeep(sha, w, v);
  }

  lemma SoundJournaled(sha: Bytes -> string, w: World)
    requires Sound(sha, w)
    ensures Journaled(w.store)
  {
  }

  lemma SameCollision(sha: Bytes -> string, w: World, c: World, step: Step)
    requires NoCollision(sha, w, step) && c.store == w.store && c.transfers == w.transfers
    ensures NoCollision(sha, c, step)
  {
  }

  lemma SessionsKeep(sha: Bytes -> string, w: World, v: World)
    requires Sound(sha, w) && v.store == w.store && v.published == w.published && v.damaged == w.damaged
    requires v.transfers == w.transfers || v.transfers == map[]
    ensures Sound(sha, v)
  {
  }

  // ---- Whole runs ----

  ghost predicate Run(sha: Bytes -> string, worlds: seq<World>, steps: seq<Step>) {
    && |worlds| == |steps| + 1 && worlds[0] == Start()
    && forall i :: 0 <= i < |steps| ==> Happens(sha, worlds[i], steps[i], worlds[i + 1])
  }

  predicate CollisionFree(sha: Bytes -> string, worlds: seq<World>, steps: seq<Step>)
    requires |worlds| == |steps| + 1
  {
    forall i :: 0 <= i < |steps| ==> NoCollision(sha, worlds[i], steps[i])
  }

  lemma {:induction false} RunSound(sha: Bytes -> string, worlds: seq<World>, steps: seq<Step>, n: nat)
    requires Run(sha, worlds, steps) && CollisionFree(sha, worlds, steps) && n < |worlds|
    ensures Sound(sha, worlds[n])
  {
    hide Sound, Happens, NoCollision;
    if n == 0 {
      StartSound(sha);
    } else {
      RunSound(sha, worlds, steps, n - 1);
      HappensKeeps(sha, worlds[n - 1], steps[n - 1], worlds[n]);
    }
  }

  lemma StartSound(sha: Bytes -> string)
    ensures Sound(sha, Start())
  {
  }

  lemma {:induction false} ReadyEntry(published: seq<Publication>, id: string)
    requires id in ReadyAfter(published)
    ensures exists p :: p in published && p.receipt.requestId == id
                        && ReadyAfter(published)[id] == Transaction(Written(p.receipt), Written(p.bytes))
  {
    var front, last := published[..|published| - 1], published[|published| - 1];
    assert last in published;
    if id != last.receipt.requestId {
      ReadyEntry(front, id);
      assert forall p :: p in front ==> p in published;
    }
  }

  /**
   * At every moment of every run, each ready artifact that kept its bytes is the in-order concatenation of the chunks
   * its transfer appended, with the authorized length and digest, renamed while its session was live, and it loads
   * as such.
   */
  lemma ReadyIsExact(sha: Bytes -> string, worlds: seq<World>, steps: seq<Step>, n: nat, id: string)
    requires Run(sha, worlds, steps) && CollisionFree(sha, worlds, steps) && n < |worlds|
    requires id in worlds[n].store.ready && id !in worlds[n].damaged
    ensures exists p :: p in worlds[n].published && p.receipt.requestId == id && Exact(sha, p)
                        && worlds[n].store.ready[id] == Transaction(Written(p.receipt), Written(Concat(p.chunks)))
                        && LoadError(sha, worlds[n].store, id) == Success(Ready(p.receipt, Concat(p.chunks)))
  {
    RunSound(sha, worlds, steps, n);
    ReadyEntry(worlds[n].published, id);
    var p :| p in worlds[n].published && p.receipt.requestId == id
             && worlds[n].store.ready[id] == Transaction(Written(p.receipt), Written(p.bytes));
    assert Exact(sha, p);
  }

  /** Staging never holds two transactions, and the two directories together never outgrow the capacity. */
  lemma NeverOverfull(sha: Bytes -> string, worlds: seq<World>, steps: seq<Step>, n: nat)
    requires Run(sha, worlds, steps) && CollisionFree(sha, worlds, steps) && n < |worlds|
    ensures |worlds[n].store.staging| <= 1
    ensures |worlds[n].store.ready| + |worlds[n].store.staging| <= MAX_READY_DEVELOPER_ARTIFACTS
    ensures OnceEach(worlds[n].published)
  {
    RunSound(sha, worlds, steps, n);
    PresentBounded(worlds[n].store);
  }

  // ---- What is never lost ----

  lemma ReadyStays(sha: Bytes -> string, w: World, step: Step, v: World)
    requires Sound(sha, w) && Happens(sha, w, step, v) && !step.PowerLoss?
    ensures forall id :: id in w.store.ready ==> id in v.store.ready && v.store.ready[id] == w.store.ready[id]
  {
    hide Sound, Journaled;
  }

  /** Until the power fails, a ready artifact is never removed or replaced. */
  lemma {:induction false} ReadyUntilPowerLoss(sha: Bytes -> string, worlds: seq<World>, steps: seq<Step>, m: nat, n: nat)
    requires Run(sha, worlds, steps) && CollisionFree(sha, worlds, steps) && m <= n < |worlds|
    requires forall i :: m <= i < n ==> !steps[i].PowerLoss?
    ensures forall id :: id in worlds[m].store.ready ==>
              id in worlds[n].store.ready && worlds[n].store.ready[id] == worlds[m].store.ready[id]
    decreases n
  {
    hide Sound, Happens, NoCollision;
    if m < n {
      ReadyUntilPowerLoss(sha, worlds, steps, m, n - 1);
      RunSound(sha, worlds, steps, n - 1);
      ReadyStays(sha, worlds[n - 1], steps[n - 1], worlds[n]);
    }
  }

  predicate StaysDurable(s: Store, t: Store, id: string) {
    Durable(s, id) ==> Durable(t, id) && t.ready[id] == s.ready[id]
  }

  lemma BeginDurable(s: Store, r: Receipt, t: Store, outcome: Outcome<()>, id: string)
    requires Begins(s, r, t, outcome)
    ensures StaysDurable(s, t, id)
  {
    if Durable(s, id) && t != s { assert id != r.requestId; }
  }

  lemma AppendDurable(s: Store, r: Receipt, received: nat, chunk: Bytes, t: Store, outcome: Outcome<nat>, id: string)
    requires Appends(s, r, received, chunk, t, outcome) && Journaled(s)
    ensures StaysDurable(s, t, id)
  {
    PresentBounded(s);
  }

  lemma FinalizeDurable(sha: Bytes -> string, s: Store, r: Receipt, received: nat, hashed: Bytes, t: Store, outcome: Outcome<Ready>, id: string)
    requires Finalizes(sha, s, r, received, hashed, t, outcome)
    ensures StaysDurable(s, t, id)
  {
  }

  lemma ShrinksDurable(s: Store, t: Store, id: string)
    requires Thinned(s, t)
    ensures StaysDurable(s, t, id)
  {
  }

  lemma StepDurable(sha: Bytes -> string, w: World, step: Step, v: World, id: string)
    requires Journaled(w.store) && Happens(sha, w, step, v) && !step.PowerLoss?
    ensures StaysDurable(w.store, v.store, id) && v.damaged == w.damaged
  {
    hide Journaled, StaysDurable, Begins, Appends, Finalizes, Thinned, PendingError, Synchronized;
    assert StaysDurable(w.store, w.store, id) by { SameDurable(w.store, id); }
    match step
    case Beginning(x, session, r, now) =>
      if v.store != w.store {
        var outcome: Outcome<()> :| Begins(w.store, r, v.store, outcome);
        BeginDurable(w.store, r, v.store, outcome, id);
      }
    case Appending(x, chunk, now) =>
      if v.store != w.store {
        var t := w.transfers[x];
        var outcome: Outcome<nat> :| Appends(w.store, t.receipt, t.received, chunk, v.store, outcome);
        AppendDurable(w.store, t.receipt, t.received, chunk, v.store, outcome, id);
      }
    case Finalizing(x, now) =>
      if v.store != w.store {
        var t := w.transfers[x];
        var outcome: Outcome<Ready> :| Finalizes(sha, w.store, t.receipt, t.received, t.hashed, v.store, outcome);
        FinalizeDurable(sha, w.store, t.receipt, t.received, t.hashed, v.store, outcome, id);
      }
    case Cancelling(x) =>
      if v.store != w.store {
        if Thinned(w.store, v.store) { ShrinksDurable(w.store, v.store, id); }
        else { RemovedDurable(w.store, w.store.staging - {w.transfers[x].receipt.requestId}, id); }
      }
    case Recovering =>
      if v.store != w.store {
        if Thinned(w.store, v.store) { ShrinksDurable(w.store, v.store, id); }
        else { RemovedDurable(w.store, map[], id); }
      }
    case _ =>
  }

  lemma SameDurable(s: Store, id: string)
    ensures StaysDurable(s, s, id)
  {
  }

  lemma RemovedDurable(s: Store, staging: map<string, Transaction>, id: string)
    ensures StaysDurable(s, Synchronized(s.(staging := staging)), id)
  {
  }

  lemma RebootDurable(w: World, kept: Listing, v: World, id: string)
    requires kept in w.store.journal && Reboots(w, kept, v) && Durable(w.store, id)
    ensures StaysDurable(w.store, v.store, id) && (id in v.damaged ==> id in w.damaged)
  {
  }

  lemma DurableStays(sha: Bytes -> string, w: World, step: Step, v: World, id: string)
    requires Sound(sha, w) && Happens(sha, w, step, v) && Durable(w.store, id)
    ensures Durable(v.store, id) && v.store.ready[id] == w.store.ready[id]
    ensures id in v.damaged ==> id in w.damaged
  {
    hide Journaled, Reboots;
    if step.PowerLoss? {
      var kept :| kept in w.store.journal && Reboots(w, kept, v);
      RebootDurable(w, kept, v, id);
    } else {
      StepDurable(sha, w, step, v, id);
    }
  }

  /** What is durable is never lost, whatever happens, power losses included. */
  lemma {:induction false} DurableForever(sha: Bytes -> string, worlds: seq<World>, steps: seq<Step>, m: nat, n: nat, id: string)
    requires Run(sha, worlds, steps) && CollisionFree(sha, worlds, steps) && m <= n < |worlds|
    requires Durable(worlds[m].store, id)
    ensures Durable(worlds[n].store, id) && worlds[n].store.ready[id] == worlds[m].store.ready[id]
    ensures id in worlds[n].damaged ==> id in worlds[m].damaged
    decreases n
  {
    hide Sound, Happens, NoCollision;
    if m < n {
      DurableForever(sha, worlds, steps, m, n - 1, id);
      RunSound(sha, worlds, steps, n - 1);
      DurableStays(sha, worlds[n - 1], steps[n - 1], worlds[n], id);
    }
  }
}
