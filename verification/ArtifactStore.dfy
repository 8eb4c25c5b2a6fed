/** The staged receipt of developer artifacts: what each operation may do to the store's two directories. */
module ArtifactStore {
  import opened Options
  import opened DeveloperSession

  const MAX_READY_DEVELOPER_ARTIFACTS := 1024
  const MAX_DEVELOPER_TRANSFER_CHUNK_BYTES := 1024 * 1024

  type Bytes = seq<Byte>

  datatype Receipt = Receipt(requestId: string, workstation: string, ordinal: nat, deployment: string, sha256: string, bytes: nat)

  /** A file that is missing, was cut short while being written, or holds its value. */
  datatype File<T> = Absent | Torn | Written(value: T)

  /** A direct subdirectory with its receipt and artifact files. */
  datatype Transaction = Transaction(receipt: File<Receipt>, artifact: File<Bytes>)

  /** The names in the two directories. */
  datatype Listing = Listing(staging: set<string>, ready: set<string>)

  /** What the process sees, and how much of it is on the platter: the listings since the directories were last
      synchronized, and the transactions whose artifact has bytes that were not. A transaction moves between the
      directories in one update, updates of the two directories persist in order, and file contents persist only
      when synchronized. */
  datatype Store = Store(staging: map<string, Transaction>, ready: map<string, Transaction>, journal: seq<Listing>, loose: set<string>)

  datatype Failure =
    | Io | Unsafe | PushAuthorityRequired | SessionInactive | RecoveryRequired | ReadyCapacityExceeded | DuplicateRequest
    | EmptyChunk | ChunkTooLarge | LengthMismatch | DigestMismatch | ReceiptBindingMismatch | SourceRead

  datatype Outcome<T> = Success(value: T) | Failed(failure: Failure)

  datatype Ready = Ready(receipt: Receipt, bytes: Bytes)

  function ReceiptOf(a: AuthorizedOperation): Outcome<Receipt> {
    match a.request.operation
    case Push(deployment, sha, bytes) => Success(Receipt(a.request.id, a.workstation, a.ordinal, deployment, sha, bytes))
    case _ => Failed(PushAuthorityRequired)
  }

  function ListingOf(s: Store): Listing { Listing(s.staging.Keys, s.ready.Keys) }

  /** After an update of the directories. */
  function Recorded(s: Store): Store { s.(journal := s.journal + [ListingOf(s)]) }

  function Synchronized(s: Store): Store { s.(journal := [ListingOf(s)]) }

  /** In whatever part of the journal persists, the artifact is ready, and its bytes are on the platter. */
  predicate Durable(s: Store, id: string) {
    id in s.ready && id !in s.loose && forall l :: l in s.journal ==> id in l.ready
  }

  // ---- What each locked operation may do, with an I/O error allowed between any two of its steps ----

  /** A directory left behind before the empty transfer is complete. */
  predicate Started(t: Transaction, r: Receipt) {
    || t == Transaction(Absent, Absent) || t == Transaction(Torn, Absent)
    || t == Transaction(Written(r), Absent) || t == Transaction(Written(r), Written([]))
  }

  function BeginError(s: Store, r: Receipt): Outcome<()> {
    if s.staging != map[] then Failed(RecoveryRequired)
    else if |s.ready| >= MAX_READY_DEVELOPER_ARTIFACTS then Failed(ReadyCapacityExceeded)
    else if r.requestId in s.ready then Failed(DuplicateRequest)
    else Success(())
  }

  function Leaving(s: Store, r: Receipt, left: Transaction): Store {
    s.(staging := map[r.requestId := left], loose := s.loose + {r.requestId})
  }

  /** The store while one undisturbed transfer is under way that began in `s`. */
  function Receiving(s: Store, r: Receipt, bytes: Bytes): Store {
    Synchronized(s.(staging := map[r.requestId := Transaction(Written(r), Written(bytes))], loose := s.loose - {r.requestId}))
  }

  /** An empty transfer, all of it synchronized. */
  function Complete(s: Store, r: Receipt): Store { Receiving(s, r, []) }

  lemma SameListing(s: Store, r: Receipt, from: Transaction, to: Transaction)
    ensures Synchronized(Leaving(s, r, to)) == Synchronized(Leaving(s, r, from)).(staging := map[r.requestId := to])
    ensures Synchronized(Leaving(s, r, to)).staging == map[r.requestId := to]
  {
    assert Leaving(s, r, from).staging.Keys == {r.requestId} == Leaving(s, r, to).staging.Keys;
  }

  lemma CompleteIs(s: Store, r: Receipt)
    ensures var left := Synchronized(Leaving(s, r, Transaction(Written(r), Written([]))));
            Complete(s, r) == left.(loose := left.loose - {r.requestId})
  {
    assert s.loose + {r.requestId} - {r.requestId} == s.loose - {r.requestId};
  }

  predicate Leaves(s: Store, r: Receipt, left: Transaction, t: Store) {
    t == Recorded(Leaving(s, r, left)) || t == Synchronized(Leaving(s, r, left))
  }

  ghost predicate Begins(s: Store, r: Receipt, t: Store, outcome: Outcome<()>) {
    match outcome
    case Success(_) =>
      BeginError(s, r).Success? && t == Complete(s, r)
    case Failed(f) =>
      || (t == s && (f == Io || BeginError(s, r) == Failed(f)))
      || (f == Io && BeginError(s, r).Success?
          && exists left :: Started(left, r) && Leaves(s, r, left, t))
  }

  /** Whether the staging directory holds this receipt and so many bytes. */
  function PendingError(s: Store, r: Receipt, received: nat): Outcome<Bytes> {
    if r.requestId !in s.staging then Failed(Io) else
    var t := s.staging[r.requestId];
    if t.receipt.Absent? || t.artifact.Absent? then Failed(Unsafe)
    else if !t.receipt.Written? || t.receipt.value != r then Failed(ReceiptBindingMismatch)
    else if !t.artifact.Written? || |t.artifact.value| != received then Failed(LengthMismatch)
    else Success(t.artifact.value)
  }

  function WithArtifact(s: Store, r: Receipt, bytes: Bytes): Store {
    s.(staging := s.staging[r.requestId := Transaction(Written(r), Written(bytes))])
  }

  function Unsynchronized(s: Store, r: Receipt, bytes: Bytes): Store {
    WithArtifact(s, r, bytes).(loose := s.loose + {r.requestId})
  }

  ghost predicate Appends(s: Store, r: Receipt, received: nat, chunk: Bytes, t: Store, outcome: Outcome<nat>) {
    match outcome
    case Success(n) =>
      && n == received + |chunk| <= r.bytes && PendingError(s, r, received).Success?
      && t == WithArtifact(s, r, PendingError(s, r, received).value + chunk).(loose := s.loose - {r.requestId})
    case Failed(f) =>
      || (t == s && (f == Io || (f == LengthMismatch && received + |chunk| > r.bytes) || PendingError(s, r, received) == Failed(f)))
      || (f == Io && received + |chunk| <= r.bytes && PendingError(s, r, received).Success?
          && exists k :: 0 < k <= |chunk| && t == Unsynchronized(s, r, PendingError(s, r, received).value + chunk[..k]))
  }

  /** Why a complete transfer may not be published; success gives the bytes read back. */
  function FinalizeError(sha: Bytes -> string, s: Store, r: Receipt, received: nat, hashed: Bytes): Outcome<Bytes> {
    if received != r.bytes then Failed(LengthMismatch)
    else if sha(hashed) != r.sha256 then Failed(DigestMismatch)
    else match PendingError(s, r, received)
      case Failed(f) => Failed(f)
      case Success(bytes) =>
        if sha(bytes) != r.sha256 then Failed(DigestMismatch)
        else if r.requestId in s.ready then Failed(DuplicateRequest)
        else Success(bytes)
  }

  function Published(s: Store, r: Receipt): Store
    requires r.requestId in s.staging
  {
    s.(staging := s.staging - {r.requestId}, ready := s.ready[r.requestId := s.staging[r.requestId]])
  }

  ghost predicate Finalizes(sha: Bytes -> string, s: Store, r: Receipt, received: nat, hashed: Bytes, t: Store, outcome: Outcome<Ready>) {
    var checked := FinalizeError(sha, s, r, received, hashed);
    match outcome
    case Success(ready) => checked.Success? && ready == Ready(r, checked.value) && t == Synchronized(Published(s, r))
    case Failed(f) =>
      || (t == s && (f == Io || checked == Failed(f)))
      || (f == Io && checked.Success? && (t == Recorded(Published(s, r)) || t == Synchronized(Published(s, r))))
  }

  /** A directory some of whose files have already been removed. */
  predicate Reduced(t: Transaction, left: Transaction) {
    (left.receipt == t.receipt || left.receipt == Absent) && (left.artifact == t.artifact || left.artifact == Absent)
  }

  predicate Thinned(s: Store, t: Store) {
    && t.ready == s.ready && t.loose == s.loose && Shrinks(s, t)
    && forall id :: id in t.staging ==> id in s.staging && Reduced(s.staging[id], t.staging[id])
  }

  /** Directories were removed from staging, each removal unsynchronized. */
  predicate Shrinks(s: Store, t: Store) {
    && s.journal <= t.journal
    && (t.journal == s.journal ==> t.staging.Keys == s.staging.Keys)
    && (t.journal != s.journal ==> t.journal[|t.journal| - 1] == ListingOf(t))
    && forall i :: |s.journal| <= i < |t.journal| ==> t.journal[i].ready == s.ready.Keys && t.journal[i].staging <= s.staging.Keys
  }

  lemma ThinnedTwice(s: Store, t: Store, u: Store)
    requires Thinned(s, t) && Thinned(t, u)
    ensures Thinned(s, u)
  {
    if u.journal != t.journal && t.journal == s.journal { assert u.journal != s.journal; }
    forall i | |s.journal| <= i < |u.journal| ensures u.journal[i].ready == s.ready.Keys && u.journal[i].staging <= s.staging.Keys {
      if i < |t.journal| { assert u.journal[i] == t.journal[i]; }
    }
  }

  lemma ThinnedSame(s: Store)
    ensures Thinned(s, s)
  {
  }

  lemma RemovedThins(s: Store, id: string)
    ensures Thinned(s, Recorded(s.(staging := s.staging - {id})))
  {
  }

  ghost predicate Cancels(s: Store, r: Receipt, received: nat, t: Store, outcome: Outcome<()>) {
    match outcome
    case Success(_) => PendingError(s, r, received).Success? && t == Synchronized(s.(staging := s.staging - {r.requestId}))
    case Failed(f) =>
      || (t == s && (f == Io || PendingError(s, r, received) == Failed(f)))
      || (f == Io && PendingError(s, r, received).Success? && Thinned(s, t))
  }

  ghost predicate Recovers(s: Store, t: Store, outcome: Outcome<nat>) {
    match outcome
    case Success(n) => n == |s.staging| && t == if s.staging == map[] then s else Synchronized(s.(staging := map[]))
    case Failed(f) => f == Io && Thinned(s, t)
  }

  // ---- What is owed when no call fails ----

  predicate Same(a: Outcome<()>, b: Outcome<()>) {
    match a
    case Failed(f) => b == Failed(f)
    case Success(_) => b.Success?
  }

  function AppendAnswer(s: Store, r: Receipt, received: nat, chunk: Bytes): Outcome<nat> {
    if received + |chunk| > r.bytes then Failed(LengthMismatch) else
    match PendingError(s, r, received)
    case Failed(f) => Failed(f)
    case Success(_) => Success(received + |chunk|)
  }

  function FinalizeAnswer(sha: Bytes -> string, s: Store, r: Receipt, received: nat, hashed: Bytes): Outcome<Ready> {
    match FinalizeError(sha, s, r, received, hashed)
    case Failed(f) => Failed(f)
    case Success(bytes) => Success(Ready(r, bytes))
  }

  function CancelAnswer(s: Store, r: Receipt, received: nat): Outcome<()> {
    match PendingError(s, r, received)
    case Failed(f) => Failed(f)
    case Success(_) => Success(())
  }

  /** The published artifact passes its own validation. */
  lemma LoadsPublished(sha: Bytes -> string, s: Store, r: Receipt, received: nat, hashed: Bytes)
    requires FinalizeError(sha, s, r, received, hashed).Success?
    ensures LoadError(sha, Published(s, r), r.requestId) == Success(Ready(r, FinalizeError(sha, s, r, received, hashed).value))
  {
  }

  /** Reading back one ready artifact with full validation. */
  function LoadError(sha: Bytes -> string, s: Store, id: string): Outcome<Ready> {
    if id !in s.ready then Failed(Io) else
    var t := s.ready[id];
    if !t.receipt.Written? || !t.artifact.Written? then Failed(Unsafe)
    else if t.receipt.value.requestId != id then Failed(ReceiptBindingMismatch)
    else if |t.artifact.value| != t.receipt.value.bytes then Failed(LengthMismatch)
    else if sha(t.artifact.value) != t.receipt.value.sha256 then Failed(DigestMismatch)
    else Success(Ready(t.receipt.value, t.artifact.value))
  }

  /** What is wrong with a transfer, and that nothing else can be. */
  lemma PendingMeans(s: Store, r: Receipt, received: nat)
    ensures PendingError(s, r, received).Success? <==>
              && r.requestId in s.staging && s.staging[r.requestId].receipt == Written(r)
              && s.staging[r.requestId].artifact.Written? && |s.staging[r.requestId].artifact.value| == received
    ensures PendingError(s, r, received).Failed? ==>
              match PendingError(s, r, received).failure
              case Io => r.requestId !in s.staging
              case Unsafe => r.requestId in s.staging && (s.staging[r.requestId].receipt.Absent? || s.staging[r.requestId].artifact.Absent?)
              case ReceiptBindingMismatch =>
                && r.requestId in s.staging && !s.staging[r.requestId].receipt.Absent? && !s.staging[r.requestId].artifact.Absent?
                && s.staging[r.requestId].receipt != Written(r)
              case LengthMismatch =>
                && r.requestId in s.staging && !s.staging[r.requestId].artifact.Absent?
                && forall bytes :: s.staging[r.requestId].artifact == Written(bytes) ==> |bytes| != received
              case _ => false
  {
  }

  /** Why a transfer cannot begin, and why a complete one cannot be published. */
  lemma AnswersMean(sha: Bytes -> string, s: Store, r: Receipt, received: nat, hashed: Bytes)
    ensures BeginError(s, r).Success? <==> s.staging == map[] && |s.ready| < 1024 && r.requestId !in s.ready
    ensures BeginError(s, r).Failed? ==>
              match BeginError(s, r).failure
              case RecoveryRequired => s.staging != map[]
              case ReadyCapacityExceeded => |s.ready| >= 1024
              case DuplicateRequest => r.requestId in s.ready
              case _ => false
    ensures FinalizeError(sha, s, r, received, hashed).Success? <==>
              && received == r.bytes && sha(hashed) == r.sha256 && r.requestId !in s.ready
              && PendingError(s, r, received).Success? && sha(PendingError(s, r, received).value) == r.sha256
    ensures FinalizeError(sha, s, r, received, hashed).Failed? ==>
              match FinalizeError(sha, s, r, received, hashed).failure
              case DigestMismatch => sha(hashed) != r.sha256 || (PendingError(s, r, received).Success? && sha(PendingError(s, r, received).value) != r.sha256)
              case DuplicateRequest => r.requestId in s.ready
              case LengthMismatch => received != r.bytes || PendingError(s, r, received) == Failed(LengthMismatch)
              case f => PendingError(s, r, received) == Failed(f)
  {
    hide PendingError;
    PendingMeans(s, r, received);
  }

  /** What is wrong with a ready artifact, and that nothing else can be. */
  lemma LoadMeans(sha: Bytes -> string, s: Store, id: string)
    ensures LoadError(sha, s, id).Success? <==>
              && id in s.ready && s.ready[id].receipt.Written? && s.ready[id].artifact.Written?
              && s.ready[id].receipt.value.requestId == id && |s.ready[id].artifact.value| == s.ready[id].receipt.value.bytes
              && sha(s.ready[id].artifact.value) == s.ready[id].receipt.value.sha256
    ensures LoadError(sha, s, id).Success? ==>
              LoadError(sha, s, id).value == Ready(s.ready[id].receipt.value, s.ready[id].artifact.value)
    ensures LoadError(sha, s, id).Failed? ==>
              match LoadError(sha, s, id).failure
              case Io => id !in s.ready
              case Unsafe => id in s.ready && (!s.ready[id].receipt.Written? || !s.ready[id].artifact.Written?)
              case ReceiptBindingMismatch => id in s.ready && s.ready[id].receipt.Written? && s.ready[id].receipt.value.requestId != id
              case LengthMismatch =>
                && id in s.ready && s.ready[id].receipt.Written? && s.ready[id].artifact.Written?
                && |s.ready[id].artifact.value| != s.ready[id].receipt.value.bytes
              case DigestMismatch =>
                && id in s.ready && s.ready[id].receipt.Written? && s.ready[id].artifact.Written?
                && sha(s.ready[id].artifact.value) != s.ready[id].receipt.value.sha256
              case _ => false
  {
  }

  /** Each read gives some bytes, no more than the buffer holds. */
  predicate Chunked(input: seq<Outcome<Bytes>>) {
    forall i :: 0 <= i < |input| && input[i].Success? ==> 0 < |input[i].value| <= MAX_DEVELOPER_TRANSFER_CHUNK_BYTES
  }

  /** The bytes are the ones authorized. */
  predicate Matches(sha: Bytes -> string, r: Receipt, bytes: Bytes) { |bytes| == r.bytes && sha(bytes) == r.sha256 }

  /** Every read of the source succeeded. */
  predicate AllRead(input: seq<Outcome<Bytes>>) { forall i :: 0 <= i < |input| ==> input[i].Success? }

  /** The bytes of the input in order. */
  function Gathered(input: seq<Outcome<Bytes>>): Bytes
    requires AllRead(input)
  {
    if input == [] then [] else Gathered(input[..|input| - 1]) + input[|input| - 1].value
  }

  lemma GatheredMore(input: seq<Outcome<Bytes>>, i: nat)
    requires i < |input| && AllRead(input[..i]) && input[i].Success?
    ensures AllRead(input[..i + 1]) && Gathered(input[..i + 1]) == Gathered(input[..i]) + input[i].value
  {
    assert input[..i + 1][..i] == input[..i];
    assert forall k :: 0 <= k < i ==> input[..i][k] == input[..i + 1][k];
  }

  predicate Publishable(sha: Bytes -> string, s: Store, r: Receipt, input: seq<Outcome<Bytes>>) {
    BeginError(s, r).Success? && AllRead(input) && Matches(sha, r, Gathered(input))
  }

  lemma {:induction false} GatheredGrows(input: seq<Outcome<Bytes>>, i: nat)
    requires i <= |input| && AllRead(input)
    ensures AllRead(input[..i]) && |Gathered(input[..i])| <= |Gathered(input)|
  {
    if i < |input| {
      GatheredGrows(input[..|input| - 1], i);
      assert input[..|input| - 1][..i] == input[..i];
    } else {
      assert input[..i] == input;
    }
  }

  /** While every call works, a chunk is refused only if the source is longer than authorized. */
  lemma RefusedChunk(sha: Bytes -> string, s: Store, r: Receipt, input: seq<Outcome<Bytes>>, i: nat, bytes: Bytes)
    requires i < |input| && AllRead(input[..i]) && input[i].Success? && bytes == Gathered(input[..i])
    requires AppendAnswer(Receiving(s, r, bytes), r, |bytes|, input[i].value).Failed?
    ensures !Publishable(sha, s, r, input)
  {
    GatheredMore(input, i);
    if AllRead(input) { GatheredGrows(input, i + 1); }
  }

  lemma NotPublishable(sha: Bytes -> string, s: Store, r: Receipt, input: seq<Outcome<Bytes>>)
    ensures BeginError(s, r).Failed? || (exists i :: 0 <= i < |input| && input[i].Failed?) ==> !Publishable(sha, s, r, input)
  {
  }

  lemma FinishedAnswer(sha: Bytes -> string, s: Store, r: Receipt, input: seq<Outcome<Bytes>>)
    requires BeginError(s, r).Success? && AllRead(input)
    ensures FinalizeAnswer(sha, Receiving(s, r, Gathered(input)), r, |Gathered(input)|, Gathered(input)).Success?
            <==> Publishable(sha, s, r, input)
  {
  }

  lemma ReceivesChunk(s: Store, r: Receipt, bytes: Bytes, chunk: Bytes, t: Store, outcome: Outcome<nat>)
    requires Appends(Receiving(s, r, bytes), r, |bytes|, chunk, t, outcome) && outcome.Success?
    ensures t == Receiving(s, r, bytes + chunk) && outcome.value == |bytes + chunk|
  {
    assert Receiving(s, r, bytes).staging.Keys == {r.requestId} == Receiving(s, r, bytes + chunk).staging.Keys;
  }

  lemma PublishesBytes(sha: Bytes -> string, s: Store, r: Receipt, bytes: Bytes, t: Store, outcome: Outcome<Ready>)
    requires Finalizes(sha, Receiving(s, r, bytes), r, |bytes|, bytes, t, outcome)
    ensures outcome.Success? ==>
              && sha(bytes) == r.sha256 && |bytes| == r.bytes && r.requestId !in s.ready && outcome.value == Ready(r, bytes)
              && t.staging == map[] && t.ready == s.ready[r.requestId := Transaction(Written(r), Written(bytes))]
              && Durable(t, r.requestId)
    ensures outcome.Failed? ==> forall id :: id in s.ready ==> id in t.ready && t.ready[id] == s.ready[id]
  {
  }

  // ---- What a failed push leaves behind ----

  /** The store when a transfer that received so many bytes stopped, after the last of them or within the next chunk. */
  ghost predicate Halted(s: Store, r: Receipt, bytes: Bytes, chunk: Bytes, t: Store) {
    || t == Receiving(s, r, bytes)
    || exists k :: 0 < k <= |chunk| && t == Receiving(s, r, bytes + chunk[..k]).(loose := s.loose + {r.requestId})
  }

  /** Read `n` of the source was the first that could not be received, and why. */
  ghost predicate StopsAt(s: Store, r: Receipt, input: seq<Outcome<Bytes>>, n: nat, t: Store, f: Failure, live: bool, faulty: bool) {
    && n < |input| && AllRead(input[..n])
    && var bytes := Gathered(input[..n]);
       match input[n]
       case Failed(_) => f == SourceRead && t == Receiving(s, r, bytes)
       case Success(chunk) =>
         || (f == Io && faulty && Halted(s, r, bytes, chunk, t))
         || (t == Receiving(s, r, bytes)
             && ((f == EmptyChunk && chunk == []) || (f == ChunkTooLarge && |chunk| > MAX_DEVELOPER_TRANSFER_CHUNK_BYTES)
                 || (f == SessionInactive && !live) || (f == LengthMismatch && |bytes| + |chunk| > r.bytes)))
  }

  ghost predicate Stops(s: Store, r: Receipt, input: seq<Outcome<Bytes>>, t: Store, f: Failure, live: bool, faulty: bool) {
    exists n :: StopsAt(s, r, input, n, t, f, live, faulty)
  }

  /** The whole source was received, but not published, or published and not acknowledged. */
  ghost predicate Unacknowledged(sha: Bytes -> string, s: Store, r: Receipt, input: seq<Outcome<Bytes>>, t: Store,
                                 f: Failure, live: bool, faulty: bool) {
    && AllRead(input)
    && var done := Receiving(s, r, Gathered(input));
       || (t == done
           && ((f == Io && faulty) || (f == SessionInactive && !live) || (f == LengthMismatch && |Gathered(input)| != r.bytes)
               || (f == DigestMismatch && |Gathered(input)| == r.bytes && sha(Gathered(input)) != r.sha256)))
       || (f == Io && faulty && Matches(sha, r, Gathered(input))
           && (t == Recorded(Published(done, r)) || t == Synchronized(Published(done, r))))
  }

  /** Why a push failed and what it leaves, in the order in which it can happen. */
  ghost predicate Abandons(sha: Bytes -> string, s: Store, pushed: Outcome<Receipt>, input: seq<Outcome<Bytes>>, t: Store,
                           f: Failure, live: bool, faulty: bool) {
    || (t == s && (pushed == Failed(f) || (f == SessionInactive && !live) || (f == Io && faulty)))
    || (pushed.Success? && var r := pushed.value;
        || (t == s && BeginError(s, r) == Failed(f))
        || (BeginError(s, r).Success?
            && (|| (f == Io && faulty && exists left :: Started(left, r) && Leaves(s, r, left, t))
                || Stops(s, r, input, t, f, live, faulty)
                || Unacknowledged(sha, s, r, input, t, f, live, faulty))))
  }

  lemma HaltsWithin(s: Store, r: Receipt, bytes: Bytes, chunk: Bytes, t: Store)
    requires Appends(Receiving(s, r, bytes), r, |bytes|, chunk, t, Failed(Io))
    ensures Halted(s, r, bytes, chunk, t)
  {
    var u := Receiving(s, r, bytes);
    if t != u {
      var k :| 0 < k <= |chunk| && t == Unsynchronized(u, r, bytes + chunk[..k]);
      PartlyReceived(s, r, bytes, bytes + chunk[..k]);
      assert t == Receiving(s, r, bytes + chunk[..k]).(loose := s.loose + {r.requestId});
    }
  }

  lemma PartlyReceived(s: Store, r: Receipt, bytes: Bytes, more: Bytes)
    ensures Unsynchronized(Receiving(s, r, bytes), r, more) == Receiving(s, r, more).(loose := s.loose + {r.requestId})
  {
    assert s.loose - {r.requestId} + {r.requestId} == s.loose + {r.requestId};
    assert Receiving(s, r, more).staging.Keys == {r.requestId} == Receiving(s, r, bytes).staging.Keys;
  }

  lemma StopsHere(s: Store, r: Receipt, input: seq<Outcome<Bytes>>, n: nat, t: Store, outcome: Outcome<nat>, live: bool, faulty: bool)
    requires n < |input| && AllRead(input[..n]) && input[n].Success? && outcome.Failed?
    requires var bytes, chunk := Gathered(input[..n]), input[n].value;
             && (t == Receiving(s, r, bytes) || Appends(Receiving(s, r, bytes), r, |bytes|, chunk, t, outcome))
             && ((outcome == Failed(Io) && faulty)
                 || outcome == if chunk == [] then Failed(EmptyChunk)
                               else if |chunk| > MAX_DEVELOPER_TRANSFER_CHUNK_BYTES then Failed(ChunkTooLarge)
                               else if !live then Failed(SessionInactive)
                               else AppendAnswer(Receiving(s, r, bytes), r, |bytes|, chunk))
    ensures Stops(s, r, input, t, outcome.failure, live, faulty)
  {
    var bytes, chunk := Gathered(input[..n]), input[n].value;
    if t != Receiving(s, r, bytes) && outcome == Failed(Io) { HaltsWithin(s, r, bytes, chunk, t); }
    assert PendingError(Receiving(s, r, bytes), r, |bytes|) == Success(bytes);
    assert StopsAt(s, r, input, n, t, outcome.failure, live, faulty);
  }

  lemma StopsFaulty(s: Store, r: Receipt, input: seq<Outcome<Bytes>>, t: Store, f: Failure, live: bool, faulty: bool)
    requires Stops(s, r, input, t, f, live, faulty)
    ensures Stops(s, r, input, t, f, live, true)
  {
    var n :| StopsAt(s, r, input, n, t, f, live, faulty);
    assert StopsAt(s, r, input, n, t, f, live, true);
  }

  lemma EndsUnacknowledged(sha: Bytes -> string, s: Store, r: Receipt, input: seq<Outcome<Bytes>>, t: Store,
                           outcome: Outcome<Ready>, live: bool, faulty: bool)
    requires AllRead(input) && BeginError(s, r).Success? && outcome.Failed?
    requires var bytes := Gathered(input);
             && (t == Receiving(s, r, bytes) || Finalizes(sha, Receiving(s, r, bytes), r, |bytes|, bytes, t, outcome))
             && ((outcome == Failed(Io) && faulty)
                 || outcome == if !live then Failed(SessionInactive) else FinalizeAnswer(sha, Receiving(s, r, bytes), r, |bytes|, bytes))
    ensures Unacknowledged(sha, s, r, input, t, outcome.failure, live, faulty)
  {
    var bytes := Gathered(input);
    assert PendingError(Receiving(s, r, bytes), r, |bytes|) == Success(bytes);
  }

  /** A publication that was acknowledged is on the platter, unless some of its bytes were never synchronized. */
  lemma AcknowledgedIsDurable(sha: Bytes -> string, s: Store, r: Receipt, received: nat, hashed: Bytes, t: Store, outcome: Outcome<Ready>)
    requires Finalizes(sha, s, r, received, hashed, t, outcome) && outcome.Success?
    ensures Durable(t, r.requestId) <==> r.requestId !in s.loose
  {
  }

  // ---- The store as the source writes it ----

  /** The volatile authority for one incomplete transfer; `hashed` is what the incremental hash has absorbed. */
  class PendingArtifact {
    const authorization: AuthorizedOperation
    const receipt: Receipt
    var received: nat
    var hashed: Bytes

    constructor (authorization: AuthorizedOperation, receipt: Receipt)
      ensures this.authorization == authorization && this.receipt == receipt && received == 0 && hashed == []
    {
      this.authorization, this.receipt := authorization, receipt;
      received, hashed := 0, [];
    }
  }

  class DeveloperArtifactStore {
    const sha: Bytes -> string
    var staging: map<string, Transaction>
    var ready: map<string, Transaction>
    /** The listings since the directories were last synchronized; the last one is the present. */
    var journal: seq<Listing>
    /** Transactions with bytes that were not synchronized. */
    var loose: set<string>
    /** How many calls have failed. */
    ghost var faults: nat

    constructor (sha: Bytes -> string, staging: map<string, Transaction>, ready: map<string, Transaction>)
      ensures this.sha == sha && Contents() == Store(staging, ready, [Listing(staging.Keys, ready.Keys)], {}) && faults == 0
    {
      this.sha, this.staging, this.ready := sha, staging, ready;
      journal, loose, faults := [Listing(staging.Keys, ready.Keys)], {}, 0;
    }

    function Contents(): Store
      reads this
    {
      Store(staging, ready, journal, loose)
    }

    /** The directories have changed. */
    method Record()
      modifies this`journal
      ensures Contents() == Recorded(old(Contents()))
    {
      journal := journal + [ListingOf(Contents())];
    }

    /** Synchronizing the directories may fail. */
    method SyncDirectories() returns (ok: bool)
      modifies this`journal, this`faults
      ensures faults == old(faults) + if ok then 0 else 1
      ensures Contents() == if ok then Synchronized(old(Contents())) else old(Contents())
    {
      ok := Try();
      if ok {
        journal := [ListingOf(Contents())];
      }
    }

    /** One file-system call or lock attempt, which may fail. */
    method Try() returns (ok: bool)
      modifies this`faults
      ensures faults == old(faults) + if ok then 0 else 1
    {
      ok := *;
      if !ok {
        faults := faults + 1;
      }
    }

    /** Writing so many bytes may stop short. */
    method Write(n: nat) returns (written: nat)
      modifies this`faults
      ensures written <= n && faults == old(faults) + if written < n then 1 else 0
    {
      var w: int := *;
      written := if 0 <= w < n then w else n;
      if written < n {
        faults := faults + 1;
      }
    }

    method BeginLocked(r: Receipt) returns (outcome: Outcome<()>)
      modifies this`staging, this`journal, this`loose, this`faults
      ensures Begins(old(Contents()), r, Contents(), outcome)
      ensures old(faults) <= faults
      ensures Same(outcome, BeginError(old(Contents()), r)) || (outcome == Failed(Io) && old(faults) < faults)
    {
      var read := Try();
      if !read {
        return Failed(Io);
      }
      if staging != map[] {
        return Failed(RecoveryRequired);
      }
      if |ready| >= MAX_READY_DEVELOPER_ARTIFACTS {
        return Failed(ReadyCapacityExceeded);
      }
      if r.requestId in ready || r.requestId in staging {
        return Failed(DuplicateRequest);
      }
      var created := Try();
      if !created {
        return Failed(Io);
      }
      outcome := FillTransaction(r);
    }

    /** Makes the directory durable, then creates the receipt and the empty artifact inside. */
    method FillTransaction(r: Receipt) returns (outcome: Outcome<()>)
      modifies this`staging, this`journal, this`loose, this`faults
      ensures outcome.Success? ==> Contents() == Complete(old(Contents()), r)
      ensures old(faults) <= faults && (outcome.Failed? ==> old(faults) < faults)
      ensures outcome.Failed? ==> outcome == Failed(Io)
                                  && exists left :: Started(left, r) && Leaves(old(Contents()), r, left, Contents())
    {
      ghost var s := Contents();
      staging, loose := map[r.requestId := Transaction(Absent, Absent)], loose + {r.requestId};
      Record();
      assert Started(Transaction(Absent, Absent), r) && Leaves(s, r, Transaction(Absent, Absent), Contents());
      var synchronized := SyncDirectories();
      if !synchronized {
        return Failed(Io);
      }
      outcome := FillDirectory(r, s);
    }

    method FillDirectory(r: Receipt, ghost s: Store) returns (outcome: Outcome<()>)
      requires Contents() == Synchronized(Leaving(s, r, Transaction(Absent, Absent)))
      modifies this`staging, this`loose, this`faults
      ensures outcome.Success? ==> Contents() == Complete(s, r)
      ensures old(faults) <= faults && (outcome.Failed? ==> old(faults) < faults)
      ensures outcome.Failed? ==> outcome == Failed(Io) && exists left :: Started(left, r) && Leaves(s, r, left, Contents())
    {
      hide Synchronized;
      SameListing(s, r, Transaction(Absent, Absent), Transaction(Torn, Absent));
      staging := map[r.requestId := Transaction(Torn, Absent)];
      assert Started(Transaction(Torn, Absent), r) && Leaves(s, r, Transaction(Torn, Absent), Contents());
      var written := Try();
      if !written {
        return Failed(Io);
      }
      SameListing(s, r, Transaction(Torn, Absent), Transaction(Written(r), Absent));
      staging := map[r.requestId := Transaction(Written(r), Absent)];
      assert Started(Transaction(Written(r), Absent), r) && Leaves(s, r, Transaction(Written(r), Absent), Contents());
      var created := Try();
      if !created {
        return Failed(Io);
      }
      SameListing(s, r, Transaction(Written(r), Absent), Transaction(Written(r), Written([])));
      staging := map[r.requestId := Transaction(Written(r), Written([]))];
      assert Started(Transaction(Written(r), Written([])), r) && Leaves(s, r, Transaction(Written(r), Written([])), Contents());
      var persisted := Try();
      if !persisted {
        return Failed(Io);
      }
      CompleteIs(s, r);
      loose := loose - {r.requestId};
      outcome := Success(());
    }

    method BeginAuthorizedPush(a: AuthorizedOperation, now: nat) returns (outcome: Outcome<Receipt>, transfer: PendingArtifact?)
      modifies this`staging, this`journal, this`loose, this`faults, a.liveness
      ensures a.liveness.active == (old(a.liveness.active) && (ReceiptOf(a).Success? ==> now < a.liveness.expiresAt))
      ensures outcome.Success? <==> transfer != null
      ensures transfer != null ==>
                && fresh(transfer) && transfer.authorization == a && outcome == ReceiptOf(a) == Success(transfer.receipt)
                && a.liveness.active && transfer.received == 0 && transfer.hashed == []
                && Begins(old(Contents()), transfer.receipt, Contents(), Success(()))
      ensures outcome.Failed? ==>
                || (Contents() == old(Contents())
                    && (outcome == ReceiptOf(a) || (outcome == Failed(SessionInactive) && !a.liveness.active) || outcome == Failed(Io)))
                || (ReceiptOf(a).Success? && a.liveness.active
                    && Begins(old(Contents()), ReceiptOf(a).value, Contents(), Failed(outcome.failure)))
      ensures old(faults) <= faults
      ensures var answer := if ReceiptOf(a).Failed? then ReceiptOf(a) else if !a.liveness.active then Failed(SessionInactive)
                            else match BeginError(old(Contents()), ReceiptOf(a).value)
                              case Failed(f) => Failed(f)
                              case Success(_) => ReceiptOf(a);
              outcome == answer || (outcome == Failed(Io) && old(faults) < faults)
    {
      outcome, transfer := ReceiptOf(a), null;
      if outcome.Failed? {
        return;
      }
      var live := a.liveness.WithLiveSession(now);
      if !live {
        return Failed(SessionInactive), null;
      }
      var locked := Try();
      if !locked {
        return Failed(Io), null;
      }
      var begun := BeginLocked(outcome.value);
      if begun.Failed? {
        return Failed(begun.failure), null;
      }
      transfer := new PendingArtifact(a, outcome.value);
    }

    method AppendLocked(transfer: PendingArtifact, chunk: Bytes) returns (outcome: Outcome<nat>)
      modifies this`staging, this`journal, this`loose, this`faults, transfer
      ensures Appends(old(Contents()), transfer.receipt, old(transfer.received), chunk, Contents(), outcome)
      ensures outcome.Success? ==> transfer.received == outcome.value && transfer.hashed == old(transfer.hashed) + chunk
      ensures outcome.Failed? ==> unchanged(transfer)
      ensures old(faults) <= faults
      ensures || outcome == AppendAnswer(old(Contents()), transfer.receipt, old(transfer.received), chunk)
              || (outcome == Failed(Io) && old(faults) < faults)
    {
      var r, next := transfer.receipt, transfer.received + |chunk|;
      if next > r.bytes {
        return Failed(LengthMismatch);
      }
      var pending := PendingError(Contents(), r, transfer.received);
      if pending.Failed? {
        return Failed(pending.failure);
      }
      var reached := Try();
      if !reached {
        return Failed(Io);
      }
      var written := Write(|chunk|);
      if written > 0 {
        staging := staging[r.requestId := Transaction(Written(r), Written(pending.value + chunk[..written]))];
        loose := loose + {r.requestId};
      }
      if written < |chunk| {
        return Failed(Io);
      }
      var synchronized := Try();
      if !synchronized {
        return Failed(Io);
      }
      assert pending.value + chunk[..written] == pending.value + chunk;
      loose := loose - {r.requestId};
      assert loose == old(loose) - {r.requestId};
      assert written == 0 ==> pending.value + chunk == pending.value && staging[r.requestId] == old(staging)[r.requestId];
      assert staging == old(staging)[r.requestId := Transaction(Written(r), Written(pending.value + chunk))];
      transfer.hashed := transfer.hashed + chunk;
      transfer.received := next;
      outcome := Success(next);
    }

    method AppendAuthorizedPush(transfer: PendingArtifact, chunk: Bytes, now: nat) returns (outcome: Outcome<nat>)
      modifies this`staging, this`journal, this`loose, this`faults, transfer, transfer.authorization.liveness
      ensures outcome.Success? ==> transfer.authorization.liveness.active && 0 < |chunk| <= MAX_DEVELOPER_TRANSFER_CHUNK_BYTES
      ensures outcome.Success? ==> transfer.received == outcome.value && transfer.hashed == old(transfer.hashed) + chunk
      ensures outcome.Failed? ==> transfer.received == old(transfer.received) && transfer.hashed == old(transfer.hashed)
      ensures (Contents() == old(Contents()) && outcome.Failed?)
              || (transfer.authorization.liveness.active
                  && Appends(old(Contents()), transfer.receipt, old(transfer.received), chunk, Contents(), outcome))
      ensures transfer.authorization.liveness.active
              == (old(transfer.authorization.liveness.active)
                  && (0 < |chunk| <= MAX_DEVELOPER_TRANSFER_CHUNK_BYTES ==> now < transfer.authorization.liveness.expiresAt))
      ensures old(faults) <= faults
      ensures var answer := if chunk == [] then Failed(EmptyChunk)
                            else if |chunk| > MAX_DEVELOPER_TRANSFER_CHUNK_BYTES then Failed(ChunkTooLarge)
                            else if !transfer.authorization.liveness.active then Failed(SessionInactive)
                            else AppendAnswer(old(Contents()), transfer.receipt, old(transfer.received), chunk);
              outcome == answer || (outcome == Failed(Io) && old(faults) < faults)
    {
      if chunk == [] {
        return Failed(EmptyChunk);
      }
      if |chunk| > MAX_DEVELOPER_TRANSFER_CHUNK_BYTES {
        return Failed(ChunkTooLarge);
      }
      var live := transfer.authorization.liveness.WithLiveSession(now);
      if !live {
        return Failed(SessionInactive);
      }
      var locked := Try();
      if !locked {
        return Failed(Io);
      }
      outcome := AppendLocked(transfer, chunk);
    }

    method FinalizeLocked(r: Receipt, received: nat, hashed: Bytes) returns (outcome: Outcome<Ready>)
      modifies this`staging, this`ready, this`journal, this`loose, this`faults
      ensures Finalizes(sha, old(Contents()), r, received, hashed, Contents(), outcome)
      ensures old(faults) <= faults
      ensures || outcome == FinalizeAnswer(sha, old(Contents()), r, received, hashed)
              || (outcome == Failed(Io) && old(faults) < faults)
    {
      if received != r.bytes {
        return Failed(LengthMismatch);
      }
      if sha(hashed) != r.sha256 {
        return Failed(DigestMismatch);
      }
      var pending := PendingError(Contents(), r, received);
      if pending.Failed? {
        return Failed(pending.failure);
      }
      var readBack := Try();
      if !readBack {
        return Failed(Io);
      }
      if sha(pending.value) != r.sha256 {
        return Failed(DigestMismatch);
      }
      if r.requestId in ready {
        return Failed(DuplicateRequest);
      }
      var renamed := Try();
      if !renamed {
        return Failed(Io);
      }
      staging, ready := staging - {r.requestId}, ready[r.requestId := staging[r.requestId]];
      Record();
      var stagingReached := Try();
      if !stagingReached {
        return Failed(Io);
      }
      var synchronized := SyncDirectories();
      if !synchronized {
        return Failed(Io);
      }
      LoadsPublished(sha, old(Contents()), r, received, hashed);
      outcome := LoadReady(r.requestId);
    }

    method LoadReady(id: string) returns (outcome: Outcome<Ready>)
      modifies this`faults
      ensures old(faults) <= faults
      ensures outcome == LoadError(sha, Contents(), id) || (outcome == Failed(Io) && old(faults) < faults)
    {
      var reached := Try();
      outcome := if reached then LoadError(sha, Contents(), id) else Failed(Io);
    }

    method FinalizeAuthorizedPush(transfer: PendingArtifact, now: nat) returns (outcome: Outcome<Ready>)
      modifies this`staging, this`ready, this`journal, this`loose, this`faults, transfer.authorization.liveness
      ensures (Contents() == old(Contents()) && outcome.Failed?)
              || (old(transfer.authorization.liveness.active) && now < transfer.authorization.liveness.expiresAt
                  && Finalizes(sha, old(Contents()), transfer.receipt, transfer.received, transfer.hashed, Contents(), outcome))
      ensures transfer.authorization.liveness.active == (old(transfer.authorization.liveness.active) && now < transfer.authorization.liveness.expiresAt)
      ensures old(faults) <= faults
      ensures var answer := if !transfer.authorization.liveness.active then Failed(SessionInactive)
                            else FinalizeAnswer(sha, old(Contents()), transfer.receipt, transfer.received, transfer.hashed);
              outcome == answer || (outcome == Failed(Io) && old(faults) < faults)
    {
      var live := transfer.authorization.liveness.WithLiveSession(now);
      if !live {
        return Failed(SessionInactive);
      }
      var locked := Try();
      if !locked {
        return Failed(Io);
      }
      outcome := FinalizeLocked(transfer.receipt, transfer.received, transfer.hashed);
    }

    /**
     * Receives a whole source, one read after another. On success the ready directory gains exactly the bytes of the
     * source under the authorized receipt, and nothing is left in staging.
     */
    method PublishAuthorizedPush(a: AuthorizedOperation, input: seq<Outcome<Bytes>>, clock: seq<nat>) returns (outcome: Outcome<Ready>)
      requires |clock| == |input| + 2
      modifies this`staging, this`ready, this`journal, this`loose, this`faults, a.liveness
      ensures outcome.Success? ==>
                && ReceiptOf(a).Success? && AllRead(input) && old(a.liveness.active)
                && sha(Gathered(input)) == ReceiptOf(a).value.sha256 && |Gathered(input)| == ReceiptOf(a).value.bytes
                && ReceiptOf(a).value.requestId !in old(ready)
                && outcome.value == Ready(ReceiptOf(a).value, Gathered(input))
                && staging == map[] && ready == old(ready)[ReceiptOf(a).value.requestId :=
                                                           Transaction(Written(ReceiptOf(a).value), Written(Gathered(input)))]
                && Durable(Contents(), ReceiptOf(a).value.requestId)
      ensures outcome.Failed? ==> forall id :: id in old(ready) ==> id in ready && ready[id] == old(ready)[id]
      ensures outcome.Failed? ==>
                Abandons(sha, old(Contents()), ReceiptOf(a), input, Contents(), outcome.failure, a.liveness.active, old(faults) < faults)
      ensures a.liveness.active ==> old(a.liveness.active)
      ensures old(a.liveness.active) && !a.liveness.active ==> exists i :: 0 <= i < |clock| && clock[i] >= a.liveness.expiresAt
      ensures old(faults) <= faults
      ensures faults == old(faults) && Chunked(input) ==>
                (outcome.Success? <==>
                  && ReceiptOf(a).Success? && old(a.liveness.active) && (forall i :: 0 <= i < |clock| ==> clock[i] < a.liveness.expiresAt)
                  && Publishable(sha, old(Contents()), ReceiptOf(a).value, input))
    {
      hide Appends, Finalizes, AppendAnswer, FinalizeAnswer, BeginError, Publishable;
      ghost var s := Contents();
      var begun, transfer := BeginAuthorizedPush(a, clock[0]);
      if begun.Failed? {
        if ReceiptOf(a).Success? { NotPublishable(sha, s, ReceiptOf(a).value, input); }
        return Failed(begun.failure);
      }
      ghost var before := faults;
      var failure := ReceiveSource(transfer, input, clock, s);
      if failure.Some? {
        if old(faults) < faults { StopsFaulty(s, begun.value, input, Contents(), failure.value, a.liveness.active, faults > before); }
        return Failed(failure.value);
      }
      FinishedAnswer(sha, s, begun.value, input);
      outcome := FinalizeAuthorizedPush(transfer, clock[|input| + 1]);
      if outcome.Failed? { EndsUnacknowledged(sha, s, begun.value, input, Contents(), outcome, a.liveness.active, old(faults) < faults); }
      if Finalizes(sha, Receiving(s, begun.value, transfer.hashed), begun.value, transfer.received, transfer.hashed, Contents(), outcome) {
        PublishesBytes(sha, s, begun.value, transfer.hashed, Contents(), outcome);
      }
    }

    /** Appends one read after another, up to the first failure. */
    method ReceiveSource(transfer: PendingArtifact, input: seq<Outcome<Bytes>>, clock: seq<nat>, ghost s: Store)
      returns (failure: Option<Failure>)
      requires |clock| == |input| + 2 && transfer.received == 0 && transfer.hashed == []
      requires Contents() == Receiving(s, transfer.receipt, []) && BeginError(s, transfer.receipt).Success?
      requires transfer.authorization.liveness.active && clock[0] < transfer.authorization.liveness.expiresAt
      modifies this`staging, this`journal, this`loose, this`faults, transfer, transfer.authorization.liveness
      ensures old(faults) <= faults
      ensures failure.None? ==>
                && AllRead(input) && transfer.hashed == Gathered(input) && transfer.received == |transfer.hashed|
                && Contents() == Receiving(s, transfer.receipt, transfer.hashed) && transfer.authorization.liveness.active
                && forall k :: 0 <= k <= |input| ==> clock[k] < transfer.authorization.liveness.expiresAt
      ensures failure.Some? ==>
                Stops(s, transfer.receipt, input, Contents(), failure.value, transfer.authorization.liveness.active, old(faults) < faults)
      ensures !transfer.authorization.liveness.active ==> exists k :: 0 <= k < |clock| && clock[k] >= transfer.authorization.liveness.expiresAt
      ensures failure.Some? && faults == old(faults) && Chunked(input) ==>
                || !Publishable(sha, s, transfer.receipt, input)
                || exists k :: 0 <= k < |clock| && clock[k] >= transfer.authorization.liveness.expiresAt
    {
      hide Appends, Finalizes, AppendAnswer, FinalizeAnswer, BeginError, Publishable;
      var r, i := transfer.receipt, 0;
      while i < |input|
        invariant 0 <= i <= |input| && AllRead(input[..i]) && old(faults) <= faults
        invariant transfer.hashed == Gathered(input[..i]) && transfer.received == |transfer.hashed|
        invariant Contents() == Receiving(s, r, transfer.hashed) && transfer.authorization.liveness.active
        invariant forall k :: 0 <= k <= i ==> clock[k] < transfer.authorization.liveness.expiresAt
      {
        ghost var bytes := transfer.hashed;
        if input[i].Failed? {
          NotPublishable(sha, s, r, input);
          assert StopsAt(s, r, input, i, Contents(), SourceRead, true, old(faults) < faults);
          return Some(SourceRead);
        }
        GatheredMore(input, i);
        var appended := AppendAuthorizedPush(transfer, input[i].value, clock[i + 1]);
        if appended.Failed? {
          if faults == old(faults) && Chunked(input) && transfer.authorization.liveness.active { RefusedChunk(sha, s, r, input, i, bytes); }
          StopsHere(s, r, input, i, Contents(), appended, transfer.authorization.liveness.active, old(faults) < faults);
          return Some(appended.failure);
        }
        ReceivesChunk(s, r, bytes, input[i].value, Contents(), appended);
        i := i + 1;
      }
      assert input[..|input|] == input;
      failure := None;
    }

    /** Removing a directory may stop after some of its files. */
    method RemoveTransaction(id: string) returns (ok: bool)
      requires id in staging
      modifies this`staging, this`journal, this`faults
      ensures old(faults) <= faults && (!ok ==> old(faults) < faults)
      ensures ok ==> Contents() == Recorded(old(Contents()).(staging := old(staging) - {id}))
      ensures !ok ==> Thinned(old(Contents()), Contents()) && journal == old(journal)
    {
      var artifactRemoved := Try();
      var t := staging[id];
      if artifactRemoved {
        staging := staging[id := t.(artifact := Absent)];
      }
      var receiptRemoved := Try();
      if receiptRemoved {
        staging := staging[id := staging[id].(receipt := Absent)];
      }
      var directoryRemoved := Try();
      if !artifactRemoved || !receiptRemoved || !directoryRemoved {
        return false;
      }
      staging := staging - {id};
      assert staging == old(staging) - {id};
      Record();
      ok := true;
    }

    method CancelAuthorizedPush(transfer: PendingArtifact) returns (outcome: Outcome<()>)
      modifies this`staging, this`journal, this`faults
      ensures Cancels(old(Contents()), transfer.receipt, transfer.received, Contents(), outcome)
      ensures old(faults) <= faults
      ensures || Same(outcome, CancelAnswer(old(Contents()), transfer.receipt, transfer.received))
              || (outcome == Failed(Io) && old(faults) < faults)
    {
      var locked := Try();
      if !locked {
        return Failed(Io);
      }
      var pending := PendingError(Contents(), transfer.receipt, transfer.received);
      if pending.Failed? {
        return Failed(pending.failure);
      }
      var removed := RemoveTransaction(transfer.receipt.requestId);
      if !removed {
        return Failed(Io);
      }
      var synchronized := SyncDirectories();
      outcome := if synchronized then Success(()) else Failed(Io);
    }

    method RecoverIncomplete() returns (outcome: Outcome<nat>)
      modifies this`staging, this`journal, this`faults
      ensures Recovers(old(Contents()), Contents(), outcome)
      ensures old(faults) <= faults && (outcome.Failed? ==> old(faults) < faults)
    {
      hide Thinned;
      var locked := Try();
      ThinnedSame(Contents());
      if !locked {
        return Failed(Io);
      }
      var entries := staging.Keys;
      var left := entries;
      while left != {}
        invariant left <= entries && staging.Keys == left && ready == old(ready) && loose == old(loose) && old(faults) <= faults
        invariant Thinned(old(Contents()), Contents()) && (left == entries ==> Contents() == old(Contents()))
        decreases |left|
      {
        var id :| id in left;
        left := left - {id};
        ghost var before := Contents();
        var removed := RemoveTransaction(id);
        if removed { RemovedThins(before, id); }
        ThinnedTwice(old(Contents()), before, Contents());
        if !removed {
          return Failed(Io);
        }
      }
      assert staging == map[] && |old(staging)| == |entries|;
      if entries == {} {
        assert old(staging) == map[];
        return Success(0);
      }
      var synchronized := SyncDirectories();
      outcome := if synchronized then Success(|entries|) else Failed(Io);
    }
  }
}
