/** What loading yields over every run of ceremonies, crashes, discards and replaced files. */
module DeveloperTrustGuarantees {
  import opened Options
  import opened CanonicalJson
  import opened DeveloperTrust
  import opened DeveloperTrustRuns

  function Text(x: Primitives, log: seq<Transition>): string { Encode(Chain(x, log)) }

  /** The text does not collide with the last committed registry under the hash. */
  predicate NoCollision(x: Primitives, log: seq<Transition>, bytes: string) {
    Digest(x, bytes) == Digest(x, Text(x, log)) ==> bytes == Text(x, log)
  }

  ghost function ReadCanonical(text: string): Option<Document> {
    if d: Document :| Encode(d) == text then Some(d) else None
  }

  /** There is a reader that reads back every registry, because no two registries share a text. */
  lemma SomeReaderReadsBack(x: Primitives)
    ensures ReadsBack(x.(parse := text => ReadCanonical(text)))
  {
    forall d ensures ReadCanonical(Encode(d)) == Some(d) {
      EncodeInjective(ReadCanonical(Encode(d)).value, d);
    }
  }

  lemma LoadOfValid(x: Primitives, d: Document, p: Protected)
    requires ReadsBack(x) && ValidProtected(p) && DocumentError(x, d).None?
    requires 0 < |Encode(d)| <= MAX_DEVELOPER_TRUST_BYTES
    ensures Load(x, Encode(d), p) == Placed(x, d, Encode(d), p)
  {
    assert x.parse(Encode(d)) == Some(d);
  }

  lemma ProtectedIs(x: Primitives, log: seq<Transition>)
    requires Lawful(x, log)
    ensures ValidProtected(ProtectedFor(x, log)) && ProtectedFor(x, log).generation == |log|
    ensures log != [] ==> ProtectedFor(x, log).digest == Some(Digest(x, Text(x, log)))
    ensures DocumentError(x, Chain(x, log)).None? && 0 < |Text(x, log)| <= MAX_DEVELOPER_TRUST_BYTES
    ensures Chain(x, log).generation == |log| && RegistryFor(x, log).keys == Trusted(x, log)
  {
    hide Represents, Encode, DocumentError;
    ChainCommitted(x, log);
    CommittedIsValid(x, log, Chain(x, log));
  }

  lemma GenerationZeroIsEmpty(x: Primitives, d: Document)
    requires d.generation == 0 && DocumentError(x, d).None?
    ensures d == EMPTY
  {
  }

  /**
   * Only the exact last committed registry is active, whatever text is offered, and its workstations are the fold
   * of the committed transitions.
   */
  lemma ActiveIff(x: Primitives, log: seq<Transition>, bytes: string)
    requires ReadsBack(x) && Lawful(x, log) && NoCollision(x, log, bytes)
    ensures Load(x, bytes, ProtectedFor(x, log)).Active? <==> bytes == Text(x, log)
    ensures Load(x, bytes, ProtectedFor(x, log)).Active? ==>
              Load(x, bytes, ProtectedFor(x, log)).registry == RegistryFor(x, log)
              && Load(x, bytes, ProtectedFor(x, log)).registry.keys == Trusted(x, log)
  {
    hide Encode, DocumentError, Lawful, Trusted, Chain, ProtectedFor, KeyMap, ReadsBack;
    var p := ProtectedFor(x, log);
    ProtectedIs(x, log);
    LoadOfValid(x, Chain(x, log), p);
    if Load(x, bytes, p).Active? {
      var d := Load(x, bytes, p).registry.document;
      if log == [] {
        GenerationZeroIsEmpty(x, d);
        GenerationZeroIsEmpty(x, Chain(x, log));
      }
      assert bytes == Text(x, log);
    }
  }

  lemma {:induction false} LawfulPrefix(x: Primitives, log: seq<Transition>, n: nat)
    requires Lawful(x, log) && n <= |log|
    ensures Lawful(x, log[..n])
    decreases |log|
  {
    if n < |log| {
      assert log[..|log| - 1][..n] == log[..n];
      LawfulPrefix(x, log[..|log| - 1], n);
    } else {
      assert log[..n] == log;
    }
  }

  /** Every earlier registry is refused as a rollback. */
  lemma EarlierIsRollback(x: Primitives, log: seq<Transition>, n: nat)
    requires ReadsBack(x) && Lawful(x, log) && n < |log|
    ensures Load(x, Text(x, log[..n]), ProtectedFor(x, log)) == LoadRefused(TrustRollback)
  {
    hide Encode, DocumentError, Lawful, Trusted, Chain, ProtectedFor, ReadsBack;
    LawfulPrefix(x, log, n);
    ProtectedIs(x, log);
    ProtectedIs(x, log[..n]);
    LoadOfValid(x, Chain(x, log[..n]), ProtectedFor(x, log));
  }

  /** A prepared transition needs its protection commit first, and is active after it. */
  lemma PendingThenActive(x: Primitives, log: seq<Transition>, t: Transition)
    requires ReadsBack(x) && Lawful(x, log) && Lawful(x, log + [t])
    ensures DocumentError(x, Chain(x, log + [t])).None?
    ensures Load(x, Text(x, log + [t]), ProtectedFor(x, log)) == ProtectionCommitRequired(ProtectedFor(x, log + [t]))
    ensures Load(x, Text(x, log + [t]), ProtectedFor(x, log + [t])) == Active(RegistryFor(x, log + [t]))
    ensures |Text(x, log + [t])| <= MAX_DEVELOPER_TRUST_BYTES
  {
    hide Encode, DocumentError, Lawful, Trusted, ReadsBack, Changed;
    ProtectedIs(x, log);
    ProtectedIs(x, log + [t]);
    LawfulMore(x, log, t);
    LoadOfValid(x, Chain(x, log + [t]), ProtectedFor(x, log));
    LoadOfValid(x, Chain(x, log + [t]), ProtectedFor(x, log + [t]));
  }

  /** Nothing asks for a commit but a valid registry one generation ahead that names the last committed one. */
  lemma CommitNamesPredecessor(x: Primitives, log: seq<Transition>, bytes: string)
    requires Lawful(x, log) && Load(x, bytes, ProtectedFor(x, log)).ProtectionCommitRequired?
    ensures exists d :: && bytes == Encode(d) && DocumentError(x, d).None? && d.generation == |log| + 1
                        && d.previous == Some(Digest(x, Text(x, log)))
                        && Load(x, bytes, ProtectedFor(x, log)).next == ForRegistry(x, d.generation, bytes)
  {
    hide Encode, DocumentError, Lawful, Trusted;
    ProtectedIs(x, log);
    assert x.parse(bytes).Some?;
    var d := x.parse(bytes).value;
    assert bytes == Encode(d) && d.generation == |log| + 1;
  }

  // ---- Runs ----

  /** The durable state, with the committed history and the published but unprotected transition as ghosts. */
  datatype Device = Device(writable: string, protected: Protected, log: seq<Transition>, published: Option<Transition>)

  /**
   * Publishing a prepared transition, protecting a published one, discarding back to the last committed registry, and
   * finding any other text in the writable file. A crash between two steps changes nothing that is durable.
   */
  datatype Step = Publish(t: Transition) | Protect | Discard | Replace(bytes: string)

  function Start(x: Primitives): Device { Device(Encode(EMPTY), Uninitialized(), [], None) }

  function Do(x: Primitives, s: Device, step: Step): Device {
    var loaded := Load(x, s.writable, s.protected);
    match step
    case Publish(t) =>
      if loaded.Active? && Prepare(x, loaded.registry, t).Pending? then
        s.(writable := Prepare(x, loaded.registry, t).bytes, published := Some(t))
      else s
    case Protect =>
      if loaded.ProtectionCommitRequired? && s.published.Some? && s.writable == Text(x, s.log + [s.published.value]) then
        s.(protected := loaded.next, log := s.log + [s.published.value], published := None)
      else s
    case Discard => s.(writable := Text(x, s.log), published := None)
    case Replace(bytes) => s.(writable := bytes)
  }

  function After(x: Primitives, run: seq<Step>): Device {
    if run == [] then Start(x) else Do(x, After(x, run[..|run| - 1]), run[|run| - 1])
  }

  /** No writable text met on the way collides with the registry committed at the time. */
  ghost predicate CollisionFree(x: Primitives, run: seq<Step>) {
    forall n :: 0 <= n <= |run| ==> NoCollision(x, After(x, run[..n]).log, After(x, run[..n]).writable)
  }

  predicate Sound(x: Primitives, s: Device) {
    && Lawful(x, s.log) && s.protected == ProtectedFor(x, s.log)
    && (s.published.Some? ==> Lawful(x, s.log + [s.published.value]))
  }

  lemma DoKeeps(x: Primitives, s: Device, step: Step)
    requires ReadsBack(x) && Sound(x, s) && NoCollision(x, s.log, s.writable)
    ensures Sound(x, Do(x, s, step))
  {
    hide Load, Prepare, Lawful, ProtectedFor, ReadsBack, Chain, Encode, NoCollision;
    match step
    case Publish(t) =>
      ActiveIff(x, s.log, s.writable);
      PrepareIff(x, s.log, t);
    case Protect =>
      if s.published.Some? { PendingThenActive(x, s.log, s.published.value); }
    case _ =>
  }

  lemma PrefixFree(x: Primitives, run: seq<Step>)
    requires CollisionFree(x, run) && run != []
    ensures CollisionFree(x, run[..|run| - 1])
  {
    var front := run[..|run| - 1];
    forall n | 0 <= n <= |front| ensures NoCollision(x, After(x, front[..n]).log, After(x, front[..n]).writable) {
      assert front[..n] == run[..n];
    }
  }

  lemma {:induction false} RunSound(x: Primitives, run: seq<Step>)
    requires ReadsBack(x) && CollisionFree(x, run)
    ensures Sound(x, After(x, run))
  {
    if run == [] {
      assert Sound(x, Start(x));
    } else {
      hide Sound, Do, NoCollision, ReadsBack;
      var front := run[..|run| - 1];
      PrefixFree(x, run);
      RunSound(x, front);
      assert NoCollision(x, After(x, run[..|run| - 1]).log, After(x, run[..|run| - 1]).writable);
      DoKeeps(x, After(x, front), run[|run| - 1]);
    }
  }

  /**
   * Over every run, protected state pins the last committed registry: any text loads as active exactly when it is
   * that registry, with the folded workstations, and every earlier committed registry is a rollback.
   */
  lemma TrustNeverRollsBack(x: Primitives, run: seq<Step>, bytes: string)
    requires ReadsBack(x) && CollisionFree(x, run) && NoCollision(x, After(x, run).log, bytes)
    ensures var s := After(x, run);
            && (Load(x, bytes, s.protected).Active? <==> bytes == Text(x, s.log))
            && (Load(x, bytes, s.protected).Active? ==> Load(x, bytes, s.protected).registry.keys == Trusted(x, s.log))
            && (forall n :: 0 <= n < |s.log| ==> Load(x, Text(x, s.log[..n]), s.protected) == LoadRefused(TrustRollback))
  {
    hide Load, Prepare, Lawful, ProtectedFor, ReadsBack, Chain, Encode, NoCollision, Trusted, After, CollisionFree;
    var s := After(x, run);
    RunSound(x, run);
    ActiveIff(x, s.log, bytes);
    forall n | 0 <= n < |s.log| ensures Load(x, Text(x, s.log[..n]), s.protected) == LoadRefused(TrustRollback) {
      EarlierIsRollback(x, s.log, n);
    }
  }

  /** A crash between publishing and protecting is always recoverable: committing the file on disk activates it. */
  lemma PublishedIsRecoverable(x: Primitives, run: seq<Step>)
    requires ReadsBack(x) && CollisionFree(x, run) && After(x, run).published.Some?
    requires After(x, run).writable == Text(x, After(x, run).log + [After(x, run).published.value])
    ensures var s := After(x, run);
            && Load(x, s.writable, s.protected).ProtectionCommitRequired?
            && Do(x, s, Protect).log == s.log + [s.published.value]
            && Load(x, s.writable, Do(x, s, Protect).protected) == Active(RegistryFor(x, Do(x, s, Protect).log))
  {
    hide Load, Prepare, Lawful, ProtectedFor, ReadsBack, Chain, Encode, NoCollision, Trusted, After, CollisionFree;
    var s := After(x, run);
    RunSound(x, run);
    PendingThenActive(x, s.log, s.published.value);
    PrepareIff(x, s.log + [s.published.value], Revoke(""));
  }
}
