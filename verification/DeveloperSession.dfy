/** The volatile session of one developer-mode epoch: challenges, the capability and the operations it admits. */
module DeveloperSession {
  import opened Options
  import opened CanonicalJson
  import Alphabets
  import DeveloperTrust

  const MAX_DEVELOPER_OPERATION_IDS := 1024
  const MAX_DEVELOPER_SESSION_MS := 15 * 60 * 1000
  const MAX_DEVELOPER_CHALLENGE_MS := 60 * 1000
  const MAX_DEVELOPER_ARTIFACT_BYTES := 8 * 1024 * 1024 * 1024
  const SESSION_PROTOCOL_VERSION := 1

  type Byte = b: int | 0 <= b < 256

  predicate IsBytes32(s: seq<Byte>) { |s| == 32 }

  /** 32 random bytes. */
  type Bytes32 = s: seq<Byte> | IsBytes32(s) witness seq(32, _ => 0)

  const ZEROES: Bytes32 := seq(32, _ => 0)

  datatype Challenge = Challenge(workstation: string, ordinal: U64, epoch: Bytes32, nonce: Bytes32, expiresAt: U64)

  datatype Capability = Capability(workstation: string, ordinal: U64, epoch: Bytes32, expiresAt: U64)

  datatype Operation =
    | Push(deployment: string, sha256: string, bytes: nat)
    | Launch(deployment: string) | ReadLogs(deployment: string) | Restart(deployment: string) | Rollback(deployment: string)

  datatype Request = Request(id: string, operation: Operation)

  datatype Error =
    | InvalidSessionRandomness | InvalidSessionDeadline | InvalidChallengeDeadline | SessionOrdinalExhausted
    | DeveloperSessionBusy | DeveloperSessionClosed | DeveloperSessionExpired | UnknownWorkstation | NoPendingChallenge
    | ChallengeSubstitution | ChallengeExpired | InvalidSessionSignature | StaleSessionCapability | InvalidRequest
    | DuplicateOperationRequest | OperationReplayCapacityExceeded

  datatype Result<T> = Ok(value: T) | Err(error: Error)

  // ---- What the workstation signs ----

  function BigEndian(n: nat, width: nat): (s: seq<Byte>)
    ensures |s| == width
  {
    if width == 0 then [] else BigEndian(n / 256, width - 1) + [n % 256]
  }

  function Power256(k: nat): nat { if k == 0 then 1 else 256 * Power256(k - 1) }

  lemma {:induction false} BigEndianInjective(m: nat, n: nat, width: nat)
    requires m < Power256(width) && n < Power256(width) && BigEndian(m, width) == BigEndian(n, width)
    ensures m == n
  {
    if width > 0 {
      var a, b := BigEndian(m, width), BigEndian(n, width);
      assert a[..width - 1] == BigEndian(m / 256, width - 1) && b[..width - 1] == BigEndian(n / 256, width - 1);
      assert a[width - 1] == m % 256 && b[width - 1] == n % 256;
      BigEndianInjective(m / 256, n / 256, width - 1);
    }
  }

  /** The domain separator, "vcg-developer-session-v1" and a zero byte. */
  const SESSION_DOMAIN: seq<Byte> :=
    [118, 99, 103, 45, 100, 101, 118, 101, 108, 111, 112, 101, 114, 45, 115, 101, 115, 115, 105, 111, 110, 45, 118, 49, 0]

  function SigningMessage(c: Challenge): seq<Byte> {
    SESSION_DOMAIN + (BigEndian(SESSION_PROTOCOL_VERSION, 4)
    + (BigEndian(c.ordinal, 8) + (c.epoch + (c.nonce + BigEndian(c.expiresAt, 8)))))
  }

  lemma Split(a: seq<Byte>, b: seq<Byte>, x: seq<Byte>, y: seq<Byte>)
    requires a + x == b + y && |a| == |b|
    ensures a == b && x == y
  {
    assert a == (a + x)[..|a|] && b == (b + y)[..|b|];
    assert x == (a + x)[|a|..] && y == (b + y)[|b|..];
  }

  /** A signature answers one challenge only: everything but the name, which selects the key, is in the message. */
  lemma SigningMessageBinds(c: Challenge, d: Challenge)
    requires SigningMessage(c) == SigningMessage(d) && c.workstation == d.workstation
    ensures c == d
  {
    var c3, d3 := c.nonce + BigEndian(c.expiresAt, 8), d.nonce + BigEndian(d.expiresAt, 8);
    var c2, d2 := BigEndian(c.ordinal, 8) + (c.epoch + c3), BigEndian(d.ordinal, 8) + (d.epoch + d3);
    Split(SESSION_DOMAIN, SESSION_DOMAIN, BigEndian(SESSION_PROTOCOL_VERSION, 4) + c2, BigEndian(SESSION_PROTOCOL_VERSION, 4) + d2);
    Split(BigEndian(SESSION_PROTOCOL_VERSION, 4), BigEndian(SESSION_PROTOCOL_VERSION, 4), c2, d2);
    Split(BigEndian(c.ordinal, 8), BigEndian(d.ordinal, 8), c.epoch + c3, d.epoch + d3);
    Split(c.epoch, d.epoch, c3, d3);
    Split(c.nonce, d.nonce, BigEndian(c.expiresAt, 8), BigEndian(d.expiresAt, 8));
    BigEndianInjective(c.ordinal, d.ordinal, 8);
    BigEndianInjective(c.expiresAt, d.expiresAt, 8);
  }

  // ---- Requests ----

  predicate IsSafeId(s: string) {
    0 < |s| <= 64 && forall i :: 0 <= i < |s| ==>
      'a' <= s[i] <= 'z' || 'A' <= s[i] <= 'Z' || '0' <= s[i] <= '9' || s[i] == '-' || s[i] == '_'
  }

  predicate ValidRequest(r: Request) {
    && IsSafeId(r.id) && IsSafeId(r.operation.deployment)
    && (r.operation.Push? ==> DeveloperTrust.IsHex32(r.operation.sha256) && 0 < r.operation.bytes <= MAX_DEVELOPER_ARTIFACT_BYTES)
  }

  predicate SafeCharacter(c: char) { c in Alphabets.UPPER || c in Alphabets.LOWER || c in Alphabets.DIGITS || c == '-' || c == '_' }

  /** Which requests may be made: short safe identifiers, and artifacts of at most 8 GiB with a digest. */
  lemma ValidRequestIff(r: Request)
    ensures ValidRequest(r) <==>
              && 0 < |r.id| <= 64 && (forall c :: c in r.id ==> SafeCharacter(c))
              && 0 < |r.operation.deployment| <= 64 && (forall c :: c in r.operation.deployment ==> SafeCharacter(c))
              && (r.operation.Push? ==> DeveloperTrust.IsHex32(r.operation.sha256) && 0 < r.operation.bytes <= 8_589_934_592)
  {
    SafeIdIff(r.id);
    SafeIdIff(r.operation.deployment);
    hide IsSafeId, SafeCharacter;
  }

  lemma SafeIdIff(s: string)
    ensures IsSafeId(s) <==> 0 < |s| <= 64 && forall c :: c in s ==> SafeCharacter(c)
  {
    forall i | 0 <= i < |s|
      ensures SafeCharacter(s[i]) <==> 'a' <= s[i] <= 'z' || 'A' <= s[i] <= 'Z' || '0' <= s[i] <= '9' || s[i] == '-' || s[i] == '_'
    {
      Alphabets.UpperIs(s[i]);
      Alphabets.LowerIs(s[i]);
      Alphabets.DigitIs(s[i]);
    }
    hide SafeCharacter;
  }

  /** A challenge lasts a minute at most, a session fifteen. */
  lemma SessionLimits()
    ensures MAX_DEVELOPER_CHALLENGE_MS == 60_000 && MAX_DEVELOPER_SESSION_MS == 900_000 && MAX_DEVELOPER_OPERATION_IDS == 1024
    ensures |ZEROES| == 32 && forall i :: 0 <= i < 32 ==> ZEROES[i] == 0
  {
  }

  /** What is signed: the separator, the protocol version, and ordinal, epoch, nonce and deadline, numbers in big-endian. */
  lemma SignedParts(c: Challenge)
    ensures |SigningMessage(c)| == 109 && SigningMessage(c)[24] == 0
    ensures forall i :: 0 <= i < 24 ==> SigningMessage(c)[i] == "vcg-developer-session-v1"[i] as int
    ensures SigningMessage(c)[25..29] == [0, 0, 0, 1] && SigningMessage(c)[29..37] == BigEndian(c.ordinal, 8)
    ensures SigningMessage(c)[37..69] == c.epoch && SigningMessage(c)[69..101] == c.nonce && SigningMessage(c)[101..] == BigEndian(c.expiresAt, 8)
  {
    VersionBytes();
    var tail := c.nonce + BigEndian(c.expiresAt, 8);
    assert SigningMessage(c) == SESSION_DOMAIN + [0, 0, 0, 1] + BigEndian(c.ordinal, 8) + c.epoch + c.nonce + BigEndian(c.expiresAt, 8);
    hide BigEndian;
  }

  lemma VersionBytes()
    ensures BigEndian(SESSION_PROTOCOL_VERSION, 4) == [0, 0, 0, 1]
  {
    assert BigEndian(0, 0) == [] && BigEndian(0, 1) == [0] && BigEndian(0, 2) == [0, 0] && BigEndian(0, 3) == [0, 0, 0];
  }

  /** The number the bytes stand for, most significant first. */
  function NumberOf(s: seq<Byte>): nat { if s == [] then 0 else NumberOf(s[..|s| - 1]) * 256 + s[|s| - 1] }

  lemma {:induction false} BigEndianIs(n: nat, width: nat)
    requires n < Power256(width)
    ensures NumberOf(BigEndian(n, width)) == n
  {
    if width > 0 {
      BigEndianIs(n / 256, width - 1);
      assert BigEndian(n, width)[..width - 1] == BigEndian(n / 256, width - 1);
    }
  }

  // ---- The session ----

  /** Shared by the authority and every operation it has admitted. */
  class Liveness {
    const expiresAt: nat
    var active: bool

    constructor (expiresAt: nat)
      ensures this.expiresAt == expiresAt && active
    {
      this.expiresAt := expiresAt;
      active := true;
    }

    /** Whether an admitted operation may still act; expiry is remembered, so a later clock cannot revive it. */
    method WithLiveSession(now: nat) returns (live: bool)
      modifies this
      ensures live == active == (old(active) && now < expiresAt)
    {
      if now >= expiresAt {
        active := false;
      }
      live := active;
    }
  }

  datatype ActiveSession = ActiveSession(workstation: string, ordinal: U64)

  datatype AuthorizedOperation = AuthorizedOperation(workstation: string, ordinal: U64, request: Request, liveness: Liveness)

  class DeveloperSessionAuthority {
    const registry: DeveloperTrust.Registry
    const verifies: (DeveloperTrust.Hex32, seq<Byte>, seq<Byte>) -> bool
    const epoch: Bytes32
    const expiresAt: U64
    const liveness: Liveness
    var nextOrdinal: U64
    var pending: Option<Challenge>
    var session: Option<ActiveSession>
    var usedRequests: set<string>
    var closed: bool
    /** Every capability handed out and every operation admitted so far. */
    ghost var issued: seq<Capability>
    ghost var admitted: seq<AuthorizedOperation>

    ghost predicate Valid()
      reads this, liveness
    {
      && liveness.expiresAt == expiresAt
      && (closed ==> pending.None? && session.None? && usedRequests == {} && !liveness.active)
      && (pending.Some? ==> session.None? && Poses(pending.value))
      && |issued| <= 1
      && (issued == [] ==> session.None? && admitted == [])
      && (issued != [] ==> issued[0].epoch == epoch && issued[0].expiresAt == expiresAt && issued[0].ordinal < nextOrdinal && pending.None?)
      && (issued != [] && !closed ==> session == Some(ActiveSession(issued[0].workstation, issued[0].ordinal)))
      && (!closed ==> usedRequests == RequestIds(admitted))
      && |usedRequests| <= MAX_DEVELOPER_OPERATION_IDS
      && OnceEach(admitted)
      && (issued != [] ==> AllUnder(admitted, issued[0], liveness))
    }

    predicate Poses(c: Challenge)
      reads this
    {
      c.epoch == epoch && c.ordinal < nextOrdinal && c.expiresAt <= expiresAt && c.workstation in registry.keys
    }

    constructor Confirmed(registry: DeveloperTrust.Registry, epoch: Bytes32, expiresAt: U64,
                          verifies: (DeveloperTrust.Hex32, seq<Byte>, seq<Byte>) -> bool)
      ensures Valid() && fresh(liveness) && liveness.active && !closed && issued == [] && pending.None? && nextOrdinal == 1
      ensures this.registry == registry && this.epoch == epoch && this.expiresAt == expiresAt && this.verifies == verifies
    {
      this.registry, this.epoch, this.expiresAt, this.verifies := registry, epoch, expiresAt, verifies;
      liveness := new Liveness(expiresAt);
      nextOrdinal, pending, session, usedRequests, closed := 1, None, None, {}, false;
      issued, admitted := [], [];
    }

    method Close()
      requires Valid()
      modifies this, liveness
      ensures Valid() && closed && !liveness.active
      ensures issued == old(issued) && admitted == old(admitted) && nextOrdinal == old(nextOrdinal)
    {
      liveness.active := false;
      closed := true;
      pending, session, usedRequests := None, None, {};
    }

    /** Open, live and before the deadline. */
    predicate IsOpen(now: nat)
      reads this, liveness
    {
      !closed && liveness.active && now < expiresAt
    }

    /** What each refusal tells the caller is true. */
    predicate BeginRefusal(workstation: string, nonce: Bytes32, now: U64, deadline: U64, e: Error)
      reads this
    {
      match e
      case InvalidSessionRandomness => nonce == ZEROES
      case DeveloperSessionBusy => pending.Some? || session.Some?
      case UnknownWorkstation => workstation !in registry.keys
      case InvalidChallengeDeadline => !(now < deadline <= expiresAt && deadline - now <= MAX_DEVELOPER_CHALLENGE_MS)
      case SessionOrdinalExhausted => nextOrdinal == MAX_U64
      case _ => false
    }

    predicate AnswerRefusal(challenge: Challenge, signature: seq<Byte>, now: U64, e: Error)
      reads this
    {
      match e
      case NoPendingChallenge => pending.None?
      case ChallengeSubstitution => pending.Some? && pending.value != challenge
      case ChallengeExpired => pending == Some(challenge) && now >= challenge.expiresAt
      case InvalidSessionSignature =>
        && pending == Some(challenge) && now < challenge.expiresAt && challenge.workstation in registry.keys
        && !verifies(registry.keys[challenge.workstation], SigningMessage(challenge), signature)
      case _ => false
    }

    predicate OperationRefusal(capability: Capability, request: Request, now: U64, e: Error)
      reads this
    {
      match e
      case StaleSessionCapability =>
        || now >= capability.expiresAt || capability.epoch != epoch
        || session != Some(ActiveSession(capability.workstation, capability.ordinal))
      case InvalidRequest => !ValidRequest(request)
      case DuplicateOperationRequest => request.id in usedRequests
      case OperationReplayCapacityExceeded => |usedRequests| >= MAX_DEVELOPER_OPERATION_IDS
      case _ => false
    }

    method RequireOpen(now: nat) returns (error: Option<Error>)
      requires Valid()
      modifies this, liveness
      ensures Valid() && (error.None? <==> old(IsOpen(now)))
      ensures error.None? ==> unchanged(this) && unchanged(liveness)
      ensures error.Some? ==> closed && error.value == Shut(old(closed))
      ensures issued == old(issued) && admitted == old(admitted) && nextOrdinal == old(nextOrdinal)
    {
      if closed {
        return Some(DeveloperSessionClosed);
      }
      if !liveness.active || now >= expiresAt {
        Close();
        return Some(DeveloperSessionExpired);
      }
      error := None;
    }

    method BeginChallenge(workstation: string, nonce: Bytes32, now: U64, deadline: U64) returns (result: Result<Challenge>)
      requires Valid()
      modifies this, liveness
      ensures Valid() && issued == old(issued) && admitted == old(admitted)
      ensures result.Ok? <==>
                && old(IsOpen(now)) && nonce != ZEROES && old(pending).None? && old(session).None?
                && workstation in registry.keys && now < deadline <= expiresAt && deadline - now <= MAX_DEVELOPER_CHALLENGE_MS
                && old(nextOrdinal) < MAX_U64
      ensures result.Ok? ==>
                && result.value == Challenge(workstation, old(nextOrdinal), epoch, nonce, deadline)
                && pending == Some(result.value) && nextOrdinal == old(nextOrdinal) + 1
      ensures result.Ok? ==> unchanged(liveness, this`session, this`usedRequests, this`closed)
      ensures result.Err? && old(IsOpen(now)) ==> unchanged(this) && unchanged(liveness)
                                                  && old(BeginRefusal(workstation, nonce, now, deadline, result.error))
      ensures !old(IsOpen(now)) ==> closed && result == Err(Shut(old(closed))) && nextOrdinal == old(nextOrdinal)
    {
      var refusal := RequireOpen(now);
      if refusal.Some? {
        return Err(refusal.value);
      }
      if nonce == ZEROES {
        return Err(InvalidSessionRandomness);
      }
      if pending.Some? || session.Some? {
        return Err(DeveloperSessionBusy);
      }
      if workstation !in registry.keys {
        return Err(UnknownWorkstation);
      }
      if deadline <= now || deadline - now > MAX_DEVELOPER_CHALLENGE_MS || deadline > expiresAt {
        return Err(InvalidChallengeDeadline);
      }
      if nextOrdinal == MAX_U64 {
        return Err(SessionOrdinalExhausted);
      }
      var challenge := Challenge(workstation, nextOrdinal, epoch, nonce, deadline);
      nextOrdinal := nextOrdinal + 1;
      pending := Some(challenge);
      result := Ok(challenge);
    }

    method Authenticate(challenge: Challenge, signature: seq<Byte>, now: U64) returns (result: Result<Capability>)
      requires Valid()
      modifies this, liveness
      ensures Valid() && admitted == old(admitted) && nextOrdinal == old(nextOrdinal)
      ensures result.Ok? <==>
                && old(IsOpen(now)) && old(pending) == Some(challenge) && now < challenge.expiresAt
                && verifies(registry.keys[challenge.workstation], SigningMessage(challenge), signature)
      ensures result.Ok? ==>
                && old(issued) == [] && issued == [result.value]
                && result.value == Capability(challenge.workstation, challenge.ordinal, epoch, expiresAt)
      ensures result.Ok? ==> unchanged(liveness, this`usedRequests, this`closed)
      ensures result.Err? ==> issued == old(issued)
      ensures result.Err? && old(IsOpen(now)) ==> unchanged(liveness, this`session, this`usedRequests, this`closed)
      ensures result.Err? && old(IsOpen(now)) ==> old(AnswerRefusal(challenge, signature, now, result.error))
      ensures result.Err? && old(IsOpen(now)) ==> pending == if result.error == ChallengeExpired then None else old(pending)
      ensures !old(IsOpen(now)) ==> closed && result == Err(Shut(old(closed)))
    {
      var refusal := RequireOpen(now);
      if refusal.Some? {
        return Err(refusal.value);
      }
      if pending.None? {
        return Err(NoPendingChallenge);
      }
      if pending.value != challenge {
        return Err(ChallengeSubstitution);
      }
      if now >= challenge.expiresAt {
        pending := None;
        return Err(ChallengeExpired);
      }
      if !verifies(registry.keys[challenge.workstation], SigningMessage(challenge), signature) {
        return Err(InvalidSessionSignature);
      }
      var capability := Capability(challenge.workstation, challenge.ordinal, epoch, expiresAt);
      pending := None;
      session := Some(ActiveSession(capability.workstation, capability.ordinal));
      issued := issued + [capability];
      result := Ok(capability);
    }

    /** Admits an operation exactly under the one live capability, for a valid request never admitted before. */
    method AuthorizeOperation(capability: Capability, request: Request, now: U64) returns (result: Result<AuthorizedOperation>)
      requires Valid()
      modifies this, liveness
      ensures Valid() && issued == old(issued) && nextOrdinal == old(nextOrdinal)
      ensures result.Ok? <==>
                && old(IsOpen(now)) && now < capability.expiresAt && old(issued) != []
                && capability == old(issued)[0].(expiresAt := capability.expiresAt)
                && ValidRequest(request) && request.id !in RequestIds(old(admitted))
                && old(|usedRequests|) < MAX_DEVELOPER_OPERATION_IDS
      ensures result.Ok? ==> admitted == old(admitted) + [result.value] && result.value.request == request
      ensures result.Ok? ==> unchanged(liveness, this`pending, this`session, this`closed)
      ensures result.Err? ==> admitted == old(admitted)
      ensures result.Err? && old(IsOpen(now)) ==> unchanged(this) && unchanged(liveness)
                                                  && old(OperationRefusal(capability, request, now, result.error))
      ensures !old(IsOpen(now)) ==> closed && result == Err(Shut(old(closed)))
    {
      hide ValidRequest, OnceEach, AllUnder, RequestIds, Poses, BeginRefusal, AnswerRefusal;
      var refusal := RequireOpen(now);
      if refusal.Some? {
        return Err(refusal.value);
      }
      if now >= capability.expiresAt || capability.epoch != epoch || session.None?
         || session.value.workstation != capability.workstation || session.value.ordinal != capability.ordinal {
        return Err(StaleSessionCapability);
      }
      if !ValidRequest(request) {
        return Err(InvalidRequest);
      }
      if request.id in usedRequests {
        return Err(DuplicateOperationRequest);
      }
      if |usedRequests| >= MAX_DEVELOPER_OPERATION_IDS {
        return Err(OperationReplayCapacityExceeded);
      }
      var operation := AuthorizedOperation(capability.workstation, capability.ordinal, request, liveness);
      AdmitsOnce(admitted, operation, issued[0]);
      usedRequests := usedRequests + {request.id};
      admitted := admitted + [operation];
      result := Ok(operation);
    }

    /** Closing comes first, so the session is gone whatever becomes of the transition. */
    method TransitionAndClose(x: DeveloperTrust.Primitives, t: DeveloperTrust.Transition) returns (prepared: DeveloperTrust.Prepared)
      requires Valid()
      modifies this, liveness
      ensures Valid() && closed && !liveness.active
      ensures prepared == DeveloperTrust.Prepare(x, registry, t)
    {
      Close();
      prepared := DeveloperTrust.Prepare(x, registry, t);
    }
  }

  function Shut(closed: bool): Error { if closed then DeveloperSessionClosed else DeveloperSessionExpired }

  ghost predicate OnceEach(admitted: seq<AuthorizedOperation>) {
    forall i, j :: 0 <= i < j < |admitted| ==> admitted[i].request.id != admitted[j].request.id
  }

  /** Every operation was admitted under the one capability, and acts only through this session's liveness. */
  ghost predicate AllUnder(admitted: seq<AuthorizedOperation>, c: Capability, liveness: Liveness) {
    forall a :: a in admitted ==>
      a.workstation == c.workstation && a.ordinal == c.ordinal && ValidRequest(a.request) && a.liveness == liveness
  }

  function RequestIds(admitted: seq<AuthorizedOperation>): set<string> { set a | a in admitted :: a.request.id }

  lemma AdmitsOnce(admitted: seq<AuthorizedOperation>, a: AuthorizedOperation, c: Capability)
    requires OnceEach(admitted) && a.request.id !in RequestIds(admitted) && AllUnder(admitted, c, a.liveness)
    requires a.workstation == c.workstation && a.ordinal == c.ordinal && ValidRequest(a.request)
    ensures OnceEach(admitted + [a]) && RequestIds(admitted + [a]) == RequestIds(admitted) + {a.request.id}
    ensures AllUnder(admitted + [a], c, a.liveness)
  {
    hide ValidRequest;
    var more := admitted + [a];
    assert forall i :: 0 <= i < |admitted| ==> admitted[i] in admitted && more[i] == admitted[i];
    assert forall b :: b in more <==> b in admitted || b == a;
  }

  // ---- A pending challenge cannot be spoiled ----

  datatype Attempt =
    | Beginning(workstation: string, nonce: Bytes32, now: U64, deadline: U64)
    | Answering(challenge: Challenge, signature: seq<Byte>, now: U64)
    | Operating(capability: Capability, request: Request, now: U64)

  /** Before the deadline, and no right answer. */
  predicate Fails(a: DeveloperSessionAuthority, t: Attempt, challenge: Challenge)
    reads a
  {
    && challenge.workstation in a.registry.keys && t.now < challenge.expiresAt
    && (t.Answering? && t.challenge == challenge ==>
          !a.verifies(a.registry.keys[challenge.workstation], SigningMessage(challenge), t.signature))
  }

  /** Whatever else is tried before its deadline, the challenge is still there for the right answer. */
  method AnswerAfterAttempts(a: DeveloperSessionAuthority, attempts: seq<Attempt>, challenge: Challenge, signature: seq<Byte>, now: U64)
    returns (result: Result<Capability>)
    requires a.Valid() && !a.closed && a.liveness.active && a.pending == Some(challenge)
    requires forall i :: 0 <= i < |attempts| ==> Fails(a, attempts[i], challenge)
    requires now < challenge.expiresAt && a.verifies(a.registry.keys[challenge.workstation], SigningMessage(challenge), signature)
    modifies a, a.liveness
    ensures a.Valid() && result == Ok(Capability(challenge.workstation, challenge.ordinal, a.epoch, a.expiresAt))
  {
    for i := 0 to |attempts|
      invariant a.Valid() && !a.closed && a.liveness.active && a.pending == Some(challenge)
    {
      assert Fails(a, attempts[i], challenge);
      match attempts[i] {
        case Beginning(workstation, nonce, at, deadline) => var refused := a.BeginChallenge(workstation, nonce, at, deadline);
        case Answering(other, wrong, at) => var refused := a.Authenticate(other, wrong, at);
        case Operating(capability, request, at) => var refused := a.AuthorizeOperation(capability, request, at);
      }
    }
    result := a.Authenticate(challenge, signature, now);
  }

  /** Opens an epoch, unless its randomness or lifetime is unacceptable. */
  method NewAuthority(registry: DeveloperTrust.Registry, epoch: Bytes32, now: U64, expiresAt: U64,
                      verifies: (DeveloperTrust.Hex32, seq<Byte>, seq<Byte>) -> bool)
    returns (error: Option<Error>, authority: DeveloperSessionAuthority?)
    ensures error.None? <==> epoch != ZEROES && now < expiresAt && expiresAt - now <= MAX_DEVELOPER_SESSION_MS
    ensures error.None? <==> authority != null
    ensures error == Some(InvalidSessionRandomness) <==> epoch == ZEROES
    ensures error.Some? ==> error.value in {InvalidSessionRandomness, InvalidSessionDeadline}
    ensures authority != null ==> fresh(authority) && fresh(authority.liveness) && authority.Valid() && authority.IsOpen(now)
    ensures authority != null ==> authority.registry == registry && authority.epoch == epoch && authority.verifies == verifies
    ensures authority != null ==> authority.expiresAt == expiresAt && authority.issued == [] && authority.pending.None?
  {
    authority := null;
    if epoch == ZEROES {
      return Some(InvalidSessionRandomness), null;
    }
    if expiresAt <= now || expiresAt - now > MAX_DEVELOPER_SESSION_MS {
      return Some(InvalidSessionDeadline), null;
    }
    error := None;
    authority := new DeveloperSessionAuthority.Confirmed(registry, epoch, expiresAt, verifies);
  }
}
