/** Entities and state machines shared by the broker's components. */
module Domain {
  import opened ByteStrings
  import opened Wrappers

  type Id = Bytes

  /** A web origin, identified with its canonical `scheme://host:port` text. */
  datatype Origin = Origin(text: Bytes)

  datatype ActionKind = AuthenticatePassword | AuthenticateTotp | FormSensitiveFill | OAuthAuthorize

  function ActionText(action: ActionKind): Bytes {
    match action
    case AuthenticatePassword => Ascii("authenticate.password")
    case AuthenticateTotp => Ascii("authenticate.totp")
    case FormSensitiveFill => Ascii("form.sensitive_fill")
    case OAuthAuthorize => Ascii("oauth.authorize")
  }

  lemma ActionTextInjective(a: ActionKind, b: ActionKind)
    requires ActionText(a) == ActionText(b)
    ensures a == b
  {
  }

  datatype RequestState =
    | Requested | PolicyEvaluating | AwaitingApproval | Approved | CapabilityIssued | Executing
    | RequestCompleted | Denied | RequestExpired | Cancelled | RequestIndeterminate | RequestEvidenceLost
    | RequestRevoked | RequestFailed
  {
    predicate IsTerminal() {
      RequestCompleted? || Denied? || RequestExpired? || Cancelled? || RequestIndeterminate?
      || RequestEvidenceLost? || RequestRevoked? || RequestFailed?
    }
  }

  datatype CapabilityState = Issued | Active | Consumed | Expired | Revoked
  {
    predicate IsTerminal() {
      Consumed? || Expired? || Revoked?
    }

    predicate CanBecome(next: CapabilityState) {
      !IsTerminal() && match (this, next)
        case (Issued, Active) => true
        case (Issued, Consumed) => true
        case (Active, Consumed) => true
        case (_, Expired) => true
        case (_, Revoked) => true
        case _ => false
    }
  }

  datatype ExecutionState = Prepared | Consuming | Completed | Failed | Indeterminate | CompletedEvidenceLost
  {
    predicate IsTerminal() {
      Completed? || Failed? || Indeterminate? || CompletedEvidenceLost?
    }

    predicate CanBecome(next: ExecutionState) {
      !IsTerminal() && match (this, next)
        case (Prepared, Consuming) => true
        case (Consuming, Completed) => true
        case (Consuming, Failed) => true
        case (Consuming, Indeterminate) => true
        case (Consuming, CompletedEvidenceLost) => true
        case (Prepared, Failed) => true
        case _ => false
    }
  }

  /** Instants are nanoseconds since the epoch; `timestamp()` floors. */
  const NANOS: int := 1_000_000_000

  function Seconds(t: int): int {
    t / NANOS
  }

  /** Who asked for what, under which recipe and policy. */
  datatype Subject = Subject(
    request: Id, agent: Id, credential: Id, action: ActionKind,
    recipe: Id, recipeHash: Bytes, policyHash: Bytes)

  /** Where a credential may be used: the browser position that was measured. */
  datatype Binding = Binding(
    topOrigin: Origin, frameOrigin: Origin, session: Id, extensionKey: Bytes,
    tab: nat, frame: nat, document: Bytes, epoch: nat)

  datatype Flow = Flow(flow: Id, step: Id)

  datatype Claims = Claims(
    v: nat, aud: Bytes, jti: Id, subject: Subject, binding: Binding,
    nbf: int, iat: int, consumeDeadline: int, executionDeadline: int, stepDeadline: Option<int>,
    flowId: Option<Id>, stepId: Option<Id>, maxUses: nat, issuerKey: Bytes)

  /** The fixed part of a capability; deadlines in nanoseconds. */
  datatype Terms = Terms(
    id: Id, subject: Subject, binding: Binding, maxUses: nat, issuedAt: int,
    consumeDeadline: int, executionDeadline: int, stepDeadline: Option<int>, flow: Option<Flow>)

  datatype Capability = Capability(terms: Terms, state: CapabilityState, usedCount: nat)
  {
    predicate IsLive() {
      Issued == state || Active == state
    }

    /** `is_valid_at` of the entity, which tests the deadline with `<=`. */
    predicate IsValidAt(now: int) {
      IsLive() && now <= terms.consumeDeadline && usedCount < terms.maxUses
    }
  }
}
