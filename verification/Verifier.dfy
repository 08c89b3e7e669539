/** `verify_and_consume_capability`: the gate in front of every secret. */
module Verifier {
  import opened ByteStrings
  import opened Wrappers
  import opened Domain

  datatype VerifyError =
    | InvalidToken
    | AudienceMismatch
    | CapabilityIdMismatch
    | StoredClaimsMismatch
    | NotYetValid
    | WindowClosed
    | AlreadyConsumed
    | InvalidState
    | ContextMismatch
    | EpochMismatch

  const TOKEN_VERSION: nat := 1

  function ClaimsError(cap: Capability, claims: Claims, audience: Bytes): Option<VerifyError> {
    if claims.v != TOKEN_VERSION || claims.aud != audience then Some(AudienceMismatch)
    else if claims.jti != cap.terms.id then Some(CapabilityIdMismatch)
    else if claims.subject != cap.terms.subject then Some(StoredClaimsMismatch)
    else None
  }

  function ContextError(claims: Claims, context: Binding): Option<VerifyError> {
    if claims.binding.(epoch := 0) != context.(epoch := 0) then Some(ContextMismatch)
    else if claims.binding.epoch != context.epoch then Some(EpochMismatch)
    else None
  }

  predicate ConsumeWindowClosed(cap: Capability, claims: Claims, now: int) {
    Seconds(now) >= claims.consumeDeadline || now >= cap.terms.consumeDeadline
  }

  /** The verifier as a function: its answer and the capability afterwards.
      `parsed` is the outcome of checking the token's signature. */
  function Verify(cap: Capability, parsed: Option<Claims>, audience: Bytes, context: Binding, now: int)
    : (Result<Claims, VerifyError>, Capability)
  {
    if parsed == None then (Failure(InvalidToken), cap)
    else
      var claims := parsed.value;
      if ClaimsError(cap, claims, audience).Some? then (Failure(ClaimsError(cap, claims, audience).value), cap)
      else if Seconds(now) < claims.nbf then (Failure(NotYetValid), cap)
      else if ConsumeWindowClosed(cap, claims, now) then (Failure(WindowClosed), cap.(state := Expired))
      else if cap.state == Consumed || cap.usedCount >= cap.terms.maxUses then (Failure(AlreadyConsumed), cap)
      else if !cap.IsLive() then (Failure(InvalidState), cap)
      else if ContextError(claims, context).Some? then (Failure(ContextError(claims, context).value), cap)
      else
        var used := cap.usedCount + 1;
        (Success(claims), cap.(usedCount := used, state := if used >= cap.terms.maxUses then Consumed else Active))
  }

  /** A stored capability the verifier updates in place. */
  class LiveCapability {
    const terms: Terms
    var state: CapabilityState
    var usedCount: nat

    constructor (cap: Capability)
      ensures View() == cap
    {
      terms, state, usedCount := cap.terms, cap.state, cap.usedCount;
    }

    function View(): Capability
      reads this
    {
      Capability(terms, state, usedCount)
    }

    method VerifyAndConsume(parsed: Option<Claims>, audience: Bytes, context: Binding, now: int)
      returns (r: Result<Claims, VerifyError>)
      modifies this
      ensures (r, View()) == Verify(old(View()), parsed, audience, context, now)
      ensures r.Success? ==> usedCount == old(usedCount) + 1 <= terms.maxUses
      ensures r.Failure? ==> usedCount == old(usedCount) && (state == old(state) || state == Expired)
    {
      if parsed == None {
        return Failure(InvalidToken);
      }
      var claims := parsed.value;
      if claims.v != TOKEN_VERSION || claims.aud != audience {
        return Failure(AudienceMismatch);
      }
      if claims.jti != terms.id {
        return Failure(CapabilityIdMismatch);
      }
      if claims.subject.request != terms.subject.request
        || claims.subject.agent != terms.subject.agent
        || claims.subject.credential != terms.subject.credential
        || claims.subject.action != terms.subject.action
        || claims.subject.recipe != terms.subject.recipe
        || claims.subject.recipeHash != terms.subject.recipeHash
        || claims.subject.policyHash != terms.subject.policyHash
      {
        return Failure(StoredClaimsMismatch);
      }
      if Seconds(now) < claims.nbf {
        return Failure(NotYetValid);
      }
      if Seconds(now) >= claims.consumeDeadline || now >= terms.consumeDeadline {
        state := Expired;
        return Failure(WindowClosed);
      }
      if state == Consumed || usedCount >= terms.maxUses {
        return Failure(AlreadyConsumed);
      }
      if state != Issued && state != Active {
        return Failure(InvalidState);
      }
      if claims.binding.topOrigin != context.topOrigin
        || claims.binding.frameOrigin != context.frameOrigin
        || claims.binding.session != context.session
      {
        return Failure(ContextMismatch);
      }
      if claims.binding.extensionKey != context.extensionKey
        || claims.binding.tab != context.tab
        || claims.binding.frame != context.frame
        || claims.binding.document != context.document
      {
        return Failure(ContextMismatch);
      }
      if claims.binding.epoch != context.epoch {
        return Failure(EpochMismatch);
      }
      usedCount := usedCount + 1;
      if usedCount >= terms.maxUses {
        state := Consumed;
      } else {
        state := Active;
      }
      return Success(claims);
    }
  }

  // ------------------------------------------------------------------- runs

  datatype Attempt = Attempt(parsed: Option<Claims>, context: Binding, now: int)

  function AfterAttempts(cap: Capability, audience: Bytes, attempts: seq<Attempt>): Capability
    decreases |attempts|
  {
    if attempts == [] then cap
    else
      var a := attempts[0];
      AfterAttempts(Verify(cap, a.parsed, audience, a.context, a.now).1, audience, attempts[1..])
  }

  function Successes(cap: Capability, audience: Bytes, attempts: seq<Attempt>): nat
    decreases |attempts|
  {
    if attempts == [] then 0
    else
      var a := attempts[0];
      var (r, next) := Verify(cap, a.parsed, audience, a.context, a.now);
      (if r.Success? then 1 else 0) + Successes(next, audience, attempts[1..])
  }

  /** Over any sequence of attempts, with any tokens, contexts and clocks, the
      use counter rises by exactly the number of successes, never passes the
      allowance, and nothing else about the capability moves. */
  lemma {:induction false} UseAccounting(cap: Capability, audience: Bytes, attempts: seq<Attempt>)
    requires cap.usedCount <= cap.terms.maxUses
    ensures var after := AfterAttempts(cap, audience, attempts);
            && after.terms == cap.terms
            && after.usedCount == cap.usedCount + Successes(cap, audience, attempts)
            && after.usedCount <= cap.terms.maxUses
    decreases |attempts|
  {
    if attempts != [] {
      var a := attempts[0];
      UseAccounting(Verify(cap, a.parsed, audience, a.context, a.now).1, audience, attempts[1..]);
    }
  }

  /** A consumed, expired or revoked capability never releases anything again. */
  lemma {:induction false} TerminalNeverUsable(cap: Capability, audience: Bytes, attempts: seq<Attempt>)
    requires cap.state.IsTerminal()
    ensures Successes(cap, audience, attempts) == 0
    ensures AfterAttempts(cap, audience, attempts).state.IsTerminal()
    decreases |attempts|
  {
    if attempts != [] {
      var a := attempts[0];
      TerminalNeverUsable(Verify(cap, a.parsed, audience, a.context, a.now).1, audience, attempts[1..]);
    }
  }

  /** Success, stated without the order of the tests. */
  ghost predicate Acceptable(cap: Capability, parsed: Option<Claims>, audience: Bytes, context: Binding, now: int) {
    && parsed.Some?
    && parsed.value.v == TOKEN_VERSION && parsed.value.aud == audience
    && parsed.value.jti == cap.terms.id && parsed.value.subject == cap.terms.subject
    && parsed.value.binding == context
    && cap.IsLive() && cap.usedCount < cap.terms.maxUses
    && parsed.value.nbf <= Seconds(now) < parsed.value.consumeDeadline
    && now < cap.terms.consumeDeadline
  }

  lemma VerifyAccepts(cap: Capability, parsed: Option<Claims>, audience: Bytes, context: Binding, now: int)
    ensures Verify(cap, parsed, audience, context, now).0.Success?
            <==> Acceptable(cap, parsed, audience, context, now)
    ensures Verify(cap, parsed, audience, context, now).0.Success?
            ==> Verify(cap, parsed, audience, context, now).0.value == parsed.value
  {
  }

  // ------------------------------------------------------------------- mint

  datatype Deadlines = Deadlines(consumeTtl: nat, executionTtl: nat, stepTtl: Option<nat>)

  function MintTerms(
    id: Id, subject: Subject, binding: Binding, issuedAt: int, deadlines: Deadlines, flow: Option<Flow>, maxUses: nat)
    : Terms
  {
    Terms(id, subject, binding, maxUses, issuedAt,
          issuedAt + deadlines.consumeTtl * NANOS, issuedAt + deadlines.executionTtl * NANOS,
          match deadlines.stepTtl { case None => None case Some(ttl) => Some(issuedAt + ttl * NANOS) },
          flow)
  }

  function MintClaims(terms: Terms, audience: Bytes, issuerKey: Bytes): Claims {
    Claims(TOKEN_VERSION, audience, terms.id, terms.subject, terms.binding,
           Seconds(terms.issuedAt) - 1, Seconds(terms.issuedAt),
           Seconds(terms.consumeDeadline), Seconds(terms.executionDeadline),
           match terms.stepDeadline { case None => None case Some(t) => Some(Seconds(t)) },
           match terms.flow { case None => None case Some(f) => Some(f.flow) },
           match terms.flow { case None => None case Some(f) => Some(f.step) },
           terms.maxUses, issuerKey)
  }

  /** The release window in whole seconds. A minted capability with uses left,
      presented with its own token in its own context, is accepted exactly when
      floor(now) lies in [iat - 1, floor(issued_at) + consume TTL). */
  lemma ReleaseWindow(
    id: Id, subject: Subject, binding: Binding, issuedAt: int, deadlines: Deadlines, flow: Option<Flow>, maxUses: nat,
    audience: Bytes, issuerKey: Bytes, cap: Capability, now: int)
    requires cap.terms == MintTerms(id, subject, binding, issuedAt, deadlines, flow, maxUses)
    requires cap.IsLive() && cap.usedCount < maxUses
    ensures var claims := MintClaims(cap.terms, audience, issuerKey);
            Verify(cap, Some(claims), audience, binding, now).0.Success?
            <==> claims.iat - 1 <= Seconds(now) < Seconds(issuedAt) + deadlines.consumeTtl
  {
  }

  /** `is_valid_at` and the verifier disagree about the time exactly during the
      last, partial second, the deadline itself included. */
  lemma ValidityDisagreement(cap: Capability, audience: Bytes, issuerKey: Bytes, now: int)
    requires cap.IsLive() && cap.usedCount < cap.terms.maxUses
    requires Seconds(now) >= Seconds(cap.terms.issuedAt) - 1
    ensures var claims := MintClaims(cap.terms, audience, issuerKey);
            var verified := Verify(cap, Some(claims), audience, cap.terms.binding, now).0.Success?;
            && (verified ==> cap.IsValidAt(now))
            && (cap.IsValidAt(now) && !verified
                <==> Seconds(now) == Seconds(cap.terms.consumeDeadline) && now <= cap.terms.consumeDeadline)
  {
  }

  /** The verifier tests the deadline before the state, so a late attempt also
      rewrites a consumed or revoked capability to expired, which is no edge of
      the state machine. That is the only departure from it. */
  lemma StateChangesAreEdges(cap: Capability, parsed: Option<Claims>, audience: Bytes, context: Binding, now: int)
    ensures var next := Verify(cap, parsed, audience, context, now).1.state;
            next == cap.state || cap.state.CanBecome(next)
            <==> !((cap.state == Consumed || cap.state == Revoked)
                   && parsed.Some? && ClaimsError(cap, parsed.value, audience) == None
                   && parsed.value.nbf <= Seconds(now) && ConsumeWindowClosed(cap, parsed.value, now))
  {
  }
}
