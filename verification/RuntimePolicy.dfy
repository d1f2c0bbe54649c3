/** The per-action policy check. */
module RuntimePolicy {
  import opened Prelude
  import opened GrantResolution

  datatype Action = Action(id: string, requester: string, capability: Capability, sourceType: string, sourceId: string,
                           requestedAt: Stamp, expiresAt: Stamp, digest: string, scope: Field<Scope>, budget: Budget)

  /** A grant as the check reads it; an empty delegated set stands for all the capabilities. */
  datatype RuntimeGrant = RuntimeGrant(capabilities: set<Capability>, delegated: set<Capability>, scope: Field<Scope>,
                                       parentScope: Option<Scope>, budget: Budget)

  datatype Verdict = Allow(replayed: bool) | Deny(reason: DenyReason) | RequireHuman

  datatype Decision = Decision(id: string, verdict: Verdict, effective: set<Capability>)

  predicate IsProduction(c: Capability) {
    c == ProductionApprove || c == ProductionPromote || c.OtherProduction?
  }

  predicate IsKnown(c: Capability) {
    || c == SpecRead || c == SpecPropose || c == FactoryPlan || c == FactoryEnqueue || c == ArtifactRead
    || c == QaExecute || c == CertificationPropose || c == ReleaseRequestApproval || c.ConnectorInvoke?
  }

  predicate IsDigest(s: string) {
    |s| == 71 && s[..7] == "sha256:"
  }

  /** The entries of `asked` are entries of `allowed`. */
  predicate Entries(asked: Scope, allowed: Scope) {
    forall k :: k in asked ==> k in allowed && allowed[k] == asked[k]
  }

  /** A stated figure does not exceed a stated limit; a figure or limit that is not stated is not compared. */
  predicate FigureWithin(asked: Option<int>, limit: Option<int>)
    ensures !FigureWithin(asked, limit) <==> asked.Some? && limit.Some? && limit.value < asked.value
  {
    asked.Some? && limit.Some? ==> asked.value <= limit.value
  }

  predicate BudgetWithin(asked: Budget, limit: Budget) {
    && FigureWithin(asked.timeoutSeconds, limit.timeoutSeconds)
    && FigureWithin(asked.maxRetries, limit.maxRetries)
    && FigureWithin(asked.maxCostMinor, limit.maxCostMinor)
  }

  /** The action has not run out at `now`, nor before it was requested. */
  predicate Current(a: Action, now: int) {
    && a.requestedAt.At? && a.expiresAt.At?
    && now < a.expiresAt.time && a.requestedAt.time < a.expiresAt.time
  }

  function VerdictOn(a: Action, g: RuntimeGrant, replay: map<string, string>, now: int): Verdict {
    if a.sourceType == "" || a.sourceId == "" then Deny(MissingProvenance)
    else if !Current(a, now) then Deny(ExpiredAction)
    else if !IsDigest(a.digest) then Deny(MissingProvenance)
    else if a.id in replay then if replay[a.id] == a.digest then Allow(true) else Deny(Replay)
    else if a.capability == ProductionApprove || a.capability == ProductionPromote then RequireHuman
    else if !IsKnown(a.capability) then Deny(UnknownCapability)
    else if a.capability !in g.capabilities then Deny(CapabilityNotGranted)
    else if a.scope.Malformed? || a.scope.value == map[] || g.scope.Malformed? then Deny(ScopeMismatch)
    else if !Entries(a.scope.value, g.scope.value) then Deny(ScopeMismatch)
    else if !(g.delegated <= g.capabilities) then Deny(DelegationEscalation)
    else if g.parentScope.Some? && !Agrees(g.scope.value, g.parentScope.value) then Deny(ScopeMismatch)
    else if !BudgetWithin(a.budget, g.budget) then Deny(DelegationEscalation)
    else Allow(false)
  }

  /** No key of `scope` has another value in `parent`. */
  predicate Agrees(scope: Scope, parent: Scope) {
    forall k :: k in scope && k in parent ==> parent[k] == scope[k]
  }

  function EvaluateRuntime(a: Action, grant: Option<RuntimeGrant>, replay: map<string, string>, now: int,
                           policyAvailable: bool): Decision {
    if !policyAvailable || grant.None? then Decision(a.id, Deny(PolicyUnavailable), {})
    else Decision(a.id, VerdictOn(a, grant.value, replay, now), grant.value.capabilities)
  }

  /** The action is sourced, current and carries a digest. */
  predicate InOrder(a: Action, now: int) {
    a.sourceType != "" && a.sourceId != "" && Current(a, now) && IsDigest(a.digest)
  }

  /** The grant is wide enough for the action, and hands on no more than it has. */
  ghost predicate Grants(g: RuntimeGrant, a: Action) {
    && a.capability in g.capabilities && g.delegated <= g.capabilities
    && a.scope.Given? && (exists k :: k in a.scope.value) && g.scope.Given? && Entries(a.scope.value, g.scope.value)
    && (g.parentScope.Some? ==> Agrees(g.scope.value, g.parentScope.value))
    && BudgetWithin(a.budget, g.budget)
  }

  /** An action is allowed afresh exactly when it is in order, new, of a known kind, and granted; it is allowed as
      a replay exactly when it is in order and on record with its own digest, whatever the grant says. */
  lemma AllowedExactlyWhen(a: Action, g: RuntimeGrant, replay: map<string, string>, now: int)
    ensures VerdictOn(a, g, replay, now) == Allow(false) <==>
      InOrder(a, now) && a.id !in replay && IsKnown(a.capability) && Grants(g, a)
    ensures VerdictOn(a, g, replay, now) == Allow(true) <==>
      InOrder(a, now) && a.id in replay && replay[a.id] == a.digest
  {
    if a.scope.Given? && a.scope.value != map[] {
      assert a.scope.value.Keys != {};
    }
  }

  /** The action may be looked at on its merits: in order, not on record, and of a kind an agent may have. */
  predicate Eligible(a: Action, replay: map<string, string>, now: int) {
    && InOrder(a, now) && a.id !in replay && !a.capability.ProductionApprove? && !a.capability.ProductionPromote?
    && !a.capability.OtherProduction? && !a.capability.Unstated? && !a.capability.OtherCapability?
  }

  /** The action asks for entries of a scope, and the grant has them. */
  predicate InScope(a: Action, g: RuntimeGrant) {
    && a.scope.Given? && (exists k :: k in a.scope.value) && g.scope.Given?
    && forall k :: k in a.scope.value ==> k in g.scope.value && g.scope.value[k] == a.scope.value[k]
  }

  /** What each denial is about. */
  ghost predicate DeniedFor(a: Action, g: RuntimeGrant, replay: map<string, string>, now: int, reason: DenyReason) {
    match reason
    case MissingProvenance => a.sourceType == "" || a.sourceId == "" || (Current(a, now) && !IsDigest(a.digest))
    case ExpiredAction =>
      && a.sourceType != "" && a.sourceId != ""
      && (!a.requestedAt.At? || !a.expiresAt.At? || a.expiresAt.time <= now || a.expiresAt.time <= a.requestedAt.time)
    case Replay => InOrder(a, now) && a.id in replay && replay[a.id] != a.digest
    case UnknownCapability =>
      && InOrder(a, now) && a.id !in replay
      && (a.capability.OtherProduction? || a.capability.Unstated? || a.capability.OtherCapability?)
    case CapabilityNotGranted => Eligible(a, replay, now) && a.capability !in g.capabilities
    case ScopeMismatch =>
      && Eligible(a, replay, now) && a.capability in g.capabilities
      && (!InScope(a, g)
          || (g.delegated <= g.capabilities && g.parentScope.Some? && !Agrees(g.scope.value, g.parentScope.value)))
    case DelegationEscalation =>
      && Eligible(a, replay, now) && a.capability in g.capabilities && InScope(a, g)
      && (!(g.delegated <= g.capabilities)
          || ((g.parentScope.Some? ==> Agrees(g.scope.value, g.parentScope.value))
              && !BudgetWithin(a.budget, g.budget)))
    case _ => false
  }

  /** Every other verdict: a human is asked exactly for the two production approvals, and a denial names the first
      thing missing. */
  lemma DeniedExactlyWhen(a: Action, g: RuntimeGrant, replay: map<string, string>, now: int)
    ensures
      var verdict := VerdictOn(a, g, replay, now);
      && (forall reason :: verdict == Deny(reason) <==> DeniedFor(a, g, replay, now, reason))
      && (verdict.RequireHuman? <==>
            InOrder(a, now) && a.id !in replay && (a.capability.ProductionApprove? || a.capability.ProductionPromote?))
      && (verdict == Allow(false) ==> Eligible(a, replay, now) && InScope(a, g))
  {
    if a.scope.Given? && a.scope.value != map[] {
      assert a.scope.value.Keys != {};
    }
  }

  /** What a grant allows, every wider grant allows too. */
  lemma WiderAllowsToo(a: Action, g: RuntimeGrant, wide: RuntimeGrant, replay: map<string, string>, now: int)
    requires g.capabilities <= wide.capabilities && wide.delegated <= wide.capabilities && wide.parentScope.None?
    requires g.scope.Given? ==> wide.scope.Given? && Entries(g.scope.value, wide.scope.value)
    requires FigureNotWider(g.budget.timeoutSeconds, wide.budget.timeoutSeconds)
    requires FigureNotWider(g.budget.maxRetries, wide.budget.maxRetries)
    requires FigureNotWider(g.budget.maxCostMinor, wide.budget.maxCostMinor)
    requires VerdictOn(a, g, replay, now).Allow?
    ensures VerdictOn(a, wide, replay, now) == VerdictOn(a, g, replay, now)
  {
    AllowedExactlyWhen(a, g, replay, now);
    AllowedExactlyWhen(a, wide, replay, now);
  }
}
