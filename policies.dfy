/** `PoliciesGuard`: builds a fresh ability from the request's user and lets
    the request through when every policy handler declared on the route
    returns true, stopping at the first one that returns false. Denial is the
    value `false`; the guard throws nothing itself. */
module Policies {
  import opened Common
  import opened Ability

  /** A policy handler is a callback on the ability, or an object whose
      `handle` method is called with the ability. */
  datatype PolicyHandler =
    | Callback(callback: Ability -> bool)
    | HandlerObject(handle: Ability -> bool)

  /** `execPolicyHandler`. */
  function ExecPolicyHandler(handler: PolicyHandler, ability: Ability): (passed: bool)
    ensures handler.Callback? ==> passed == handler.callback(ability)
    ensures handler.HandlerObject? ==> passed == handler.handle(ability)
  {
    match handler
    case Callback(f) => f(ability)
    case HandlerObject(h) => h(ability)
  }

  /** `handlers.every(...)`: true when every handler passes. */
  function Every(handlers: seq<PolicyHandler>, ability: Ability): (all: bool)
    ensures all <==> forall i :: 0 <= i < |handlers| ==> ExecPolicyHandler(handlers[i], ability)
  {
    if handlers == [] then true
    else ExecPolicyHandler(handlers[0], ability) && Every(handlers[1..], ability)
  }

  /** How many handlers `every` runs before it stops: all of them when they
      all pass, otherwise up to and including the first that fails. */
  function EvaluatedHandlers(handlers: seq<PolicyHandler>, ability: Ability): (n: nat)
    ensures n <= |handlers|
    ensures forall i :: 0 <= i < n - 1 ==> ExecPolicyHandler(handlers[i], ability)
    ensures Every(handlers, ability) ==> n == |handlers|
    ensures !Every(handlers, ability) ==> 0 < n && !ExecPolicyHandler(handlers[n - 1], ability)
  {
    if handlers == [] then 0
    else if ExecPolicyHandler(handlers[0], ability) then 1 + EvaluatedHandlers(handlers[1..], ability)
    else 1
  }

  /** The handlers declared on the route; none declared reads as `[]`. */
  function DeclaredHandlers(declared: Option<seq<PolicyHandler>>): (handlers: seq<PolicyHandler>)
    ensures declared.None? ==> handlers == []
    ensures declared.Some? ==> handlers == declared.value
  {
    declared.GetOr([])
  }

  /** `canActivate`: the ability is rebuilt from the user on every call, so
      the verdict depends on the declared handlers and the user alone. */
  function CanActivate(declared: Option<seq<PolicyHandler>>, user: Requester): (allowed: bool)
    ensures allowed <==> forall i :: 0 <= i < |DeclaredHandlers(declared)| ==>
      ExecPolicyHandler(DeclaredHandlers(declared)[i], CreateForUser(user))
  {
    Every(DeclaredHandlers(declared), CreateForUser(user))
  }

  /** A route without handlers is let through, whoever asks. */
  lemma NoHandlersAllow(declared: Option<seq<PolicyHandler>>, user: Requester)
    requires declared.None? || declared.value == []
    ensures CanActivate(declared, user)
  {
  }

  /** The handler of `@CheckPolicies((ability) => ability.can(a, t))`. */
  function CanPolicy(a: Action, t: SubjectType): PolicyHandler {
    Callback((ability: Ability) => Can(ability, a, OfType(t)))
  }

  /** A route guarded by one `can(a, t)` handler admits exactly the users
      whose role table permits `a` on the type `t`. */
  lemma SinglePolicyMatchesTable(a: Action, t: SubjectType, user: Requester)
    ensures CanActivate(Some([CanPolicy(a, t)]), user) <==> Permitted(user, a, OfType(t))
  {
    CreateForUserMatchesTable(user, a, OfType(t));
  }
}
