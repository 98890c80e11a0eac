/** Resolving the reference to the IAM role: pkg/resource/agent/references.go. */
module References {
  import opened Api
  import opened Resources

  /** The part of an IAM Role object that is read. */
  datatype Role = Role(conditions: seq<Condition>, metadata: Option<ResourceMetadata>)

  /** What resolution can see: the roles (or the error of looking one up) by namespace and name, and
      ackrt.ValidateCrossNamespaceReference for the resource's namespace, the reference's and its name. */
  datatype Environment = Environment(roles: (string, string) -> Result<Role>,
                                     namespaceFor: (string, Option<string>, string) -> Result<string>)

  // ----- The state of a role -----

  predicate Has(conds: seq<Condition>, t: ConditionType) {
    exists i :: 0 <= i < |conds| && conds[i].ctype == t && conds[i].status == True
  }

  /** A role that can be referred to: not terminal, synced and with an ARN. */
  predicate IsUsable(role: Role) {
    && !Has(role.conditions, TerminalCondition) && Has(role.conditions, ResourceSynced)
    && role.metadata.Some? && role.metadata.value.arn.Some?
  }

  function CheckRole(role: Role): Option<Error> {
    if Has(role.conditions, TerminalCondition) then Some(ReferenceTerminal)
    else if !Has(role.conditions, ResourceSynced) then Some(ReferenceNotSynced)
    else if role.metadata.None? || role.metadata.value.arn.None? then Some(ReferenceTargetMissing)
    else None
  }

  function RoleFor(env: Environment, name: string, namespace: string): Result<Role> {
    var role :- env.roles(namespace, name);
    if CheckRole(role).Some? then Err(CheckRole(role).value) else Ok(role)
  }

  method GetReferencedResourceStateRole(env: Environment, name: string, namespace: string) returns (r: Result<Role>)
    ensures r == RoleFor(env, name, namespace)
  {
    var obj := env.roles(namespace, name);
    if obj.Err? {
      return obj;
    }
    var conds := obj.value.conditions;
    for i := 0 to |conds|
      invariant forall j :: 0 <= j < i ==> !(conds[j].ctype == TerminalCondition && conds[j].status == True)
    {
      if conds[i].ctype == TerminalCondition && conds[i].status == True {
        return Err(ReferenceTerminal);
      }
    }
    var refResourceSynced := false;
    for i := 0 to |conds|
      invariant refResourceSynced
                <==> exists j :: 0 <= j < i && conds[j].ctype == ResourceSynced && conds[j].status == True
    {
      if conds[i].ctype == ResourceSynced && conds[i].status == True {
        refResourceSynced := true;
      }
    }
    if !refResourceSynced {
      return Err(ReferenceNotSynced);
    }
    if obj.value.metadata.None? || obj.value.metadata.value.arn.None? {
      return Err(ReferenceTargetMissing);
    }
    r := obj;
  }

  // ----- Resolving and clearing -----

  function Validate(s: AgentSpec): Option<Error> {
    if s.agentResourceRoleRef.Some? && s.agentResourceRoleARN.Some? then Some(ReferenceAndIDSet)
    else if s.agentResourceRoleRef.None? && s.agentResourceRoleARN.None? then Some(ReferenceOrIDRequired)
    else None
  }

  predicate Refers(s: AgentSpec) {
    s.agentResourceRoleRef.Some? && s.agentResourceRoleRef.value.from.Some?
  }

  /** The role that a reference leads to. */
  function Target(env: Environment, namespace: string, s: AgentSpec): Result<Role>
    requires Refers(s)
  {
    var arr := s.agentResourceRoleRef.value.from.value;
    if arr.name.None? || arr.name.value == "" then Err(ReferenceNameMissing)
    else
      var ns :- env.namespaceFor(namespace, arr.namespace, arr.name.value);
      RoleFor(env, arr.name.value, ns)
  }

  datatype Resolution = Resolution(a: Agent, hasReferences: bool, error: Option<Error>)

  function WithRoleARN(a: Agent, arn: Option<string>): Agent {
    a.(spec := a.spec.(agentResourceRoleARN := arn))
  }

  function Resolve(env: Environment, a: Agent): Resolution {
    if !Refers(a.spec) then Resolution(a, false, Validate(a.spec))
    else
      match Target(env, a.namespace, a.spec)
      case Err(e) => Resolution(a, true, Some(e))
      case Ok(role) =>
        var arn := if role.metadata.Some? then role.metadata.value.arn else None;
        Resolution(WithRoleARN(a, arn), true, Validate(a.spec))
  }

  function Clear(a: Agent): Agent {
    if a.spec.agentResourceRoleRef.Some? then WithRoleARN(a, None) else a
  }

  method SetRoleARN(ko: Resource, arn: Option<string>)
    modifies ko`spec
    ensures ko.View() == WithRoleARN(old(ko.View()), arn)
  {
    ko.spec := ko.spec.(agentResourceRoleARN := arn);
  }

  /** The ARN is written into the resource that is given. */
  method ResolveReferenceForAgentResourceRoleARN(env: Environment, ko: Resource)
    returns (hasReferences: bool, err: Option<Error>)
    modifies ko`spec
    ensures var resolution := Resolve(env, old(ko.View()));
            && ko.View() == resolution.a && hasReferences == resolution.hasReferences
            && err == if Refers(old(ko.spec)) && Target(env, ko.namespace, old(ko.spec)).Err?
                      then Some(Target(env, ko.namespace, old(ko.spec)).error) else None
  {
    hasReferences := false;
    if ko.spec.agentResourceRoleRef.Some? && ko.spec.agentResourceRoleRef.value.from.Some? {
      hasReferences := true;
      var arr := ko.spec.agentResourceRoleRef.value.from.value;
      if arr.name.None? || arr.name.value == "" {
        return hasReferences, Some(ReferenceNameMissing);
      }
      var namespace := env.namespaceFor(ko.namespace, arr.namespace, arr.name.value);
      if namespace.Err? {
        return hasReferences, Some(namespace.error);
      }
      var obj := GetReferencedResourceStateRole(env, arr.name.value, namespace.value);
      if obj.Err? {
        return hasReferences, Some(obj.error);
      }
      SetRoleARN(ko, obj.value.metadata.value.arn);
    }
    err := None;
  }

  /** The resource that is returned is the one that was given, not a copy. */
  method ResolveReferences(env: Environment, r: Resource)
    returns (res: Resource, hasReferences: bool, err: Option<Error>)
    modifies r`spec
    ensures res == r
    ensures Resolution(res.View(), hasReferences, err) == Resolve(env, old(r.View()))
  {
    var validation := Validate(r.spec);
    var refers, refErr := ResolveReferenceForAgentResourceRoleARN(env, r);
    if refErr.Some? {
      return r, refers, refErr;
    }
    return r, refers, validation;
  }

  method ClearResolvedReferences(r: Resource) returns (res: Resource)
    ensures fresh(res) && fresh(res.Objects()) && res.Distinct()
    ensures res.View() == Clear(old(r.View()))
  {
    res := r.DeepCopy();
    if res.spec.agentResourceRoleRef.Some? {
      SetRoleARN(res, None);
    }
  }

  // ----- Round trips -----

  /** Clearing takes back whatever resolving did, also when it failed. */
  lemma ClearUndoesResolve(env: Environment, a: Agent)
    ensures Clear(Resolve(env, a).a) == Clear(a)
  {
  }

  /** Resolving again after clearing gives the same outcome exactly if not both a reference and an ARN were set. */
  lemma ResolveAgainIff(env: Environment, a: Agent)
    ensures Resolve(env, Clear(Resolve(env, a).a)) == Resolve(env, a)
            <==> !(a.spec.agentResourceRoleRef.Some? && a.spec.agentResourceRoleARN.Some?)
  {
  }

  /** In particular after every success. */
  lemma SuccessIsRepeatable(env: Environment, a: Agent)
    requires Resolve(env, a).error.None?
    ensures Resolve(env, Clear(Resolve(env, a).a)) == Resolve(env, a)
  {
  }

  /** A reference resolves iff it leads to a usable role, and the ARN is then the role's; otherwise nothing changes. */
  lemma ArnComesFromUsableRole(env: Environment, a: Agent)
    requires Refers(a.spec)
    ensures var resolution := Resolve(env, a);
            match Target(env, a.namespace, a.spec)
            case Ok(role) =>
              IsUsable(role) && resolution.a.spec == a.spec.(agentResourceRoleARN := role.metadata.value.arn)
            case Err(_) => resolution.a == a && resolution.error.Some?
    ensures var name := a.spec.agentResourceRoleRef.value.from.value.name;
            Target(env, a.namespace, a.spec).Ok? <==>
              name.Some? && name.value != ""
              && LeadsToUsableRole(env, a.namespace, a.spec.agentResourceRoleRef.value.from.value.namespace, name.value)
  {
  }

  predicate HasTrue(role: Role, t: ConditionType) {
    exists i :: 0 <= i < |role.conditions| && role.conditions[i].ctype == t && role.conditions[i].status == True
  }

  /** The result of a resolution, reason by reason: a reference without a name, a namespace that may not be used, a role
      that cannot be looked up, that is terminal, not synced or without an ARN, and last what validation says of a
      reference together with an ARN, or of neither. */
  lemma ResolutionByReason(env: Environment, a: Agent)
    ensures var s, resolution := a.spec, Resolve(env, a);
            var invalid := if s.agentResourceRoleRef.Some? && s.agentResourceRoleARN.Some? then Some(ReferenceAndIDSet)
                           else if s.agentResourceRoleRef.None? && s.agentResourceRoleARN.None?
                           then Some(ReferenceOrIDRequired) else None;
            if s.agentResourceRoleRef.None? || s.agentResourceRoleRef.value.from.None?
            then resolution == Resolution(a, false, invalid)
            else
              var from := s.agentResourceRoleRef.value.from.value;
              && resolution.hasReferences
              && if from.name.None? || from.name == Some("")
                 then resolution.error == Some(ReferenceNameMissing) && resolution.a == a
                 else
                   var ns := env.namespaceFor(a.namespace, from.namespace, from.name.value);
                   if ns.Err? then resolution.error == Some(ns.error) && resolution.a == a else
                     var role := env.roles(ns.value, from.name.value);
                     if role.Err? then resolution.error == Some(role.error) && resolution.a == a
                     else if HasTrue(role.value, TerminalCondition)
                     then resolution.error == Some(ReferenceTerminal) && resolution.a == a
                     else if !HasTrue(role.value, ResourceSynced)
                     then resolution.error == Some(ReferenceNotSynced) && resolution.a == a
                     else if role.value.metadata.None? || role.value.metadata.value.arn.None?
                     then resolution.error == Some(ReferenceTargetMissing) && resolution.a == a
                     else && resolution.error == invalid
                          && resolution.a
                             == a.(spec := s.(agentResourceRoleARN := role.value.metadata.value.arn))
  {
    assert forall role: Role, t :: Has(role.conditions, t) <==> HasTrue(role, t);
  }

  /** The comment on ResolveReferences promises to leave the given resource alone. It does so iff there is nothing to
      resolve, resolving fails, or the ARN is already there. */
  lemma ResolveKeepsResourceIff(env: Environment, a: Agent)
    ensures Resolve(env, a).a == a
            <==> !(Refers(a.spec) && Target(env, a.namespace, a.spec).Ok?)
                 || a.spec.agentResourceRoleARN == Target(env, a.namespace, a.spec).value.metadata.value.arn
  {
  }

  /** A resource with a reference to a usable role and no ARN is changed. */
  lemma ResolveChangesResource(env: Environment, a: Agent)
    requires Refers(a.spec) && Target(env, a.namespace, a.spec).Ok? && a.spec.agentResourceRoleARN.None?
    ensures Resolve(env, a).a != a && Resolve(env, a).a.spec.agentResourceRoleARN.Some?
  {
  }

  predicate LeadsToUsableRole(env: Environment, namespace: string, refNamespace: Option<string>, name: string) {
    var ns := env.namespaceFor(namespace, refNamespace, name);
    ns.Ok? && env.roles(ns.value, name).Ok? && IsUsable(env.roles(ns.value, name).value)
  }
}
