/** The generated copy functions of the spec and of the structs it refers to, apart from the prompt override. */
module DeepCopySpec {
  import opened Api
  import opened DeepCopy

  // ----- Parts -----

  datatype SessionSummary = SessionSummary(maxRecentSessions: Box?<Int64>)
  {
    ghost predicate StandsFor(v: SessionSummaryConfiguration, repr: set<object?>)
      reads repr
    {
      null in repr && IsScalar(maxRecentSessions, v.maxRecentSessions, repr)
    }

    lemma Grows(v: SessionSummaryConfiguration, r: set<object?>, r': set<object?>)
      requires StandsFor(v, r) && r <= r'
      ensures StandsFor(v, r')
    {
    }

    lemma HasOneValue(v: SessionSummaryConfiguration, u: SessionSummaryConfiguration, repr: set<object?>)
      requires StandsFor(v, repr) && StandsFor(u, repr)
      ensures v == u
    {
    }

    method DeepCopyInto(out: Box<SessionSummary>, ghost v: SessionSummaryConfiguration, ghost repr: set<object?>)
      returns (ghost r: set<object?>)
      requires StandsFor(v, repr) && out !in repr
      modifies out
      ensures fresh(r - {null}) && out.value.StandsFor(v, r) == old(StandsFor(v, repr))
    {
      var maxRecentSessions' := CopyScalar(maxRecentSessions);
      out.value := SessionSummary(maxRecentSessions');
      r := {null, maxRecentSessions'};
    }
  }

  ghost predicate IsSessionSummary(p: Box?<SessionSummary>, v: Option<SessionSummaryConfiguration>, repr: set<object?>)
    reads repr
  {
    && {null, p} <= repr && (p == null <==> v.None?)
    && (p != null ==> p.value.StandsFor(v.value, repr))
  }

  lemma SessionSummaryGrows(p: Box?<SessionSummary>, v: Option<SessionSummaryConfiguration>, r: set<object?>,
                            r': set<object?>)
    requires IsSessionSummary(p, v, r) && r <= r'
    ensures IsSessionSummary(p, v, r')
  {
    if p != null {
      p.value.Grows(v.value, r, r');
    }
  }

  method CopySessionSummary(p: Box?<SessionSummary>, ghost v: Option<SessionSummaryConfiguration>,
                            ghost repr: set<object?>)
    returns (q: Box?<SessionSummary>, ghost r: set<object?>)
    requires IsSessionSummary(p, v, repr)
    ensures fresh(r - {null}) && IsSessionSummary(q, v, r)
  {
    q, r := null, {null};
    if p != null {
      q := new Box(SessionSummary(null));
      r := p.value.DeepCopyInto(q, v.value, repr);
      q.value.Grows(v.value, r, r + {null, q});
      r := r + {null, q};
    }
  }

  datatype Memory = Memory(
    enabledMemoryTypes: StringSlice,
    sessionSummary: Box?<SessionSummary>,
    storageDays: Box?<Int64>)
  {
    ghost predicate StandsFor(v: MemoryConfiguration, repr: set<object?>)
      reads repr
    {
      && AreStrings(enabledMemoryTypes, v.enabledMemoryTypes, repr)
      && IsSessionSummary(sessionSummary, v.sessionSummary, repr) && IsScalar(storageDays, v.storageDays, repr)
    }

    lemma Grows(v: MemoryConfiguration, r: set<object?>, r': set<object?>)
      requires StandsFor(v, r) && r <= r'
      ensures StandsFor(v, r')
    {
    }

    lemma HasOneValue(v: MemoryConfiguration, u: MemoryConfiguration, repr: set<object?>)
      requires StandsFor(v, repr) && StandsFor(u, repr)
      ensures v == u
    {
      StringsHaveOneValue(enabledMemoryTypes, v.enabledMemoryTypes, u.enabledMemoryTypes, repr);
      if sessionSummary != null {
        sessionSummary.value.HasOneValue(v.sessionSummary.value, u.sessionSummary.value, repr);
      }
    }

    method CopyFields(ghost v: MemoryConfiguration, ghost repr: set<object?>)
      returns (res: Memory, ghost r: set<object?>)
      requires StandsFor(v, repr)
      ensures fresh(r - {null}) && res.StandsFor(v, r) == StandsFor(v, repr)
    {
      var enabledMemoryTypes', cells := CopyStrings(enabledMemoryTypes, v.enabledMemoryTypes, repr);
      var sessionSummary', reached := CopySessionSummary(sessionSummary, v.sessionSummary, repr);
      var storageDays' := CopyScalar(storageDays);
      res := Memory(enabledMemoryTypes', sessionSummary', storageDays');
      r := cells + reached + {storageDays'};
      SessionSummaryGrows(sessionSummary', v.sessionSummary, reached, r);
    }

    method DeepCopyInto(out: Box<Memory>, ghost v: MemoryConfiguration, ghost repr: set<object?>)
      returns (ghost r: set<object?>)
      requires StandsFor(v, repr) && out !in repr
      modifies out
      ensures fresh(r - {null}) && out.value.StandsFor(v, r) == old(StandsFor(v, repr))
    {
      var res, added := CopyFields(v, repr);
      out.value := res;
      r := added;
    }
  }

  ghost predicate IsMemory(p: Box?<Memory>, v: Option<MemoryConfiguration>, repr: set<object?>)
    reads repr
  {
    && {null, p} <= repr && (p == null <==> v.None?)
    && (p != null ==> p.value.StandsFor(v.value, repr))
  }

  lemma MemoryGrows(p: Box?<Memory>, v: Option<MemoryConfiguration>, r: set<object?>, r': set<object?>)
    requires IsMemory(p, v, r) && r <= r'
    ensures IsMemory(p, v, r')
  {
    if p != null {
      p.value.Grows(v.value, r, r');
    }
  }

  method CopyMemory(p: Box?<Memory>, ghost v: Option<MemoryConfiguration>, ghost repr: set<object?>)
    returns (q: Box?<Memory>, ghost r: set<object?>)
    requires IsMemory(p, v, repr)
    ensures fresh(r - {null}) && IsMemory(q, v, r)
  {
    q, r := null, {null};
    if p != null {
      q := new Box(Memory(null, null, null));
      r := p.value.DeepCopyInto(q, v.value, repr);
      q.value.Grows(v.value, r, r + {null, q});
      r := r + {null, q};
    }
  }

  datatype Executor = Executor(lambda: Box?<string>)
  {
    ghost predicate StandsFor(v: OrchestrationExecutor, repr: set<object?>)
      reads repr
    {
      null in repr && IsScalar(lambda, v.lambda, repr)
    }

    lemma Grows(v: OrchestrationExecutor, r: set<object?>, r': set<object?>)
      requires StandsFor(v, r) && r <= r'
      ensures StandsFor(v, r')
    {
    }

    lemma HasOneValue(v: OrchestrationExecutor, u: OrchestrationExecutor, repr: set<object?>)
      requires StandsFor(v, repr) && StandsFor(u, repr)
      ensures v == u
    {
    }

    method DeepCopyInto(out: Box<Executor>, ghost v: OrchestrationExecutor, ghost repr: set<object?>)
      returns (ghost r: set<object?>)
      requires StandsFor(v, repr) && out !in repr
      modifies out
      ensures fresh(r - {null}) && out.value.StandsFor(v, r) == old(StandsFor(v, repr))
    {
      var lambda' := CopyScalar(lambda);
      out.value := Executor(lambda');
      r := {null, lambda'};
    }
  }

  ghost predicate IsExecutor(p: Box?<Executor>, v: Option<OrchestrationExecutor>, repr: set<object?>)
    reads repr
  {
    && {null, p} <= repr && (p == null <==> v.None?)
    && (p != null ==> p.value.StandsFor(v.value, repr))
  }

  lemma ExecutorGrows(p: Box?<Executor>, v: Option<OrchestrationExecutor>, r: set<object?>, r': set<object?>)
    requires IsExecutor(p, v, r) && r <= r'
    ensures IsExecutor(p, v, r')
  {
    if p != null {
      p.value.Grows(v.value, r, r');
    }
  }

  method CopyExecutor(p: Box?<Executor>, ghost v: Option<OrchestrationExecutor>, ghost repr: set<object?>)
    returns (q: Box?<Executor>, ghost r: set<object?>)
    requires IsExecutor(p, v, repr)
    ensures fresh(r - {null}) && IsExecutor(q, v, r)
  {
    q, r := null, {null};
    if p != null {
      q := new Box(Executor(null));
      r := p.value.DeepCopyInto(q, v.value, repr);
      q.value.Grows(v.value, r, r + {null, q});
      r := r + {null, q};
    }
  }

  datatype Orchestration = Orchestration(executor: Box?<Executor>)
  {
    ghost predicate StandsFor(v: CustomOrchestration, repr: set<object?>)
      reads repr
    {
      IsExecutor(executor, v.executor, repr)
    }

    lemma Grows(v: CustomOrchestration, r: set<object?>, r': set<object?>)
      requires StandsFor(v, r) && r <= r'
      ensures StandsFor(v, r')
    {
      ExecutorGrows(executor, v.executor, r, r');
    }

    lemma HasOneValue(v: CustomOrchestration, u: CustomOrchestration, repr: set<object?>)
      requires StandsFor(v, repr) && StandsFor(u, repr)
      ensures v == u
    {
      if executor != null {
        executor.value.HasOneValue(v.executor.value, u.executor.value, repr);
      }
    }

    method DeepCopyInto(out: Box<Orchestration>, ghost v: CustomOrchestration, ghost repr: set<object?>)
      returns (ghost r: set<object?>)
      requires StandsFor(v, repr) && out !in repr
      modifies out
      ensures fresh(r - {null}) && out.value.StandsFor(v, r) == old(StandsFor(v, repr))
    {
      var executor', cells := CopyExecutor(executor, v.executor, repr);
      out.value := Orchestration(executor');
      r := cells;
    }
  }

  ghost predicate IsOrchestration(p: Box?<Orchestration>, v: Option<CustomOrchestration>, repr: set<object?>)
    reads repr
  {
    && {null, p} <= repr && (p == null <==> v.None?)
    && (p != null ==> p.value.StandsFor(v.value, repr))
  }

  lemma OrchestrationGrows(p: Box?<Orchestration>, v: Option<CustomOrchestration>, r: set<object?>, r': set<object?>)
    requires IsOrchestration(p, v, r) && r <= r'
    ensures IsOrchestration(p, v, r')
  {
    if p != null {
      p.value.Grows(v.value, r, r');
    }
  }

  method CopyOrchestration(p: Box?<Orchestration>, ghost v: Option<CustomOrchestration>, ghost repr: set<object?>)
    returns (q: Box?<Orchestration>, ghost r: set<object?>)
    requires IsOrchestration(p, v, repr)
    ensures fresh(r - {null}) && IsOrchestration(q, v, r)
  {
    q, r := null, {null};
    if p != null {
      q := new Box(Orchestration(null));
      r := p.value.DeepCopyInto(q, v.value, repr);
      q.value.Grows(v.value, r, r + {null, q});
      r := r + {null, q};
    }
  }

  datatype Guardrail = Guardrail(
    identifier: Box?<string>,
    version: Box?<string>)
  {
    ghost predicate StandsFor(v: GuardrailConfiguration, repr: set<object?>)
      reads repr
    {
      null in repr && IsScalar(identifier, v.identifier, repr) && IsScalar(version, v.version, repr)
    }

    lemma Grows(v: GuardrailConfiguration, r: set<object?>, r': set<object?>)
      requires StandsFor(v, r) && r <= r'
      ensures StandsFor(v, r')
    {
    }

    lemma HasOneValue(v: GuardrailConfiguration, u: GuardrailConfiguration, repr: set<object?>)
      requires StandsFor(v, repr) && StandsFor(u, repr)
      ensures v == u
    {
    }

    method DeepCopyInto(out: Box<Guardrail>, ghost v: GuardrailConfiguration, ghost repr: set<object?>)
      returns (ghost r: set<object?>)
      requires StandsFor(v, repr) && out !in repr
      modifies out
      ensures fresh(r - {null}) && out.value.StandsFor(v, r) == old(StandsFor(v, repr))
    {
      var identifier' := CopyScalar(identifier);
      var version' := CopyScalar(version);
      out.value := Guardrail(identifier', version');
      r := {null, identifier', version'};
    }
  }

  ghost predicate IsGuardrail(p: Box?<Guardrail>, v: Option<GuardrailConfiguration>, repr: set<object?>)
    reads repr
  {
    && {null, p} <= repr && (p == null <==> v.None?)
    && (p != null ==> p.value.StandsFor(v.value, repr))
  }

  lemma GuardrailGrows(p: Box?<Guardrail>, v: Option<GuardrailConfiguration>, r: set<object?>, r': set<object?>)
    requires IsGuardrail(p, v, r) && r <= r'
    ensures IsGuardrail(p, v, r')
  {
    if p != null {
      p.value.Grows(v.value, r, r');
    }
  }

  method CopyGuardrail(p: Box?<Guardrail>, ghost v: Option<GuardrailConfiguration>, ghost repr: set<object?>)
    returns (q: Box?<Guardrail>, ghost r: set<object?>)
    requires IsGuardrail(p, v, repr)
    ensures fresh(r - {null}) && IsGuardrail(q, v, r)
  {
    q, r := null, {null};
    if p != null {
      q := new Box(Guardrail(null, null));
      r := p.value.DeepCopyInto(q, v.value, repr);
      q.value.Grows(v.value, r, r + {null, q});
      r := r + {null, q};
    }
  }

  datatype Reference = Reference(
    name: Box?<string>,
    namespace: Box?<string>)
  {
    ghost predicate StandsFor(v: ResourceReference, repr: set<object?>)
      reads repr
    {
      null in repr && IsScalar(name, v.name, repr) && IsScalar(namespace, v.namespace, repr)
    }

    lemma Grows(v: ResourceReference, r: set<object?>, r': set<object?>)
      requires StandsFor(v, r) && r <= r'
      ensures StandsFor(v, r')
    {
    }

    lemma HasOneValue(v: ResourceReference, u: ResourceReference, repr: set<object?>)
      requires StandsFor(v, repr) && StandsFor(u, repr)
      ensures v == u
    {
    }

    method DeepCopyInto(out: Box<Reference>, ghost v: ResourceReference, ghost repr: set<object?>)
      returns (ghost r: set<object?>)
      requires StandsFor(v, repr) && out !in repr
      modifies out
      ensures fresh(r - {null}) && out.value.StandsFor(v, r) == old(StandsFor(v, repr))
    {
      var name' := CopyScalar(name);
      var namespace' := CopyScalar(namespace);
      out.value := Reference(name', namespace');
      r := {null, name', namespace'};
    }
  }

  ghost predicate IsReference(p: Box?<Reference>, v: Option<ResourceReference>, repr: set<object?>)
    reads repr
  {
    && {null, p} <= repr && (p == null <==> v.None?)
    && (p != null ==> p.value.StandsFor(v.value, repr))
  }

  lemma ReferenceGrows(p: Box?<Reference>, v: Option<ResourceReference>, r: set<object?>, r': set<object?>)
    requires IsReference(p, v, r) && r <= r'
    ensures IsReference(p, v, r')
  {
    if p != null {
      p.value.Grows(v.value, r, r');
    }
  }

  method CopyReference(p: Box?<Reference>, ghost v: Option<ResourceReference>, ghost repr: set<object?>)
    returns (q: Box?<Reference>, ghost r: set<object?>)
    requires IsReference(p, v, repr)
    ensures fresh(r - {null}) && IsReference(q, v, r)
  {
    q, r := null, {null};
    if p != null {
      q := new Box(Reference(null, null));
      r := p.value.DeepCopyInto(q, v.value, repr);
      q.value.Grows(v.value, r, r + {null, q});
      r := r + {null, q};
    }
  }

  datatype Wrapper = Wrapper(from: Box?<Reference>)
  {
    ghost predicate StandsFor(v: ReferenceWrapper, repr: set<object?>)
      reads repr
    {
      IsReference(from, v.from, repr)
    }

    lemma Grows(v: ReferenceWrapper, r: set<object?>, r': set<object?>)
      requires StandsFor(v, r) && r <= r'
      ensures StandsFor(v, r')
    {
      ReferenceGrows(from, v.from, r, r');
    }

    lemma HasOneValue(v: ReferenceWrapper, u: ReferenceWrapper, repr: set<object?>)
      requires StandsFor(v, repr) && StandsFor(u, repr)
      ensures v == u
    {
      if from != null {
        from.value.HasOneValue(v.from.value, u.from.value, repr);
      }
    }

    method DeepCopyInto(out: Box<Wrapper>, ghost v: ReferenceWrapper, ghost repr: set<object?>)
      returns (ghost r: set<object?>)
      requires StandsFor(v, repr) && out !in repr
      modifies out
      ensures fresh(r - {null}) && out.value.StandsFor(v, r) == old(StandsFor(v, repr))
    {
      var from', cells := CopyReference(from, v.from, repr);
      out.value := Wrapper(from');
      r := cells;
    }
  }

  ghost predicate IsWrapper(p: Box?<Wrapper>, v: Option<ReferenceWrapper>, repr: set<object?>)
    reads repr
  {
    && {null, p} <= repr && (p == null <==> v.None?)
    && (p != null ==> p.value.StandsFor(v.value, repr))
  }

  lemma WrapperGrows(p: Box?<Wrapper>, v: Option<ReferenceWrapper>, r: set<object?>, r': set<object?>)
    requires IsWrapper(p, v, r) && r <= r'
    ensures IsWrapper(p, v, r')
  {
    if p != null {
      p.value.Grows(v.value, r, r');
    }
  }

  method CopyWrapper(p: Box?<Wrapper>, ghost v: Option<ReferenceWrapper>, ghost repr: set<object?>)
    returns (q: Box?<Wrapper>, ghost r: set<object?>)
    requires IsWrapper(p, v, repr)
    ensures fresh(r - {null}) && IsWrapper(q, v, r)
  {
    q, r := null, {null};
    if p != null {
      q := new Box(Wrapper(null));
      r := p.value.DeepCopyInto(q, v.value, repr);
      q.value.Grows(v.value, r, r + {null, q});
      r := r + {null, q};
    }
  }

  // ----- The tags -----

  type StringMap = Box?<map<string, Box?<string>>>

  ghost predicate AreTags(t: StringMap, v: SpecTags, repr: set<object?>)
    reads repr
  {
    && {null, t} <= repr && (t == null <==> v.None?)
    && (t != null ==>
          t.value.Keys == v.value.Keys && forall k :: k in t.value ==> IsScalar(t.value[k], v.value[k], repr))
  }

  method CopyTags(t: StringMap, ghost v: SpecTags, ghost repr: set<object?>)
    returns (u: StringMap, ghost r: set<object?>)
    requires AreTags(t, v, repr)
    ensures fresh(r - {null}) && AreTags(u, v, r)
  {
    if t == null {
      return null, {null};
    }
    var tags := t.value;
    var copies: map<string, Box?<string>> := map[];
    r := {null};
    var rest := tags.Keys;
    while rest != {}
      invariant fresh(r - {null}) && null in r
      invariant rest <= tags.Keys && copies.Keys == tags.Keys - rest
      invariant forall k :: k in copies ==> IsScalar(copies[k], v.value[k], r)
      decreases |rest|
    {
      var key :| key in rest;
      var cell := CopyScalar(tags[key]);
      copies := copies[key := cell];
      r := r + {cell};
      rest := rest - {key};
    }
    u := new Box(copies);
    r := r + {u};
  }

  // ----- The spec -----

  ghost predicate AreRecords(roleRef: Box?<Wrapper>, orchestration: Box?<Orchestration>, guardrail: Box?<Guardrail>,
                             v: AgentSpec, repr: set<object?>)
    reads repr
  {
    && IsWrapper(roleRef, v.agentResourceRoleRef, repr) && IsOrchestration(orchestration, v.customOrchestration, repr)
    && IsGuardrail(guardrail, v.guardrail, repr)
  }

  lemma RecordsGrow(roleRef: Box?<Wrapper>, orchestration: Box?<Orchestration>, guardrail: Box?<Guardrail>,
                    v: AgentSpec, r: set<object?>, r': set<object?>)
    requires r <= r'
    ensures AreRecords(roleRef, orchestration, guardrail, v, r) ==> AreRecords(roleRef, orchestration, guardrail, v, r')
  {
    if AreRecords(roleRef, orchestration, guardrail, v, r) {
      WrapperGrows(roleRef, v.agentResourceRoleRef, r, r');
      OrchestrationGrows(orchestration, v.customOrchestration, r, r');
      GuardrailGrows(guardrail, v.guardrail, r, r');
    }
  }

  method CopyRecords(roleRef: Box?<Wrapper>, orchestration: Box?<Orchestration>, guardrail: Box?<Guardrail>,
                     ghost v: AgentSpec, ghost repr: set<object?>)
    returns (roleRef': Box?<Wrapper>, orchestration': Box?<Orchestration>, guardrail': Box?<Guardrail>,
             ghost r: set<object?>)
    requires AreRecords(roleRef, orchestration, guardrail, v, repr)
    ensures fresh(r - {null})
    ensures AreRecords(roleRef', orchestration', guardrail', v, r)
            == AreRecords(roleRef, orchestration, guardrail, v, repr)
  {
    ghost var r1, r2, r3;
    roleRef', r1 := CopyWrapper(roleRef, v.agentResourceRoleRef, repr);
    orchestration', r2 := CopyOrchestration(orchestration, v.customOrchestration, repr);
    guardrail', r3 := CopyGuardrail(guardrail, v.guardrail, repr);
    r := r1 + r2 + r3;
    WrapperGrows(roleRef', v.agentResourceRoleRef, r1, r);
    OrchestrationGrows(orchestration', v.customOrchestration, r2, r);
    GuardrailGrows(guardrail', v.guardrail, r3, r);
  }

  ghost predicate AreParts(memory: Box?<Memory>, promptOverride: Box?<Override>, tags: StringMap,
                           v: AgentSpec, repr: set<object?>)
    reads repr
  {
    && IsMemory(memory, v.memory, repr) && IsOverride(promptOverride, v.promptOverride, repr)
    && AreTags(tags, v.tags, repr)
  }

  lemma PartsGrow(memory: Box?<Memory>, promptOverride: Box?<Override>, tags: StringMap,
                  v: AgentSpec, r: set<object?>, r': set<object?>)
    requires r <= r'
    ensures AreParts(memory, promptOverride, tags, v, r) ==> AreParts(memory, promptOverride, tags, v, r')
  {
    if AreParts(memory, promptOverride, tags, v, r) {
      MemoryGrows(memory, v.memory, r, r');
      OverrideGrows(promptOverride, v.promptOverride, r, r');
    }
  }

  method CopyParts(memory: Box?<Memory>, promptOverride: Box?<Override>, tags: StringMap,
                   ghost v: AgentSpec, ghost repr: set<object?>)
    returns (memory': Box?<Memory>, promptOverride': Box?<Override>, tags': StringMap, ghost r: set<object?>)
    requires AreParts(memory, promptOverride, tags, v, repr)
    ensures fresh(r - {null})
    ensures AreParts(memory', promptOverride', tags', v, r) == AreParts(memory, promptOverride, tags, v, repr)
  {
    ghost var r1, r2, r3;
    memory', r1 := CopyMemory(memory, v.memory, repr);
    promptOverride', r2 := CopyOverride(promptOverride, v.promptOverride, repr);
    tags', r3 := CopyTags(tags, v.tags, repr);
    r := r1 + r2 + r3;
    MemoryGrows(memory', v.memory, r1, r);
    OverrideGrows(promptOverride', v.promptOverride, r2, r);
  }

  datatype Spec = Spec(
    agentCollaboration: Box?<string>,
    agentName: Box?<string>,
    agentResourceRoleARN: Box?<string>,
    agentResourceRoleRef: Box?<Wrapper>,
    customOrchestration: Box?<Orchestration>,
    customerEncryptionKeyARN: Box?<string>,
    description: Box?<string>,
    foundationModel: Box?<string>,
    guardrail: Box?<Guardrail>,
    idleSessionTTLInSeconds: Box?<Int64>,
    instruction: Box?<string>,
    memory: Box?<Memory>,
    orchestrationType: Box?<string>,
    promptOverride: Box?<Override>,
    tags: StringMap)
  {
    ghost predicate ScalarsFor(v: AgentSpec, repr: set<object?>)
      reads repr
    {
      && IsScalar(agentCollaboration, v.agentCollaboration, repr) && IsScalar(agentName, v.agentName, repr)
      && IsScalar(agentResourceRoleARN, v.agentResourceRoleARN, repr)
      && IsScalar(customerEncryptionKeyARN, v.customerEncryptionKeyARN, repr)
      && IsScalar(description, v.description, repr) && IsScalar(foundationModel, v.foundationModel, repr)
      && IsScalar(idleSessionTTLInSeconds, v.idleSessionTTLInSeconds, repr)
      && IsScalar(instruction, v.instruction, repr) && IsScalar(orchestrationType, v.orchestrationType, repr)
    }

    ghost predicate PointersFor(v: AgentSpec, repr: set<object?>)
      reads repr
    {
      && AreRecords(agentResourceRoleRef, customOrchestration, guardrail, v, repr)
      && AreParts(memory, promptOverride, tags, v, repr)
    }

    ghost predicate StandsFor(v: AgentSpec, repr: set<object?>)
      reads repr
    {
      ScalarsFor(v, repr) && PointersFor(v, repr)
    }

    method CopyScalars(ghost v: AgentSpec, ghost repr: set<object?>) returns (res: Spec, ghost r: set<object?>)
      requires ScalarsFor(v, repr) == true
      ensures fresh(r - {null}) && res.ScalarsFor(v, r) == ScalarsFor(v, repr)
      ensures res == Spec(
                       res.agentCollaboration, res.agentName, res.agentResourceRoleARN, agentResourceRoleRef,
                       customOrchestration, res.customerEncryptionKeyARN, res.description, res.foundationModel,
                       guardrail, res.idleSessionTTLInSeconds, res.instruction, memory, res.orchestrationType,
                       promptOverride, tags)
    {
      var agentCollaboration', agentName', agentResourceRoleARN', customerEncryptionKeyARN', r1 :=
        CopyFour(agentCollaboration, agentName, agentResourceRoleARN, customerEncryptionKeyARN);
      var description', foundationModel', instruction', orchestrationType', r2 :=
        CopyFour(description, foundationModel, instruction, orchestrationType);
      var idleSessionTTLInSeconds' := CopyScalar(idleSessionTTLInSeconds);
      res := Spec(agentCollaboration', agentName', agentResourceRoleARN', agentResourceRoleRef, customOrchestration,
                  customerEncryptionKeyARN', description', foundationModel', guardrail, idleSessionTTLInSeconds',
                  instruction', memory, orchestrationType', promptOverride, tags);
      r := r1 + r2 + {idleSessionTTLInSeconds'};
    }

    lemma PointersGrow(v: AgentSpec, r: set<object?>, r': set<object?>)
      requires r <= r'
      ensures PointersFor(v, r) ==> PointersFor(v, r')
    {
      RecordsGrow(agentResourceRoleRef, customOrchestration, guardrail, v, r, r');
      PartsGrow(memory, promptOverride, tags, v, r, r');
    }

    lemma Grows(v: AgentSpec, r: set<object?>, r': set<object?>)
      requires r <= r'
      ensures StandsFor(v, r) ==> StandsFor(v, r')
    {
      PointersGrow(v, r, r');
    }

    lemma RecordsHaveOneValue(v: AgentSpec, u: AgentSpec, repr: set<object?>)
      requires AreRecords(agentResourceRoleRef, customOrchestration, guardrail, v, repr) == true
      requires AreRecords(agentResourceRoleRef, customOrchestration, guardrail, u, repr) == true
      ensures v.agentResourceRoleRef == u.agentResourceRoleRef && v.customOrchestration == u.customOrchestration
      ensures v.guardrail == u.guardrail
    {
      if agentResourceRoleRef != null {
        agentResourceRoleRef.value.HasOneValue(v.agentResourceRoleRef.value, u.agentResourceRoleRef.value, repr);
      }
      if customOrchestration != null {
        customOrchestration.value.HasOneValue(v.customOrchestration.value, u.customOrchestration.value, repr);
      }
      if guardrail != null {
        guardrail.value.HasOneValue(v.guardrail.value, u.guardrail.value, repr);
      }
    }

    lemma PartsHaveOneValue(v: AgentSpec, u: AgentSpec, repr: set<object?>)
      requires AreParts(memory, promptOverride, tags, v, repr) == true
      requires AreParts(memory, promptOverride, tags, u, repr) == true
      ensures v.memory == u.memory && v.promptOverride == u.promptOverride && v.tags == u.tags
    {
      if memory != null {
        memory.value.HasOneValue(v.memory.value, u.memory.value, repr);
      }
      if promptOverride != null {
        promptOverride.value.HasOneValue(v.promptOverride.value, u.promptOverride.value, repr);
      }
      if tags != null {
        assert v.tags.value == u.tags.value;
      }
    }

    lemma HasOneValue(v: AgentSpec, u: AgentSpec, repr: set<object?>)
      requires StandsFor(v, repr) == StandsFor(u, repr) == true
      ensures v == u
    {
      RecordsHaveOneValue(v, u, repr);
      PartsHaveOneValue(v, u, repr);
    }

    method CopyPointers(ghost v: AgentSpec, ghost repr: set<object?>) returns (res: Spec, ghost r: set<object?>)
      requires PointersFor(v, repr) == true
      ensures fresh(r - {null}) && res.PointersFor(v, r) == PointersFor(v, repr)
      ensures res == this.(agentResourceRoleRef := res.agentResourceRoleRef,
                           customOrchestration := res.customOrchestration, guardrail := res.guardrail,
                           memory := res.memory, promptOverride := res.promptOverride, tags := res.tags)
    {
      var agentResourceRoleRef', customOrchestration', guardrail', r1 :=
        CopyRecords(agentResourceRoleRef, customOrchestration, guardrail, v, repr);
      var memory', promptOverride', tags', r2 := CopyParts(memory, promptOverride, tags, v, repr);
      res := this.(agentResourceRoleRef := agentResourceRoleRef', customOrchestration := customOrchestration',
                   guardrail := guardrail', memory := memory', promptOverride := promptOverride', tags := tags');
      r := r1 + r2;
      RecordsGrow(agentResourceRoleRef', customOrchestration', guardrail', v, r1, r);
      PartsGrow(memory', promptOverride', tags', v, r2, r);
    }

    method CopyFields(ghost v: AgentSpec, ghost repr: set<object?>) returns (res: Spec, ghost r: set<object?>)
      requires StandsFor(v, repr) == true
      ensures fresh(r - {null}) && res.StandsFor(v, r) == StandsFor(v, repr)
    {
      var pointers, r2 := CopyPointers(v, repr);
      var scalars, r1 := pointers.CopyScalars(v, repr);
      res := scalars;
      r := r1 + r2;
      res.PointersGrow(v, r2, r);
    }

    method DeepCopyInto(out: Box<Spec>, ghost v: AgentSpec, ghost repr: set<object?>) returns (ghost r: set<object?>)
      requires StandsFor(v, repr) == true && out !in repr
      modifies out
      ensures fresh(r - {null}) && out.value.StandsFor(v, r) == old(StandsFor(v, repr))
    {
      var res, added := CopyFields(v, repr);
      out.value := res;
      r := added;
    }
  }
}
