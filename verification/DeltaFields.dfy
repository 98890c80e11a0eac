/** The delta path by path: which fields of the two resources decide whether a path is reported, and in which order. */
module DeltaFields {
  import opened Api
  import opened Delta
  import Tags

  // ----- One iff per path -----

  lemma NamePaths(key: SliceKey, a: Agent, b: Agent)
    ensures var paths := DeltaPaths(key, Some(a), Some(b));
            && (AtAgentCollaboration in paths <==> a.spec.agentCollaboration != b.spec.agentCollaboration)
            && (AtAgentName in paths <==> a.spec.agentName != b.spec.agentName)
  {
    DeltaIsExact(key, a, b, AtAgentCollaboration);
    DeltaIsExact(key, a, b, AtAgentName);
  }

  lemma RolePaths(key: SliceKey, a: Agent, b: Agent)
    ensures var paths := DeltaPaths(key, Some(a), Some(b));
            && (AtRoleARN in paths <==> a.spec.agentResourceRoleARN != b.spec.agentResourceRoleARN)
            && (AtRoleRef in paths <==> a.spec.agentResourceRoleRef != b.spec.agentResourceRoleRef)
  {
    DeltaIsExact(key, a, b, AtRoleARN);
    DeltaIsExact(key, a, b, AtRoleRef);
  }

  lemma ModelPaths(key: SliceKey, a: Agent, b: Agent)
    ensures var paths := DeltaPaths(key, Some(a), Some(b));
            && (AtEncryptionKey in paths <==> a.spec.customerEncryptionKeyARN != b.spec.customerEncryptionKeyARN)
            && (AtDescription in paths <==> a.spec.description != b.spec.description)
            && (AtFoundationModel in paths <==> a.spec.foundationModel != b.spec.foundationModel)
  {
    DeltaIsExact(key, a, b, AtEncryptionKey);
    DeltaIsExact(key, a, b, AtDescription);
    DeltaIsExact(key, a, b, AtFoundationModel);
  }

  lemma SessionPaths(key: SliceKey, a: Agent, b: Agent)
    ensures var paths := DeltaPaths(key, Some(a), Some(b));
            && (AtIdleSessionTTL in paths <==> a.spec.idleSessionTTLInSeconds != b.spec.idleSessionTTLInSeconds)
            && (AtInstruction in paths <==> a.spec.instruction != b.spec.instruction)
            && (AtOrchestrationType in paths <==> a.spec.orchestrationType != b.spec.orchestrationType)
  {
    DeltaIsExact(key, a, b, AtIdleSessionTTL);
    DeltaIsExact(key, a, b, AtInstruction);
    DeltaIsExact(key, a, b, AtOrchestrationType);
  }

  lemma GuardrailPaths(key: SliceKey, a: Agent, b: Agent)
    ensures var paths := DeltaPaths(key, Some(a), Some(b));
            var x, y := a.spec.guardrail, b.spec.guardrail;
            && (AtGuardrail in paths <==> x.Some? != y.Some?)
            && (AtGuardrailIdentifier in paths <==> x.Some? && y.Some? && x.value.identifier != y.value.identifier)
            && (AtGuardrailVersion in paths <==> x.Some? && y.Some? && x.value.version != y.value.version)
  {
    DeltaIsExact(key, a, b, AtGuardrail);
    DeltaIsExact(key, a, b, AtGuardrailIdentifier);
    DeltaIsExact(key, a, b, AtGuardrailVersion);
  }

  lemma OrchestrationPaths(key: SliceKey, a: Agent, b: Agent)
    ensures var paths := DeltaPaths(key, Some(a), Some(b));
            var x, y := a.spec.customOrchestration, b.spec.customOrchestration;
            && (AtCustomOrchestration in paths <==> x.Some? != y.Some?)
            && (AtExecutor in paths <==> x.Some? && y.Some? && x.value.executor.Some? != y.value.executor.Some?)
            && (AtLambda in paths
                <==> && x.Some? && y.Some? && x.value.executor.Some? && y.value.executor.Some?
                     && x.value.executor.value.lambda != y.value.executor.value.lambda)
  {
    DeltaIsExact(key, a, b, AtCustomOrchestration);
    DeltaIsExact(key, a, b, AtExecutor);
    DeltaIsExact(key, a, b, AtLambda);
  }

  /** A nil list of memory types is compared as an empty one. */
  function TypesOf(m: MemoryConfiguration): seq<Option<string>> {
    if m.enabledMemoryTypes.Some? then m.enabledMemoryTypes.value else []
  }

  lemma MemoryPaths(key: SliceKey, a: Agent, b: Agent)
    ensures var paths := DeltaPaths(key, Some(a), Some(b));
            var x, y := a.spec.memory, b.spec.memory;
            && (AtMemory in paths <==> x.Some? != y.Some?)
            && (AtStorageDays in paths <==> x.Some? && y.Some? && x.value.storageDays != y.value.storageDays)
  {
    DeltaIsExact(key, a, b, AtMemory);
    DeltaIsExact(key, a, b, AtStorageDays);
  }

  lemma MemoryTypesPath(key: SliceKey, a: Agent, b: Agent)
    ensures var x, y := a.spec.memory, b.spec.memory;
            AtEnabledMemoryTypes in DeltaPaths(key, Some(a), Some(b))
            <==> x.Some? && y.Some? && key(TypesOf(x.value)) != key(TypesOf(y.value))
  {
    DeltaIsExact(key, a, b, AtEnabledMemoryTypes);
  }

  lemma SessionSummaryPaths(key: SliceKey, a: Agent, b: Agent)
    ensures var paths := DeltaPaths(key, Some(a), Some(b));
            var x, y := a.spec.memory, b.spec.memory;
            && (AtSessionSummary in paths
                <==> x.Some? && y.Some? && x.value.sessionSummary.Some? != y.value.sessionSummary.Some?)
            && (AtMaxRecentSessions in paths
                <==> && x.Some? && y.Some? && x.value.sessionSummary.Some? && y.value.sessionSummary.Some?
                     && x.value.sessionSummary.value.maxRecentSessions
                        != y.value.sessionSummary.value.maxRecentSessions)
  {
    DeltaIsExact(key, a, b, AtSessionSummary);
    DeltaIsExact(key, a, b, AtMaxRecentSessions);
  }

  /** The prompts that are neither nil nor in the mode "DEFAULT", from the front. */
  function Compared(ps: seq<Option<PromptConfiguration>>): seq<PromptConfiguration> {
    if ps == [] then []
    else if ps[0].None? || ps[0].value.promptCreationMode == Some("DEFAULT") then Compared(ps[1..])
    else [ps[0].value] + Compared(ps[1..])
  }

  function Values(ps: seq<Option<PromptConfiguration>>): seq<PromptConfiguration>
    requires forall i :: 0 <= i < |ps| ==> ps[i].Some?
  {
    seq(|ps|, i requires 0 <= i < |ps| => ps[i].value)
  }

  lemma {:induction false} LiveFromFront(p: Option<PromptConfiguration>, ps: seq<Option<PromptConfiguration>>)
    ensures Live([p] + ps) == (if IsLive(p) then [p] else []) + Live(ps)
  {
    if ps == [] {
      assert [p] + ps == [p] && [p][..0] == [];
      assert Live([p]) == Live([]) + if IsLive(p) then [p] else [];
    } else {
      var n := |ps| - 1;
      assert ([p] + ps)[..|ps|] == [p] + ps[..n];
      LiveFromFront(p, ps[..n]);
    }
  }

  /** The filter loop of the comparison keeps these prompts, in order. */
  lemma {:induction false} LiveAreCompared(ps: seq<Option<PromptConfiguration>>)
    ensures Values(Live(ps)) == Compared(ps)
  {
    if ps != [] {
      assert ps == [ps[0]] + ps[1..];
      LiveFromFront(ps[0], ps[1..]);
      LiveAreCompared(ps[1..]);
    }
  }

  lemma SameLiveIff(ps: seq<Option<PromptConfiguration>>, qs: seq<Option<PromptConfiguration>>)
    ensures Live(ps) == Live(qs) <==> Compared(ps) == Compared(qs)
  {
    LiveAreCompared(ps);
    LiveAreCompared(qs);
    var x, y := Live(ps), Live(qs);
    if Values(x) == Values(y) {
      assert |x| == |Values(x)| == |y|;
      assert forall i :: 0 <= i < |x| ==> x[i] == Some(Values(x)[i]) && y[i] == Some(Values(y)[i]);
      assert x == y;
    }
  }

  lemma PromptPaths(key: SliceKey, a: Agent, b: Agent)
    ensures var paths := DeltaPaths(key, Some(a), Some(b));
            var x, y := a.spec.promptOverride, b.spec.promptOverride;
            && (AtPromptOverride in paths <==> x.Some? != y.Some?)
            && (AtOverrideLambda in paths <==> x.Some? && y.Some? && x.value.overrideLambda != y.value.overrideLambda)
            && (AtPromptConfigurations in paths
                <==> x.Some? && y.Some? && Compared(PromptsOf(x.value)) != Compared(PromptsOf(y.value)))
  {
    DeltaIsExact(key, a, b, AtPromptOverride);
    DeltaIsExact(key, a, b, AtOverrideLambda);
    DeltaIsExact(key, a, b, AtPromptConfigurations);
    SameLiveIff(Prompts(a.spec), Prompts(b.spec));
  }

  function PromptsOf(o: PromptOverrideConfiguration): seq<Option<PromptConfiguration>> {
    if o.promptConfigurations.Some? then o.promptConfigurations.value else []
  }

  predicate SameTagAt(x: SpecTags, y: SpecTags, k: string) {
    && (Tags.Has(x, k) <==> Tags.Has(y, k))
    && (Tags.Has(x, k) && Tags.Has(y, k) ==> Tags.ValueOf(x, k) == Tags.ValueOf(y, k))
  }

  lemma SameNormalizedIff(x: SpecTags, y: SpecTags)
    ensures Tags.Normalize(x) == Tags.Normalize(y) <==> forall k :: SameTagAt(x, y, k)
  {
    var m, n := Tags.Normalize(x), Tags.Normalize(y);
    assert forall k :: SameTagAt(x, y, k) <==> (k in m <==> k in n) && (k in m ==> m[k] == n[k]);
    if forall k :: SameTagAt(x, y, k) {
      assert m == n;
    }
  }

  /** A nil value of a tag is compared as "". */
  lemma TagsPath(key: SliceKey, a: Agent, b: Agent)
    ensures AtTags in DeltaPaths(key, Some(a), Some(b)) <==> exists k :: !SameTagAt(a.spec.tags, b.spec.tags, k)
  {
    DeltaIsExact(key, a, b, AtTags);
    SameNormalizedIff(a.spec.tags, b.spec.tags);
  }

  /** The virtual path looks at the latest resource alone, and a missing resource leaves nothing else to say. */
  lemma OtherPaths(key: SliceKey, a: Agent, b: Agent)
    ensures AtAgentStatus in DeltaPaths(key, Some(a), Some(b))
            <==> b.status.agentStatus.Some? && b.status.agentStatus != Some("PREPARED")
    ensures Nowhere !in DeltaPaths(key, Some(a), Some(b))
    ensures DeltaPaths(key, Some(a), None) == DeltaPaths(key, None, Some(b)) == [Nowhere]
    ensures DeltaPaths(key, None, None) == []
  {
    DeltaIsExact(key, a, b, AtAgentStatus);
    DeltaIsExact(key, a, b, Nowhere);
  }

  // ----- The order -----

  /** The place of a path in the order in which delta.go looks at the fields. */
  function Place(p: Path): nat {
    if p == AtAgentStatus then 0 else 1 + Rank(p)
  }

  ghost predicate IsInOrder(ps: seq<Path>) {
    forall i, j :: 0 <= i < j < |ps| ==> Place(ps[i]) < Place(ps[j])
  }

  lemma {:induction false} CollectIsInOrder(key: SliceKey, a: AgentSpec, b: AgentSpec, found: seq<Path>, n: nat)
    requires n <= |SPEC_PATHS| && IsInOrder(found)
    requires forall i :: 0 <= i < |found| ==> Place(found[i]) <= n
    ensures IsInOrder(Collect(key, a, b, found, SPEC_PATHS[n..]))
    decreases |SPEC_PATHS| - n
  {
    if n < |SPEC_PATHS| {
      var p := SPEC_PATHS[n];
      RankIsIndex(n);
      assert SPEC_PATHS[n..][0] == p && SPEC_PATHS[n..][1..] == SPEC_PATHS[n + 1..];
      assert p != AtAgentStatus by {
        SpecPathsAreAll(p);
      }
      CollectIsInOrder(key, a, b, AddIf(found, Differs(key, a, b, p), p), n + 1);
    }
  }

  /** Paths are reported in the order of the fields, the status first. */
  lemma DeltaIsInOrder(key: SliceKey, a: Option<Agent>, b: Option<Agent>)
    ensures IsInOrder(DeltaPaths(key, a, b))
  {
    if a.Some? && b.Some? {
      assert SPEC_PATHS[0..] == SPEC_PATHS;
      CollectIsInOrder(key, a.value.spec, b.value.spec, StatusPaths(b.value.status.agentStatus), 0);
    }
  }
}
