/** The create request builder and the response decoder of pkg/resource/agent/sdk.go, field by field. The source has
    the decoder three times, in one and the same text, which is written once here. */
module Payloads {
  import opened Api
  import opened Codec
  import opened Resources
  import Sdk
  import Tags

  // ----- Builders -----

  function CreatePayload(round: real -> real, s: AgentSpec): Result<Sdk.CreateAgentInput>
    requires NoNilElements(s)
  {
    var f :- EncodeSpec(round, s);
    Ok(Sdk.CreateAgentInput(f, if s.tags.Some? then Some(Tags.Normalize(s.tags)) else None))
  }

  function UpdatePayload(round: real -> real, a: Agent): Result<Sdk.UpdateAgentInput>
    requires NoNilElements(a.spec)
  {
    var f :- EncodeSpec(round, a.spec);
    Ok(Sdk.UpdateAgentInput(a.status.agentID, f))
  }

  /** Both payloads exist for exactly the specs all of whose numbers fit. */
  lemma AcceptedPayloadsIff(round: real -> real, a: Agent)
    requires NoNilElements(a.spec)
    ensures CreatePayload(round, a.spec).Ok? <==> AllFit(Numbers(a.spec))
    ensures UpdatePayload(round, a).Ok? <==> AllFit(Numbers(a.spec))
  {
    AcceptedIffAllNumbersFit(round, a.spec);
  }

  method BuildInference(round: real -> real, c: InferenceConfiguration) returns (r: Result<Sdk.InferenceConfiguration>)
    ensures r == EncodeInference(round, c)
  {
    var res := Sdk.InferenceConfiguration(None, None, None, None, None);
    if c.maximumLength.Some? {
      var n := c.maximumLength.value;
      if n > MAX_INT32 || n < MIN_INT32 {
        return Err(OutOfRange(MaximumLength));
      }
      res := res.(maximumLength := Some(n));
    }
    if c.stopSequences.Some? {
      res := res.(stopSequences := ToStringSlice(c.stopSequences));
    }
    if c.temperature.Some? {
      var x := c.temperature.value;
      if x > MAX_FLOAT32 || x < -MAX_FLOAT32
         || (x < SMALLEST_FLOAT32 && !(x <= 0.0)) || (x > -SMALLEST_FLOAT32 && !(x >= 0.0)) {
        return Err(OutOfRange(Temperature));
      }
      res := res.(temperature := Some(round(x)));
    }
    if c.topK.Some? {
      var n := c.topK.value;
      if n > MAX_INT32 || n < MIN_INT32 {
        return Err(OutOfRange(TopK));
      }
      res := res.(topK := Some(n));
    }
    if c.topP.Some? {
      var x := c.topP.value;
      if x > MAX_FLOAT32 || x < -MAX_FLOAT32
         || (x < SMALLEST_FLOAT32 && !(x <= 0.0)) || (x > -SMALLEST_FLOAT32 && !(x >= 0.0)) {
        return Err(OutOfRange(TopP));
      }
      res := res.(topP := Some(round(x)));
    }
    r := Ok(res);
  }

  method BuildPrompt(round: real -> real, p: PromptConfiguration) returns (r: Result<Sdk.PromptConfiguration>)
    ensures r == EncodePrompt(round, p)
  {
    var res := Sdk.PromptConfiguration(None, None, None, "", "", "", "");
    if p.basePromptTemplate.Some? {
      res := res.(basePromptTemplate := p.basePromptTemplate);
    }
    if p.foundationModel.Some? {
      res := res.(foundationModel := p.foundationModel);
    }
    if p.inference.Some? {
      var c := BuildInference(round, p.inference.value);
      if c.Err? {
        return Err(c.error);
      }
      res := res.(inference := Some(c.value));
    }
    if p.parserMode.Some? {
      res := res.(parserMode := p.parserMode.value);
    }
    if p.promptCreationMode.Some? {
      res := res.(promptCreationMode := p.promptCreationMode.value);
    }
    if p.promptState.Some? {
      res := res.(promptState := p.promptState.value);
    }
    if p.promptType.Some? {
      res := res.(promptType := p.promptType.value);
    }
    r := Ok(res);
  }

  method BuildPrompts(round: real -> real, ps: seq<Option<PromptConfiguration>>)
    returns (r: Result<seq<Sdk.PromptConfiguration>>)
    requires forall i :: 0 <= i < |ps| ==> ps[i].Some?
    ensures r == EncodePrompts(round, ps)
  {
    var xs: seq<Sdk.PromptConfiguration> := [];
    for i := 0 to |ps|
      invariant EncodePrompts(round, ps[..i]) == Ok(xs)
    {
      assert ps[..i + 1][..i] == ps[..i];
      var x := BuildPrompt(round, ps[i].value);
      if x.Err? {
        EncodePromptsStopsAt(round, ps, i);
        return Err(x.error);
      }
      xs := xs + [x.value];
    }
    assert ps[..|ps|] == ps;
    r := Ok(xs);
  }

  /** The first prompt that does not fit decides the error. */
  lemma {:induction false} EncodePromptsStopsAt(round: real -> real, ps: seq<Option<PromptConfiguration>>, i: nat)
    requires forall j :: 0 <= j < |ps| ==> ps[j].Some?
    requires i < |ps| && EncodePrompts(round, ps[..i]).Ok? && EncodePrompt(round, ps[i].value).Err?
    ensures EncodePrompts(round, ps) == Err(EncodePrompt(round, ps[i].value).error)
    decreases |ps|
  {
    var n := |ps| - 1;
    if i < n {
      assert ps[..n][..i] == ps[..i];
      EncodePromptsStopsAt(round, ps[..n], i);
    }
  }

  method BuildMemoryTypes(types: seq<Option<string>>) returns (xs: seq<string>)
    requires forall i :: 0 <= i < |types| ==> types[i].Some?
    ensures Some(xs) == ToStringSlice(Some(types))
  {
    xs := [];
    for i := 0 to |types|
      invariant |xs| == i && forall j :: 0 <= j < i ==> xs[j] == types[j].value
    {
      xs := xs + [types[i].value];
    }
    assert xs == ToStringSlice(Some(types)).value;
  }

  method BuildMemory(m: MemoryConfiguration) returns (r: Result<Sdk.MemoryConfiguration>)
    requires m.enabledMemoryTypes.Some? ==>
               forall i :: 0 <= i < |m.enabledMemoryTypes.value| ==> m.enabledMemoryTypes.value[i].Some?
    ensures r == EncodeMemory(m)
  {
    var res := Sdk.MemoryConfiguration(None, None, None);
    if m.enabledMemoryTypes.Some? {
      var types := BuildMemoryTypes(m.enabledMemoryTypes.value);
      res := res.(enabledMemoryTypes := Some(types));
    }
    if m.sessionSummary.Some? {
      var summary := Sdk.SessionSummaryConfiguration(None);
      if m.sessionSummary.value.maxRecentSessions.Some? {
        var n := m.sessionSummary.value.maxRecentSessions.value;
        if n > MAX_INT32 || n < MIN_INT32 {
          return Err(OutOfRange(MaxRecentSessions));
        }
        summary := summary.(maxRecentSessions := Some(n));
      }
      res := res.(sessionSummary := Some(summary));
    }
    if m.storageDays.Some? {
      var n := m.storageDays.value;
      if n > MAX_INT32 || n < MIN_INT32 {
        return Err(OutOfRange(StorageDays));
      }
      res := res.(storageDays := Some(n));
    }
    r := Ok(res);
  }

  method BuildOverride(round: real -> real, o: PromptOverrideConfiguration)
    returns (r: Result<Sdk.PromptOverrideConfiguration>)
    requires o.promptConfigurations.Some? ==>
               forall i :: 0 <= i < |o.promptConfigurations.value| ==> o.promptConfigurations.value[i].Some?
    ensures r == EncodeOverride(round, o)
  {
    var res := Sdk.PromptOverrideConfiguration(None, None);
    if o.overrideLambda.Some? {
      res := res.(overrideLambda := o.overrideLambda);
    }
    if o.promptConfigurations.Some? {
      var xs := BuildPrompts(round, o.promptConfigurations.value);
      if xs.Err? {
        return Err(xs.error);
      }
      res := res.(promptConfigurations := Some(xs.value));
    }
    r := Ok(res);
  }

  method BuildOrchestration(c: CustomOrchestration) returns (res: Sdk.CustomOrchestration)
    ensures res == EncodeOrchestration(c)
  {
    res := Sdk.CustomOrchestration(None);
    if c.executor.Some? {
      var executor: Option<Sdk.Executor> := None;
      if c.executor.value.lambda.Some? {
        executor := Some(Sdk.MemberLambda(c.executor.value.lambda.value));
      }
      res := res.(executor := executor);
    }
  }

  method BuildGuardrail(g: GuardrailConfiguration) returns (res: GuardrailConfiguration)
    ensures res == g
  {
    res := GuardrailConfiguration(None, None);
    if g.identifier.Some? {
      res := res.(identifier := g.identifier);
    }
    if g.version.Some? {
      res := res.(version := g.version);
    }
  }

  const NO_FIELDS := Sdk.Fields("", None, None, None, None, None, None, None, None, None, None, "", None)

  function FirstFields(s: AgentSpec): Sdk.Fields {
    Sdk.Fields(
      EncodeEnum(s.agentCollaboration), s.agentName, s.agentResourceRoleARN,
      if s.customOrchestration.Some? then Some(EncodeOrchestration(s.customOrchestration.value)) else None,
      s.customerEncryptionKeyARN, s.description, s.foundationModel, s.guardrail, None, None, None, "", None)
  }

  /** The fields up to the guardrail, none of which can be refused. */
  method BuildFirstFields(s: AgentSpec) returns (res: Sdk.Fields)
    ensures res == FirstFields(s)
  {
    res := NO_FIELDS;
    if s.agentCollaboration.Some? {
      res := res.(agentCollaboration := s.agentCollaboration.value);
    }
    if s.agentName.Some? {
      res := res.(agentName := s.agentName);
    }
    if s.agentResourceRoleARN.Some? {
      res := res.(agentResourceRoleARN := s.agentResourceRoleARN);
    }
    if s.customOrchestration.Some? {
      var c := BuildOrchestration(s.customOrchestration.value);
      res := res.(customOrchestration := Some(c));
    }
    if s.customerEncryptionKeyARN.Some? {
      res := res.(customerEncryptionKeyARN := s.customerEncryptionKeyARN);
    }
    if s.description.Some? {
      res := res.(description := s.description);
    }
    if s.foundationModel.Some? {
      res := res.(foundationModel := s.foundationModel);
    }
    if s.guardrail.Some? {
      var g := BuildGuardrail(s.guardrail.value);
      res := res.(guardrail := Some(g));
    }
  }

  method BuildFields(round: real -> real, s: AgentSpec) returns (r: Result<Sdk.Fields>)
    requires NoNilElements(s)
    ensures r == EncodeSpec(round, s)
  {
    var res := BuildFirstFields(s);
    if s.idleSessionTTLInSeconds.Some? {
      var n := s.idleSessionTTLInSeconds.value;
      if n > MAX_INT32 || n < MIN_INT32 {
        return Err(OutOfRange(IdleSessionTTLInSeconds));
      }
      res := res.(idleSessionTTLInSeconds := Some(n));
    }
    if s.instruction.Some? {
      res := res.(instruction := s.instruction);
    }
    if s.memory.Some? {
      assert s.memory.value.enabledMemoryTypes.Some? ==> MemoryTypes(s) == s.memory.value.enabledMemoryTypes.value;
      var m := BuildMemory(s.memory.value);
      if m.Err? {
        return Err(m.error);
      }
      res := res.(memory := Some(m.value));
    }
    if s.orchestrationType.Some? {
      res := res.(orchestrationType := s.orchestrationType.value);
    }
    if s.promptOverride.Some? {
      assert s.promptOverride.value.promptConfigurations.Some? ==>
               Prompts(s) == s.promptOverride.value.promptConfigurations.value;
      var o := BuildOverride(round, s.promptOverride.value);
      if o.Err? {
        return Err(o.error);
      }
      res := res.(promptOverride := Some(o.value));
    }
    r := Ok(res);
  }

  method NewCreateRequestPayload(round: real -> real, r: Resource) returns (res: Result<Sdk.CreateAgentInput>)
    requires NoNilElements(r.spec)
    ensures res == CreatePayload(round, r.spec)
  {
    var fields := BuildFields(round, r.spec);
    if fields.Err? {
      return Err(fields.error);
    }
    var input := Sdk.CreateAgentInput(fields.value, None);
    if r.spec.tags.Some? {
      var tags := Tags.ToACKTags(r.spec.tags);
      input := input.(tags := Some(tags.m));
    }
    res := Ok(input);
  }

  // ----- The decoder -----

  function DecodeDetails(d: Sdk.Details): Details {
    Details(d.agentVersion, d.clientToken, d.createdAt, StringSlice(d.failureReasons), d.preparedAt,
            StringSlice(d.recommendedActions), d.updatedAt)
  }

  /** The resource after a response: a missing ARN keeps the old one, every other field is replaced. */
  function Received(a: Agent, resp: Sdk.Agent): Agent {
    var m := if a.status.metadata.Some? then a.status.metadata.value else ResourceMetadata(None, None, None, None);
    Agent(a.namespace, DecodeFields(resp.fields, a.spec),
          AgentStatus(Some(m.(arn := if resp.agentArn.Some? then resp.agentArn else m.arn)),
                      a.status.conditions, resp.agentId, DecodeEnum(resp.agentStatus), DecodeDetails(resp.details)))
  }

  method ReadInference(c: Sdk.InferenceConfiguration) returns (res: InferenceConfiguration)
    ensures res == DecodeInference(c)
  {
    res := InferenceConfiguration(None, None, None, None, None);
    if c.maximumLength.Some? {
      res := res.(maximumLength := Some(c.maximumLength.value));
    }
    if c.stopSequences.Some? {
      res := res.(stopSequences := StringSlice(c.stopSequences));
    }
    if c.temperature.Some? {
      res := res.(temperature := Some(c.temperature.value));
    }
    if c.topK.Some? {
      res := res.(topK := Some(c.topK.value));
    }
    if c.topP.Some? {
      res := res.(topP := Some(c.topP.value));
    }
  }

  method ReadPrompt(p: Sdk.PromptConfiguration) returns (res: PromptConfiguration)
    ensures res == DecodePrompt(p)
  {
    res := PromptConfiguration(None, None, None, None, None, None, None);
    if p.basePromptTemplate.Some? {
      res := res.(basePromptTemplate := p.basePromptTemplate);
    }
    if p.foundationModel.Some? {
      res := res.(foundationModel := p.foundationModel);
    }
    if p.inference.Some? {
      var c := ReadInference(p.inference.value);
      res := res.(inference := Some(c));
    }
    if p.parserMode != "" {
      res := res.(parserMode := Some(p.parserMode));
    }
    if p.promptCreationMode != "" {
      res := res.(promptCreationMode := Some(p.promptCreationMode));
    }
    if p.promptState != "" {
      res := res.(promptState := Some(p.promptState));
    }
    if p.promptType != "" {
      res := res.(promptType := Some(p.promptType));
    }
  }

  method ReadPrompts(ps: seq<Sdk.PromptConfiguration>) returns (xs: seq<Option<PromptConfiguration>>)
    ensures xs == DecodePrompts(ps)
  {
    xs := [];
    for i := 0 to |ps|
      invariant |xs| == i && forall j :: 0 <= j < i ==> xs[j] == Some(DecodePrompt(ps[j]))
    {
      var x := ReadPrompt(ps[i]);
      xs := xs + [Some(x)];
    }
  }

  method ReadMemory(m: Sdk.MemoryConfiguration) returns (res: MemoryConfiguration)
    ensures res == DecodeMemory(m)
  {
    res := MemoryConfiguration(None, None, None);
    if m.enabledMemoryTypes.Some? {
      var types: seq<Option<string>> := [];
      for i := 0 to |m.enabledMemoryTypes.value|
        invariant |types| == i && forall j :: 0 <= j < i ==> types[j] == Some(m.enabledMemoryTypes.value[j])
      {
        types := types + [Some(m.enabledMemoryTypes.value[i])];
      }
      assert types == StringSlice(m.enabledMemoryTypes).value;
      res := res.(enabledMemoryTypes := Some(types));
    }
    if m.sessionSummary.Some? {
      var summary := SessionSummaryConfiguration(None);
      if m.sessionSummary.value.maxRecentSessions.Some? {
        summary := summary.(maxRecentSessions := Some(m.sessionSummary.value.maxRecentSessions.value));
      }
      res := res.(sessionSummary := Some(summary));
    }
    if m.storageDays.Some? {
      res := res.(storageDays := Some(m.storageDays.value));
    }
  }

  method ReadOrchestration(c: Sdk.CustomOrchestration) returns (res: CustomOrchestration)
    ensures res == DecodeOrchestration(c)
  {
    res := CustomOrchestration(None);
    if c.executor.Some? {
      var executor := OrchestrationExecutor(None);
      match c.executor.value {
        case MemberLambda(v) => executor := executor.(lambda := Some(v));
        case UnknownMember =>
      }
      res := res.(executor := Some(executor));
    }
  }

  method ReadOverride(o: Sdk.PromptOverrideConfiguration) returns (res: PromptOverrideConfiguration)
    ensures res == DecodeOverride(o)
  {
    res := PromptOverrideConfiguration(None, None);
    if o.overrideLambda.Some? {
      res := res.(overrideLambda := o.overrideLambda);
    }
    if o.promptConfigurations.Some? {
      var xs := ReadPrompts(o.promptConfigurations.value);
      res := res.(promptConfigurations := Some(xs));
    }
  }

  /** The assignments to ko.Spec; the tags and the role reference are not touched. */
  method SetSpec(ko: Resource, f: Sdk.Fields)
    modifies ko`spec
    ensures ko.spec == DecodeFields(f, old(ko.spec))
  {
    var s := ko.spec;
    s := s.(agentCollaboration := if f.agentCollaboration != "" then Some(f.agentCollaboration) else None);
    s := s.(agentName := f.agentName);
    s := s.(agentResourceRoleARN := f.agentResourceRoleARN);
    if f.customOrchestration.Some? {
      var c := ReadOrchestration(f.customOrchestration.value);
      s := s.(customOrchestration := Some(c));
    } else {
      s := s.(customOrchestration := None);
    }
    s := s.(customerEncryptionKeyARN := f.customerEncryptionKeyARN);
    s := s.(description := f.description);
    s := s.(foundationModel := f.foundationModel);
    if f.guardrail.Some? {
      var g := BuildGuardrail(f.guardrail.value);
      s := s.(guardrail := Some(g));
    } else {
      s := s.(guardrail := None);
    }
    if f.idleSessionTTLInSeconds.Some? {
      s := s.(idleSessionTTLInSeconds := Some(f.idleSessionTTLInSeconds.value));
    } else {
      s := s.(idleSessionTTLInSeconds := None);
    }
    s := s.(instruction := f.instruction);
    if f.memory.Some? {
      var m := ReadMemory(f.memory.value);
      s := s.(memory := Some(m));
    } else {
      s := s.(memory := None);
    }
    s := s.(orchestrationType := if f.orchestrationType != "" then Some(f.orchestrationType) else None);
    if f.promptOverride.Some? {
      var o := ReadOverride(f.promptOverride.value);
      s := s.(promptOverride := Some(o));
    } else {
      s := s.(promptOverride := None);
    }
    ko.spec := s;
  }

  /** The assignments to ko.Status. */
  method SetStatus(ko: Resource, resp: Sdk.Agent)
    modifies ko`metadata, ko`agentID, ko`agentStatus, ko`details
    ensures ko.metadata == Received(old(ko.View()), resp).status.metadata
    ensures ko.agentID == resp.agentId && ko.agentStatus == DecodeEnum(resp.agentStatus)
    ensures ko.details == DecodeDetails(resp.details)
  {
    if ko.metadata.None? {
      ko.metadata := Some(ResourceMetadata(None, None, None, None));
    }
    if resp.agentArn.Some? {
      ko.metadata := Some(ko.metadata.value.(arn := resp.agentArn));
    }
    ko.agentID := resp.agentId;
    ko.agentStatus := if resp.agentStatus != "" then Some(resp.agentStatus) else None;
    var d := resp.details;
    ko.details := Details(d.agentVersion, d.clientToken, d.createdAt, StringSlice(d.failureReasons), d.preparedAt,
                          StringSlice(d.recommendedActions), d.updatedAt);
  }

  /** The assignments from resp.Agent to ko. */
  method SetFromResponse(ko: Resource, resp: Sdk.Agent)
    modifies ko
    ensures ko.View() == Received(old(ko.View()), resp) && ko.conditions == old(ko.conditions)
  {
    SetStatus(ko, resp);
    SetSpec(ko, resp.fields);
  }
}
