/** The update request builder of pkg/resource/agent/sdk.go, which is a text of its own next to the create request
    builder of `Payloads`: it sets the same fields in the same order, and the id of the agent after the first. */
module UpdatePayloads {
  import opened Api
  import opened Codec
  import opened Resources
  import Payloads
  import Sdk

  method BuildInference(round: real -> real, c: InferenceConfiguration) returns (r: Result<Sdk.InferenceConfiguration>)
    ensures r == EncodeInference(round, c)
  {
    var res := Sdk.InferenceConfiguration(None, None, None, None, None);
    if c.maximumLength.Some? {
      var n := c.maximumLength.value;
      if n > MAX_INT32 || n < MIN_INT32 {
        return Err(OutOfRange(MaximumLength));
      }
      res := res.(maximumLength := Some(n));
    }
    if c.stopSequences.Some? {
      res := res.(stopSequences := ToStringSlice(c.stopSequences));
    }
    if c.temperature.Some? {
      var x := c.temperature.value;
      if x > MAX_FLOAT32 || x < -MAX_FLOAT32
         || (x < SMALLEST_FLOAT32 && !(x <= 0.0)) || (x > -SMALLEST_FLOAT32 && !(x >= 0.0)) {
        return Err(OutOfRange(Temperature));
      }
      res := res.(temperature := Some(round(x)));
    }
    if c.topK.Some? {
      var n := c.topK.value;
      if n > MAX_INT32 || n < MIN_INT32 {
        return Err(OutOfRange(TopK));
      }
      res := res.(topK := Some(n));
    }
    if c.topP.Some? {
      var x := c.topP.value;
      if x > MAX_FLOAT32 || x < -MAX_FLOAT32
         || (x < SMALLEST_FLOAT32 && !(x <= 0.0)) || (x > -SMALLEST_FLOAT32 && !(x >= 0.0)) {
        return Err(OutOfRange(TopP));
      }
      res := res.(topP := Some(round(x)));
    }
    r := Ok(res);
  }

  method BuildPrompt(round: real -> real, p: PromptConfiguration) returns (r: Result<Sdk.PromptConfiguration>)
    ensures r == EncodePrompt(round, p)
  {
    var res := Sdk.PromptConfiguration(None, None, None, "", "", "", "");
    if p.basePromptTemplate.Some? {
      res := res.(basePromptTemplate := p.basePromptTemplate);
    }
    if p.foundationModel.Some? {
      res := res.(foundationModel := p.foundationModel);
    }
    if p.inference.Some? {
      var c := BuildInference(round, p.inference.value);
      if c.Err? {
        return Err(c.error);
      }
      res := res.(inference := Some(c.value));
    }
    if p.parserMode.Some? {
      res := res.(parserMode := p.parserMode.value);
    }
    if p.promptCreationMode.Some? {
      res := res.(promptCreationMode := p.promptCreationMode.value);
    }
    if p.promptState.Some? {
      res := res.(promptState := p.promptState.value);
    }
    if p.promptType.Some? {
      res := res.(promptType := p.promptType.value);
    }
    r := Ok(res);
  }

  method BuildPrompts(round: real -> real, ps: seq<Option<PromptConfiguration>>)
    returns (r: Result<seq<Sdk.PromptConfiguration>>)
    requires forall i :: 0 <= i < |ps| ==> ps[i].Some?
    ensures r == EncodePrompts(round, ps)
  {
    var xs: seq<Sdk.PromptConfiguration> := [];
    for i := 0 to |ps|
      invariant EncodePrompts(round, ps[..i]) == Ok(xs)
    {
      assert ps[..i + 1][..i] == ps[..i];
      var x := BuildPrompt(round, ps[i].value);
      if x.Err? {
        Payloads.EncodePromptsStopsAt(round, ps, i);
        return Err(x.error);
      }
      xs := xs + [x.value];
    }
    assert ps[..|ps|] == ps;
    r := Ok(xs);
  }

  method BuildMemoryTypes(types: seq<Option<string>>) returns (xs: seq<string>)
    requires forall i :: 0 <= i < |types| ==> types[i].Some?
    ensures Some(xs) == ToStringSlice(Some(types))
  {
    xs := [];
    for i := 0 to |types|
      invariant |xs| == i && forall j :: 0 <= j < i ==> xs[j] == types[j].value
    {
      xs := xs + [types[i].value];
    }
    assert xs == ToStringSlice(Some(types)).value;
  }

  method BuildMemory(m: MemoryConfiguration) returns (r: Result<Sdk.MemoryConfiguration>)
    requires m.enabledMemoryTypes.Some? ==>
               forall i :: 0 <= i < |m.enabledMemoryTypes.value| ==> m.enabledMemoryTypes.value[i].Some?
    ensures r == EncodeMemory(m)
  {
    var res := Sdk.MemoryConfiguration(None, None, None);
    if m.enabledMemoryTypes.Some? {
      var types := BuildMemoryTypes(m.enabledMemoryTypes.value);
      res := res.(enabledMemoryTypes := Some(types));
    }
    if m.sessionSummary.Some? {
      var summary := Sdk.SessionSummaryConfiguration(None);
      if m.sessionSummary.value.maxRecentSessions.Some? {
        var n := m.sessionSummary.value.maxRecentSessions.value;
        if n > MAX_INT32 || n < MIN_INT32 {
          return Err(OutOfRange(MaxRecentSessions));
        }
        summary := summary.(maxRecentSessions := Some(n));
      }
      res := res.(sessionSummary := Some(summary));
    }
    if m.storageDays.Some? {
      var n := m.storageDays.value;
      if n > MAX_INT32 || n < MIN_INT32 {
        return Err(OutOfRange(StorageDays));
      }
      res := res.(storageDays := Some(n));
    }
    r := Ok(res);
  }

  method BuildOverride(round: real -> real, o: PromptOverrideConfiguration)
    returns (r: Result<Sdk.PromptOverrideConfiguration>)
    requires o.promptConfigurations.Some? ==>
               forall i :: 0 <= i < |o.promptConfigurations.value| ==> o.promptConfigurations.value[i].Some?
    ensures r == EncodeOverride(round, o)
  {
    var res := Sdk.PromptOverrideConfiguration(None, None);
    if o.overrideLambda.Some? {
      res := res.(overrideLambda := o.overrideLambda);
    }
    if o.promptConfigurations.Some? {
      var xs := BuildPrompts(round, o.promptConfigurations.value);
      if xs.Err? {
        return Err(xs.error);
      }
      res := res.(promptConfigurations := Some(xs.value));
    }
    r := Ok(res);
  }

  method BuildOrchestration(c: CustomOrchestration) returns (res: Sdk.CustomOrchestration)
    ensures res == EncodeOrchestration(c)
  {
    res := Sdk.CustomOrchestration(None);
    if c.executor.Some? {
      var executor: Option<Sdk.Executor> := None;
      if c.executor.value.lambda.Some? {
        executor := Some(Sdk.MemberLambda(c.executor.value.lambda.value));
      }
      res := res.(executor := executor);
    }
  }

  method BuildGuardrail(g: GuardrailConfiguration) returns (res: GuardrailConfiguration)
    ensures res == g
  {
    res := GuardrailConfiguration(None, None);
    if g.identifier.Some? {
      res := res.(identifier := g.identifier);
    }
    if g.version.Some? {
      res := res.(version := g.version);
    }
  }

  /** The input up to the orchestration; the id of the agent comes second. */
  method BuildNames(r: Resource) returns (res: Sdk.UpdateAgentInput)
    ensures res == Sdk.UpdateAgentInput(r.agentID, Payloads.FirstFields(r.spec).(
                                        customerEncryptionKeyARN := None, description := None,
                                        foundationModel := None, guardrail := None))
  {
    var s := r.spec;
    res := Sdk.UpdateAgentInput(None, Payloads.NO_FIELDS);
    if s.agentCollaboration.Some? {
      res := res.(fields := res.fields.(agentCollaboration := s.agentCollaboration.value));
    }
    if r.agentID.Some? {
      res := res.(agentId := r.agentID);
    }
    if s.agentName.Some? {
      res := res.(fields := res.fields.(agentName := s.agentName));
    }
    if s.agentResourceRoleARN.Some? {
      res := res.(fields := res.fields.(agentResourceRoleARN := s.agentResourceRoleARN));
    }
    if s.customOrchestration.Some? {
      var c := BuildOrchestration(s.customOrchestration.value);
      res := res.(fields := res.fields.(customOrchestration := Some(c)));
    }
  }

  /** The input up to the guardrail, none of which can be refused. */
  method BuildFirst(r: Resource) returns (res: Sdk.UpdateAgentInput)
    ensures res == Sdk.UpdateAgentInput(r.agentID, Payloads.FirstFields(r.spec))
  {
    var s := r.spec;
    res := BuildNames(r);
    if s.customerEncryptionKeyARN.Some? {
      res := res.(fields := res.fields.(customerEncryptionKeyARN := s.customerEncryptionKeyARN));
    }
    if s.description.Some? {
      res := res.(fields := res.fields.(description := s.description));
    }
    if s.foundationModel.Some? {
      res := res.(fields := res.fields.(foundationModel := s.foundationModel));
    }
    if s.guardrail.Some? {
      var g := BuildGuardrail(s.guardrail.value);
      res := res.(fields := res.fields.(guardrail := Some(g)));
    }
  }

  method NewUpdateRequestPayload(round: real -> real, r: Resource) returns (res: Result<Sdk.UpdateAgentInput>)
    requires NoNilElements(r.spec)
    ensures res == Payloads.UpdatePayload(round, r.View())
  {
    var s := r.spec;
    var input := BuildFirst(r);
    if s.idleSessionTTLInSeconds.Some? {
      var n := s.idleSessionTTLInSeconds.value;
      if n > MAX_INT32 || n < MIN_INT32 {
        return Err(OutOfRange(IdleSessionTTLInSeconds));
      }
      input := input.(fields := input.fields.(idleSessionTTLInSeconds := Some(n)));
    }
    if s.instruction.Some? {
      input := input.(fields := input.fields.(instruction := s.instruction));
    }
    if s.memory.Some? {
      assert s.memory.value.enabledMemoryTypes.Some? ==> MemoryTypes(s) == s.memory.value.enabledMemoryTypes.value;
      var m := BuildMemory(s.memory.value);
      if m.Err? {
        return Err(m.error);
      }
      input := input.(fields := input.fields.(memory := Some(m.value)));
    }
    if s.orchestrationType.Some? {
      input := input.(fields := input.fields.(orchestrationType := s.orchestrationType.value));
    }
    if s.promptOverride.Some? {
      assert s.promptOverride.value.promptConfigurations.Some? ==>
               Prompts(s) == s.promptOverride.value.promptConfigurations.value;
      var o := BuildOverride(round, s.promptOverride.value);
      if o.Err? {
        return Err(o.error);
      }
      input := input.(fields := input.fields.(promptOverride := Some(o.value)));
    }
    res := Ok(input);
  }

  /** The two texts agree: on every resource both payloads are built or both are refused with the same error, they
      carry the same fields, and only the update names the agent. */
  method BuildBoth(round: real -> real, r: Resource)
    returns (create: Result<Sdk.CreateAgentInput>, update: Result<Sdk.UpdateAgentInput>)
    requires NoNilElements(r.spec)
    ensures create.Ok? <==> AllFit(Numbers(r.spec))
    ensures update.Ok? <==> create.Ok?
    ensures create.Ok? ==> update.value == Sdk.UpdateAgentInput(r.agentID, create.value.fields)
    ensures create.Err? ==> update == Err(create.error)
  {
    Payloads.AcceptedPayloadsIff(round, r.View());
    create := Payloads.NewCreateRequestPayload(round, r);
    update := NewUpdateRequestPayload(round, r);
  }
}
