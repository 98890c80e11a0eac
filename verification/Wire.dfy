/** What goes over the wire, field by field: how a payload is related to the spec it was built from, and a spec to the
    response it was read from. `Codec` computes payloads and specs; here every field is named on both sides, and the
    checks on numbers are listed in the order of the builders. */
module Wire {
  import opened Api
  import Codec
  import Sdk

  // ----- Values -----

  /** A nil enum or list element is sent as "". */
  predicate IsSentText(v: Option<string>, x: string) {
    if v.Some? then x == v.value else x == ""
  }

  predicate IsSentInt(v: Option<Int64>, x: Option<Int32>) {
    if v.Some? then x.Some? && x.value == v.value else x.None?
  }

  predicate IsSentFloat(round: real -> real, v: Option<real>, x: Option<real>) {
    if v.Some? then x.Some? && x.value == round(v.value) else x.None?
  }

  predicate AreSentTexts(v: Option<seq<Option<string>>>, x: Option<seq<string>>) {
    if v.None? then x.None?
    else x.Some? && |x.value| == |v.value| && forall i :: 0 <= i < |v.value| ==> IsSentText(v.value[i], x.value[i])
  }

  /** An enum that comes back as "" is nil. */
  predicate IsReadEnum(v: Option<string>, x: string) {
    if x != "" then v == Some(x) else v.None?
  }

  predicate IsReadInt(v: Option<Int64>, x: Option<Int32>) {
    if x.Some? then v.Some? && v.value == x.value else v.None?
  }

  /** List elements that come back as "" stay. */
  predicate AreReadTexts(v: Option<seq<Option<string>>>, x: Option<seq<string>>) {
    if x.None? then v.None?
    else v.Some? && |v.value| == |x.value| && forall i :: 0 <= i < |x.value| ==> v.value[i] == Some(x.value[i])
  }

  // ----- Payloads -----

  predicate IsSentInference(round: real -> real, c: InferenceConfiguration, x: Sdk.InferenceConfiguration) {
    && IsSentInt(c.maximumLength, x.maximumLength)
    && AreSentTexts(c.stopSequences, x.stopSequences)
    && IsSentFloat(round, c.temperature, x.temperature)
    && IsSentInt(c.topK, x.topK)
    && IsSentFloat(round, c.topP, x.topP)
  }

  predicate IsSentPrompt(round: real -> real, p: PromptConfiguration, x: Sdk.PromptConfiguration) {
    && x.basePromptTemplate == p.basePromptTemplate
    && x.foundationModel == p.foundationModel
    && (if p.inference.Some? then x.inference.Some? && IsSentInference(round, p.inference.value, x.inference.value)
        else x.inference.None?)
    && IsSentText(p.parserMode, x.parserMode)
    && IsSentText(p.promptCreationMode, x.promptCreationMode)
    && IsSentText(p.promptState, x.promptState)
    && IsSentText(p.promptType, x.promptType)
  }

  predicate AreSentPrompts(round: real -> real, ps: seq<Option<PromptConfiguration>>,
                           xs: seq<Sdk.PromptConfiguration>)
  {
    |xs| == |ps| && forall i :: 0 <= i < |ps| ==> ps[i].Some? && IsSentPrompt(round, ps[i].value, xs[i])
  }

  predicate IsSentOverride(round: real -> real, o: PromptOverrideConfiguration, x: Sdk.PromptOverrideConfiguration) {
    && x.overrideLambda == o.overrideLambda
    && (if o.promptConfigurations.Some?
        then x.promptConfigurations.Some?
             && AreSentPrompts(round, o.promptConfigurations.value, x.promptConfigurations.value)
        else x.promptConfigurations.None?)
  }

  predicate IsSentMemory(m: MemoryConfiguration, x: Sdk.MemoryConfiguration) {
    && AreSentTexts(m.enabledMemoryTypes, x.enabledMemoryTypes)
    && (if m.sessionSummary.Some?
        then x.sessionSummary.Some?
             && IsSentInt(m.sessionSummary.value.maxRecentSessions, x.sessionSummary.value.maxRecentSessions)
        else x.sessionSummary.None?)
    && IsSentInt(m.storageDays, x.storageDays)
  }

  /** An executor without a Lambda is not sent. */
  predicate IsSentOrchestration(c: CustomOrchestration, x: Sdk.CustomOrchestration) {
    if c.executor.Some? && c.executor.value.lambda.Some?
    then x.executor == Some(Sdk.MemberLambda(c.executor.value.lambda.value))
    else x.executor.None?
  }

  /** The fields that a payload has for a spec. */
  ghost predicate AreSent(round: real -> real, s: AgentSpec, f: Sdk.Fields) {
    && IsSentText(s.agentCollaboration, f.agentCollaboration)
    && f.agentName == s.agentName
    && f.agentResourceRoleARN == s.agentResourceRoleARN
    && (if s.customOrchestration.Some?
        then f.customOrchestration.Some?
             && IsSentOrchestration(s.customOrchestration.value, f.customOrchestration.value)
        else f.customOrchestration.None?)
    && f.customerEncryptionKeyARN == s.customerEncryptionKeyARN
    && f.description == s.description
    && f.foundationModel == s.foundationModel
    && (if s.guardrail.Some?
        then f.guardrail.Some? && f.guardrail.value.identifier == s.guardrail.value.identifier
             && f.guardrail.value.version == s.guardrail.value.version
        else f.guardrail.None?)
    && IsSentInt(s.idleSessionTTLInSeconds, f.idleSessionTTLInSeconds)
    && f.instruction == s.instruction
    && (if s.memory.Some? then f.memory.Some? && IsSentMemory(s.memory.value, f.memory.value) else f.memory.None?)
    && IsSentText(s.orchestrationType, f.orchestrationType)
    && (if s.promptOverride.Some?
        then f.promptOverride.Some? && IsSentOverride(round, s.promptOverride.value, f.promptOverride.value)
        else f.promptOverride.None?)
  }

  // ----- Responses -----

  predicate IsReadInference(c: InferenceConfiguration, x: Sdk.InferenceConfiguration) {
    && IsReadInt(c.maximumLength, x.maximumLength)
    && AreReadTexts(c.stopSequences, x.stopSequences)
    && c.temperature == x.temperature
    && IsReadInt(c.topK, x.topK)
    && c.topP == x.topP
  }

  predicate IsReadPrompt(p: PromptConfiguration, x: Sdk.PromptConfiguration) {
    && p.basePromptTemplate == x.basePromptTemplate
    && p.foundationModel == x.foundationModel
    && (if x.inference.Some? then p.inference.Some? && IsReadInference(p.inference.value, x.inference.value)
        else p.inference.None?)
    && IsReadEnum(p.parserMode, x.parserMode)
    && IsReadEnum(p.promptCreationMode, x.promptCreationMode)
    && IsReadEnum(p.promptState, x.promptState)
    && IsReadEnum(p.promptType, x.promptType)
  }

  predicate AreReadPrompts(ps: seq<Option<PromptConfiguration>>, xs: seq<Sdk.PromptConfiguration>) {
    |ps| == |xs| && forall i :: 0 <= i < |xs| ==> ps[i].Some? && IsReadPrompt(ps[i].value, xs[i])
  }

  predicate IsReadOverride(o: PromptOverrideConfiguration, x: Sdk.PromptOverrideConfiguration) {
    && o.overrideLambda == x.overrideLambda
    && (if x.promptConfigurations.Some?
        then o.promptConfigurations.Some? && AreReadPrompts(o.promptConfigurations.value, x.promptConfigurations.value)
        else o.promptConfigurations.None?)
  }

  predicate IsReadMemory(m: MemoryConfiguration, x: Sdk.MemoryConfiguration) {
    && AreReadTexts(m.enabledMemoryTypes, x.enabledMemoryTypes)
    && (if x.sessionSummary.Some?
        then m.sessionSummary.Some?
             && IsReadInt(m.sessionSummary.value.maxRecentSessions, x.sessionSummary.value.maxRecentSessions)
        else m.sessionSummary.None?)
    && IsReadInt(m.storageDays, x.storageDays)
  }

  /** A member of the executor union that is no Lambda leaves an executor without one. */
  predicate IsReadOrchestration(c: CustomOrchestration, x: Sdk.CustomOrchestration) {
    match x.executor
    case None => c.executor.None?
    case Some(MemberLambda(v)) => c.executor.Some? && c.executor.value.lambda == Some(v)
    case Some(UnknownMember) => c.executor.Some? && c.executor.value.lambda.None?
  }

  /** The fields that a spec has after a response; the role reference and the tags are in none. */
  predicate AreRead(s: AgentSpec, f: Sdk.Fields) {
    && IsReadEnum(s.agentCollaboration, f.agentCollaboration)
    && s.agentName == f.agentName
    && s.agentResourceRoleARN == f.agentResourceRoleARN
    && (if f.customOrchestration.Some?
        then s.customOrchestration.Some?
             && IsReadOrchestration(s.customOrchestration.value, f.customOrchestration.value)
        else s.customOrchestration.None?)
    && s.customerEncryptionKeyARN == f.customerEncryptionKeyARN
    && s.description == f.description
    && s.foundationModel == f.foundationModel
    && (if f.guardrail.Some?
        then s.guardrail.Some? && s.guardrail.value.identifier == f.guardrail.value.identifier
             && s.guardrail.value.version == f.guardrail.value.version
        else s.guardrail.None?)
    && IsReadInt(s.idleSessionTTLInSeconds, f.idleSessionTTLInSeconds)
    && s.instruction == f.instruction
    && (if f.memory.Some? then s.memory.Some? && IsReadMemory(s.memory.value, f.memory.value) else s.memory.None?)
    && IsReadEnum(s.orchestrationType, f.orchestrationType)
    && (if f.promptOverride.Some?
        then s.promptOverride.Some? && IsReadOverride(s.promptOverride.value, f.promptOverride.value)
        else s.promptOverride.None?)
  }

  lemma TextsAreReadIff(v: Option<seq<Option<string>>>, x: Option<seq<string>>)
    ensures Codec.StringSlice(x) == v <==> AreReadTexts(v, x)
  {
    if AreReadTexts(v, x) && x.Some? {
      assert Codec.StringSlice(x).value == v.value;
    }
  }

  lemma PromptIsReadIff(p: PromptConfiguration, x: Sdk.PromptConfiguration)
    ensures Codec.DecodePrompt(x) == p <==> IsReadPrompt(p, x)
  {
    if x.inference.Some? && p.inference.Some? {
      TextsAreReadIff(p.inference.value.stopSequences, x.inference.value.stopSequences);
    }
  }

  lemma PromptsAreReadIff(ps: seq<Option<PromptConfiguration>>, xs: seq<Sdk.PromptConfiguration>)
    ensures Codec.DecodePrompts(xs) == ps <==> AreReadPrompts(ps, xs)
  {
    forall i | 0 <= i < |xs| && i < |ps| && ps[i].Some?
      ensures Codec.DecodePrompt(xs[i]) == ps[i].value <==> IsReadPrompt(ps[i].value, xs[i])
    {
      PromptIsReadIff(ps[i].value, xs[i]);
    }
    if AreReadPrompts(ps, xs) {
      assert Codec.DecodePrompts(xs) == ps;
    }
    if Codec.DecodePrompts(xs) == ps {
      assert forall i :: 0 <= i < |xs| ==> ps[i] == Some(Codec.DecodePrompt(xs[i]));
    }
  }

  lemma OverrideIsReadIff(o: PromptOverrideConfiguration, x: Sdk.PromptOverrideConfiguration)
    ensures Codec.DecodeOverride(x) == o <==> IsReadOverride(o, x)
  {
    if x.promptConfigurations.Some? && o.promptConfigurations.Some? {
      PromptsAreReadIff(o.promptConfigurations.value, x.promptConfigurations.value);
    }
  }

  lemma MemoryIsReadIff(m: MemoryConfiguration, x: Sdk.MemoryConfiguration)
    ensures Codec.DecodeMemory(x) == m <==> IsReadMemory(m, x)
  {
    TextsAreReadIff(m.enabledMemoryTypes, x.enabledMemoryTypes);
  }

  lemma OrchestrationIsReadIff(c: CustomOrchestration, x: Sdk.CustomOrchestration)
    ensures Codec.DecodeOrchestration(x) == c <==> IsReadOrchestration(c, x)
  {
  }

  /** The decoder gives exactly the spec whose fields are those of the response. */
  lemma ReadIff(s: AgentSpec, f: Sdk.Fields, prior: AgentSpec)
    ensures Codec.DecodeFields(f, prior) == s
            <==> AreRead(s, f) && s.agentResourceRoleRef == prior.agentResourceRoleRef && s.tags == prior.tags
  {
    if f.customOrchestration.Some? && s.customOrchestration.Some? {
      OrchestrationIsReadIff(s.customOrchestration.value, f.customOrchestration.value);
    }
    if f.memory.Some? && s.memory.Some? {
      MemoryIsReadIff(s.memory.value, f.memory.value);
    }
    if f.promptOverride.Some? && s.promptOverride.Some? {
      OverrideIsReadIff(s.promptOverride.value, f.promptOverride.value);
    }
  }

  // ----- The checks on numbers -----

  datatype Check = Int32Check(field: NumericField, n: int) | Float32Check(field: NumericField, x: real)

  /** The two ranges, written out; `Agreement.FloatLimits` says what the limits of the floats are. */
  predicate Passes(c: Check) {
    match c
    case Int32Check(_, n) => -2147483648 <= n <= 2147483647
    case Float32Check(_, x) =>
      || x == 0.0
      || Codec.SMALLEST_FLOAT32 <= x <= Codec.MAX_FLOAT32 || -Codec.MAX_FLOAT32 <= x <= -Codec.SMALLEST_FLOAT32
  }

  function IntCheck(field: NumericField, v: Option<Int64>): seq<Check> {
    if v.Some? then [Int32Check(field, v.value)] else []
  }

  function FloatCheck(field: NumericField, v: Option<real>): seq<Check> {
    if v.Some? then [Float32Check(field, v.value)] else []
  }

  function PromptChecks(p: PromptConfiguration): seq<Check> {
    if p.inference.None? then []
    else
      var c := p.inference.value;
      IntCheck(MaximumLength, c.maximumLength) + FloatCheck(Temperature, c.temperature)
      + IntCheck(TopK, c.topK) + FloatCheck(TopP, c.topP)
  }

  function ListChecks(ps: seq<Option<PromptConfiguration>>): seq<Check> {
    if ps == [] then []
    else
      var n := |ps| - 1;
      ListChecks(ps[..n]) + if ps[n].Some? then PromptChecks(ps[n].value) else []
  }

  function MemoryChecks(m: MemoryConfiguration): seq<Check> {
    (if m.sessionSummary.Some? then IntCheck(MaxRecentSessions, m.sessionSummary.value.maxRecentSessions) else [])
    + IntCheck(StorageDays, m.storageDays)
  }

  /** All the checks of a payload builder, in its order. */
  function SpecChecks(s: AgentSpec): seq<Check> {
    IntCheck(IdleSessionTTLInSeconds, s.idleSessionTTLInSeconds)
    + (if s.memory.Some? then MemoryChecks(s.memory.value) else [])
    + ListChecks(Prompts(s))
  }

  /** The index of the first check that does not pass, or the number of checks. */
  function FirstFailure(cs: seq<Check>): (i: nat)
    ensures i <= |cs|
    ensures forall j :: 0 <= j < i ==> Passes(cs[j])
    ensures i < |cs| ==> !Passes(cs[i])
  {
    if cs == [] || !Passes(cs[0]) then 0 else 1 + FirstFailure(cs[1..])
  }

  /** A result that is decided by these checks. */
  predicate IsDecidedBy<T>(r: Result<T>, cs: seq<Check>) {
    var i := FirstFailure(cs);
    if i < |cs| then r.Err? && r.error == OutOfRange(cs[i].field) else r.Ok?
  }

  lemma FirstFailureOf(cs: seq<Check>, ds: seq<Check>)
    ensures FirstFailure(cs + ds) == if FirstFailure(cs) < |cs| then FirstFailure(cs) else |cs| + FirstFailure(ds)
  {
    var i, j, k := FirstFailure(cs + ds), FirstFailure(cs), FirstFailure(ds);
    assert forall h :: 0 <= h < |cs| ==> (cs + ds)[h] == cs[h];
    assert forall h :: 0 <= h < |ds| ==> (cs + ds)[|cs| + h] == ds[h];
    if j < |cs| {
      assert !Passes((cs + ds)[j]);
    } else if k < |ds| {
      assert !Passes((cs + ds)[|cs| + k]);
    }
  }

  /** The second of two results, unless the first is an error. */
  function Then<T, U>(r: Result<T>, r': Result<U>): Result<U> {
    if r.Err? then Err(r.error) else r'
  }

  lemma DecidedInParts<T, U>(r: Result<T>, cs: seq<Check>, r': Result<U>, ds: seq<Check>)
    requires IsDecidedBy(r, cs) && IsDecidedBy(r', ds)
    ensures IsDecidedBy(Then(r, r'), cs + ds)
  {
    FirstFailureOf(cs, ds);
  }

  lemma NothingToCheck<T>(r: Result<T>)
    requires r.Ok?
    ensures IsDecidedBy(r, [])
  {
  }

  lemma SameDecision<T, U>(r: Result<T>, r': Result<U>, cs: seq<Check>)
    requires IsDecidedBy(r, cs) && (r.Ok? <==> r'.Ok?) && (r.Err? ==> r'.error == r.error)
    ensures IsDecidedBy(r', cs)
  {
  }

  lemma IntIsDecided(field: NumericField, v: Option<Int64>)
    ensures IsDecidedBy(Codec.EncodeInt(field, v), IntCheck(field, v))
  {
  }

  lemma FloatIsDecided(round: real -> real, field: NumericField, v: Option<real>)
    ensures IsDecidedBy(Codec.EncodeFloat(round, field, v), FloatCheck(field, v))
  {
  }

  lemma InferenceIsDecided(round: real -> real, c: InferenceConfiguration)
    ensures IsDecidedBy(Codec.EncodeInference(round, c),
                        IntCheck(MaximumLength, c.maximumLength) + FloatCheck(Temperature, c.temperature)
                        + IntCheck(TopK, c.topK) + FloatCheck(TopP, c.topP))
  {
    var l, t := Codec.EncodeInt(MaximumLength, c.maximumLength), Codec.EncodeFloat(round, Temperature, c.temperature);
    var k, p := Codec.EncodeInt(TopK, c.topK), Codec.EncodeFloat(round, TopP, c.topP);
    IntIsDecided(MaximumLength, c.maximumLength);
    FloatIsDecided(round, Temperature, c.temperature);
    IntIsDecided(TopK, c.topK);
    FloatIsDecided(round, TopP, c.topP);
    var cs := IntCheck(MaximumLength, c.maximumLength) + FloatCheck(Temperature, c.temperature);
    DecidedInParts(l, IntCheck(MaximumLength, c.maximumLength), t, FloatCheck(Temperature, c.temperature));
    DecidedInParts(Then(l, t), cs, k, IntCheck(TopK, c.topK));
    DecidedInParts(Then(Then(l, t), k), cs + IntCheck(TopK, c.topK), p, FloatCheck(TopP, c.topP));
    SameDecision(Then(Then(Then(l, t), k), p), Codec.EncodeInference(round, c),
                 cs + IntCheck(TopK, c.topK) + FloatCheck(TopP, c.topP));
  }

  lemma PromptIsDecided(round: real -> real, p: PromptConfiguration)
    ensures IsDecidedBy(Codec.EncodePrompt(round, p), PromptChecks(p))
  {
    if p.inference.Some? {
      InferenceIsDecided(round, p.inference.value);
      SameDecision(Codec.EncodeInference(round, p.inference.value), Codec.EncodePrompt(round, p), PromptChecks(p));
    }
  }

  /** The list of prompts is refused for the first number of the first prompt that does not fit. */
  lemma {:induction false} PromptsAreDecided(round: real -> real, ps: seq<Option<PromptConfiguration>>)
    requires forall i :: 0 <= i < |ps| ==> ps[i].Some?
    ensures IsDecidedBy(Codec.EncodePrompts(round, ps), ListChecks(ps))
  {
    if ps != [] {
      var n := |ps| - 1;
      var rest, last := Codec.EncodePrompts(round, ps[..n]), Codec.EncodePrompt(round, ps[n].value);
      PromptsAreDecided(round, ps[..n]);
      PromptIsDecided(round, ps[n].value);
      DecidedInParts(rest, ListChecks(ps[..n]), last, PromptChecks(ps[n].value));
      SameDecision(Then(rest, last), Codec.EncodePrompts(round, ps), ListChecks(ps));
    }
  }

  lemma MemoryIsDecided(m: MemoryConfiguration)
    ensures IsDecidedBy(Codec.EncodeMemory(m), MemoryChecks(m))
  {
    var days := Codec.EncodeInt(StorageDays, m.storageDays);
    IntIsDecided(StorageDays, m.storageDays);
    if m.sessionSummary.Some? {
      var sessions := m.sessionSummary.value.maxRecentSessions;
      IntIsDecided(MaxRecentSessions, sessions);
      DecidedInParts(Codec.EncodeInt(MaxRecentSessions, sessions), IntCheck(MaxRecentSessions, sessions),
                     days, IntCheck(StorageDays, m.storageDays));
      SameDecision(Then(Codec.EncodeInt(MaxRecentSessions, sessions), days), Codec.EncodeMemory(m), MemoryChecks(m));
    } else {
      assert MemoryChecks(m) == IntCheck(StorageDays, m.storageDays);
      SameDecision(days, Codec.EncodeMemory(m), MemoryChecks(m));
    }
  }

  function MemoryResult(s: AgentSpec): Result<Option<Sdk.MemoryConfiguration>> {
    if s.memory.None? then Ok(None)
    else
      match Codec.EncodeMemory(s.memory.value)
      case Ok(x) => Ok(Some(x))
      case Err(e) => Err(e)
  }

  lemma OverrideIsDecided(round: real -> real, s: AgentSpec)
    requires NoNilElements(s) && s.promptOverride.Some?
    ensures var ps := s.promptOverride.value.promptConfigurations;
            ps.Some? ==> forall i :: 0 <= i < |ps.value| ==> ps.value[i].Some?
    ensures IsDecidedBy(Codec.EncodeOverride(round, s.promptOverride.value), ListChecks(Prompts(s)))
  {
    var ps := s.promptOverride.value.promptConfigurations;
    assert Prompts(s) == if ps.Some? then ps.value else [];
    if ps.Some? {
      PromptsAreDecided(round, ps.value);
      SameDecision(Codec.EncodePrompts(round, ps.value), Codec.EncodeOverride(round, s.promptOverride.value),
                   ListChecks(ps.value));
    }
  }

  /** A spec is refused for the first number, in the order of the builders, that does not fit in 32 bits, and the error
      names its field; it is accepted if all numbers fit. */
  lemma FirstRefusal(round: real -> real, s: AgentSpec)
    requires NoNilElements(s)
    ensures IsDecidedBy(Codec.EncodeSpec(round, s), SpecChecks(s))
  {
    var ttl := Codec.EncodeInt(IdleSessionTTLInSeconds, s.idleSessionTTLInSeconds);
    var cs := IntCheck(IdleSessionTTLInSeconds, s.idleSessionTTLInSeconds);
    var ds := if s.memory.Some? then MemoryChecks(s.memory.value) else [];
    IntIsDecided(IdleSessionTTLInSeconds, s.idleSessionTTLInSeconds);
    if s.memory.Some? {
      MemoryIsDecided(s.memory.value);
      SameDecision(Codec.EncodeMemory(s.memory.value), MemoryResult(s), ds);
    }
    DecidedInParts(ttl, cs, MemoryResult(s), ds);
    var first := Then(ttl, MemoryResult(s));
    if s.promptOverride.Some? {
      OverrideIsDecided(round, s);
      var o := Codec.EncodeOverride(round, s.promptOverride.value);
      DecidedInParts(first, cs + ds, o, ListChecks(Prompts(s)));
      SameDecision(Then(first, o), Codec.EncodeSpec(round, s), SpecChecks(s));
    } else {
      assert Prompts(s) == [] && SpecChecks(s) == cs + ds;
      SameDecision(first, Codec.EncodeSpec(round, s), SpecChecks(s));
    }
  }

  // ----- What is sent -----

  lemma IntIsSentIff(field: NumericField, v: Option<Int64>, x: Option<Int32>)
    requires Codec.EncodeInt(field, v).Ok?
    ensures Codec.EncodeInt(field, v) == Ok(x) <==> IsSentInt(v, x)
  {
  }

  lemma TextsAreSentIff(v: Option<seq<Option<string>>>, x: Option<seq<string>>)
    ensures Codec.ToStringSlice(v) == x <==> AreSentTexts(v, x)
  {
    if AreSentTexts(v, x) && v.Some? {
      assert Codec.ToStringSlice(v).value == x.value;
    }
  }

  lemma InferenceIsSentIff(round: real -> real, c: InferenceConfiguration, x: Sdk.InferenceConfiguration)
    requires Codec.EncodeInference(round, c).Ok?
    ensures Codec.EncodeInference(round, c) == Ok(x) <==> IsSentInference(round, c, x)
  {
    TextsAreSentIff(c.stopSequences, x.stopSequences);
  }

  lemma PromptIsSentIff(round: real -> real, p: PromptConfiguration, x: Sdk.PromptConfiguration)
    requires Codec.EncodePrompt(round, p).Ok?
    ensures Codec.EncodePrompt(round, p) == Ok(x) <==> IsSentPrompt(round, p, x)
  {
    if p.inference.Some? && x.inference.Some? {
      InferenceIsSentIff(round, p.inference.value, x.inference.value);
    }
  }

  lemma PromptsAreSentIff(round: real -> real, ps: seq<Option<PromptConfiguration>>,
                          xs: seq<Sdk.PromptConfiguration>)
    requires forall i :: 0 <= i < |ps| ==> ps[i].Some?
    requires Codec.EncodePrompts(round, ps).Ok?
    ensures Codec.EncodePrompts(round, ps) == Ok(xs) <==> AreSentPrompts(round, ps, xs)
  {
    var ys := Codec.EncodePrompts(round, ps).value;
    forall i | 0 <= i < |ps| && i < |xs|
      ensures ys[i] == xs[i] <==> IsSentPrompt(round, ps[i].value, xs[i])
    {
      PromptIsSentIff(round, ps[i].value, xs[i]);
    }
    if AreSentPrompts(round, ps, xs) {
      assert ys == xs;
    }
  }

  lemma OverrideIsSentIff(round: real -> real, o: PromptOverrideConfiguration, x: Sdk.PromptOverrideConfiguration)
    requires o.promptConfigurations.Some? ==>
               forall i :: 0 <= i < |o.promptConfigurations.value| ==> o.promptConfigurations.value[i].Some?
    requires Codec.EncodeOverride(round, o).Ok?
    ensures Codec.EncodeOverride(round, o) == Ok(x) <==> IsSentOverride(round, o, x)
  {
    if o.promptConfigurations.Some? && x.promptConfigurations.Some? {
      PromptsAreSentIff(round, o.promptConfigurations.value, x.promptConfigurations.value);
    }
  }

  lemma MemoryIsSentIff(m: MemoryConfiguration, x: Sdk.MemoryConfiguration)
    requires Codec.EncodeMemory(m).Ok?
    ensures Codec.EncodeMemory(m) == Ok(x) <==> IsSentMemory(m, x)
  {
    TextsAreSentIff(m.enabledMemoryTypes, x.enabledMemoryTypes);
  }

  lemma OrchestrationIsSentIff(c: CustomOrchestration, x: Sdk.CustomOrchestration)
    ensures Codec.EncodeOrchestration(c) == x <==> IsSentOrchestration(c, x)
  {
  }

  lemma AcceptedIff(round: real -> real, s: AgentSpec)
    requires NoNilElements(s)
    ensures Codec.EncodeSpec(round, s).Ok? <==> forall c :: c in SpecChecks(s) ==> Passes(c)
  {
    FirstRefusal(round, s);
    var cs := SpecChecks(s);
    assert FirstFailure(cs) == |cs| <==> forall c :: c in cs ==> Passes(c);
  }

  /** An accepted spec has exactly the payload whose fields are those of the spec. */
  lemma SentIff(round: real -> real, s: AgentSpec, f: Sdk.Fields)
    requires NoNilElements(s)
    ensures Codec.EncodeSpec(round, s) == Ok(f)
            <==> (forall c :: c in SpecChecks(s) ==> Passes(c)) && AreSent(round, s, f)
  {
    AcceptedIff(round, s);
    if Codec.EncodeSpec(round, s).Ok? {
      AcceptedIsSentIff(round, s, f);
    }
  }

  lemma AcceptedIsSentIff(round: real -> real, s: AgentSpec, f: Sdk.Fields)
    requires NoNilElements(s) && Codec.EncodeSpec(round, s).Ok?
    ensures Codec.EncodeSpec(round, s) == Ok(f) <==> AreSent(round, s, f)
  {
    if s.customOrchestration.Some? && f.customOrchestration.Some? {
      OrchestrationIsSentIff(s.customOrchestration.value, f.customOrchestration.value);
    }
    if s.memory.Some? && f.memory.Some? {
      MemoryIsSentIff(s.memory.value, f.memory.value);
    }
    if s.promptOverride.Some? {
      OverrideIsDecided(round, s);
      if f.promptOverride.Some? {
        OverrideIsSentIff(round, s.promptOverride.value, f.promptOverride.value);
      }
    }
  }
}
