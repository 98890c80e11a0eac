/** The shapes of the AWS SDK: enums are plain strings in which "" means absent. */
module Sdk {
  import opened Api

  datatype Executor = MemberLambda(value: string) | UnknownMember

  datatype CustomOrchestration = CustomOrchestration(executor: Option<Executor>)

  datatype SessionSummaryConfiguration = SessionSummaryConfiguration(maxRecentSessions: Option<Int32>)

  datatype MemoryConfiguration = MemoryConfiguration(
    enabledMemoryTypes: Option<seq<string>>,
    sessionSummary: Option<SessionSummaryConfiguration>,
    storageDays: Option<Int32>)

  datatype InferenceConfiguration = InferenceConfiguration(
    maximumLength: Option<Int32>,
    stopSequences: Option<seq<string>>,
    temperature: Option<real>,
    topK: Option<Int32>,
    topP: Option<real>)

  datatype PromptConfiguration = PromptConfiguration(
    basePromptTemplate: Option<string>,
    foundationModel: Option<string>,
    inference: Option<InferenceConfiguration>,
    parserMode: string,
    promptCreationMode: string,
    promptState: string,
    promptType: string)

  datatype PromptOverrideConfiguration = PromptOverrideConfiguration(
    overrideLambda: Option<string>,
    promptConfigurations: Option<seq<PromptConfiguration>>)

  /** The fields that the create input, the update input and the returned agent have in common. */
  datatype Fields = Fields(
    agentCollaboration: string,
    agentName: Option<string>,
    agentResourceRoleARN: Option<string>,
    customOrchestration: Option<CustomOrchestration>,
    customerEncryptionKeyARN: Option<string>,
    description: Option<string>,
    foundationModel: Option<string>,
    guardrail: Option<GuardrailConfiguration>,
    idleSessionTTLInSeconds: Option<Int32>,
    instruction: Option<string>,
    memory: Option<MemoryConfiguration>,
    orchestrationType: string,
    promptOverride: Option<PromptOverrideConfiguration>)

  datatype CreateAgentInput = CreateAgentInput(fields: Fields, tags: Option<map<string, string>>)

  datatype UpdateAgentInput = UpdateAgentInput(agentId: Option<string>, fields: Fields)

  datatype Details = Details(
    agentVersion: Option<string>,
    clientToken: Option<string>,
    createdAt: Option<int>,
    failureReasons: Option<seq<string>>,
    preparedAt: Option<int>,
    recommendedActions: Option<seq<string>>,
    updatedAt: Option<int>)

  datatype Agent = Agent(
    agentId: Option<string>, agentArn: Option<string>, agentStatus: string, fields: Fields, details: Details)
}

/** The payload builders and the response decoders of pkg/resource/agent/sdk.go. */
module Codec {
  import opened Api
  import Sdk

  const MAX_FLOAT32: real := 340282346638528859811704183484516925440.0
  const SMALLEST_FLOAT32: real := 1.0 / 713623846352979940529142984724747568191373312.0

  /** `float32(x)` on the finite float64 values, as a rounding of the reals: the float32 values are
      those that rounding leaves alone, and widening a float32 does not change it. */
  ghost predicate RoundsToFloat32(round: real -> real) {
    && (forall x :: round(round(x)) == round(x))
    && (forall x, y :: x <= y ==> round(x) <= round(y))
    && round(0.0) == 0.0
    && round(MAX_FLOAT32) == MAX_FLOAT32 && round(-MAX_FLOAT32) == -MAX_FLOAT32
    && round(SMALLEST_FLOAT32) == SMALLEST_FLOAT32 && round(-SMALLEST_FLOAT32) == -SMALLEST_FLOAT32
  }

  // ----- Encoding -----

  predicate FitsInt32(n: int) {
    MIN_INT32 <= n <= MAX_INT32
  }

  /** Zero, or a magnitude between the smallest and the largest positive float32. */
  predicate FitsFloat32(x: real) {
    x == 0.0 || SMALLEST_FLOAT32 <= x <= MAX_FLOAT32 || -MAX_FLOAT32 <= x <= -SMALLEST_FLOAT32
  }

  function EncodeInt(field: NumericField, v: Option<Int64>): Result<Option<Int32>> {
    match v
    case None => Ok(None)
    case Some(n) => if n > MAX_INT32 || n < MIN_INT32 then Err(OutOfRange(field)) else (var m: Int32 := n; Ok(Some(m)))
  }

  function EncodeFloat(round: real -> real, field: NumericField, v: Option<real>): Result<Option<real>> {
    match v
    case None => Ok(None)
    case Some(x) =>
      if x > MAX_FLOAT32 || x < -MAX_FLOAT32
         || (x < SMALLEST_FLOAT32 && !(x <= 0.0)) || (x > -SMALLEST_FLOAT32 && !(x >= 0.0))
      then Err(OutOfRange(field))
      else Ok(Some(round(x)))
  }

  function EncodeEnum(v: Option<string>): string {
    if v.Some? then v.value else ""
  }

  /** aws.ToStringSlice: a nil element becomes "". */
  function ToStringSlice(v: Option<seq<Option<string>>>): Option<seq<string>> {
    match v
    case None => None
    case Some(xs) => Some(seq(|xs|, i requires 0 <= i < |xs| => EncodeEnum(xs[i])))
  }

  function EncodeInference(round: real -> real, c: InferenceConfiguration): Result<Sdk.InferenceConfiguration> {
    var maximumLength :- EncodeInt(MaximumLength, c.maximumLength);
    var temperature :- EncodeFloat(round, Temperature, c.temperature);
    var topK :- EncodeInt(TopK, c.topK);
    var topP :- EncodeFloat(round, TopP, c.topP);
    Ok(Sdk.InferenceConfiguration(maximumLength, ToStringSlice(c.stopSequences), temperature, topK, topP))
  }

  function EncodePrompt(round: real -> real, p: PromptConfiguration): Result<Sdk.PromptConfiguration> {
    var inference :- match p.inference
      case None => Ok(None)
      case Some(c) => (var i :- EncodeInference(round, c); Ok(Some(i)));
    Ok(Sdk.PromptConfiguration(
         p.basePromptTemplate, p.foundationModel, inference, EncodeEnum(p.parserMode),
         EncodeEnum(p.promptCreationMode), EncodeEnum(p.promptState), EncodeEnum(p.promptType)))
  }

  /** A list is accepted iff each of its prompts is, and then it is encoded prompt by prompt. */
  function EncodePrompts(round: real -> real, ps: seq<Option<PromptConfiguration>>)
      : (r: Result<seq<Sdk.PromptConfiguration>>)
    requires forall i :: 0 <= i < |ps| ==> ps[i].Some?
    ensures r.Ok? <==> forall i :: 0 <= i < |ps| ==> EncodePrompt(round, ps[i].value).Ok?
    ensures r.Ok? ==>
              |r.value| == |ps| && forall i :: 0 <= i < |ps| ==> EncodePrompt(round, ps[i].value) == Ok(r.value[i])
  {
    if ps == [] then Ok([]) else
      var n := |ps| - 1;
      var xs :- EncodePrompts(round, ps[..n]);
      var x :- EncodePrompt(round, ps[n].value);
      Ok(xs + [x])
  }

  function EncodeOrchestration(c: CustomOrchestration): Sdk.CustomOrchestration {
    Sdk.CustomOrchestration(
      if c.executor.Some? && c.executor.value.lambda.Some?
      then Some(Sdk.MemberLambda(c.executor.value.lambda.value))
      else None)
  }

  function EncodeMemory(m: MemoryConfiguration): Result<Sdk.MemoryConfiguration> {
    var sessionSummary :- match m.sessionSummary
      case None => Ok(None)
      case Some(c) =>
        (var n :- EncodeInt(MaxRecentSessions, c.maxRecentSessions); Ok(Some(Sdk.SessionSummaryConfiguration(n))));
    var storageDays :- EncodeInt(StorageDays, m.storageDays);
    Ok(Sdk.MemoryConfiguration(ToStringSlice(m.enabledMemoryTypes), sessionSummary, storageDays))
  }

  function EncodeOverride(round: real -> real, o: PromptOverrideConfiguration): Result<Sdk.PromptOverrideConfiguration>
    requires o.promptConfigurations.Some? ==>
               forall i :: 0 <= i < |o.promptConfigurations.value| ==> o.promptConfigurations.value[i].Some?
  {
    match o.promptConfigurations
    case None => Ok(Sdk.PromptOverrideConfiguration(o.overrideLambda, None))
    case Some(ps) =>
      var xs :- EncodePrompts(round, ps);
      Ok(Sdk.PromptOverrideConfiguration(o.overrideLambda, Some(xs)))
  }

  function EncodeSpec(round: real -> real, s: AgentSpec): Result<Sdk.Fields>
    requires NoNilElements(s)
  {
    var ttl :- EncodeInt(IdleSessionTTLInSeconds, s.idleSessionTTLInSeconds);
    var memory :- match s.memory
      case None => Ok(None)
      case Some(m) => (var x :- EncodeMemory(m); Ok(Some(x)));
    var promptOverride :- match s.promptOverride
      case None => Ok(None)
      case Some(o) => (assert Prompts(s) == if o.promptConfigurations.Some? then o.promptConfigurations.value else [];
                       var x :- EncodeOverride(round, o); Ok(Some(x)));
    Ok(Sdk.Fields(
         EncodeEnum(s.agentCollaboration), s.agentName, s.agentResourceRoleARN,
         if s.customOrchestration.Some? then Some(EncodeOrchestration(s.customOrchestration.value)) else None,
         s.customerEncryptionKeyARN, s.description, s.foundationModel, s.guardrail, ttl, s.instruction,
         memory, EncodeEnum(s.orchestrationType), promptOverride))
  }

  // ----- Decoding -----

  function DecodeEnum(v: string): Option<string> {
    if v != "" then Some(v) else None
  }

  /** `int64(*x)`. */
  function Widen(v: Option<Int32>): Option<Int64> {
    if v.Some? then (var n: Int64 := v.value; Some(n)) else None
  }

  /** aws.StringSlice. */
  function StringSlice(v: Option<seq<string>>): Option<seq<Option<string>>> {
    match v
    case None => None
    case Some(xs) => Some(seq(|xs|, i requires 0 <= i < |xs| => Some(xs[i])))
  }

  function DecodeInference(c: Sdk.InferenceConfiguration): InferenceConfiguration {
    InferenceConfiguration(Widen(c.maximumLength), StringSlice(c.stopSequences), c.temperature, Widen(c.topK), c.topP)
  }

  function DecodePrompt(p: Sdk.PromptConfiguration): PromptConfiguration {
    PromptConfiguration(
      p.basePromptTemplate, p.foundationModel,
      if p.inference.Some? then Some(DecodeInference(p.inference.value)) else None,
      DecodeEnum(p.parserMode), DecodeEnum(p.promptCreationMode), DecodeEnum(p.promptState), DecodeEnum(p.promptType))
  }

  function DecodeOrchestration(c: Sdk.CustomOrchestration): CustomOrchestration {
    CustomOrchestration(
      match c.executor
      case None => None
      case Some(MemberLambda(v)) => Some(OrchestrationExecutor(Some(v)))
      case Some(UnknownMember) => Some(OrchestrationExecutor(None)))
  }

  function DecodeMemory(m: Sdk.MemoryConfiguration): MemoryConfiguration {
    MemoryConfiguration(
      StringSlice(m.enabledMemoryTypes),
      if m.sessionSummary.Some? then Some(SessionSummaryConfiguration(Widen(m.sessionSummary.value.maxRecentSessions)))
      else None,
      Widen(m.storageDays))
  }

  function DecodePrompts(ps: seq<Sdk.PromptConfiguration>): seq<Option<PromptConfiguration>> {
    seq(|ps|, i requires 0 <= i < |ps| => Some(DecodePrompt(ps[i])))
  }

  function DecodeOverride(o: Sdk.PromptOverrideConfiguration): PromptOverrideConfiguration {
    PromptOverrideConfiguration(
      o.overrideLambda,
      if o.promptConfigurations.Some? then Some(DecodePrompts(o.promptConfigurations.value)) else None)
  }

  /** The spec after a response: every field is overwritten except the role reference and the tags. */
  function DecodeFields(f: Sdk.Fields, prior: AgentSpec): AgentSpec {
    AgentSpec(
      DecodeEnum(f.agentCollaboration), f.agentName, f.agentResourceRoleARN, prior.agentResourceRoleRef,
      if f.customOrchestration.Some? then Some(DecodeOrchestration(f.customOrchestration.value)) else None,
      f.customerEncryptionKeyARN, f.description, f.foundationModel, f.guardrail, Widen(f.idleSessionTTLInSeconds),
      f.instruction,
      if f.memory.Some? then Some(DecodeMemory(f.memory.value)) else None,
      DecodeEnum(f.orchestrationType),
      if f.promptOverride.Some? then Some(DecodeOverride(f.promptOverride.value)) else None,
      prior.tags)
  }

  // ----- Exact failure condition -----

  datatype Number = Whole(n: int) | Fraction(x: real)

  predicate Fits(n: Number) {
    match n
    case Whole(i) => FitsInt32(i)
    case Fraction(x) => FitsFloat32(x)
  }

  ghost function Wholes(v: Option<Int64>): set<Number> {
    if v.Some? then {Whole(v.value)} else {}
  }

  ghost function Fractions(v: Option<real>): set<Number> {
    if v.Some? then {Fraction(v.value)} else {}
  }

  ghost function PromptNumbers(p: PromptConfiguration): set<Number> {
    match p.inference
    case None => {}
    case Some(c) => Wholes(c.maximumLength) + Fractions(c.temperature) + Wholes(c.topK) + Fractions(c.topP)
  }

  ghost function MemoryNumbers(m: MemoryConfiguration): set<Number> {
    (if m.sessionSummary.Some? then Wholes(m.sessionSummary.value.maxRecentSessions) else {}) + Wholes(m.storageDays)
  }

  /** Every number that appears anywhere in the spec. */
  ghost function Numbers(s: AgentSpec): set<Number> {
    Wholes(s.idleSessionTTLInSeconds)
    + (if s.memory.Some? then MemoryNumbers(s.memory.value) else {})
    + set i, n | 0 <= i < |Prompts(s)| && Prompts(s)[i].Some? && n in PromptNumbers(Prompts(s)[i].value) :: n
  }

  ghost predicate AllFit(ns: set<Number>) {
    forall n :: n in ns ==> Fits(n)
  }

  lemma PromptAcceptedIff(round: real -> real, p: PromptConfiguration)
    ensures EncodePrompt(round, p).Ok? <==> AllFit(PromptNumbers(p))
  {
  }

  lemma MemoryAcceptedIff(m: MemoryConfiguration)
    ensures EncodeMemory(m).Ok? <==> AllFit(MemoryNumbers(m))
  {
  }

  ghost function ListNumbers(ps: seq<Option<PromptConfiguration>>): set<Number> {
    set i, n | 0 <= i < |ps| && ps[i].Some? && n in PromptNumbers(ps[i].value) :: n
  }

  lemma PromptsAcceptedIff(round: real -> real, ps: seq<Option<PromptConfiguration>>)
    requires forall i :: 0 <= i < |ps| ==> ps[i].Some?
    ensures EncodePrompts(round, ps).Ok? <==> AllFit(ListNumbers(ps))
  {
    forall i | 0 <= i < |ps|
      ensures EncodePrompt(round, ps[i].value).Ok? <==> AllFit(PromptNumbers(ps[i].value))
      ensures PromptNumbers(ps[i].value) <= ListNumbers(ps)
    {
      PromptAcceptedIff(round, ps[i].value);
    }
  }

  /** The payload builders fail iff some number, anywhere in the spec, does not fit in 32 bits. */
  lemma AcceptedIffAllNumbersFit(round: real -> real, s: AgentSpec)
    requires NoNilElements(s)
    ensures EncodeSpec(round, s).Ok? <==> AllFit(Numbers(s))
  {
    assert EncodeInt(IdleSessionTTLInSeconds, s.idleSessionTTLInSeconds).Ok?
           <==> AllFit(Wholes(s.idleSessionTTLInSeconds));
    if s.memory.Some? {
      MemoryAcceptedIff(s.memory.value);
    }
    PromptsAcceptedIff(round, Prompts(s));
    var ps := Prompts(s);
    assert ListNumbers(ps) == set i, n | 0 <= i < |ps| && ps[i].Some? && n in PromptNumbers(ps[i].value) :: n;
    assert s.promptOverride.Some? ==>
             (EncodeOverride(round, s.promptOverride.value).Ok? <==> EncodePrompts(round, Prompts(s)).Ok?);
  }

  // ----- Round trip -----

  predicate FaithfulEnum(v: Option<string>) {
    v != Some("")
  }

  predicate FaithfulFloat(round: real -> real, v: Option<real>) {
    v.Some? ==> round(v.value) == v.value
  }

  predicate FaithfulStrings(v: Option<seq<Option<string>>>) {
    v.Some? ==> forall i :: 0 <= i < |v.value| ==> v.value[i].Some?
  }

  predicate FaithfulPrompt(round: real -> real, p: PromptConfiguration) {
    && FaithfulEnum(p.parserMode) && FaithfulEnum(p.promptCreationMode)
    && FaithfulEnum(p.promptState) && FaithfulEnum(p.promptType)
    && (p.inference.Some? ==>
          && FaithfulStrings(p.inference.value.stopSequences)
          && FaithfulFloat(round, p.inference.value.temperature)
          && FaithfulFloat(round, p.inference.value.topP))
  }

  /** Nothing in the spec is lost by the SDK's shapes: present enums are not "", an executor has its
      Lambda, stop sequences have no nil and floats are float32 values. */
  ghost predicate Faithful(round: real -> real, s: AgentSpec) {
    && FaithfulEnum(s.agentCollaboration) && FaithfulEnum(s.orchestrationType)
    && (s.customOrchestration.Some? && s.customOrchestration.value.executor.Some? ==>
          s.customOrchestration.value.executor.value.lambda.Some?)
    && (forall i :: 0 <= i < |Prompts(s)| && Prompts(s)[i].Some? ==> FaithfulPrompt(round, Prompts(s)[i].value))
  }

  ghost predicate NormalForm(round: real -> real, s: AgentSpec) {
    NoNilElements(s) && ModesPresent(s) && Faithful(round, s) && AllFit(Numbers(s))
  }

  lemma StringsRoundTripIff(v: Option<seq<Option<string>>>)
    ensures StringSlice(ToStringSlice(v)) == v <==> FaithfulStrings(v)
  {
    if v.Some? {
      var w := StringSlice(ToStringSlice(v));
      assert forall i :: 0 <= i < |v.value| ==> w.value[i] == Some(EncodeEnum(v.value[i]));
      if FaithfulStrings(v) {
        assert w.value == v.value;
      }
    }
  }

  lemma PromptRoundTripIff(round: real -> real, p: PromptConfiguration)
    requires EncodePrompt(round, p).Ok?
    ensures DecodePrompt(EncodePrompt(round, p).value) == p <==> FaithfulPrompt(round, p)
  {
    if p.inference.Some? {
      StringsRoundTripIff(p.inference.value.stopSequences);
    }
  }

  lemma PromptsRoundTripIff(round: real -> real, ps: seq<Option<PromptConfiguration>>)
    requires forall i :: 0 <= i < |ps| ==> ps[i].Some?
    requires EncodePrompts(round, ps).Ok?
    ensures DecodePrompts(EncodePrompts(round, ps).value) == ps
            <==> forall i :: 0 <= i < |ps| ==> FaithfulPrompt(round, ps[i].value)
  {
    var xs := EncodePrompts(round, ps).value;
    var qs := DecodePrompts(xs);
    forall i | 0 <= i < |ps|
      ensures qs[i] == ps[i] <==> FaithfulPrompt(round, ps[i].value)
    {
      PromptRoundTripIff(round, ps[i].value);
    }
    if forall i :: 0 <= i < |ps| ==> FaithfulPrompt(round, ps[i].value) {
      assert qs == ps;
    }
  }

  lemma MemoryRoundTrip(m: MemoryConfiguration)
    requires EncodeMemory(m).Ok?
    ensures DecodeMemory(EncodeMemory(m).value) == m <==> FaithfulStrings(m.enabledMemoryTypes)
  {
    StringsRoundTripIff(m.enabledMemoryTypes);
  }

  /** Decoding an echoed payload gives back every field of the spec exactly when the spec is faithful;
      the role reference and the tags are the prior ones. */
  lemma RoundTripIffFaithful(round: real -> real, s: AgentSpec, prior: AgentSpec)
    requires NoNilElements(s) && EncodeSpec(round, s).Ok?
    ensures DecodeFields(EncodeSpec(round, s).value, prior)
            == s.(agentResourceRoleRef := prior.agentResourceRoleRef, tags := prior.tags)
            <==> Faithful(round, s)
  {
    if s.memory.Some? {
      MemoryRoundTrip(s.memory.value);
      var types := s.memory.value.enabledMemoryTypes;
      assert MemoryTypes(s) == if types.Some? then types.value else [];
      assert FaithfulStrings(s.memory.value.enabledMemoryTypes);
    }
    PromptsRoundTripIff(round, Prompts(s));
  }

  // ----- Encode, decode, encode -----

  lemma StringsReencode(v: Option<seq<Option<string>>>)
    ensures ToStringSlice(StringSlice(ToStringSlice(v))) == ToStringSlice(v)
  {
    if v.Some? {
      assert ToStringSlice(StringSlice(ToStringSlice(v))).value == ToStringSlice(v).value;
    }
  }

  lemma FloatReencodes(round: real -> real, field: NumericField, v: Option<real>)
    requires RoundsToFloat32(round)
    requires EncodeFloat(round, field, v).Ok?
    ensures EncodeFloat(round, field, EncodeFloat(round, field, v).value) == EncodeFloat(round, field, v)
  {
  }

  lemma PromptReencodes(round: real -> real, p: PromptConfiguration)
    requires RoundsToFloat32(round)
    requires EncodePrompt(round, p).Ok?
    ensures EncodePrompt(round, DecodePrompt(EncodePrompt(round, p).value)) == EncodePrompt(round, p)
  {
    if p.inference.Some? {
      var c := p.inference.value;
      StringsReencode(c.stopSequences);
      FloatReencodes(round, Temperature, c.temperature);
      FloatReencodes(round, TopP, c.topP);
    }
  }

  lemma PromptsReencode(round: real -> real, ps: seq<Option<PromptConfiguration>>)
    requires RoundsToFloat32(round)
    requires forall i :: 0 <= i < |ps| ==> ps[i].Some?
    requires EncodePrompts(round, ps).Ok?
    ensures EncodePrompts(round, DecodePrompts(EncodePrompts(round, ps).value)) == EncodePrompts(round, ps)
  {
    var xs := EncodePrompts(round, ps).value;
    var qs := DecodePrompts(xs);
    forall i | 0 <= i < |qs|
      ensures EncodePrompt(round, qs[i].value) == Ok(xs[i])
    {
      PromptReencodes(round, ps[i].value);
    }
    assert EncodePrompts(round, qs).value == xs;
  }

  lemma MemoryReencodes(m: MemoryConfiguration)
    requires EncodeMemory(m).Ok?
    ensures EncodeMemory(DecodeMemory(EncodeMemory(m).value)) == EncodeMemory(m)
  {
    StringsReencode(m.enabledMemoryTypes);
  }

  lemma OverrideReencodes(round: real -> real, o: PromptOverrideConfiguration)
    requires RoundsToFloat32(round)
    requires o.promptConfigurations.Some? ==>
               forall i :: 0 <= i < |o.promptConfigurations.value| ==> o.promptConfigurations.value[i].Some?
    requires EncodeOverride(round, o).Ok?
    ensures EncodeOverride(round, DecodeOverride(EncodeOverride(round, o).value)) == EncodeOverride(round, o)
  {
    if o.promptConfigurations.Some? {
      PromptsReencode(round, o.promptConfigurations.value);
    }
  }

  lemma DecodedHasNoNil(f: Sdk.Fields, prior: AgentSpec)
    ensures NoNilElements(DecodeFields(f, prior))
  {
  }

  lemma SentMemoryReencodes(round: real -> real, s: AgentSpec, prior: AgentSpec)
    requires NoNilElements(s) && EncodeSpec(round, s).Ok? && s.memory.Some?
    ensures var d := DecodeFields(EncodeSpec(round, s).value, prior);
            d.memory.Some? && EncodeMemory(d.memory.value) == EncodeMemory(s.memory.value)
  {
    MemoryReencodes(s.memory.value);
  }

  lemma SentOverrideReencodes(round: real -> real, s: AgentSpec, o: PromptOverrideConfiguration, prior: AgentSpec)
    requires RoundsToFloat32(round)
    requires NoNilElements(s) && EncodeSpec(round, s).Ok? && s.promptOverride == Some(o)
    requires o.promptConfigurations.Some? ==>
               forall i :: 0 <= i < |o.promptConfigurations.value| ==> o.promptConfigurations.value[i].Some?
    ensures var d := DecodeFields(EncodeSpec(round, s).value, prior);
            && EncodeOverride(round, o).Ok? && d.promptOverride == Some(DecodeOverride(EncodeOverride(round, o).value))
            && EncodeOverride(round, d.promptOverride.value) == EncodeOverride(round, o)
  {
    OverrideReencodes(round, o);
  }

  /** For every accepted spec, encoding what was decoded gives the same payload again. */
  lemma EncodeDecodeEncode(round: real -> real, s: AgentSpec, prior: AgentSpec)
    requires RoundsToFloat32(round)
    requires NoNilElements(s) && EncodeSpec(round, s).Ok?
    ensures var d := DecodeFields(EncodeSpec(round, s).value, prior);
            NoNilElements(d) && EncodeSpec(round, d) == EncodeSpec(round, s)
  {
    DecodedHasNoNil(EncodeSpec(round, s).value, prior);
    if s.memory.Some? {
      SentMemoryReencodes(round, s, prior);
    }
    if s.promptOverride.Some? {
      var ps := s.promptOverride.value.promptConfigurations;
      assert Prompts(s) == if ps.Some? then ps.value else [];
      SentOverrideReencodes(round, s, s.promptOverride.value, prior);
    }
  }

  // ----- Integers and the two builders -----

  /** The int64 values that go through int32 come back as they were. */
  predicate SameIntegers(s: AgentSpec, d: AgentSpec) {
    && d.idleSessionTTLInSeconds == s.idleSessionTTLInSeconds
    && MemoryIntegers(d) == MemoryIntegers(s)
    && |Prompts(d)| == |Prompts(s)|
    && forall i :: 0 <= i < |Prompts(s)| ==> PromptIntegers(Prompts(d)[i]) == PromptIntegers(Prompts(s)[i])
  }

  function MemoryIntegers(s: AgentSpec): (Option<Option<Int64>>, Option<Int64>) {
    if s.memory.None? then (None, None)
    else (if s.memory.value.sessionSummary.Some? then Some(s.memory.value.sessionSummary.value.maxRecentSessions)
          else None,
          s.memory.value.storageDays)
  }

  function PromptIntegers(p: Option<PromptConfiguration>): (Option<Int64>, Option<Int64>) {
    if p.Some? && p.value.inference.Some? then (p.value.inference.value.maximumLength, p.value.inference.value.topK)
    else (None, None)
  }

  lemma PromptIntegersWidenBack(round: real -> real, p: PromptConfiguration)
    requires EncodePrompt(round, p).Ok?
    ensures PromptIntegers(Some(DecodePrompt(EncodePrompt(round, p).value))) == PromptIntegers(Some(p))
  {
  }

  /** Of every accepted spec, faithful or not, all integers survive narrowing and widening. */
  lemma IntegersWidenBack(round: real -> real, s: AgentSpec, prior: AgentSpec)
    requires NoNilElements(s) && EncodeSpec(round, s).Ok?
    ensures SameIntegers(s, DecodeFields(EncodeSpec(round, s).value, prior))
  {
    var f := EncodeSpec(round, s).value;
    var d := DecodeFields(f, prior);
    if Prompts(s) != [] {
      var xs := EncodePrompts(round, Prompts(s)).value;
      assert Prompts(d) == DecodePrompts(xs);
      forall i | 0 <= i < |Prompts(s)| ensures PromptIntegers(Prompts(d)[i]) == PromptIntegers(Prompts(s)[i]) {
        PromptIntegersWidenBack(round, Prompts(s)[i].value);
      }
    }
  }
}
