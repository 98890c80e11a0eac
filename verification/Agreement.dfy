/** Which specs survive being sent and read back, as far as the drift detector can tell. */
module Agreement {
  import opened Api
  import opened Codec
  import opened Delta
  import Sdk

  /** The SDK loses nothing of the spec that the detector looks at: present enums are not "", an executor has its
      Lambda, and of the prompts that are compared the enums are not "", the stop sequences have no nil and the floats
      are float32 values. */
  ghost predicate Survives(round: real -> real, s: AgentSpec) {
    && FaithfulEnum(s.agentCollaboration) && FaithfulEnum(s.orchestrationType)
    && (s.customOrchestration.Some? && s.customOrchestration.value.executor.Some? ==>
          s.customOrchestration.value.executor.value.lambda.Some?)
    && LivePromptsSurvive(round, Prompts(s))
  }

  ghost predicate LivePromptsSurvive(round: real -> real, ps: seq<Option<PromptConfiguration>>) {
    forall i :: 0 <= i < |ps| && IsLive(ps[i]) ==> FaithfulPrompt(round, ps[i].value)
  }

  lemma AppendedSurviveIff(round: real -> real, ps: seq<Option<PromptConfiguration>>, p: Option<PromptConfiguration>)
    ensures LivePromptsSurvive(round, ps + [p])
            <==> LivePromptsSurvive(round, ps) && (IsLive(p) ==> FaithfulPrompt(round, p.value))
  {
    if LivePromptsSurvive(round, ps + [p]) {
      assert (ps + [p])[|ps|] == p;
      assert forall i :: 0 <= i < |ps| ==> (ps + [p])[i] == ps[i];
    }
  }

  lemma SentPromptSurvivesIff(round: real -> real, p: PromptConfiguration)
    requires EncodePrompt(round, p).Ok?
    ensures var d := DecodePrompt(EncodePrompt(round, p).value);
            && (IsLive(Some(d)) <==> IsLive(Some(p)))
            && (d == p <==> FaithfulPrompt(round, p))
  {
    PromptRoundTripIff(round, p);
  }

  lemma LiveOfAppended(ps: seq<Option<PromptConfiguration>>, p: Option<PromptConfiguration>)
    ensures Live(ps + [p]) == if IsLive(p) then Live(ps) + [p] else Live(ps)
  {
    assert (ps + [p])[..|ps|] == ps;
    assert Live(ps) + [] == Live(ps);
  }

  lemma AppendedAreEqualIff<T>(xs: seq<T>, x: T, ys: seq<T>, y: T)
    requires |xs| == |ys|
    ensures xs + [x] == ys + [y] <==> xs == ys && x == y
  {
    if xs + [x] == ys + [y] {
      assert (xs + [x])[..|xs|] == xs && (ys + [y])[..|ys|] == ys;
      assert (xs + [x])[|xs|] == (ys + [y])[|ys|];
    }
  }

  lemma LiveOfAppendedAreEqualIff(ds: seq<Option<PromptConfiguration>>, d: Option<PromptConfiguration>,
                                  ps: seq<Option<PromptConfiguration>>, p: Option<PromptConfiguration>)
    requires |Live(ds)| == |Live(ps)| && (IsLive(d) <==> IsLive(p))
    ensures |Live(ds + [d])| == |Live(ps + [p])|
    ensures Live(ds + [d]) == Live(ps + [p]) <==> Live(ds) == Live(ps) && (IsLive(p) ==> d == p)
  {
    LiveOfAppended(ds, d);
    LiveOfAppended(ps, p);
    AppendedAreEqualIff(Live(ds), d, Live(ps), p);
  }

  lemma OneMoreSurvivesIff(round: real -> real, ds: seq<Option<PromptConfiguration>>, d: Option<PromptConfiguration>,
                           ps: seq<Option<PromptConfiguration>>, p: Option<PromptConfiguration>)
    requires |Live(ds)| == |Live(ps)| && (Live(ds) == Live(ps) <==> LivePromptsSurvive(round, ps))
    requires IsLive(d) <==> IsLive(p)
    requires p.Some? && (d == p <==> FaithfulPrompt(round, p.value))
    ensures |Live(ds + [d])| == |Live(ps + [p])|
    ensures Live(ds + [d]) == Live(ps + [p]) <==> LivePromptsSurvive(round, ps + [p])
  {
    LiveOfAppendedAreEqualIff(ds, d, ps, p);
    AppendedSurviveIff(round, ps, p);
  }

  lemma SentInTwoParts(round: real -> real, ps: seq<Option<PromptConfiguration>>)
    requires forall i :: 0 <= i < |ps| ==> ps[i].Some?
    requires ps != [] && EncodePrompts(round, ps).Ok?
    ensures var n := |ps| - 1;
            && EncodePrompts(round, ps[..n]).Ok? && EncodePrompt(round, ps[n].value).Ok?
            && DecodePrompts(EncodePrompts(round, ps).value)
               == DecodePrompts(EncodePrompts(round, ps[..n]).value)
                  + [Some(DecodePrompt(EncodePrompt(round, ps[n].value).value))]
  {
    var n := |ps| - 1;
    DecodedInTwoParts(EncodePrompts(round, ps[..n]).value, EncodePrompt(round, ps[n].value).value);
  }

  lemma DecodedInTwoParts(xs: seq<Sdk.PromptConfiguration>, x: Sdk.PromptConfiguration)
    ensures DecodePrompts(xs + [x]) == DecodePrompts(xs) + [Some(DecodePrompt(x))]
  {
  }

  /** Exactly the prompts in DEFAULT mode are dropped on both sides, so the rest is compared position by position. */
  lemma {:induction false} SentPromptsSurviveIff(round: real -> real, ps: seq<Option<PromptConfiguration>>)
    requires forall i :: 0 <= i < |ps| ==> ps[i].Some?
    requires EncodePrompts(round, ps).Ok?
    ensures var ds := DecodePrompts(EncodePrompts(round, ps).value);
            && |Live(ds)| == |Live(ps)|
            && (Live(ds) == Live(ps) <==> LivePromptsSurvive(round, ps))
  {
    if ps != [] {
      SentPromptsSurviveIff(round, ps[..|ps| - 1]);
      OneSentPromptMore(round, ps);
    }
  }

  lemma OneSentPromptMore(round: real -> real, ps: seq<Option<PromptConfiguration>>)
    requires forall i :: 0 <= i < |ps| ==> ps[i].Some?
    requires ps != [] && EncodePrompts(round, ps).Ok? && EncodePrompts(round, ps[..|ps| - 1]).Ok?
    requires var rest := ps[..|ps| - 1];
             var ds := DecodePrompts(EncodePrompts(round, rest).value);
             && |Live(ds)| == |Live(rest)|
             && (Live(ds) == Live(rest) <==> LivePromptsSurvive(round, rest))
    ensures var ds := DecodePrompts(EncodePrompts(round, ps).value);
            && |Live(ds)| == |Live(ps)|
            && (Live(ds) == Live(ps) <==> LivePromptsSurvive(round, ps))
  {
    var rest, p := ps[..|ps| - 1], ps[|ps| - 1];
    assert ps == rest + [p];
    SentInTwoParts(round, ps);
    SentPromptSurvivesIff(round, p.value);
    OneMoreSurvivesIff(round, DecodePrompts(EncodePrompts(round, rest).value),
                       Some(DecodePrompt(EncodePrompt(round, p.value).value)), rest, p);
  }

  lemma SentMemoryIsKept(m: MemoryConfiguration)
    requires EncodeMemory(m).Ok? && FaithfulStrings(m.enabledMemoryTypes)
    ensures DecodeMemory(EncodeMemory(m).value) == m
  {
    MemoryRoundTrip(m);
  }

  lemma SentOrchestrationSurvivesIff(c: CustomOrchestration)
    ensures DecodeOrchestration(EncodeOrchestration(c)) == c <==> (c.executor.Some? ==> c.executor.value.lambda.Some?)
  {
  }

  /** The detector finds no difference between a spec and what its payload decodes to iff the spec survives. */
  lemma PayloadAgreesIff(round: real -> real, key: SliceKey, s: AgentSpec)
    requires NoNilElements(s) && EncodeSpec(round, s).Ok?
    ensures Canonical(key, DecodeFields(EncodeSpec(round, s).value, s)) == Canonical(key, s) <==> Survives(round, s)
  {
    var d := DecodeFields(EncodeSpec(round, s).value, s);
    if s.memory.Some? {
      assert s.memory.value.enabledMemoryTypes.Some? ==> MemoryTypes(s) == s.memory.value.enabledMemoryTypes.value;
      SentMemoryIsKept(s.memory.value);
      assert d.memory == s.memory;
    }
    assert CanonicalMemory(key, d) == CanonicalMemory(key, s);
    if s.customOrchestration.Some? {
      SentOrchestrationSurvivesIff(s.customOrchestration.value);
    }
    OverrideSurvivesIff(round, s, d);
  }

  lemma OverrideSurvivesIff(round: real -> real, s: AgentSpec, d: AgentSpec)
    requires NoNilElements(s) && EncodeSpec(round, s).Ok?
    requires d == DecodeFields(EncodeSpec(round, s).value, s)
    ensures CanonicalOverride(d) == CanonicalOverride(s) <==> LivePromptsSurvive(round, Prompts(s))
  {
    if Prompts(s) != [] {
      assert Prompts(d) == DecodePrompts(EncodePrompts(round, Prompts(s)).value);
    } else {
      assert Prompts(d) == [];
    }
    SentPromptsSurviveIff(round, Prompts(s));
  }

  /** Normal form is enough. */
  lemma NormalFormSurvives(round: real -> real, s: AgentSpec)
    requires NormalForm(round, s)
    ensures ModesSet(s) && EncodeSpec(round, s).Ok? && Survives(round, s)
  {
    AcceptedIffAllNumbersFit(round, s);
    forall i | 0 <= i < |Prompts(s)| && Prompts(s)[i].Some? ensures Prompts(s)[i].value.promptCreationMode != Some("") {
      assert FaithfulPrompt(round, Prompts(s)[i].value);
    }
  }

  // ----- A temperature of 0.7 -----

  function PowerOfTwo(k: nat): (p: nat)
    ensures p >= 1
  {
    if k == 0 then 1 else 2 * PowerOfTwo(k - 1)
  }

  predicate IsWhole(x: real) {
    x.Floor as real == x
  }

  /** A fraction with a power of two below the line, as every finite binary floating-point number is. */
  ghost predicate IsDyadic(x: real) {
    exists k: nat :: IsWhole(x * PowerOfTwo(k) as real)
  }

  lemma TwiceIsNoMultipleOfFive(q: nat)
    requires q % 5 != 0
    ensures (2 * q) % 5 != 0
  {
    assert q == 5 * (q / 5) + q % 5;
    assert 2 * q == 5 * (2 * (q / 5)) + 2 * (q % 5);
  }

  lemma {:induction false} PowerOfTwoIsNoMultipleOfFive(k: nat)
    ensures PowerOfTwo(k) % 5 != 0
  {
    if k > 0 {
      PowerOfTwoIsNoMultipleOfFive(k - 1);
      TwiceIsNoMultipleOfFive(PowerOfTwo(k - 1));
    }
  }

  lemma WholeSevenTenths(p: nat) returns (n: int)
    requires IsWhole(0.7 * p as real)
    ensures 7 * p == 10 * n
  {
    n := (0.7 * p as real).Floor;
    assert 10.0 * (0.7 * p as real) == 7.0 * p as real;
  }

  lemma SevenIsNotTen(p: nat, n: int)
    requires p % 5 != 0
    ensures 7 * p != 10 * n
  {
  }

  lemma SevenTenthsIsNotDyadic()
    ensures !IsDyadic(0.7)
  {
    if IsDyadic(0.7) {
      var k: nat :| IsWhole(0.7 * PowerOfTwo(k) as real);
      var n := WholeSevenTenths(PowerOfTwo(k));
      PowerOfTwoIsNoMultipleOfFive(k);
      SevenIsNotTen(PowerOfTwo(k), n);
    }
  }

  // A rounding as coarse as can be, which shows that the assumptions on `float32(x)` can be met together.

  function Coarse(x: real): real {
    if x >= MAX_FLOAT32 then MAX_FLOAT32
    else if x >= SMALLEST_FLOAT32 then SMALLEST_FLOAT32
    else if x > -SMALLEST_FLOAT32 then 0.0
    else if x > -MAX_FLOAT32 then -SMALLEST_FLOAT32
    else -MAX_FLOAT32
  }

  lemma {:induction false} PowersMultiply(j: nat, k: nat)
    ensures PowerOfTwo(j + k) == PowerOfTwo(j) * PowerOfTwo(k)
  {
    if j > 0 {
      PowersMultiply(j - 1, k);
      assert PowerOfTwo(j + k) == 2 * PowerOfTwo(j - 1 + k);
    }
  }

  lemma PowersMultiplyTo(j: nat, p: nat, k: nat, q: nat)
    requires PowerOfTwo(j) == p && PowerOfTwo(k) == q
    ensures PowerOfTwo(j + k) == p * q
  {
    PowersMultiply(j, k);
  }

  lemma SmallestFloatIsAPower()
    ensures PowerOfTwo(149) == 713623846352979940529142984724747568191373312
  {
    assert PowerOfTwo(5) == 32 && PowerOfTwo(8) == 256;
    PowersMultiplyTo(8, 256, 8, 256);
    PowersMultiplyTo(16, 65536, 16, 65536);
    PowersMultiplyTo(32, 4294967296, 32, 4294967296);
    PowersMultiplyTo(64, 18446744073709551616, 64, 18446744073709551616);
    PowersMultiplyTo(128, 340282366920938463463374607431768211456, 16, 65536);
    PowersMultiplyTo(144, 22300745198530623141535718272648361505980416, 5, 32);
  }

  /** The limits of float32: the largest number is 2^24 - 1 times 2^104 and the smallest one above zero is 2^-149. */
  lemma FloatLimits()
    ensures Codec.MAX_FLOAT32 == ((PowerOfTwo(24) - 1) * PowerOfTwo(104)) as real
    ensures Codec.SMALLEST_FLOAT32 * PowerOfTwo(149) as real == 1.0
  {
    assert PowerOfTwo(8) == 256;
    PowersMultiplyTo(8, 256, 8, 256);
    PowersMultiplyTo(16, 65536, 8, 256);
    PowersMultiplyTo(16, 65536, 16, 65536);
    PowersMultiplyTo(32, 4294967296, 32, 4294967296);
    PowersMultiplyTo(64, 18446744073709551616, 32, 4294967296);
    PowersMultiplyTo(96, 79228162514264337593543950336, 8, 256);
    SmallestFloatIsAPower();
  }

  lemma SmallestFloatIsDyadic()
    ensures IsDyadic(SMALLEST_FLOAT32) && IsDyadic(-SMALLEST_FLOAT32)
  {
    SmallestFloatIsAPower();
    assert SMALLEST_FLOAT32 * PowerOfTwo(149) as real == 1.0;
    assert IsWhole(SMALLEST_FLOAT32 * PowerOfTwo(149) as real) && IsWhole(-SMALLEST_FLOAT32 * PowerOfTwo(149) as real);
  }

  lemma WholeIsDyadic(n: int)
    ensures IsDyadic(n as real)
  {
    assert n as real * PowerOfTwo(0) as real == n as real;
    assert IsWhole(n as real);
  }

  lemma CoarseIsDyadic(x: real)
    ensures IsDyadic(Coarse(x))
  {
    SmallestFloatIsDyadic();
    WholeIsDyadic(0);
    WholeIsDyadic(MAX_FLOAT32.Floor);
    WholeIsDyadic(-MAX_FLOAT32.Floor);
  }

  lemma CoarseIsARounding()
    ensures RoundsToFloat32(Coarse) && forall x :: IsDyadic(Coarse(x))
  {
    forall x ensures IsDyadic(Coarse(x)) {
      CoarseIsDyadic(x);
    }
  }

  /** The temperature that users write most often never survives in a prompt that is compared. */
  lemma SevenTenthsDoesNotSurvive(round: real -> real, s: AgentSpec, i: nat)
    requires forall x :: IsDyadic(round(x))
    requires i < |Prompts(s)| && IsLive(Prompts(s)[i]) && Prompts(s)[i].value.inference.Some?
    requires Prompts(s)[i].value.inference.value.temperature == Some(0.7)
    ensures !Survives(round, s)
  {
    SevenTenthsIsNotDyadic();
    assert IsDyadic(round(0.7));
  }
}
