/** The generated copy functions of apis/v1alpha1/zz_generated.deepcopy.go on Go's own objects: a datatype for the
    fields of each struct, a `Box` for what a pointer refers to, an array for a slice and a boxed map for the tags. A
    struct stands for a value of `Api`; the set it is given has nil and all that it refers to, at any depth. Objects may
    share what they refer to. A copy stands for the same value, and all that it refers to is new.

    Two contracts are written so that the verifier takes a predicate as a whole and not conjunct by conjunct, and they
    promise all that they would promise otherwise: `requires P == true` is `requires P`, and where `P` is required,
    `ensures Q == P` is `ensures Q`. */
module DeepCopy {
  import opened Api

  class Box<T> {
    var value: T

    constructor (value: T)
      ensures this.value == value
    {
      this.value := value;
    }
  }

  // ----- Pointers to scalars -----

  ghost predicate IsScalar<T>(p: Box?<T>, v: Option<T>, repr: set<object?>)
    reads repr
  {
    && p in repr && (p == null <==> v.None?)
    && (p != null ==> p.value == v.value)
  }

  ghost predicate IsSame<T>(q: Box?<T>, p: Box?<T>)
    reads q, p
  {
    (q == null <==> p == null) && (q != null && p != null ==> q.value == p.value)
  }

  method CopyScalar<T>(p: Box?<T>) returns (q: Box?<T>)
    ensures IsSame(q, p) && (q != null ==> fresh(q))
  {
    q := null;
    if p != null {
      q := new Box(p.value);
    }
  }

  method CopyFour<T>(a: Box?<T>, b: Box?<T>, c: Box?<T>, d: Box?<T>)
    returns (a': Box?<T>, b': Box?<T>, c': Box?<T>, d': Box?<T>, ghost r: set<object?>)
    ensures IsSame(a', a) && IsSame(b', b) && IsSame(c', c) && IsSame(d', d)
    ensures fresh(r - {null}) && {null, a', b', c', d'} <= r
  {
    a' := CopyScalar(a);
    b' := CopyScalar(b);
    c' := CopyScalar(c);
    d' := CopyScalar(d);
    r := {null, a', b', c', d'};
  }

  // ----- Slices of strings -----

  type StringSlice = array?<Box?<string>>

  ghost predicate AreStrings(a: StringSlice, v: Option<seq<Option<string>>>, repr: set<object?>)
    reads repr
  {
    && {null, a} <= repr && (a == null <==> v.None?)
    && (a != null ==>
          a.Length == |v.value| && forall i :: 0 <= i < a.Length ==> IsScalar(a[i], v.value[i], repr))
  }

  lemma StringsHaveOneValue(a: StringSlice, v: Option<seq<Option<string>>>, u: Option<seq<Option<string>>>,
                            repr: set<object?>)
    requires AreStrings(a, v, repr) && AreStrings(a, u, repr)
    ensures v == u
  {
    if a != null {
      assert v.value == u.value;
    }
  }

  method CopyStrings(a: StringSlice, ghost v: Option<seq<Option<string>>>, ghost repr: set<object?>)
    returns (b: StringSlice, ghost r: set<object?>)
    requires AreStrings(a, v, repr)
    ensures fresh(r - {null}) && AreStrings(b, v, r)
  {
    if a == null {
      return null, {null};
    }
    b := new Box?<string>[a.Length](_ => null);
    r := {null};
    for i := 0 to a.Length
      invariant fresh(r - {null}) && b !in r && null in r
      invariant forall j :: 0 <= j < i ==> IsScalar(b[j], v.value[j], r)
      invariant forall j :: i <= j < a.Length ==> b[j] == null
    {
      if a[i] != null {
        b[i] := new Box(a[i].value);
        r := r + {b[i]};
      }
    }
    r := r + {b};
  }

  // ----- The parts of a prompt override -----

  datatype Inference = Inference(
    maximumLength: Box?<Int64>,
    stopSequences: StringSlice,
    temperature: Box?<real>,
    topK: Box?<Int64>,
    topP: Box?<real>)
  {
    ghost predicate StandsFor(v: InferenceConfiguration, repr: set<object?>)
      reads repr
    {
      && IsScalar(maximumLength, v.maximumLength, repr) && AreStrings(stopSequences, v.stopSequences, repr)
      && IsScalar(temperature, v.temperature, repr) && IsScalar(topK, v.topK, repr) && IsScalar(topP, v.topP, repr)
    }

    lemma Grows(v: InferenceConfiguration, r: set<object?>, r': set<object?>)
      requires StandsFor(v, r) && r <= r'
      ensures StandsFor(v, r')
    {
    }

    lemma HasOneValue(v: InferenceConfiguration, u: InferenceConfiguration, repr: set<object?>)
      requires StandsFor(v, repr) && StandsFor(u, repr)
      ensures v == u
    {
      StringsHaveOneValue(stopSequences, v.stopSequences, u.stopSequences, repr);
    }

    method CopyNumbers()
      returns (maximumLength': Box?<Int64>, topK': Box?<Int64>, temperature': Box?<real>, topP': Box?<real>,
               ghost r: set<object?>)
      ensures IsSame(maximumLength', maximumLength) && IsSame(topK', topK)
      ensures IsSame(temperature', temperature) && IsSame(topP', topP)
      ensures fresh(r - {null}) && {null, maximumLength', topK', temperature', topP'} <= r
    {
      maximumLength' := CopyScalar(maximumLength);
      topK' := CopyScalar(topK);
      temperature' := CopyScalar(temperature);
      topP' := CopyScalar(topP);
      r := {null, maximumLength', topK', temperature', topP'};
    }

    method CopyFields(ghost v: InferenceConfiguration, ghost repr: set<object?>)
      returns (res: Inference, ghost r: set<object?>)
      requires StandsFor(v, repr)
      ensures fresh(r - {null}) && res.StandsFor(v, r) == StandsFor(v, repr)
    {
      var maximumLength', topK', temperature', topP', numbers := CopyNumbers();
      var stopSequences', strings := CopyStrings(stopSequences, v.stopSequences, repr);
      res := Inference(maximumLength', stopSequences', temperature', topK', topP');
      r := numbers + strings;
    }

    method DeepCopyInto(out: Box<Inference>, ghost v: InferenceConfiguration, ghost repr: set<object?>)
      returns (ghost r: set<object?>)
      requires StandsFor(v, repr) && out !in repr
      modifies out
      ensures fresh(r - {null}) && out.value.StandsFor(v, r) == old(StandsFor(v, repr))
    {
      var res, added := CopyFields(v, repr);
      out.value := res;
      r := added;
    }
  }

  ghost predicate IsInference(p: Box?<Inference>, v: Option<InferenceConfiguration>, repr: set<object?>)
    reads repr
  {
    && {null, p} <= repr && (p == null <==> v.None?)
    && (p != null ==> p.value.StandsFor(v.value, repr))
  }

  lemma InferenceGrows(p: Box?<Inference>, v: Option<InferenceConfiguration>, r: set<object?>, r': set<object?>)
    requires IsInference(p, v, r) && r <= r'
    ensures IsInference(p, v, r')
  {
    if p != null {
      p.value.Grows(v.value, r, r');
    }
  }

  method CopyInference(p: Box?<Inference>, ghost v: Option<InferenceConfiguration>, ghost repr: set<object?>)
    returns (q: Box?<Inference>, ghost r: set<object?>)
    requires IsInference(p, v, repr)
    ensures fresh(r - {null}) && IsInference(q, v, r)
  {
    q, r := null, {null};
    if p != null {
      q := new Box(Inference(null, null, null, null, null));
      r := p.value.DeepCopyInto(q, v.value, repr);
      q.value.Grows(v.value, r, r + {null, q});
      r := r + {null, q};
    }
  }

  datatype Prompt = Prompt(
    basePromptTemplate: Box?<string>,
    foundationModel: Box?<string>,
    inference: Box?<Inference>,
    parserMode: Box?<string>,
    promptCreationMode: Box?<string>,
    promptState: Box?<string>,
    promptType: Box?<string>)
  {
    ghost predicate ScalarsFor(v: PromptConfiguration, repr: set<object?>)
      reads repr
    {
      && IsScalar(basePromptTemplate, v.basePromptTemplate, repr) && IsScalar(foundationModel, v.foundationModel, repr)
      && IsScalar(parserMode, v.parserMode, repr) && IsScalar(promptCreationMode, v.promptCreationMode, repr)
      && IsScalar(promptState, v.promptState, repr) && IsScalar(promptType, v.promptType, repr)
    }

    ghost predicate StandsFor(v: PromptConfiguration, repr: set<object?>)
      reads repr
    {
      ScalarsFor(v, repr) && IsInference(inference, v.inference, repr)
    }

    method CopyScalars(ghost v: PromptConfiguration, ghost repr: set<object?>)
      returns (res: Prompt, ghost r: set<object?>)
      requires ScalarsFor(v, repr)
      ensures fresh(r - {null}) && res.ScalarsFor(v, r) == ScalarsFor(v, repr)
      ensures res.inference == inference
    {
      var basePromptTemplate' := CopyScalar(basePromptTemplate);
      var foundationModel' := CopyScalar(foundationModel);
      var parserMode', promptCreationMode', promptState', promptType', cells :=
        CopyFour(parserMode, promptCreationMode, promptState, promptType);
      res := Prompt(basePromptTemplate', foundationModel', inference, parserMode', promptCreationMode', promptState',
                    promptType');
      r := {basePromptTemplate', foundationModel'} + cells;
    }

    lemma Grows(v: PromptConfiguration, r: set<object?>, r': set<object?>)
      requires StandsFor(v, r) && r <= r'
      ensures StandsFor(v, r')
    {
      InferenceGrows(inference, v.inference, r, r');
    }

    lemma HasOneValue(v: PromptConfiguration, u: PromptConfiguration, repr: set<object?>)
      requires StandsFor(v, repr) && StandsFor(u, repr)
      ensures v == u
    {
      if inference != null {
        inference.value.HasOneValue(v.inference.value, u.inference.value, repr);
      }
    }

    method CopyFields(ghost v: PromptConfiguration, ghost repr: set<object?>)
      returns (res: Prompt, ghost r: set<object?>)
      requires StandsFor(v, repr)
      ensures fresh(r - {null}) && res.StandsFor(v, r) == StandsFor(v, repr)
    {
      var scalars, cells := CopyScalars(v, repr);
      var inference', reached := CopyInference(inference, v.inference, repr);
      res := scalars.(inference := inference');
      r := cells + reached;
      InferenceGrows(inference', v.inference, reached, r);
    }

    method DeepCopyInto(out: Box<Prompt>, ghost v: PromptConfiguration, ghost repr: set<object?>)
      returns (ghost r: set<object?>)
      requires StandsFor(v, repr) && out !in repr
      modifies out
      ensures fresh(r - {null}) && out.value.StandsFor(v, r) == old(StandsFor(v, repr))
    {
      var res, added := CopyFields(v, repr);
      out.value := res;
      r := added;
    }
  }

  ghost predicate IsPrompt(p: Box?<Prompt>, v: Option<PromptConfiguration>, repr: set<object?>)
    reads repr
  {
    && {null, p} <= repr && (p == null <==> v.None?)
    && (p != null ==> p.value.StandsFor(v.value, repr))
  }

  lemma PromptGrows(p: Box?<Prompt>, v: Option<PromptConfiguration>, r: set<object?>, r': set<object?>)
    requires IsPrompt(p, v, r) && r <= r'
    ensures IsPrompt(p, v, r')
  {
    if p != null {
      p.value.Grows(v.value, r, r');
    }
  }

  method CopyPrompt(p: Box?<Prompt>, ghost v: Option<PromptConfiguration>, ghost repr: set<object?>)
    returns (q: Box?<Prompt>, ghost r: set<object?>)
    requires IsPrompt(p, v, repr)
    ensures fresh(r - {null}) && IsPrompt(q, v, r)
  {
    q, r := null, {null};
    if p != null {
      q := new Box(Prompt(null, null, null, null, null, null, null));
      r := p.value.DeepCopyInto(q, v.value, repr);
      q.value.Grows(v.value, r, r + {null, q});
      r := r + {null, q};
    }
  }

  type PromptSlice = array?<Box?<Prompt>>

  /** Pointers and the first values of a list, which they stand for. */
  ghost predicate ListPrompts(ps: seq<Box?<Prompt>>, vs: seq<Option<PromptConfiguration>>, repr: set<object?>)
    reads repr
  {
    null in repr && |ps| <= |vs| && forall i :: 0 <= i < |ps| ==> IsPrompt(ps[i], vs[i], repr)
  }

  ghost predicate ArePrompts(a: PromptSlice, v: Option<seq<Option<PromptConfiguration>>>, repr: set<object?>)
    reads repr
  {
    && {null, a} <= repr && (a == null <==> v.None?)
    && (a != null ==> a.Length == |v.value| && ListPrompts(a[..], v.value, repr))
  }

  lemma ListPromptsGrows(ps: seq<Box?<Prompt>>, vs: seq<Option<PromptConfiguration>>, r: set<object?>, r': set<object?>)
    requires ListPrompts(ps, vs, r) && r <= r'
    ensures ListPrompts(ps, vs, r')
  {
    forall i | 0 <= i < |ps| ensures IsPrompt(ps[i], vs[i], r') {
      PromptGrows(ps[i], vs[i], r, r');
    }
  }

  lemma PromptsGrow(a: PromptSlice, v: Option<seq<Option<PromptConfiguration>>>, r: set<object?>, r': set<object?>)
    requires ArePrompts(a, v, r) && r <= r'
    ensures ArePrompts(a, v, r')
  {
    if a != null {
      ListPromptsGrows(a[..], v.value, r, r');
    }
  }

  lemma PromptsHaveOneValue(a: PromptSlice, v: Option<seq<Option<PromptConfiguration>>>,
                            u: Option<seq<Option<PromptConfiguration>>>, repr: set<object?>)
    requires ArePrompts(a, v, repr) && ArePrompts(a, u, repr)
    ensures v == u
  {
    if a != null {
      forall i | 0 <= i < a.Length ensures v.value[i] == u.value[i] {
        assert IsPrompt(a[..][i], v.value[i], repr) && IsPrompt(a[..][i], u.value[i], repr);
        if a[i] != null {
          a[i].value.HasOneValue(v.value[i].value, u.value[i].value, repr);
        }
      }
      assert v.value == u.value;
    }
  }

  lemma OnePromptMore(ps: seq<Box?<Prompt>>, vs: seq<Option<PromptConfiguration>>, r: set<object?>,
                      p: Box?<Prompt>, cells: set<object?>)
    requires |ps| < |vs|
    ensures ListPrompts(ps, vs, r) && IsPrompt(p, vs[|ps|], cells) ==> ListPrompts(ps + [p], vs, r + cells)
  {
    if ListPrompts(ps, vs, r) && IsPrompt(p, vs[|ps|], cells) {
      ListPromptsGrows(ps, vs, r, r + cells);
      PromptGrows(p, vs[|ps|], cells, r + cells);
    }
  }

  /** The elements one by one; a pointer that is nil stays nil. */
  method CopyEachPrompt(ps: seq<Box?<Prompt>>, ghost vs: seq<Option<PromptConfiguration>>, ghost repr: set<object?>)
    returns (qs: seq<Box?<Prompt>>, ghost r: set<object?>)
    requires |ps| == |vs| && ListPrompts(ps, vs, repr) == true
    ensures fresh(r - {null}) && |qs| == |ps| && ListPrompts(qs, vs, r) == ListPrompts(ps, vs, repr)
  {
    qs, r := [], {null};
    for i := 0 to |ps|
      invariant fresh(r - {null}) && |qs| == i && ListPrompts(qs, vs, r) == true
    {
      assert ListPrompts(ps, vs, repr);
      var p, cells := CopyPrompt(ps[i], vs[i], repr);
      OnePromptMore(qs, vs, r, p, cells);
      qs, r := qs + [p], r + cells;
    }
  }

  method CopyPrompts(a: PromptSlice, ghost v: Option<seq<Option<PromptConfiguration>>>, ghost repr: set<object?>)
    returns (b: PromptSlice, ghost r: set<object?>)
    requires ArePrompts(a, v, repr)
    ensures fresh(r - {null}) && ArePrompts(b, v, r)
  {
    if a == null {
      return null, {null};
    }
    var copies, cells := CopyEachPrompt(a[..], v.value, repr);
    b := new Box?<Prompt>[a.Length](i requires 0 <= i < |copies| => copies[i]);
    assert b[..] == copies;
    r := cells + {b};
    ListPromptsGrows(copies, v.value, cells, r);
  }

  datatype Override = Override(overrideLambda: Box?<string>, promptConfigurations: PromptSlice)
  {
    ghost predicate StandsFor(v: PromptOverrideConfiguration, repr: set<object?>)
      reads repr
    {
      IsScalar(overrideLambda, v.overrideLambda, repr) && ArePrompts(promptConfigurations, v.promptConfigurations, repr)
    }

    lemma Grows(v: PromptOverrideConfiguration, r: set<object?>, r': set<object?>)
      requires StandsFor(v, r) && r <= r'
      ensures StandsFor(v, r')
    {
      PromptsGrow(promptConfigurations, v.promptConfigurations, r, r');
    }

    lemma HasOneValue(v: PromptOverrideConfiguration, u: PromptOverrideConfiguration, repr: set<object?>)
      requires StandsFor(v, repr) && StandsFor(u, repr)
      ensures v == u
    {
      PromptsHaveOneValue(promptConfigurations, v.promptConfigurations, u.promptConfigurations, repr);
    }

    method CopyFields(ghost v: PromptOverrideConfiguration, ghost repr: set<object?>)
      returns (res: Override, ghost r: set<object?>)
      requires StandsFor(v, repr)
      ensures fresh(r - {null}) && res.StandsFor(v, r) == StandsFor(v, repr)
    {
      var overrideLambda' := CopyScalar(overrideLambda);
      var promptConfigurations', cells := CopyPrompts(promptConfigurations, v.promptConfigurations, repr);
      res := Override(overrideLambda', promptConfigurations');
      r := cells + {overrideLambda'};
      PromptsGrow(promptConfigurations', v.promptConfigurations, cells, r);
    }

    method DeepCopyInto(out: Box<Override>, ghost v: PromptOverrideConfiguration, ghost repr: set<object?>)
      returns (ghost r: set<object?>)
      requires StandsFor(v, repr) && out !in repr
      modifies out
      ensures fresh(r - {null}) && out.value.StandsFor(v, r) == old(StandsFor(v, repr))
    {
      var res, added := CopyFields(v, repr);
      out.value := res;
      r := added;
    }
  }

  ghost predicate IsOverride(p: Box?<Override>, v: Option<PromptOverrideConfiguration>, repr: set<object?>)
    reads repr
  {
    && {null, p} <= repr && (p == null <==> v.None?)
    && (p != null ==> p.value.StandsFor(v.value, repr))
  }

  lemma OverrideGrows(p: Box?<Override>, v: Option<PromptOverrideConfiguration>, r: set<object?>, r': set<object?>)
    requires IsOverride(p, v, r) && r <= r'
    ensures IsOverride(p, v, r')
  {
    if p != null {
      p.value.Grows(v.value, r, r');
    }
  }

  method CopyOverride(p: Box?<Override>, ghost v: Option<PromptOverrideConfiguration>, ghost repr: set<object?>)
    returns (q: Box?<Override>, ghost r: set<object?>)
    requires IsOverride(p, v, repr)
    ensures fresh(r - {null}) && IsOverride(q, v, r)
  {
    q, r := null, {null};
    if p != null {
      q := new Box(Override(null, null));
      r := p.value.DeepCopyInto(q, v.value, repr);
      q.value.Grows(v.value, r, r + {null, q});
      r := r + {null, q};
    }
  }
}
