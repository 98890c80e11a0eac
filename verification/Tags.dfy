/** Tag maps: pkg/resource/agent/tags.go and pkg/resource/tags/sync.go. */
module Tags {
  import opened Api
  import opened Remote

  type TagMap = map<string, string>

  predicate IsAws(key: string) {
    "aws:" <= key
  }

  /** A nil map is empty and a nil value is "". */
  function Normalize(t: SpecTags): TagMap {
    if t.None? then map[] else map k | k in t.value :: if t.value[k].None? then "" else t.value[k].value
  }

  function FromTagMap(m: TagMap): SpecTags {
    Some(map k | k in m :: Some(m[k]))
  }

  function Mirror(desired: TagMap, latest: TagMap): TagMap {
    desired + map k | k in latest && IsAws(k) :: latest[k]
  }

  function Filter(m: TagMap, systemTags: seq<string>): TagMap {
    map k | k in m && !IsAws(k) && k !in systemTags :: m[k]
  }

  /** acktags.Merge: the left operand wins. */
  function Merge(a: TagMap, b: TagMap): TagMap {
    b + a
  }

  /** ackcompare.GetTagsDifference. */
  function Added(from: TagMap, to: TagMap): TagMap {
    map k | k in to && (k !in from || from[k] != to[k]) :: to[k]
  }

  function Removed(from: TagMap, to: TagMap): TagMap {
    map k | k in from && k !in to :: from[k]
  }

  lemma NormalizeFromTagMap(m: TagMap)
    ensures Normalize(FromTagMap(m)) == m
  {
  }

  // ----- The loops over tag maps -----

  /** acktags.Tags, a map that is changed in place. */
  class Tags {
    var m: TagMap

    constructor ()
      ensures m == map[]
    {
      m := map[];
    }
  }

  method ConvertToOrderedACKTags(tags: SpecTags) returns (result: Tags, keyOrder: seq<string>)
    ensures fresh(result) && result.m == Normalize(tags)
    ensures keyOrder == []
  {
    result := new Tags();
    keyOrder := [];
    if tags.None? || |tags.value| == 0 {
      return;
    }
    var rest := tags.value.Keys;
    while rest != {}
      invariant rest <= tags.value.Keys
      invariant fresh(result)
      invariant result.m == map k | k in Normalize(tags) && k !in rest :: Normalize(tags)[k]
      decreases |rest|
    {
      var k :| k in rest;
      if tags.value[k].None? {
        result.m := result.m[k := ""];
      } else {
        result.m := result.m[k := tags.value[k].value];
      }
      rest := rest - {k};
    }
  }

  /** The second conversion, of package tags: it sets one value per key whatever the map is. */
  method ToACKTags(tags: SpecTags) returns (result: Tags)
    ensures fresh(result) && result.m == Normalize(tags)
  {
    result := new Tags();
    var rest := if tags.Some? then tags.value.Keys else {};
    while rest != {}
      invariant rest <= Normalize(tags).Keys
      invariant fresh(result)
      invariant result.m == map k | k in Normalize(tags) && k !in rest :: Normalize(tags)[k]
      decreases |rest|
    {
      var k :| k in rest;
      var val := "";
      if tags.value[k].Some? {
        val := tags.value[k].value;
      }
      result.m := result.m[k := val];
      rest := rest - {k};
    }
  }

  method FromACKTags(tags: Tags, keyOrder: seq<string>) returns (result: SpecTags)
    ensures result == FromTagMap(tags.m)
  {
    var r: map<string, Option<string>> := map[];
    var rest := tags.m.Keys;
    while rest != {}
      invariant rest <= tags.m.Keys
      invariant r == map k | k in tags.m && k !in rest :: Some(tags.m[k])
      decreases |rest|
    {
      var k :| k in rest;
      r := r[k := Some(tags.m[k])];
      rest := rest - {k};
    }
    assert r == FromTagMap(tags.m).value;
    result := Some(r);
  }

  method IgnoreSystemTags(tags: Tags, systemTags: seq<string>)
    modifies tags
    ensures tags.m == Filter(old(tags.m), systemTags)
  {
    var rest := tags.m.Keys;
    while rest != {}
      invariant rest <= old(tags.m).Keys
      invariant tags.m == map k | k in old(tags.m) && (k in rest || (!IsAws(k) && k !in systemTags)) :: old(tags.m)[k]
      decreases |rest|
    {
      var k :| k in rest;
      if IsAws(k) || k in systemTags {
        tags.m := tags.m - {k};
      }
      rest := rest - {k};
    }
  }

  /** Mirrored up to the keys that the loop has yet to visit. */
  function MirroredBut(desired: TagMap, latest: TagMap, rest: set<string>): TagMap {
    desired + map k | k in latest && k !in rest && IsAws(k) :: latest[k]
  }

  lemma MirrorOneMore(desired: TagMap, latest: TagMap, rest: set<string>, k: string)
    requires k in rest && rest <= latest.Keys
    ensures var before := MirroredBut(desired, latest, rest);
            MirroredBut(desired, latest, rest - {k}) == if IsAws(k) then before[k := latest[k]] else before
  {
  }

  lemma MirrorAtTheEnds(desired: TagMap, latest: TagMap)
    ensures MirroredBut(desired, latest, latest.Keys) == desired
    ensures MirroredBut(desired, latest, {}) == Mirror(desired, latest)
  {
  }

  lemma MirrorOfItself(m: TagMap, rest: set<string>)
    ensures MirroredBut(m, m, rest) == m
  {
  }

  /** The two maps may be one object, which then does not change. */
  method SyncAWSTags(a: Tags, b: Tags)
    modifies a
    ensures a.m == Mirror(old(a.m), old(b.m))
  {
    ghost var desired, latest := a.m, b.m;
    var rest := b.m.Keys;
    MirrorAtTheEnds(desired, latest);
    while rest != {}
      invariant rest <= latest.Keys && b.m == latest
      invariant a.m == MirroredBut(desired, latest, rest)
      decreases |rest|
    {
      var k :| k in rest;
      MirrorOneMore(desired, latest, rest, k);
      if a == b {
        MirrorOfItself(desired, rest - {k});
      }
      if IsAws(k) {
        a.m := a.m[k := b.m[k]];
      }
      rest := rest - {k};
    }
  }

  // ----- Remote synchronisation -----

  function TagPlan(arn: string, desired: SpecTags, latest: SpecTags): seq<Call> {
    var from, to := Normalize(latest), Normalize(desired);
    var removed, added := Removed(from, to), Added(from, to);
    (if removed != map[] then [UntagResource(arn, removed.Keys)] else [])
    + (if added != map[] then [TagResource(arn, added)] else [])
  }

  method GetResourceTags(client: Client, arn: string) returns (r: Result<SpecTags>)
    modifies client
    ensures client.world == After(client.backend, old(client.world), ListTagsForResource(arn))
    ensures var failure := Failure(client.backend, old(client.world), ListTagsForResource(arn));
            r == if failure.Some? then Err(failure.value) else Ok(FromTagMap(old(client.world).tags[arn]))
  {
    var err := client.Invoke(ListTagsForResource(arn));
    if err.Some? {
      return Err(err.value);
    }
    var response := new Tags();
    response.m := client.world.tags[arn];
    var tags := FromACKTags(response, []);
    r := Ok(tags);
  }

  method SyncResourceTags(client: Client, arn: string, desired: SpecTags, latest: SpecTags) returns (err: Option<Error>)
    modifies client
    ensures client.world == Execute(client.backend, old(client.world), TagPlan(arn, desired, latest))
    ensures err == ExecuteError(client.backend, old(client.world), TagPlan(arn, desired, latest))
  {
    var from := ToACKTags(latest);
    var to := ToACKTags(desired);
    var added, removed := Added(from.m, to.m), Removed(from.m, to.m);
    ghost var untag := if removed != map[] then [UntagResource(arn, removed.Keys)] else [];
    ghost var tag := if added != map[] then [TagResource(arn, added)] else [];
    ExecuteConcat(client.backend, client.world, untag, tag);
    if |added| == 0 && |removed| == 0 {
      return None;
    }
    if |removed| > 0 {
      err := client.Invoke(UntagResource(arn, removed.Keys));
      if err.Some? {
        return;
      }
    }
    if |added| > 0 {
      err := client.Invoke(TagResource(arn, added));
      if err.Some? {
        return;
      }
    }
    err := None;
  }

  // ----- What synchronisation achieves -----

  function DiffKeys(m: TagMap, target: TagMap): set<string> {
    set k | k in m.Keys + target.Keys && !(k in m && k in target && m[k] == target[k])
  }

  /** A key that a call writes or deletes. */
  predicate Touches(call: Call, key: string) {
    (call.UntagResource? && key in call.keys) || (call.TagResource? && key in call.tags)
  }

  /** Exactly the keys on which the two maps differ are sent, each in one call. */
  lemma SendsExactlyTheDifference(arn: string, desired: SpecTags, latest: SpecTags, key: string)
    ensures (exists call :: call in TagPlan(arn, desired, latest) && Touches(call, key))
            <==> key in DiffKeys(Normalize(latest), Normalize(desired))
    ensures forall i, j :: 0 <= i < j < |TagPlan(arn, desired, latest)| ==>
              !(Touches(TagPlan(arn, desired, latest)[i], key) && Touches(TagPlan(arn, desired, latest)[j], key))
  {
    var from, to := Normalize(latest), Normalize(desired);
    var plan := TagPlan(arn, desired, latest);
    if key in Removed(from, to) {
      assert plan[0] == UntagResource(arn, Removed(from, to).Keys);
      assert Touches(plan[0], key);
    }
    if key in Added(from, to) {
      assert plan[|plan| - 1] == TagResource(arn, Added(from, to));
      assert Touches(plan[|plan| - 1], key);
    }
  }

  /** The drift test of delta.go and the writer of sync.go agree on when there is something to do. */
  lemma NoCallsIffSameTags(arn: string, desired: SpecTags, latest: SpecTags)
    ensures TagPlan(arn, desired, latest) == [] <==> Normalize(desired) == Normalize(latest)
  {
    var from, to := Normalize(latest), Normalize(desired);
    if TagPlan(arn, desired, latest) == [] {
      assert forall k :: k in from ==> k !in Removed(from, to);
      assert forall k :: k in to ==> k !in Added(from, to);
      assert from == to;
    } else {
      var k :| k in Removed(from, to) || k in Added(from, to);
    }
  }

  lemma UntagThenTag(from: TagMap, to: TagMap)
    ensures from - Removed(from, to).Keys + Added(from, to) == to
    ensures Removed(from, to) == map[] ==> from - Removed(from, to).Keys == from
    ensures Added(from, to) == map[] ==> from - Removed(from, to).Keys == to
    ensures DiffKeys(from - Removed(from, to).Keys, to) <= DiffKeys(from, to)
    ensures DiffKeys(to, to) == {}
  {
  }

  ghost predicate OnlyTagsOf(w: World, w': World, arn: string, m: TagMap) {
    arn in w.tags && w'.agents == w.agents && w'.tags == w.tags[arn := m]
  }

  lemma ExecuteUntag(bk: Backend, w: World, arn: string, removed: TagMap)
    requires arn in w.tags
    ensures var plan := if removed != map[] then [UntagResource(arn, removed.Keys)] else [];
            OnlyTagsOf(w, Execute(bk, w, plan), arn,
                       if removed != map[] && ExecuteError(bk, w, plan).None? then w.tags[arn] - removed.Keys
                       else w.tags[arn])
  {
  }

  lemma ExecuteTag(bk: Backend, w: World, arn: string, added: TagMap)
    requires arn in w.tags
    ensures var plan := if added != map[] then [TagResource(arn, added)] else [];
            OnlyTagsOf(w, Execute(bk, w, plan), arn,
                       if added != map[] && ExecuteError(bk, w, plan).None? then w.tags[arn] + added else w.tags[arn])
  {
  }

  /** The remote tags after a synchronisation: the target if nothing failed, and in any case every key has
      either its old or its desired value, so they differ from the target on no key they did not differ on
      before. Nothing but the tags of this one resource changes. */
  lemma SyncReachesTarget(bk: Backend, w: World, arn: string, desired: SpecTags, latest: SpecTags)
    requires arn in w.tags && w.tags[arn] == Normalize(latest)
    ensures var w' := Execute(bk, w, TagPlan(arn, desired, latest));
            && arn in w'.tags
            && (ExecuteError(bk, w, TagPlan(arn, desired, latest)).None? ==> w'.tags[arn] == Normalize(desired))
            && DiffKeys(w'.tags[arn], Normalize(desired)) <= DiffKeys(w.tags[arn], Normalize(desired))
            && w'.agents == w.agents && w'.tags == w.tags[arn := w'.tags[arn]]
  {
    var from, to := Normalize(latest), Normalize(desired);
    var removed, added := Removed(from, to), Added(from, to);
    UntagThenTag(from, to);
    var untag := if removed != map[] then [UntagResource(arn, removed.Keys)] else [];
    var tag := if added != map[] then [TagResource(arn, added)] else [];
    ExecuteConcat(bk, w, untag, tag);
    ExecuteUntag(bk, w, arn, removed);
    if ExecuteError(bk, w, untag).None? {
      var w1 := Execute(bk, w, untag);
      assert w1.tags[arn] == from - removed.Keys;
      ExecuteTag(bk, w1, arn, added);
    }
  }

  /** Whatever failed the first time, reading the tags again and retrying without a failure completes the job. */
  lemma RetryCompletes(bk: Backend, w: World, arn: string, desired: SpecTags, latest: SpecTags)
    requires arn in w.tags && w.tags[arn] == Normalize(latest)
    ensures var w1 := Execute(bk, w, TagPlan(arn, desired, latest));
            && arn in w1.tags
            && var plan := TagPlan(arn, desired, FromTagMap(w1.tags[arn]));
               var w2 := Execute(bk, w1, plan);
               ExecuteError(bk, w1, plan).None? ==> arn in w2.tags && w2.tags[arn] == Normalize(desired)
  {
    SyncReachesTarget(bk, w, arn, desired, latest);
    var w1 := Execute(bk, w, TagPlan(arn, desired, latest));
    NormalizeFromTagMap(w1.tags[arn]);
    SyncReachesTarget(bk, w1, arn, desired, FromTagMap(w1.tags[arn]));
  }

  // ----- Tags that AWS owns -----

  /** The desired tags after a read has mirrored the observed ones. */
  function MirrorSpec(desired: SpecTags, latest: SpecTags): SpecTags {
    FromTagMap(Mirror(Normalize(desired), Normalize(latest)))
  }

  /** After mirroring, an `aws:` tag that the resource has is in no call, and it survives the
      synchronisation with its value, whichever calls fail. */
  lemma AwsTagsAreProtected(bk: Backend, w: World, arn: string, desired: SpecTags, latest: SpecTags, key: string)
    requires arn in w.tags && w.tags[arn] == Normalize(latest)
    requires IsAws(key) && key in w.tags[arn]
    ensures var plan := TagPlan(arn, MirrorSpec(desired, latest), latest);
            && (forall call :: call in plan ==> !Touches(call, key))
            && arn in Execute(bk, w, plan).tags && key in Execute(bk, w, plan).tags[arn]
            && Execute(bk, w, plan).tags[arn][key] == w.tags[arn][key]
  {
    var target := MirrorSpec(desired, latest);
    NormalizeFromTagMap(Mirror(Normalize(desired), Normalize(latest)));
    SendsExactlyTheDifference(arn, target, latest, key);
    SyncReachesTarget(bk, w, arn, target, latest);
    var w' := Execute(bk, w, TagPlan(arn, target, latest));
    assert key !in DiffKeys(w.tags[arn], Normalize(target));
    assert key !in DiffKeys(w'.tags[arn], Normalize(target));
  }

  lemma MirrorIsIdempotent(desired: TagMap, latest: TagMap)
    ensures Mirror(Mirror(desired, latest), latest) == Mirror(desired, latest)
  {
  }

  // ----- Injected tags are filtered out again -----

  function FilterSpec(t: SpecTags, systemTags: seq<string>): SpecTags {
    FromTagMap(Filter(Normalize(t), systemTags))
  }

  function EnsureSpec(t: SpecTags, defaults: TagMap): SpecTags {
    FromTagMap(Merge(Normalize(t), defaults))
  }

  lemma FilterAbsorbsMirror(desired: SpecTags, latest: SpecTags, systemTags: seq<string>)
    ensures FilterSpec(MirrorSpec(desired, latest), systemTags) == FilterSpec(desired, systemTags)
  {
    var d, l := Normalize(desired), Normalize(latest);
    NormalizeFromTagMap(Mirror(d, l));
    assert Filter(Mirror(d, l), systemTags) == Filter(d, systemTags);
  }

  /** Filtering undoes the injection of the default tags exactly when each default key was there already, is
      an `aws:` key or is a system key. */
  lemma FilterAbsorbsEnsureIff(t: SpecTags, defaults: TagMap, systemTags: seq<string>)
    ensures FilterSpec(EnsureSpec(t, defaults), systemTags) == FilterSpec(t, systemTags)
            <==> forall k :: k in defaults ==> k in Normalize(t) || IsAws(k) || k in systemTags
  {
    var m := Normalize(t);
    NormalizeFromTagMap(Merge(m, defaults));
    NormalizeFromTagMap(Filter(m, systemTags));
    NormalizeFromTagMap(Filter(Merge(m, defaults), systemTags));
    if forall k :: k in defaults ==> k in m || IsAws(k) || k in systemTags {
      assert Filter(Merge(m, defaults), systemTags) == Filter(m, systemTags);
    } else {
      var k :| k in defaults && !(k in m || IsAws(k) || k in systemTags);
      assert k in Filter(Merge(m, defaults), systemTags) && k !in Filter(m, systemTags);
    }
  }

  lemma FilterAndEnsureAreIdempotent(t: SpecTags, defaults: TagMap, systemTags: seq<string>)
    ensures FilterSpec(FilterSpec(t, systemTags), systemTags) == FilterSpec(t, systemTags)
    ensures EnsureSpec(EnsureSpec(t, defaults), defaults) == EnsureSpec(t, defaults)
  {
    var m := Normalize(t);
    NormalizeFromTagMap(Filter(m, systemTags));
    NormalizeFromTagMap(Merge(m, defaults));
    assert Filter(Filter(m, systemTags), systemTags) == Filter(m, systemTags);
    assert Merge(Merge(m, defaults), defaults) == Merge(m, defaults);
  }

  lemma EnsureKeepsValues(t: SpecTags, defaults: TagMap)
    ensures Normalize(EnsureSpec(t, defaults)).Keys == Normalize(t).Keys + defaults.Keys
    ensures var own, ensured := Normalize(t), Normalize(EnsureSpec(t, defaults));
            && (forall k :: k in own ==> k in ensured && ensured[k] == own[k])
            && (forall k :: k in defaults && k !in own ==> k in ensured && ensured[k] == defaults[k])
  {
  }

  // ----- The operations key by key -----

  predicate Has(t: SpecTags, k: string) {
    t.Some? && k in t.value
  }

  /** The value of a tag, where nil is "". */
  function ValueOf(t: SpecTags, k: string): string
    requires Has(t, k)
  {
    if t.value[k].Some? then t.value[k].value else ""
  }

  /** Filtering keeps exactly the keys that neither begin with "aws:" nor are system keys, with their values. */
  lemma FilteredKey(t: SpecTags, systemTags: seq<string>, k: string)
    ensures var filtered := FilterSpec(t, systemTags);
            && (Has(filtered, k) <==> Has(t, k) && !("aws:" <= k) && k !in systemTags)
            && (Has(filtered, k) ==> filtered.value[k] == Some(ValueOf(t, k)))
  {
  }

  /** Mirroring takes the keys of the latest tags that begin with "aws:", and leaves all other desired tags alone. */
  lemma MirroredKey(desired: SpecTags, latest: SpecTags, k: string)
    ensures var mirrored := MirrorSpec(desired, latest);
            && (Has(mirrored, k) <==> Has(desired, k) || ("aws:" <= k && Has(latest, k)))
            && (Has(mirrored, k) ==>
                  mirrored.value[k]
                  == if "aws:" <= k && Has(latest, k) then Some(ValueOf(latest, k)) else Some(ValueOf(desired, k)))
  {
  }

  /** Ensuring adds the default keys, and the own value of a key wins. */
  lemma EnsuredKey(t: SpecTags, defaults: TagMap, k: string)
    ensures var ensured := EnsureSpec(t, defaults);
            && (Has(ensured, k) <==> Has(t, k) || k in defaults)
            && (Has(ensured, k) ==>
                  ensured.value[k] == if Has(t, k) then Some(ValueOf(t, k)) else Some(defaults[k]))
  {
  }

  /** A key that is desired, and missing or present with another value. */
  predicate NeedsTag(desired: SpecTags, latest: SpecTags, k: string) {
    Has(desired, k) && (Has(latest, k) ==> ValueOf(latest, k) != ValueOf(desired, k))
  }

  predicate NeedsUntag(desired: SpecTags, latest: SpecTags, k: string) {
    Has(latest, k) && !Has(desired, k)
  }

  /** A call of a synchronisation is for the ARN, and has exactly the keys that need it, with the desired values. */
  lemma CallByKey(arn: string, desired: SpecTags, latest: SpecTags, call: Call, k: string)
    requires call in TagPlan(arn, desired, latest)
    ensures match call
            case UntagResource(untagArn, keys) => untagArn == arn && (k in keys <==> NeedsUntag(desired, latest, k))
            case TagResource(tagArn, tags) =>
              && tagArn == arn && (k in tags <==> NeedsTag(desired, latest, k))
              && (k in tags ==> tags[k] == ValueOf(desired, k))
            case _ => false
  {
  }

  /** The calls are made iff some key needs them, and UntagResource comes first. */
  lemma CallsAreMadeIff(arn: string, desired: SpecTags, latest: SpecTags)
    ensures var plan := TagPlan(arn, desired, latest);
            && ((exists call :: call in plan && call.UntagResource?) <==> exists k :: NeedsUntag(desired, latest, k))
            && ((exists call :: call in plan && call.TagResource?) <==> exists k :: NeedsTag(desired, latest, k))
            && (forall i, j :: 0 <= i < j < |plan| ==> plan[i].UntagResource? && plan[j].TagResource?)
  {
    var from, to := Normalize(latest), Normalize(desired);
    UntagIsNeededIff(desired, latest);
    TagIsNeededIff(desired, latest);
    var plan := TagPlan(arn, desired, latest);
    if Removed(from, to) != map[] {
      assert plan[0].UntagResource?;
    }
    if Added(from, to) != map[] {
      assert plan[|plan| - 1].TagResource?;
    }
  }

  lemma UntagIsNeededIff(desired: SpecTags, latest: SpecTags)
    ensures Removed(Normalize(latest), Normalize(desired)) != map[] <==> exists k :: NeedsUntag(desired, latest, k)
  {
    var removed := Removed(Normalize(latest), Normalize(desired));
    assert forall k :: k in removed <==> NeedsUntag(desired, latest, k);
    if removed != map[] {
      var k :| k in removed;
    }
  }

  lemma TagIsNeededIff(desired: SpecTags, latest: SpecTags)
    ensures Added(Normalize(latest), Normalize(desired)) != map[] <==> exists k :: NeedsTag(desired, latest, k)
  {
    var added := Added(Normalize(latest), Normalize(desired));
    assert forall k :: k in added <==> NeedsTag(desired, latest, k);
    if added != map[] {
      var k :| k in added;
    }
  }
}
