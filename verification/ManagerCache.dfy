/** The cache of resource managers: ManagerFor of pkg/resource/agent/manager_factory.go, run alone and under every
    interleaving of its steps by any number of callers. */
module ManagerCache {

  /** The part of a request that names a resource manager. */
  datatype Request = Request(id: string, region: string, roleARN: string)

  function KeyOf(r: Request): string {
    r.id + "/" + r.region + "/" + r.roleARN
  }

  // ----- The key format -----

  predicate IsPlain(s: string) {
    '/' !in s
  }

  predicate HasPlainNames(r: Request) {
    IsPlain(r.id) && IsPlain(r.region)
  }

  /** Where a string without '/' ends is decided by the first '/'. */
  lemma {:induction false} SplitAtSlash(a: string, b: string, x: string, y: string)
    requires IsPlain(a) && IsPlain(b) && a + "/" + x == b + "/" + y
    ensures a == b && x == y
    decreases |a|
  {
    var s := a + "/" + x;
    assert s[0] == if a == [] then '/' else a[0];
    assert s[0] == if b == [] then '/' else b[0];
    if a == [] {
      assert b == [];
      assert x == s[1..] == y;
    } else {
      assert b != [];
      assert a[1..] + "/" + x == s[1..] == b[1..] + "/" + y;
      SplitAtSlash(a[1..], b[1..], x, y);
      assert a == [a[0]] + a[1..] && b == [b[0]] + b[1..];
    }
  }

  lemma KeysAreInjective(r: Request, q: Request)
    requires HasPlainNames(r) && HasPlainNames(q) && KeyOf(r) == KeyOf(q)
    ensures r == q
  {
    assert KeyOf(r) == r.id + "/" + (r.region + "/" + r.roleARN);
    assert KeyOf(q) == q.id + "/" + (q.region + "/" + q.roleARN);
    SplitAtSlash(r.id, q.id, r.region + "/" + r.roleARN, q.region + "/" + q.roleARN);
    SplitAtSlash(r.region, q.region, r.roleARN, q.roleARN);
  }

  /** With a '/' in a region two different requests share a key. */
  lemma KeysCollide()
    ensures exists r: Request, q: Request :: KeyOf(r) == KeyOf(q) && r.id != q.id
  {
    var r, q := Request("1", "2/3", "4"), Request("1/2", "3", "4");
    assert KeyOf(r) == "1/2/3/4" == KeyOf(q);
    assert |r.id| != |q.id|;
  }

  lemma {:induction false} SplitOff(s: string) returns (a: string, x: string)
    requires '/' in s
    ensures IsPlain(a) && s == a + "/" + x
  {
    if s[0] == '/' {
      a, x := "", s[1..];
      assert s == "/" + x;
    } else {
      assert s == [s[0]] + s[1..];
      a, x := SplitOff(s[1..]);
      a := [s[0]] + a;
    }
  }

  /** Every key is the key of a request with plain names: the one read off at the first two slashes. */
  lemma PlainNamesOf(r: Request) returns (q: Request)
    ensures HasPlainNames(q) && KeyOf(q) == KeyOf(r)
    ensures q == r <==> HasPlainNames(r)
  {
    if !IsPlain(r.id) {
      var a, u := SplitOff(r.id);
      var b, v := SplitOff(u + "/" + r.region + "/" + r.roleARN);
      q := Request(a, b, v);
      assert KeyOf(q) == a + "/" + (b + "/" + v) == a + "/" + (u + "/" + r.region + "/" + r.roleARN);
    } else if !IsPlain(r.region) {
      var b, v := SplitOff(r.region);
      q := Request(r.id, b, v + "/" + r.roleARN);
    } else {
      q := r;
    }
  }

  /** The exact condition: a request shares its key with no request that has plain names but itself iff its own
      names are plain. */
  lemma KeyIsUniqueIff(r: Request)
    ensures HasPlainNames(r) <==> forall q :: HasPlainNames(q) && KeyOf(q) == KeyOf(r) ==> q == r
  {
    var plain := PlainNamesOf(r);
    if HasPlainNames(r) {
      forall q | HasPlainNames(q) && KeyOf(q) == KeyOf(r) ensures q == r {
        KeysAreInjective(r, q);
      }
    }
  }

  // ----- One caller -----

  class ResourceManager {
    const request: Request

    constructor (request: Request)
      ensures this.request == request
    {
      this.request := request;
    }
  }

  class Factory {
    var rmCache: map<string, ResourceManager>

    constructor ()
      ensures Valid() && rmCache == map[]
    {
      rmCache := map[];
    }

    ghost predicate Valid()
      reads this
    {
      forall k :: k in rmCache ==> KeyOf(rmCache[k].request) == k
    }

    method ManagerFor(request: Request) returns (rm: ResourceManager)
      requires Valid()
      modifies this
      ensures Valid() && KeyOf(rm.request) == KeyOf(request)
      ensures HasPlainNames(rm.request) && HasPlainNames(request) ==> rm.request == request
      ensures rmCache == old(rmCache)[KeyOf(request) := rm]
      ensures if KeyOf(request) in old(rmCache) then rm == old(rmCache)[KeyOf(request)]
              else fresh(rm) && rm.request == request
    {
      var rmId := KeyOf(request);
      if rmId in rmCache {
        rm := rmCache[rmId];
        if HasPlainNames(rm.request) && HasPlainNames(request) {
          KeysAreInjective(rm.request, request);
        }
        assert rmCache == rmCache[rmId := rm];
        return;
      }
      rm := new ResourceManager(request);
      rmCache := rmCache[rmId := rm];
    }
  }

  // ----- Many callers -----

  /** A manager is known by the order in which it was built. */
  datatype Manager = Manager(serial: nat, request: Request)

  datatype Lookup = Hit(rm: Manager) | Miss

  /** Where a call of ManagerFor is. `Reading` and `Looked` hold the read lock, `Writing`, `Built` and `Stored` the
      write lock; `built` tells whether the manager returned was built by this call. */
  datatype Phase =
    | Start
    | Reading
    | Looked(lookup: Lookup)
    | Missed
    | Writing
    | Built(made: Manager)
    | Stored(stored: Manager)
    | Done(returned: Manager, built: bool)

  datatype Call = Call(request: Request, phase: Phase)

  datatype State = State(cache: map<string, Manager>, calls: map<nat, Call>, requests: set<Request>, next: nat)

  const INITIAL := State(map[], map[], {}, 0)

  predicate HoldsRead(p: Phase) {
    p.Reading? || p.Looked?
  }

  predicate HoldsWrite(p: Phase) {
    p.Writing? || p.Built? || p.Stored?
  }

  predicate NoneHoldsWrite(s: State) {
    forall t :: t in s.calls ==> !HoldsWrite(s.calls[t].phase)
  }

  predicate NoneHoldsLock(s: State) {
    forall t :: t in s.calls ==> !HoldsWrite(s.calls[t].phase) && !HoldsRead(s.calls[t].phase)
  }

  function Moved(s: State, t: nat, p: Phase): State
    requires t in s.calls
  {
    s.(calls := s.calls[t := s.calls[t].(phase := p)])
  }

  function Looking(s: State, key: string): Lookup {
    if key in s.cache then Hit(s.cache[key]) else Miss
  }

  /** The steps of call `t`: it begins with any request, and then goes through the phases as the locks allow. */
  predicate IsStep(s: State, s': State, t: nat, request: Request) {
    if t !in s.calls then
      s' == s.(calls := s.calls[t := Call(request, Start)], requests := s.requests + {request})
    else
      var key := KeyOf(s.calls[t].request);
      match s.calls[t].phase
      case Start => NoneHoldsWrite(s) && s' == Moved(s, t, Reading)
      case Reading => s' == Moved(s, t, Looked(Looking(s, key)))
      case Looked(Hit(rm)) => s' == Moved(s, t, Done(rm, false))
      case Looked(Miss) => s' == Moved(s, t, Missed)
      case Missed => NoneHoldsLock(s) && s' == Moved(s, t, Writing)
      case Writing => s' == Moved(s, t, Built(Manager(s.next, s.calls[t].request))).(next := s.next + 1)
      case Built(rm) => s' == Moved(s, t, Stored(rm)).(cache := s.cache[key := rm])
      case Stored(rm) => s' == Moved(s, t, Done(rm, true))
      case Done(_, _) => false
  }

  ghost predicate IsNext(s: State, s': State) {
    exists t: nat, request: Request :: IsStep(s, s', t, request)
  }

  /** An execution: any calls, interleaved in any way. */
  ghost predicate IsExecution(states: seq<State>) {
    states != [] && states[0] == INITIAL && forall i :: 0 <= i < |states| - 1 ==> IsNext(states[i], states[i + 1])
  }

  // ----- Invariants -----

  /** The manager that a call has come to, if it has. */
  function ManagerOf(p: Phase): Lookup {
    match p
    case Looked(l) => l
    case Built(rm) => Hit(rm)
    case Stored(rm) => Hit(rm)
    case Done(rm, _) => Hit(rm)
    case _ => Miss
  }

  predicate Serves(s: State, rm: Manager, key: string) {
    KeyOf(rm.request) == key && rm.request in s.requests
  }

  predicate CacheServes(s: State) {
    forall k :: k in s.cache ==> Serves(s, s.cache[k], k)
  }

  /** A call has only managers for its own key, and its request is known. */
  predicate IsServed(s: State, c: Call) {
    && c.request in s.requests
    && (ManagerOf(c.phase).Hit? ==> Serves(s, ManagerOf(c.phase).rm, KeyOf(c.request)))
  }

  predicate CallsAreServed(s: State) {
    forall t :: t in s.calls ==> IsServed(s, s.calls[t])
  }

  /** The phases in which the key of the call must be cached. */
  predicate IsPastStore(p: Phase) {
    p.Stored? || p.Done? || (p.Looked? && p.lookup.Hit?)
  }

  predicate StoredKeysAreCached(s: State) {
    forall t :: t in s.calls && IsPastStore(s.calls[t].phase) ==> KeyOf(s.calls[t].request) in s.cache
  }

  /** A writer excludes all other holders of the lock. */
  predicate LockExcludes(s: State) {
    forall t, u :: t in s.calls && u in s.calls && t != u && HoldsWrite(s.calls[t].phase) ==>
      !HoldsWrite(s.calls[u].phase) && !HoldsRead(s.calls[u].phase)
  }

  predicate Invariant(s: State) {
    CacheServes(s) && CallsAreServed(s) && StoredKeysAreCached(s) && LockExcludes(s)
  }

  /** A step changes one call, adds to the requests and to the cache, and never takes away. */
  lemma StepChanges(s: State, s': State, t: nat, request: Request)
    requires IsStep(s, s', t, request)
    ensures t in s'.calls && s'.calls == s.calls[t := s'.calls[t]]
    ensures t in s.calls ==> s'.calls[t].request == s.calls[t].request
    ensures s.requests <= s'.requests && s.cache.Keys <= s'.cache.Keys
    ensures s'.cache == if t in s.calls && s.calls[t].phase.Built?
                        then s.cache[KeyOf(s.calls[t].request) := s.calls[t].phase.made] else s.cache
  {
  }

  lemma StepKeepsCacheServing(s: State, s': State, t: nat, request: Request)
    requires CacheServes(s) && CallsAreServed(s) && IsStep(s, s', t, request)
    ensures CacheServes(s')
  {
  }

  lemma StepKeepsCallsServed(s: State, s': State, t: nat, request: Request)
    requires CacheServes(s) && CallsAreServed(s) && IsStep(s, s', t, request)
    ensures CallsAreServed(s')
  {
  }

  lemma StepKeepsStoredKeys(s: State, s': State, t: nat, request: Request)
    requires StoredKeysAreCached(s) && IsStep(s, s', t, request)
    ensures StoredKeysAreCached(s')
  {
  }

  lemma StepKeepsLock(s: State, s': State, t: nat, request: Request)
    requires LockExcludes(s) && IsStep(s, s', t, request)
    ensures LockExcludes(s')
  {
  }

  lemma {:induction false} InvariantHolds(states: seq<State>, i: nat)
    requires IsExecution(states) && i < |states|
    ensures Invariant(states[i])
  {
    if i > 0 {
      InvariantHolds(states, i - 1);
      assert IsNext(states[i - 1], states[i]);
      var t: nat, request: Request :| IsStep(states[i - 1], states[i], t, request);
      StepKeepsCacheServing(states[i - 1], states[i], t, request);
      StepKeepsCallsServed(states[i - 1], states[i], t, request);
      StepKeepsStoredKeys(states[i - 1], states[i], t, request);
      StepKeepsLock(states[i - 1], states[i], t, request);
    }
  }

  // ----- What callers can rely on -----

  predicate HasReturned(s: State, t: nat) {
    t in s.calls && s.calls[t].phase.Done?
  }

  /** A manager that is returned was built for a request with the same key; if no account and no region in use
      contains a '/', it is for the requested account and region. */
  lemma ReturnsRequestedManager(states: seq<State>, i: nat, t: nat)
    requires IsExecution(states) && i < |states| && HasReturned(states[i], t)
    ensures var c := states[i].calls[t];
            && KeyOf(c.phase.returned.request) == KeyOf(c.request)
            && ((forall r :: r in states[i].requests ==> HasPlainNames(r)) ==> c.phase.returned.request == c.request)
  {
    InvariantHolds(states, i);
    var c := states[i].calls[t];
    assert IsServed(states[i], c);
    if forall r :: r in states[i].requests ==> HasPlainNames(r) {
      KeysAreInjective(c.phase.returned.request, c.request);
    }
  }

  lemma {:induction false} CachedKeysStay(states: seq<State>, i: nat, j: nat)
    requires IsExecution(states) && i <= j < |states|
    ensures states[i].cache.Keys <= states[j].cache.Keys
    decreases j
  {
    if i < j {
      CachedKeysStay(states, i, j - 1);
      assert IsNext(states[j - 1], states[j]);
      var t: nat, request: Request :| IsStep(states[j - 1], states[j], t, request);
      StepChanges(states[j - 1], states[j], t, request);
    }
  }

  /** A call that has not looked yet, or has found what it was looking for. */
  predicate BuildsNothing(p: Phase) {
    p.Start? || p.Reading? || (p.Looked? && p.lookup.Hit?) || (p.Done? && !p.built)
  }

  predicate IsLate(s: State, t: nat) {
    t !in s.calls || s.calls[t].phase.Start?
  }

  lemma StepBuildsNothing(s: State, s': State, u: nat, request: Request, t: nat, key: string)
    requires IsStep(s, s', u, request) && key in s.cache
    requires t in s.calls ==> (KeyOf(s.calls[t].request) == key ==> BuildsNothing(s.calls[t].phase))
    ensures t in s'.calls ==> (KeyOf(s'.calls[t].request) == key ==> BuildsNothing(s'.calls[t].phase))
  {
  }

  /** A call that starts after another call for the same key has returned never builds a manager. */
  lemma {:induction false} LaterCallBuildsNothing(states: seq<State>, i: nat, j: nat, first: nat, t: nat)
    requires IsExecution(states) && i <= j < |states|
    requires HasReturned(states[i], first) && IsLate(states[i], t)
    ensures t in states[j].calls && KeyOf(states[j].calls[t].request) == KeyOf(states[i].calls[first].request) ==>
              BuildsNothing(states[j].calls[t].phase)
    decreases j
  {
    var key := KeyOf(states[i].calls[first].request);
    if i < j {
      LaterCallBuildsNothing(states, i, j - 1, first, t);
      InvariantHolds(states, i);
      CachedKeysStay(states, i, j - 1);
      assert IsNext(states[j - 1], states[j]);
      var u: nat, request: Request :| IsStep(states[j - 1], states[j], u, request);
      StepBuildsNothing(states[j - 1], states[j], u, request, t, key);
    }
  }

  /** Between its miss and its store. */
  predicate IsPending(p: Phase) {
    (p.Looked? && p.lookup.Miss?) || p.Missed? || p.Writing? || p.Built?
  }

  /** The key is cached, and no call for it is between its miss and its store. */
  predicate IsQuiet(s: State, key: string) {
    key in s.cache && forall t :: t in s.calls && KeyOf(s.calls[t].request) == key ==> !IsPending(s.calls[t].phase)
  }

  lemma StepStaysQuiet(s: State, s': State, t: nat, request: Request, key: string)
    requires IsStep(s, s', t, request) && IsQuiet(s, key)
    ensures IsQuiet(s', key) && s'.cache[key] == s.cache[key]
  {
  }

  lemma {:induction false} StaysQuiet(states: seq<State>, i: nat, j: nat, key: string)
    requires IsExecution(states) && i <= j < |states| && IsQuiet(states[i], key)
    ensures IsQuiet(states[j], key) && states[j].cache[key] == states[i].cache[key]
    decreases j
  {
    if i < j {
      StaysQuiet(states, i, j - 1, key);
      assert IsNext(states[j - 1], states[j]);
      var t: nat, request: Request :| IsStep(states[j - 1], states[j], t, request);
      StepStaysQuiet(states[j - 1], states[j], t, request, key);
    }
  }

  /** The call has not looked yet, or it has what the cache has. */
  predicate Agrees(s: State, t: nat, key: string)
    requires key in s.cache
  {
    t in s.calls && KeyOf(s.calls[t].request) == key ==>
      var p := s.calls[t].phase;
      p.Start? || p.Reading? || p == Looked(Hit(s.cache[key])) || p == Done(s.cache[key], false)
  }

  lemma StepStaysAgreed(s: State, s': State, u: nat, request: Request, t: nat, key: string)
    requires IsStep(s, s', u, request) && IsQuiet(s, key) && Agrees(s, t, key)
    ensures IsQuiet(s', key) && Agrees(s', t, key)
  {
  }

  /** Once no call for a key is between its miss and its store, all later calls for it return one manager, the
      cached one. */
  lemma {:induction false} LaterCallsAgree(states: seq<State>, i: nat, j: nat, t: nat, key: string)
    requires IsExecution(states) && i <= j < |states| && IsQuiet(states[i], key) && IsLate(states[i], t)
    ensures IsQuiet(states[j], key) && states[j].cache[key] == states[i].cache[key] && Agrees(states[j], t, key)
    ensures HasReturned(states[j], t) && KeyOf(states[j].calls[t].request) == key ==>
              states[j].calls[t].phase.returned == states[i].cache[key]
    decreases j
  {
    StaysQuiet(states, i, j, key);
    if i < j {
      LaterCallsAgree(states, i, j - 1, t, key);
      assert IsNext(states[j - 1], states[j]);
      var u: nat, request: Request :| IsStep(states[j - 1], states[j], u, request);
      StepStaysAgreed(states[j - 1], states[j], u, request, t, key);
    }
  }

  // ----- Two managers for one key -----

  function Last(states: seq<State>): State
    requires states != []
  {
    states[|states| - 1]
  }

  lemma Then(states: seq<State>, s: State, t: nat, request: Request) returns (longer: seq<State>)
    requires IsExecution(states) && IsStep(Last(states), s, t, request)
    ensures IsExecution(longer) && Last(longer) == s && states <= longer
  {
    longer := states + [s];
    forall i | 0 <= i < |longer| - 1 ensures IsNext(longer[i], longer[i + 1]) {
      if i < |states| - 1 {
        assert IsNext(states[i], states[i + 1]);
      } else {
        assert IsStep(longer[i], longer[i + 1], t, request);
      }
    }
  }

  /** Two calls for the same request, and nothing else. */
  function Both(r: Request, p: Phase, q: Phase, cache: map<string, Manager>, next: nat): State {
    State(cache, map[0 := Call(r, p), 1 := Call(r, q)], {r}, next)
  }

  lemma BothMiss(r: Request) returns (states: seq<State>)
    ensures IsExecution(states) && Last(states) == Both(r, Missed, Missed, map[], 0)
  {
    states := [INITIAL];
    states := Then(states, State(map[], map[0 := Call(r, Start)], {r}, 0), 0, r);
    states := Then(states, Both(r, Start, Start, map[], 0), 1, r);
    states := Then(states, Both(r, Reading, Start, map[], 0), 0, r);
    states := Then(states, Both(r, Reading, Reading, map[], 0), 1, r);
    states := Then(states, Both(r, Looked(Miss), Reading, map[], 0), 0, r);
    states := Then(states, Both(r, Looked(Miss), Looked(Miss), map[], 0), 1, r);
    states := Then(states, Both(r, Missed, Looked(Miss), map[], 0), 0, r);
    states := Then(states, Both(r, Missed, Missed, map[], 0), 1, r);
  }

  lemma FirstReturns(r: Request) returns (states: seq<State>)
    ensures IsExecution(states)
    ensures Last(states) == Both(r, Done(Manager(0, r), true), Missed, map[KeyOf(r) := Manager(0, r)], 1)
  {
    var a := Manager(0, r);
    var one := map[KeyOf(r) := a];
    states := BothMiss(r);
    states := Then(states, Both(r, Writing, Missed, map[], 0), 0, r);
    states := Then(states, Both(r, Built(a), Missed, map[], 1), 0, r);
    states := Then(states, Both(r, Stored(a), Missed, one, 1), 0, r);
    states := Then(states, Both(r, Done(a, true), Missed, one, 1), 0, r);
  }

  /** The write lock is taken without looking again: two calls that both miss get two different managers. */
  lemma TwoManagersForOneKey(r: Request) returns (states: seq<State>)
    ensures IsExecution(states) && HasReturned(Last(states), 0) && HasReturned(Last(states), 1)
    ensures Last(states).calls[0].request == Last(states).calls[1].request == r
    ensures Last(states).calls[0].phase.returned != Last(states).calls[1].phase.returned
  {
    var a, b, key := Manager(0, r), Manager(1, r), KeyOf(r);
    var one, two := map[key := a], map[key := b];
    states := FirstReturns(r);
    states := Then(states, Both(r, Done(a, true), Writing, one, 1), 1, r);
    states := Then(states, Both(r, Done(a, true), Built(b), one, 2), 1, r);
    assert one[key := b] == two;
    states := Then(states, Both(r, Done(a, true), Stored(b), two, 2), 1, r);
    states := Then(states, Both(r, Done(a, true), Done(b, true), two, 2), 1, r);
  }

  // ----- A pending call still changes the manager -----

  /** A manager that is made but not stored is younger than all the cached ones. */
  predicate IsYoungest(s: State, rm: Manager) {
    rm.serial < s.next && forall k :: k in s.cache ==> s.cache[k].serial < rm.serial
  }

  predicate SerialsGrow(s: State) {
    && (forall k :: k in s.cache ==> s.cache[k].serial < s.next)
    && (forall t :: t in s.calls && s.calls[t].phase.Built? ==> IsYoungest(s, s.calls[t].phase.made))
  }

  lemma StepKeepsSerials(s: State, s': State, t: nat, request: Request)
    requires SerialsGrow(s) && LockExcludes(s) && IsStep(s, s', t, request)
    ensures SerialsGrow(s')
  {
  }

  lemma {:induction false} SerialsAlwaysGrow(states: seq<State>, i: nat)
    requires IsExecution(states) && i < |states|
    ensures SerialsGrow(states[i])
  {
    if i > 0 {
      SerialsAlwaysGrow(states, i - 1);
      InvariantHolds(states, i - 1);
      assert IsNext(states[i - 1], states[i]);
      var t: nat, request: Request :| IsStep(states[i - 1], states[i], t, request);
      StepKeepsSerials(states[i - 1], states[i], t, request);
    }
  }

  predicate HoldsLock(p: Phase) {
    HoldsRead(p) || HoldsWrite(p)
  }

  function Holders(s: State): set<nat> {
    set t | t in s.calls && HoldsLock(s.calls[t].phase)
  }

  /** The only step of a call that holds a lock; it waits for nobody. */
  function Onward(s: State, t: nat): (s': State)
    requires t in Holders(s)
    ensures IsStep(s, s', t, s.calls[t].request)
  {
    var key := KeyOf(s.calls[t].request);
    match s.calls[t].phase
    case Reading => Moved(s, t, Looked(Looking(s, key)))
    case Looked(Hit(rm)) => Moved(s, t, Done(rm, false))
    case Looked(Miss) => Moved(s, t, Missed)
    case Writing => Moved(s, t, Built(Manager(s.next, s.calls[t].request))).(next := s.next + 1)
    case Built(rm) => Moved(s, t, Stored(rm)).(cache := s.cache[key := rm])
    case Stored(rm) => Moved(s, t, Done(rm, true))
  }

  function StepsToRelease(p: Phase): nat {
    match p
    case Writing => 3
    case Built(_) => 2
    case Reading => 2
    case _ => 1
  }

  /** What a call that gives back its lock leaves alone, and what it leaves behind. */
  ghost predicate IsReleased(s: State, s': State, t: nat)
    requires t in Holders(s)
  {
    && t in s'.calls && s'.calls == s.calls[t := s'.calls[t]] && s'.calls[t].request == s.calls[t].request
    && !HoldsLock(s'.calls[t].phase) && s.next <= s'.next && s.cache.Keys <= s'.cache.Keys
    && var p, p', key := s.calls[t].phase, s'.calls[t].phase, KeyOf(s.calls[t].request);
       && (p == Looked(Miss) ==> p'.Missed?)
       && (p.Writing? || p.Built? ==>
             && p'.Done? && key in s'.cache && s'.cache[key] == p'.returned
             && p'.returned == if p.Built? then p.made else Manager(s.next, s.calls[t].request))
       && (p.Stored? ==> p' == Done(p.stored, true) && s'.cache == s.cache)
  }

  lemma {:induction false} Release(states: seq<State>, t: nat) returns (longer: seq<State>)
    requires IsExecution(states) && t in Holders(Last(states))
    ensures IsExecution(longer) && states <= longer && IsReleased(Last(states), Last(longer), t)
    decreases StepsToRelease(Last(states).calls[t].phase)
  {
    var s' := Onward(Last(states), t);
    longer := Then(states, s', t, Last(states).calls[t].request);
    if HoldsLock(s'.calls[t].phase) {
      longer := Release(longer, t);
    }
  }

  /** All locks are given back; a call that has missed waits meanwhile. */
  lemma {:induction false} ReleaseAll(states: seq<State>, t: nat) returns (longer: seq<State>)
    requires IsExecution(states) && t in Last(states).calls
    requires Last(states).calls[t].phase == Looked(Miss) || Last(states).calls[t].phase == Missed
    ensures IsExecution(longer) && states <= longer && NoneHoldsLock(Last(longer))
    ensures Last(longer).calls.Keys == Last(states).calls.Keys && Last(states).next <= Last(longer).next
    ensures Last(longer).calls[t] == Call(Last(states).calls[t].request, Missed)
    decreases |Holders(Last(states))|
  {
    var s := Last(states);
    if u :| u in Holders(s) {
      longer := Release(states, u);
      assert Holders(Last(longer)) == Holders(s) - {u};
      longer := ReleaseAll(longer, t);
    } else {
      longer := states;
      assert forall u :: u in s.calls && HoldsLock(s.calls[u].phase) ==> u in Holders(s);
    }
  }

  /** A pending call can be the next to store, and what it stores is not what was cached. */
  lemma PendingCallStores(states: seq<State>, t: nat, key: string) returns (longer: seq<State>)
    requires IsExecution(states) && key in Last(states).cache && t in Last(states).calls
    requires KeyOf(Last(states).calls[t].request) == key && IsPending(Last(states).calls[t].phase)
    ensures IsExecution(longer) && states <= longer && NoneHoldsWrite(Last(longer))
    ensures Last(longer).calls.Keys == Last(states).calls.Keys
    ensures key in Last(longer).cache && Last(longer).cache[key] != Last(states).cache[key]
  {
    var s := Last(states);
    SerialsAlwaysGrow(states, |states| - 1);
    InvariantHolds(states, |states| - 1);
    longer := states;
    if HoldsRead(s.calls[t].phase) || s.calls[t].phase.Missed? {
      longer := ReleaseAll(states, t);
      longer := Then(longer, Moved(Last(longer), t, Writing), t, s.calls[t].request);
      InvariantHolds(longer, |longer| - 1);
    }
    longer := Release(longer, t);
  }

  lemma {:induction false} FreshNumber(used: set<nat>) returns (n: nat)
    ensures forall t :: t in used ==> t < n
  {
    if t :| t in used {
      n := FreshNumber(used - {t});
      n := if n > t then n else t + 1;
      assert used == used - {t} + {t};
    } else {
      n := 0;
    }
  }

  lemma NewCallFinds(states: seq<State>, t: nat, request: Request) returns (longer: seq<State>)
    requires IsExecution(states) && NoneHoldsWrite(Last(states)) && KeyOf(request) in Last(states).cache
    requires t !in Last(states).calls
    ensures IsExecution(longer) && states <= longer
    ensures HasReturned(Last(longer), t) && Last(longer).calls[t].request == request
    ensures Last(longer).calls[t].phase.returned == Last(states).cache[KeyOf(request)]
  {
    var s := Last(states);
    var rm := s.cache[KeyOf(request)];
    var begun := s.(calls := s.calls[t := Call(request, Start)], requests := s.requests + {request});
    longer := Then(states, begun, t, request);
    longer := Then(longer, Moved(Last(longer), t, Reading), t, request);
    longer := Then(longer, Moved(Last(longer), t, Looked(Hit(rm))), t, request);
    longer := Then(longer, Moved(Last(longer), t, Done(rm, false)), t, request);
  }

  /** As long as a call for a cached key is between its miss and its store, a later call may get another manager. */
  lemma LaterCallMayDiffer(states: seq<State>, t: nat, key: string) returns (longer: seq<State>, later: nat)
    requires IsExecution(states) && key in Last(states).cache && t in Last(states).calls
    requires KeyOf(Last(states).calls[t].request) == key && IsPending(Last(states).calls[t].phase)
    ensures IsExecution(longer) && states <= longer && IsLate(Last(states), later)
    ensures ReturnedFor(Last(longer), later, key) && Last(longer).calls[later].phase.returned != Last(states).cache[key]
  {
    longer := PendingCallStores(states, t, key);
    later := FreshNumber(Last(states).calls.Keys);
    longer := NewCallFinds(longer, later, Last(states).calls[t].request);
  }

  predicate ReturnedFor(s: State, t: nat, key: string) {
    HasReturned(s, t) && KeyOf(s.calls[t].request) == key
  }

  /** The exact condition for a cached key to have one manager from now on: no call for it is pending. */
  lemma LaterCallsAgreeIff(states: seq<State>, key: string)
    requires IsExecution(states) && key in Last(states).cache
    ensures IsQuiet(Last(states), key)
            <==> forall longer: seq<State>, t: nat ::
                   IsExecution(longer) && states <= longer && IsLate(Last(states), t)
                   && ReturnedFor(Last(longer), t, key) ==>
                     Last(longer).calls[t].phase.returned == Last(states).cache[key]
  {
    if IsQuiet(Last(states), key) {
      forall longer: seq<State>, t: nat
        | IsExecution(longer) && states <= longer && IsLate(Last(states), t) && ReturnedFor(Last(longer), t, key)
        ensures Last(longer).calls[t].phase.returned == Last(states).cache[key]
      {
        assert longer[|states| - 1] == Last(states);
        LaterCallsAgree(longer, |states| - 1, |longer| - 1, t, key);
      }
    } else {
      var t: nat :| t in Last(states).calls && KeyOf(Last(states).calls[t].request) == key
                    && IsPending(Last(states).calls[t].phase);
      var longer, later := LaterCallMayDiffer(states, t, key);
    }
  }
}
