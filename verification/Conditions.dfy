/** The condition state machine: updateConditions of pkg/resource/agent/sdk.go, onError and onSuccess of manager.go. */
module Conditions {
  import opened Api

  // ----- Which errors are terminal -----

  /** errors.As for smithy.APIError: the code of the first API error in the chain. */
  function ApiCode(e: Error): Option<string> {
    match e
    case ApiError(code, _) => Some(code)
    case Wrapped(inner) => ApiCode(inner)
    case _ => None
  }

  predicate IsTerminalAWSError(e: Error) {
    ApiCode(e) == Some("ValidationException")
  }

  /** errors.As for *ackerr.TerminalError. */
  predicate HasTerminalError(e: Error) {
    match e
    case TerminalError(_) => true
    case Wrapped(inner) => HasTerminalError(inner)
    case _ => false
  }

  predicate IsTerminal(e: Error) {
    IsTerminalAWSError(e) || e.SecretTypeNotSupported? || e.SecretNotFound? || HasTerminalError(e)
  }

  /** The text of an error; only the texts carried by API and terminal errors are kept. */
  function Text(e: Error): string {
    match e
    case ApiError(_, text) => text
    case TerminalError(text) => text
    case OtherError(text) => text
    case Wrapped(inner) => Text(inner)
    case _ => ""
  }

  // ----- The conditions of a resource, as a sequence of values -----

  /** The condition the loop of updateConditions ends with for a type: the last one, or -1. */
  function LastIndex(conds: seq<Condition>, t: ConditionType): (i: int)
    ensures -1 <= i < |conds|
    ensures i >= 0 ==> conds[i].ctype == t
    ensures forall j :: i < j < |conds| ==> conds[j].ctype != t
  {
    if conds == [] then -1
    else if conds[|conds| - 1].ctype == t then |conds| - 1
    else LastIndex(conds[..|conds| - 1], t)
  }

  function Find(conds: seq<Condition>, t: ConditionType): Option<Condition> {
    var i := LastIndex(conds, t);
    if i >= 0 then Some(conds[i]) else None
  }

  function Edit(conds: seq<Condition>, t: ConditionType, status: ConditionStatus, message: Option<string>)
      : seq<Condition>
  {
    var i := LastIndex(conds, t);
    if i >= 0 then conds[i := conds[i].(status := status, message := message)] else conds
  }

  function Put(conds: seq<Condition>, t: ConditionType, status: ConditionStatus, message: Option<string>)
      : seq<Condition>
  {
    if LastIndex(conds, t) >= 0 then Edit(conds, t, status, message) else conds + [Condition(t, status, message, None)]
  }

  function Updated(conds: seq<Condition>, err: Option<Error>): seq<Condition> {
    if err.Some? && IsTerminal(err.value) then
      Put(conds, TerminalCondition, True, Some(Text(err.value)))
    else
      var cleared := Edit(conds, TerminalCondition, False, None);
      if err.Some? then Put(cleared, Recoverable, True, Some(Text(err.value)))
      else Edit(cleared, Recoverable, False, None)
  }

  /** updateConditions reports an update iff it ends with a pointer to one of the three conditions: an error
      always leaves one, otherwise one must have been found. */
  predicate IsUpdated(conds: seq<Condition>, err: Option<Error>) {
    || err.Some?
    || LastIndex(conds, TerminalCondition) >= 0 || LastIndex(conds, Recoverable) >= 0
    || LastIndex(conds, ResourceSynced) >= 0
  }

  predicate IsTerminalTrue(conds: seq<Condition>) {
    exists i :: 0 <= i < |conds| && conds[i].ctype == TerminalCondition && conds[i].status == True
  }

  function OnErrorConditions(conds: seq<Condition>, e: Error): seq<Condition> {
    Updated(conds, Some(e))
  }

  function OnErrorResult(conds: seq<Condition>, e: Error): Error {
    if IsTerminalTrue(Updated(conds, Some(e))) then Terminal else e
  }

  function OnSuccessConditions(conds: seq<Condition>): seq<Condition> {
    Updated(conds, None)
  }

  // ----- Histories -----

  datatype Event = Failed(error: Error) | Succeeded

  function Step(conds: seq<Condition>, event: Event): seq<Condition> {
    match event
    case Failed(e) => OnErrorConditions(conds, e)
    case Succeeded => OnSuccessConditions(conds)
  }

  function History(conds: seq<Condition>, events: seq<Event>): seq<Condition> {
    if events == [] then conds else Step(History(conds, events[..|events| - 1]), events[|events| - 1])
  }

  ghost predicate AtMostOne(conds: seq<Condition>, t: ConditionType) {
    forall i, j :: 0 <= i < j < |conds| ==> !(conds[i].ctype == t && conds[j].ctype == t)
  }

  ghost predicate Unique(conds: seq<Condition>) {
    AtMostOne(conds, TerminalCondition) && AtMostOne(conds, Recoverable)
  }

  predicate IsTerminalFailure(event: Event) {
    event.Failed? && IsTerminal(event.error)
  }

  /** The last event of the history that is not a terminal error. */
  function LastNonTerminal(events: seq<Event>): Option<Event> {
    if events == [] then None
    else if !IsTerminalFailure(events[|events| - 1]) then Some(events[|events| - 1])
    else LastNonTerminal(events[..|events| - 1])
  }

  /** The conditions of all other types, in order. */
  function Others(conds: seq<Condition>): seq<Condition> {
    if conds == [] then []
    else
      var n := |conds| - 1;
      Others(conds[..n])
      + if conds[n].ctype == TerminalCondition || conds[n].ctype == Recoverable then [] else [conds[n]]
  }

  predicate IsManaged(t: ConditionType) {
    t == TerminalCondition || t == Recoverable
  }

  lemma {:induction false} OthersUpdate(conds: seq<Condition>, i: nat, c: Condition)
    requires i < |conds| && IsManaged(conds[i].ctype) && IsManaged(c.ctype)
    ensures Others(conds[i := c]) == Others(conds)
    decreases |conds|
  {
    var n := |conds| - 1;
    if i < n {
      assert conds[i := c][..n] == conds[..n][i := c];
      OthersUpdate(conds[..n], i, c);
    } else {
      assert conds[i := c][..n] == conds[..n];
    }
  }

  lemma OthersKept(conds: seq<Condition>, t: ConditionType, status: ConditionStatus, message: Option<string>)
    requires IsManaged(t)
    ensures Others(Edit(conds, t, status, message)) == Others(conds)
    ensures Others(Put(conds, t, status, message)) == Others(conds)
  {
    var i := LastIndex(conds, t);
    if i >= 0 {
      OthersUpdate(conds, i, conds[i].(status := status, message := message));
    } else {
      var c := Condition(t, status, message, None);
      assert (conds + [c])[..|conds|] == conds;
    }
  }

  /** What editing or adding the condition of one type does to the condition found for each type. */
  lemma FindAfterEdit(conds: seq<Condition>, t: ConditionType, status: ConditionStatus, message: Option<string>,
                      u: ConditionType)
    ensures var found := Find(conds, u);
            Find(Edit(conds, t, status, message), u)
            == if u == t && found.Some? then Some(found.value.(status := status, message := message)) else found
  {
    var after := Edit(conds, t, status, message);
    var i, j := LastIndex(conds, u), LastIndex(after, u);
    assert forall k :: 0 <= k < |conds| ==> after[k].ctype == conds[k].ctype;
    assert i >= 0 ==> after[i].ctype == u;
    assert j >= 0 ==> conds[j].ctype == u;
  }

  lemma FindAfterPut(conds: seq<Condition>, t: ConditionType, status: ConditionStatus, message: Option<string>,
                     u: ConditionType)
    ensures var found := Find(conds, u);
            Find(Put(conds, t, status, message), u)
            == if u != t then found
               else if found.Some? then Some(found.value.(status := status, message := message))
               else Some(Condition(t, status, message, None))
  {
    if LastIndex(conds, t) >= 0 {
      FindAfterEdit(conds, t, status, message, u);
    } else {
      var after := conds + [Condition(t, status, message, None)];
      assert after[..|conds|] == conds;
    }
  }

  lemma UniqueKept(conds: seq<Condition>, t: ConditionType, status: ConditionStatus, message: Option<string>,
                   u: ConditionType)
    requires AtMostOne(conds, u)
    ensures AtMostOne(Edit(conds, t, status, message), u) && AtMostOne(Put(conds, t, status, message), u)
  {
  }

  lemma TerminalTrueIffFound(conds: seq<Condition>)
    requires AtMostOne(conds, TerminalCondition)
    ensures IsTerminalTrue(conds)
            <==> Find(conds, TerminalCondition).Some? && Find(conds, TerminalCondition).value.status == True
  {
  }

  predicate HasText(found: Option<Condition>, e: Error) {
    found.Some? && found.value.message == Some(Text(e))
  }

  /** One event: what it leaves of each kind of condition. */
  lemma StepEffect(conds: seq<Condition>, event: Event)
    requires Unique(conds)
    ensures var after := Step(conds, event);
            && Unique(after)
            && Others(after) == Others(conds)
            && (IsTerminalTrue(after) <==> IsTerminalFailure(event))
            && (IsTerminalFailure(event) ==> HasText(Find(after, TerminalCondition), event.error))
            && (IsTerminalFailure(event) ==> Find(after, Recoverable) == Find(conds, Recoverable))
            && (!IsTerminalFailure(event) ==> IsDecidedBy(Find(after, Recoverable), event))
  {
    var err := if event.Failed? then Some(event.error) else None;
    if IsTerminalFailure(event) {
      var m := Some(Text(event.error));
      OthersKept(conds, TerminalCondition, True, m);
      UniqueKept(conds, TerminalCondition, True, m, TerminalCondition);
      UniqueKept(conds, TerminalCondition, True, m, Recoverable);
      FindAfterPut(conds, TerminalCondition, True, m, TerminalCondition);
      FindAfterPut(conds, TerminalCondition, True, m, Recoverable);
    } else {
      var cleared := Edit(conds, TerminalCondition, False, None);
      OthersKept(conds, TerminalCondition, False, None);
      UniqueKept(conds, TerminalCondition, False, None, TerminalCondition);
      UniqueKept(conds, TerminalCondition, False, None, Recoverable);
      FindAfterEdit(conds, TerminalCondition, False, None, TerminalCondition);
      var status, m := if event.Failed? then True else False, if event.Failed? then Some(Text(event.error)) else None;
      OthersKept(cleared, Recoverable, status, m);
      UniqueKept(cleared, Recoverable, status, m, TerminalCondition);
      UniqueKept(cleared, Recoverable, status, m, Recoverable);
      FindAfterPut(cleared, Recoverable, status, m, TerminalCondition);
      FindAfterPut(cleared, Recoverable, status, m, Recoverable);
      FindAfterEdit(cleared, Recoverable, status, m, TerminalCondition);
      FindAfterEdit(cleared, Recoverable, status, m, Recoverable);
    }
    TerminalTrueIffFound(Step(conds, event));
  }

  /** A failure leaves the Recoverable condition True with the failure's text, a success leaves it False or absent. */
  predicate IsDecidedBy(recoverable: Option<Condition>, event: Event) {
    match event
    case Failed(e) =>
      recoverable.Some? && recoverable.value.status == True && recoverable.value.message == Some(Text(e))
    case Succeeded => recoverable.Some? ==> recoverable.value.status == False && recoverable.value.message == None
  }

  /** Whole histories: Terminal is True iff the last event was a terminal error, Recoverable is decided by the
      last event that was not one, uniqueness holds throughout and all other conditions stay as they are. */
  lemma {:induction false} HistoryEffect(conds: seq<Condition>, events: seq<Event>)
    requires Unique(conds)
    ensures var after := History(conds, events);
            && Unique(after)
            && Others(after) == Others(conds)
            && (events != [] ==> (IsTerminalTrue(after) <==> IsTerminalFailure(events[|events| - 1])))
            && (events != [] && IsTerminalFailure(events[|events| - 1]) ==>
                  HasText(Find(after, TerminalCondition), events[|events| - 1].error))
            && (LastNonTerminal(events).None? ==> Find(after, Recoverable) == Find(conds, Recoverable))
            && (LastNonTerminal(events).Some? ==> IsDecidedBy(Find(after, Recoverable), LastNonTerminal(events).value))
    decreases |events|
  {
    if events != [] {
      var n := |events| - 1;
      HistoryEffect(conds, events[..n]);
      StepEffect(History(conds, events[..n]), events[n]);
    }
  }

  /** The two conditions do not exclude each other: a terminal error after another error leaves both True. */
  lemma BothCanBeTrue(e: Error, t: Error)
    requires !IsTerminal(e) && IsTerminal(t)
    ensures var after := History([], [Failed(e), Failed(t)]);
            IsTerminalTrue(after) && Find(after, Recoverable).Some? && Find(after, Recoverable).value.status == True
  {
    HistoryEffect([], [Failed(e), Failed(t)]);
    assert [Failed(e), Failed(t)][..1] == [Failed(e)];
    assert LastNonTerminal([Failed(e)]) == Some(Failed(e));
  }

  predicate IsRecoverableTrue(conds: seq<Condition>) {
    Find(conds, Recoverable).Some? && Find(conds, Recoverable).value.status == True
  }

  /** Both conditions are True after a history iff it ends with a terminal error and the last other event was a
      failure or, if there was none, Recoverable was True before. */
  lemma BothAreTrueIff(conds: seq<Condition>, events: seq<Event>)
    requires Unique(conds) && events != []
    ensures var after := History(conds, events);
            IsTerminalTrue(after) && IsRecoverableTrue(after)
            <==> (&& IsTerminalFailure(events[|events| - 1])
                  && match LastNonTerminal(events)
                     case Some(event) => event.Failed?
                     case None => IsRecoverableTrue(conds))
  {
    HistoryEffect(conds, events);
  }

  /** An update is reported iff one of the three conditions is there afterwards. */
  lemma IsUpdatedIffFound(conds: seq<Condition>, err: Option<Error>)
    ensures var after := Updated(conds, err);
            IsUpdated(conds, err)
            <==> Find(after, TerminalCondition).Some? || Find(after, Recoverable).Some?
                 || Find(after, ResourceSynced).Some?
  {
    var cleared := Edit(conds, TerminalCondition, False, None);
    if err.Some? && IsTerminal(err.value) {
      FindAfterPut(conds, TerminalCondition, True, Some(Text(err.value)), TerminalCondition);
    } else if err.Some? {
      FindAfterPut(cleared, Recoverable, True, Some(Text(err.value)), Recoverable);
    } else {
      forall u ensures Find(conds, u).Some? <==> Find(Updated(conds, err), u).Some? {
        FindAfterEdit(conds, TerminalCondition, False, None, u);
        FindAfterEdit(cleared, Recoverable, False, None, u);
      }
    }
  }

  // ----- Conditions that occur more than once -----

  /** A Terminal condition that is not the last of its type is True: updateConditions never sees it again. */
  predicate IsBlocked(conds: seq<Condition>) {
    exists i ::
      0 <= i < LastIndex(conds, TerminalCondition) && conds[i].ctype == TerminalCondition && conds[i].status == True
  }

  lemma LastIndexAfterEdit(conds: seq<Condition>, t: ConditionType, status: ConditionStatus, message: Option<string>,
                           u: ConditionType)
    ensures LastIndex(Edit(conds, t, status, message), u) == LastIndex(conds, u)
  {
    var after := Edit(conds, t, status, message);
    var i, j := LastIndex(conds, u), LastIndex(after, u);
    assert forall k :: 0 <= k < |conds| ==> after[k].ctype == conds[k].ctype;
    assert i >= 0 ==> after[i].ctype == u;
    assert j >= 0 ==> conds[j].ctype == u;
  }

  lemma LastIndexAfterAppend(conds: seq<Condition>, c: Condition, u: ConditionType)
    ensures LastIndex(conds + [c], u) == if c.ctype == u then |conds| else LastIndex(conds, u)
  {
    assert (conds + [c])[..|conds|] == conds;
  }

  lemma EditKeepsBlocked(conds: seq<Condition>, t: ConditionType, status: ConditionStatus, message: Option<string>)
    requires IsManaged(t)
    ensures IsBlocked(Edit(conds, t, status, message)) <==> IsBlocked(conds)
  {
    var after, n := Edit(conds, t, status, message), LastIndex(conds, TerminalCondition);
    LastIndexAfterEdit(conds, t, status, message, TerminalCondition);
    assert forall i :: 0 <= i < n && conds[i].ctype == TerminalCondition ==> after[i] == conds[i];
    assert forall i :: 0 <= i < n && after[i].ctype == TerminalCondition ==> after[i] == conds[i];
  }

  lemma PutKeepsBlocked(conds: seq<Condition>, t: ConditionType, status: ConditionStatus, message: Option<string>)
    requires IsManaged(t)
    ensures IsBlocked(Put(conds, t, status, message)) <==> IsBlocked(conds)
  {
    if LastIndex(conds, t) >= 0 {
      EditKeepsBlocked(conds, t, status, message);
    } else {
      var c := Condition(t, status, message, None);
      LastIndexAfterAppend(conds, c, TerminalCondition);
      assert forall i :: 0 <= i < |conds| ==> (conds + [c])[i] == conds[i];
    }
  }

  /** No event blocks a resource, and none unblocks it. */
  lemma StaysBlocked(conds: seq<Condition>, event: Event)
    ensures IsBlocked(Step(conds, event)) <==> IsBlocked(conds)
  {
    if IsTerminalFailure(event) {
      PutKeepsBlocked(conds, TerminalCondition, True, Some(Text(event.error)));
    } else {
      var cleared := Edit(conds, TerminalCondition, False, None);
      EditKeepsBlocked(conds, TerminalCondition, False, None);
      if event.Failed? {
        PutKeepsBlocked(cleared, Recoverable, True, Some(Text(event.error)));
      } else {
        EditKeepsBlocked(cleared, Recoverable, False, None);
      }
    }
  }

  lemma UniqueIsNotBlocked(conds: seq<Condition>)
    requires Unique(conds)
    ensures !IsBlocked(conds)
  {
  }

  /** What the condition found says about the whole list. */
  lemma TerminalTrueIff(conds: seq<Condition>)
    ensures var found := Find(conds, TerminalCondition);
            IsTerminalTrue(conds) <==> IsBlocked(conds) || (found.Some? && found.value.status == True)
  {
  }

  /** onError reports Terminal iff the error is terminal or a Terminal condition that is out of sight is True. */
  lemma TerminalErrorsAreReported(conds: seq<Condition>, e: Error)
    ensures OnErrorResult(conds, e) == if IsTerminal(e) || IsBlocked(conds) then Terminal else e
  {
    StaysBlocked(conds, Failed(e));
    var m := Some(Text(e));
    if IsTerminal(e) {
      FindAfterPut(conds, TerminalCondition, True, m, TerminalCondition);
    } else {
      FindAfterEdit(conds, TerminalCondition, False, None, TerminalCondition);
      FindAfterPut(Edit(conds, TerminalCondition, False, None), Recoverable, True, m, TerminalCondition);
    }
    TerminalTrueIff(Updated(conds, Some(e)));
  }

  /** When onSuccess updates nothing, what it would have computed is its input. */
  lemma NoUpdateIsNoChange(conds: seq<Condition>)
    requires !IsUpdated(conds, None)
    ensures Updated(conds, None) == conds
  {
  }

  // ----- The conditions one by one -----

  predicate IsLastOf(conds: seq<Condition>, i: int, t: ConditionType) {
    0 <= i < |conds| && conds[i].ctype == t && forall j :: i < j < |conds| ==> conds[j].ctype != t
  }

  predicate HasNone(conds: seq<Condition>, t: ConditionType) {
    forall i :: 0 <= i < |conds| ==> conds[i].ctype != t
  }

  /** A terminal error makes the last Terminal condition True, or appends one; no other condition changes. */
  lemma TerminalErrorByIndex(conds: seq<Condition>, e: Error)
    requires IsTerminal(e)
    ensures var after := Updated(conds, Some(e));
            && |after| == |conds| + (if HasNone(conds, TerminalCondition) then 1 else 0)
            && (forall i :: 0 <= i < |conds| ==>
                  after[i] == if IsLastOf(conds, i, TerminalCondition)
                              then Condition(TerminalCondition, True, Some(Text(e)), conds[i].reason)
                              else conds[i])
            && (HasNone(conds, TerminalCondition) ==>
                  after[|conds|] == Condition(TerminalCondition, True, Some(Text(e)), None))
  {
  }

  /** Any other error makes the last Terminal condition False and the last Recoverable condition True, or appends the
      latter. */
  lemma OtherErrorByIndex(conds: seq<Condition>, e: Error)
    requires !IsTerminal(e)
    ensures var after := Updated(conds, Some(e));
            && |after| == |conds| + (if HasNone(conds, Recoverable) then 1 else 0)
            && (forall i :: 0 <= i < |conds| ==>
                  after[i] == if IsLastOf(conds, i, TerminalCondition)
                              then Condition(TerminalCondition, False, None, conds[i].reason)
                              else if IsLastOf(conds, i, Recoverable)
                              then Condition(Recoverable, True, Some(Text(e)), conds[i].reason)
                              else conds[i])
            && (HasNone(conds, Recoverable) ==> after[|conds|] == Condition(Recoverable, True, Some(Text(e)), None))
  {
    LastIndexAfterEdit(conds, TerminalCondition, False, None, Recoverable);
  }

  /** A success makes the last condition of either type False, and appends none. */
  lemma SuccessByIndex(conds: seq<Condition>)
    ensures var after := Updated(conds, None);
            && |after| == |conds|
            && (forall i :: 0 <= i < |conds| ==>
                  after[i] == if IsLastOf(conds, i, TerminalCondition) || IsLastOf(conds, i, Recoverable)
                              then Condition(conds[i].ctype, False, None, conds[i].reason)
                              else conds[i])
  {
    LastIndexAfterEdit(conds, TerminalCondition, False, None, Recoverable);
  }

  // ----- Errors that wrap others -----

  /** An error that has been wrapped n times. */
  function Wrap(n: nat, e: Error): Error {
    if n == 0 then e else Wrapped(Wrap(n - 1, e))
  }

  ghost predicate WrapsCode(e: Error, code: string) {
    exists n: nat, text :: e == Wrap(n, ApiError(code, text))
  }

  ghost predicate WrapsTerminalError(e: Error) {
    exists n: nat, text :: e == Wrap(n, TerminalError(text))
  }

  lemma {:induction false} ApiCodeIff(e: Error, code: string)
    ensures ApiCode(e) == Some(code) <==> WrapsCode(e, code)
  {
    match e
    case ApiError(c, text) =>
      assert Wrap(0, ApiError(c, text)) == e;
    case Wrapped(inner) =>
      ApiCodeIff(inner, code);
      if n: nat, text :| inner == Wrap(n, ApiError(code, text)) {
        assert Wrap(n + 1, ApiError(code, text)) == e;
      }
      if n: nat, text :| e == Wrap(n, ApiError(code, text)) {
        assert inner == Wrap(n - 1, ApiError(code, text));
      }
    case _ =>
  }

  lemma {:induction false} HasTerminalErrorIff(e: Error)
    ensures HasTerminalError(e) <==> WrapsTerminalError(e)
  {
    match e
    case TerminalError(text) =>
      assert Wrap(0, TerminalError(text)) == e;
    case Wrapped(inner) =>
      HasTerminalErrorIff(inner);
      if n: nat, text :| inner == Wrap(n, TerminalError(text)) {
        assert Wrap(n + 1, TerminalError(text)) == e;
      }
      if n: nat, text :| e == Wrap(n, TerminalError(text)) {
        assert inner == Wrap(n - 1, TerminalError(text));
      }
    case _ =>
  }

  /** The errors that are terminal: a ValidationException and a TerminalError, wrapped any number of times, and the two
      secret errors themselves. */
  lemma IsTerminalIff(e: Error)
    ensures IsTerminal(e)
            <==> WrapsCode(e, "ValidationException") || WrapsTerminalError(e)
                 || e == SecretTypeNotSupported || e == SecretNotFound
  {
    ApiCodeIff(e, "ValidationException");
    HasTerminalErrorIff(e);
  }

  /** onError returns Terminal for exactly these errors, and for every error if a Terminal condition that is True is
      followed by another Terminal condition; otherwise it returns the error itself. */
  lemma ReportedError(conds: seq<Condition>, e: Error)
    ensures OnErrorResult(conds, e)
            == if || WrapsCode(e, "ValidationException") || WrapsTerminalError(e)
                  || e == SecretTypeNotSupported || e == SecretNotFound
                  || exists i, j ::
                       && 0 <= i < j < |conds| && conds[i].ctype == conds[j].ctype == TerminalCondition
                       && conds[i].status == True
               then Terminal else e
  {
    IsTerminalIff(e);
    TerminalErrorsAreReported(conds, e);
    var n := LastIndex(conds, TerminalCondition);
    if IsBlocked(conds) {
      var i :| 0 <= i < n && conds[i].ctype == TerminalCondition && conds[i].status == True;
      assert conds[i].ctype == conds[n].ctype == TerminalCondition;
    }
  }

  /** The message of a condition is the text of the innermost error, however often it is wrapped. */
  lemma {:induction false} TextOfWrapped(n: nat, e: Error)
    ensures Text(Wrap(n, e)) == Text(e)
    ensures e.ApiError? || e.TerminalError? || e.OtherError? ==> Text(Wrap(n, e)) == e.text
  {
    if n > 0 {
      TextOfWrapped(n - 1, e);
    }
  }
}
