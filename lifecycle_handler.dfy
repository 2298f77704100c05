/**
  The queue-message handler of the host-removal service (app.js, `handleMessage`).

  One call of the handler receives the text of one queue message and the queue's `done`
  callback. It decodes the text as JSON, classifies the event, and for an instance-terminating
  event drives the Rancher server through lookup, deactivate and delete before completing the
  autoscaling lifecycle action.

  The Rancher server, the autoscaling client and `done` are collaborators whose code is not part
  of this model. They are the class `Collaborators`: each collaborator method records its call in
  a ghost trace and answers with a scripted reply. Each collaborator is called at most once per
  message, so one scripted reply per operation covers every run in which each call settles; a
  call that never settles is not described.
*/
module LifecycleHandler {
  import opened Outcomes

  type HostId = string

  /** The fields of a decoded message body that hold strings, by name. */
  type Body = map<string, string>

  /** What `JSON.parse(message.Body)` produced. */
  datatype Decoded =
    | Malformed                    // JSON.parse threw
    | Parsed(value: Option<Body>)  // None: the text was `null`; a number, string or array has no fields

  const EVENT_FIELD := "Event"
  const TRANSITION_FIELD := "LifecycleTransition"
  const INSTANCE_ID_FIELD := "EC2InstanceId"
  const GROUP_NAME_FIELD := "AutoScalingGroupName"
  const ACTION_TOKEN_FIELD := "LifecycleActionToken"
  const HOOK_NAME_FIELD := "LifecycleHookName"

  const TEST_NOTIFICATION := "autoscaling:TEST_NOTIFICATION"
  const INSTANCE_TERMINATING := "autoscaling:EC2_INSTANCE_TERMINATING"
  const HOST_ID_LABEL := "HOSTID"
  const CONTINUE := "CONTINUE"

  /** Property access on the decoded body: `undefined` when the field is missing. */
  function Get(b: Body, name: string): Option<string>
  {
    if name in b then Some(b[name]) else None
  }

  /** JavaScript truthiness of a string-or-undefined value. */
  predicate Truthy(v: Option<string>)
  {
    v.Some? && v.value != ""
  }

  datatype Kind = TestNotification | InstanceTerminating | UnknownMessage

  /**
    The if / else-if / else of the handler. The test-notification check runs first, so a body
    carrying both markers is a test notification; the truthiness guards never change the outcome.
  */
  function Classify(b: Body): (k: Kind)
    ensures k == TestNotification <==> Get(b, EVENT_FIELD) == Some(TEST_NOTIFICATION)
    ensures k == InstanceTerminating <==>
      Get(b, EVENT_FIELD) != Some(TEST_NOTIFICATION) && Get(b, TRANSITION_FIELD) == Some(INSTANCE_TERMINATING)
  {
    var event := Get(b, EVENT_FIELD);
    var transition := Get(b, TRANSITION_FIELD);
    if Truthy(event) && event.value == TEST_NOTIFICATION then TestNotification
    else if Truthy(transition) && transition.value == INSTANCE_TERMINATING then InstanceTerminating
    else UnknownMessage
  }

  /** The request object handed to `completeLifecycleAction`. */
  datatype CompletionParams = CompletionParams(
    autoScalingGroupName: Option<string>,
    lifecycleActionToken: Option<string>,
    lifecycleHookName: Option<string>,
    lifecycleActionResult: string)

  function CompletionParamsOf(b: Body): CompletionParams
  {
    CompletionParams(Get(b, GROUP_NAME_FIELD), Get(b, ACTION_TOKEN_FIELD), Get(b, HOOK_NAME_FIELD), CONTINUE)
  }

  /** One call the handler makes on a collaborator, with its arguments. */
  datatype Call =
    | GetHostByIdLabel(labelName: string, labelValue: Option<string>)
    | DeactivateHost(hostId: HostId)
    | DeleteHost(hostId: HostId)
    | CompleteLifecycleAction(params: CompletionParams)
    | Done
  {
    /** A call on the Rancher server or the autoscaling client, as opposed to the queue's `done`. */
    predicate IsExternal() { !Done? }
  }

  /** How each collaborator settles the one call the handler makes on it. */
  datatype Replies = Replies(
    lookup: Result<seq<HostId>, string>,
    deactivate: Outcome<string>,
    delete: Outcome<string>,
    complete: Outcome<string>)

  /** How the handler itself ends once every continuation has run. */
  datatype Ending =
    | Settled                 // returned, and every promise of the chain settled
    | ThrewTypeError          // a property of `null` was read before `done` was called
    | RejectedWithTypeError   // a continuation read a property of `undefined`; nothing catches it

  /** True when the handler starts the removal sequence for `d`. */
  predicate IsTermination(d: Decoded)
  {
    d.Parsed? && d.value.Some? && Classify(d.value.value) == InstanceTerminating
  }

  predicate NoExternalCall(t: seq<Call>)
  {
    forall i :: 0 <= i < |t| ==> !t[i].IsExternal()
  }

  function CountOf(t: seq<Call>, c: Call): nat
  {
    if t == [] then 0 else (if t[0] == c then 1 else 0) + CountOf(t[1..], c)
  }

  lemma {:induction false} CountOfConcat(s: seq<Call>, t: seq<Call>, c: Call)
    ensures CountOf(s + t, c) == CountOf(s, c) + CountOf(t, c)
  {
    if s == [] {
      assert s + t == t;
    } else {
      assert (s + t)[1..] == s[1..] + t;
      CountOfConcat(s[1..], t, c);
    }
  }

  // ---------------------------------------------------------------------------------------------
  // The handler as written
  // ---------------------------------------------------------------------------------------------

  /** The `done` that `.catch(errorResponse)` adds when a step is rejected. */
  function OnRejection(o: Outcome<string>): seq<Call>
  {
    if o.Fail? then [Done] else []
  }

  /**
    The calls of the removal chain as the source writes it: every step is `.catch(errorResponse)`
    followed by `.then(next)`, so a rejected step calls `done` and the next continuation still runs.
  */
  function RemovalTrace(b: Body, r: Replies): seq<Call>
  {
    [GetHostByIdLabel(HOST_ID_LABEL, Get(b, INSTANCE_ID_FIELD))] +
    match r.lookup
    case Failure(_) => [Done]
    case Success(hostIds) => if |hostIds| == 0 then [Done] else TeardownTrace(b, hostIds[0], r)
  }

  /** The continuation run once a host id is known: deactivate, delete, complete. */
  function TeardownTrace(b: Body, hostId: HostId, r: Replies): seq<Call>
  {
    [DeactivateHost(hostId)] + OnRejection(r.deactivate) +
    [DeleteHost(hostId)] + OnRejection(r.delete) +
    [CompleteLifecycleAction(CompletionParamsOf(b)), Done]
  }

  /** Every collaborator call one run of the handler makes, in order. */
  function HandlerTrace(d: Decoded, r: Replies): seq<Call>
  {
    match d
    case Malformed => [Done]
    case Parsed(None) => []
    case Parsed(Some(b)) => if Classify(b) == InstanceTerminating then RemovalTrace(b, r) else [Done]
  }

  function HandlerEnding(d: Decoded, r: Replies): Ending
  {
    match d
    case Malformed => Settled
    case Parsed(None) => ThrewTypeError
    case Parsed(Some(b)) =>
      if Classify(b) == InstanceTerminating && r.lookup.Failure? then RejectedWithTypeError else Settled
  }

  // ---------------------------------------------------------------------------------------------
  // The handler with the short-circuit its comments and structure evidently intend
  // ---------------------------------------------------------------------------------------------

  /** The removal chain stopping at the first rejected step, with `done` called once. */
  function FailFastRemovalTrace(b: Body, r: Replies): seq<Call>
  {
    [GetHostByIdLabel(HOST_ID_LABEL, Get(b, INSTANCE_ID_FIELD))] +
    match r.lookup
    case Failure(_) => [Done]
    case Success(hostIds) =>
      if |hostIds| == 0 then [Done]
      else
        [DeactivateHost(hostIds[0])] +
        if r.deactivate.Fail? then [Done]
        else
          [DeleteHost(hostIds[0])] +
          if r.delete.Fail? then [Done]
          else [CompleteLifecycleAction(CompletionParamsOf(b)), Done]
  }

  /** A `null` body is treated as an unknown message instead of raising. */
  function FailFastTrace(d: Decoded, r: Replies): seq<Call>
  {
    if IsTermination(d) then FailFastRemovalTrace(d.value.value, r) else [Done]
  }

  // ---------------------------------------------------------------------------------------------
  // Collaborators and the imperative handler
  // ---------------------------------------------------------------------------------------------

  class Collaborators {
    const replies: Replies
    ghost var trace: seq<Call>

    constructor (replies: Replies)
      ensures this.replies == replies && trace == []
    {
      this.replies := replies;
      trace := [];
    }

    /** `rancherServer.getHostByIdLabel(labelName, labelValue)` */
    method GetHostByIdLabel(labelName: string, labelValue: Option<string>) returns (hostIds: Result<seq<HostId>, string>)
      modifies this
      ensures trace == old(trace) + [Call.GetHostByIdLabel(labelName, labelValue)]
      ensures hostIds == replies.lookup
    {
      trace := trace + [Call.GetHostByIdLabel(labelName, labelValue)];
      hostIds := replies.lookup;
    }

    /** `rancherServer.deactivateHost(hostId)` */
    method DeactivateHost(hostId: HostId) returns (settled: Outcome<string>)
      modifies this
      ensures trace == old(trace) + [Call.DeactivateHost(hostId)]
      ensures settled == replies.deactivate
    {
      trace := trace + [Call.DeactivateHost(hostId)];
      settled := replies.deactivate;
    }

    /** `rancherServer.deleteHost(hostId)` */
    method DeleteHost(hostId: HostId) returns (settled: Outcome<string>)
      modifies this
      ensures trace == old(trace) + [Call.DeleteHost(hostId)]
      ensures settled == replies.delete
    {
      trace := trace + [Call.DeleteHost(hostId)];
      settled := replies.delete;
    }

    /** `autoscaling.completeLifecycleAction(params, callback)`; `err` is what the callback receives. */
    method CompleteLifecycleAction(params: CompletionParams) returns (err: Outcome<string>)
      modifies this
      ensures trace == old(trace) + [Call.CompleteLifecycleAction(params)]
      ensures err == replies.complete
    {
      trace := trace + [Call.CompleteLifecycleAction(params)];
      err := replies.complete;
    }

    /** The queue consumer's `done` callback: the message is acknowledged and removed. */
    method Done()
      modifies this
      ensures trace == old(trace) + [Call.Done]
    {
      trace := trace + [Call.Done];
    }
  }

  /** `errorResponse`: log the error, then acknowledge the message. */
  method ErrorResponse(env: Collaborators)
    modifies env
    ensures env.trace == old(env.trace) + [Done]
  {
    env.Done();
  }

  /** The lookup, deactivate, delete, complete chain, continuations running as the source chains them. */
  method RemoveHost(env: Collaborators, body: Body) returns (ending: Ending)
    modifies env
    ensures env.trace == old(env.trace) + RemovalTrace(body, env.replies)
    ensures ending == if env.replies.lookup.Failure? then RejectedWithTypeError else Settled
  {
    var lookup := env.GetHostByIdLabel(HOST_ID_LABEL, Get(body, INSTANCE_ID_FIELD));
    if lookup.Failure? {
      ErrorResponse(env);
      // the `.then` continuation receives `undefined` and reads `hostIds.length`
      return RejectedWithTypeError;
    }
    var hostIds := lookup.value;
    if |hostIds| == 0 {
      ErrorResponse(env);
      return Settled;
    }
    Teardown(env, body, hostIds[0]);
    return Settled;
  }

  /** Deactivate, then delete, then complete the lifecycle action, each after the previous settles. */
  method Teardown(env: Collaborators, body: Body, hostId: HostId)
    modifies env
    ensures env.trace == old(env.trace) + TeardownTrace(body, hostId, env.replies)
  {
    var deactivated := env.DeactivateHost(hostId);
    if deactivated.Fail? {
      ErrorResponse(env);
    }
    ghost var afterDeactivate := env.trace;
    var deleted := env.DeleteHost(hostId);
    if deleted.Fail? {
      ErrorResponse(env);
    }
    assert env.trace == afterDeactivate + [DeleteHost(hostId)] + OnRejection(env.replies.delete);
    var err := env.CompleteLifecycleAction(CompletionParamsOf(body));
    // a completion error is only logged
    env.Done();
  }

  /** `handleMessage(message, done)` as written. */
  method HandleMessage(env: Collaborators, d: Decoded) returns (ending: Ending)
    modifies env
    ensures env.trace == old(env.trace) + HandlerTrace(d, env.replies)
    ensures ending == HandlerEnding(d, env.replies)
  {
    match d {
      case Malformed =>
        env.Done();
        return Settled;
      case Parsed(None) =>
        // reading `messageBody.Event` on `null`
        return ThrewTypeError;
      case Parsed(Some(body)) =>
        var kind := Classify(body);
        if kind == TestNotification {
          env.Done();
          return Settled;
        } else if kind == InstanceTerminating {
          ending := RemoveHost(env, body);
        } else {
          env.Done();
          return Settled;
        }
    }
  }

  /** The removal chain with each rejection ending the sequence. */
  method RemoveHostFailFast(env: Collaborators, body: Body)
    modifies env
    ensures env.trace == old(env.trace) + FailFastRemovalTrace(body, env.replies)
  {
    var lookup := env.GetHostByIdLabel(HOST_ID_LABEL, Get(body, INSTANCE_ID_FIELD));
    if lookup.Failure? || |lookup.value| == 0 {
      ErrorResponse(env);
      return;
    }
    var hostId := lookup.value[0];
    var deactivated := env.DeactivateHost(hostId);
    if deactivated.Fail? {
      ErrorResponse(env);
      return;
    }
    var deleted := env.DeleteHost(hostId);
    if deleted.Fail? {
      ErrorResponse(env);
      return;
    }
    var err := env.CompleteLifecycleAction(CompletionParamsOf(body));
    env.Done();
  }

  /** The handler with the fail-fast chain and a `null` body treated as an unknown message. */
  method HandleMessageFailFast(env: Collaborators, d: Decoded)
    modifies env
    ensures env.trace == old(env.trace) + FailFastTrace(d, env.replies)
  {
    if d.Parsed? && d.value.Some? && Classify(d.value.value) == InstanceTerminating {
      RemoveHostFailFast(env, d.value.value);
    } else {
      env.Done();
    }
  }

  // ---------------------------------------------------------------------------------------------
  // Properties of the handler as written
  // ---------------------------------------------------------------------------------------------

  /** A body that is not JSON is acknowledged and nothing else happens. */
  lemma MalformedIsOnlyAcknowledged(r: Replies)
    ensures HandlerTrace(Malformed, r) == [Done]
    ensures HandlerEnding(Malformed, r) == Settled
  {
  }

  /** A test notification is acknowledged without any external call, whatever else the body holds. */
  lemma TestNotificationIsOnlyAcknowledged(b: Body, r: Replies)
    requires Get(b, EVENT_FIELD) == Some(TEST_NOTIFICATION)
    ensures HandlerTrace(Parsed(Some(b)), r) == [Done]
    ensures HandlerEnding(Parsed(Some(b)), r) == Settled
  {
  }

  /** A body that is neither a test nor a terminating notification is acknowledged and dropped. */
  lemma UnknownMessageIsOnlyAcknowledged(b: Body, r: Replies)
    requires Get(b, EVENT_FIELD) != Some(TEST_NOTIFICATION)
    requires Get(b, TRANSITION_FIELD) != Some(INSTANCE_TERMINATING)
    ensures HandlerTrace(Parsed(Some(b)), r) == [Done]
    ensures HandlerEnding(Parsed(Some(b)), r) == Settled
  {
  }

  /**
    External calls happen exactly for terminating events, and the first of them is the lookup of
    the host labelled HOSTID with the event's instance id.
  */
  lemma RemovalStartsOnlyOnTermination(d: Decoded, r: Replies)
    ensures !NoExternalCall(HandlerTrace(d, r)) <==> IsTermination(d)
    ensures IsTermination(d) ==>
      HandlerTrace(d, r)[0] == GetHostByIdLabel(HOST_ID_LABEL, Get(d.value.value, INSTANCE_ID_FIELD))
  {
    if IsTermination(d) {
      assert HandlerTrace(d, r)[0].IsExternal();
    }
  }

  /** An empty lookup result acknowledges the message; no deactivate, delete or completion follows. */
  lemma EmptyLookupStops(b: Body, r: Replies)
    requires Classify(b) == InstanceTerminating
    requires r.lookup == Success([])
    ensures HandlerTrace(Parsed(Some(b)), r) == [GetHostByIdLabel(HOST_ID_LABEL, Get(b, INSTANCE_ID_FIELD)), Done]
    ensures HandlerEnding(Parsed(Some(b)), r) == Settled
  {
  }

  /** Deactivate and delete both target the first host found, and deactivate is issued before delete. */
  lemma FirstHostIsDeactivatedThenDeleted(d: Decoded, r: Replies)
    ensures forall i :: 0 <= i < |HandlerTrace(d, r)| && (HandlerTrace(d, r)[i].DeactivateHost? || HandlerTrace(d, r)[i].DeleteHost?) ==>
      r.lookup.Success? && |r.lookup.value| > 0 && HandlerTrace(d, r)[i].hostId == r.lookup.value[0]
    ensures forall i, j ::
      0 <= i < |HandlerTrace(d, r)| && 0 <= j < |HandlerTrace(d, r)| &&
      HandlerTrace(d, r)[i].DeactivateHost? && HandlerTrace(d, r)[j].DeleteHost?
      ==> i < j
    ensures forall j :: 0 <= j < |HandlerTrace(d, r)| && HandlerTrace(d, r)[j].DeleteHost? ==>
      exists i :: 0 <= i < j && HandlerTrace(d, r)[i] == DeactivateHost(HandlerTrace(d, r)[j].hostId)
  {
    var t := HandlerTrace(d, r);
    forall j | 0 <= j < |t| && t[j].DeleteHost?
      ensures exists i :: 0 <= i < j && t[i] == DeactivateHost(t[j].hostId)
    {
      assert t[1] == DeactivateHost(r.lookup.value[0]);
    }
  }

  /**
    The completion request copies the three correlation fields of the body unchanged, asks to
    CONTINUE, and is issued only after the delete request.
  */
  lemma CompletionPassesCorrelationFields(d: Decoded, r: Replies)
    ensures forall i :: 0 <= i < |HandlerTrace(d, r)| && HandlerTrace(d, r)[i].CompleteLifecycleAction? ==>
      IsTermination(d) &&
      HandlerTrace(d, r)[i].params.autoScalingGroupName == Get(d.value.value, GROUP_NAME_FIELD) &&
      HandlerTrace(d, r)[i].params.lifecycleActionToken == Get(d.value.value, ACTION_TOKEN_FIELD) &&
      HandlerTrace(d, r)[i].params.lifecycleHookName == Get(d.value.value, HOOK_NAME_FIELD) &&
      HandlerTrace(d, r)[i].params.lifecycleActionResult == CONTINUE &&
      (exists j :: 0 <= j < i && HandlerTrace(d, r)[j].DeleteHost?)
  {
    var t := HandlerTrace(d, r);
    forall i | 0 <= i < |t| && t[i].CompleteLifecycleAction?
      ensures exists j :: 0 <= j < i && t[j].DeleteHost?
    {
      var hostIds := r.lookup.value;
      var j := if r.deactivate.Fail? then 3 else 2;
      assert t[j] == DeleteHost(hostIds[0]);
    }
  }

  /**
    A completion error is only logged: the completion is requested once, never again, the message
    is acknowledged last, and the calls do not depend on how the completion settles.
  */
  lemma CompletionErrorIsOnlyLogged(d: Decoded, r: Replies, complete: Outcome<string>)
    ensures HandlerTrace(d, r.(complete := complete)) == HandlerTrace(d, r)
    ensures HandlerEnding(d, r.(complete := complete)) == HandlerEnding(d, r)
    ensures IsTermination(d) && r.lookup.Success? && |r.lookup.value| > 0 ==>
      CountOf(HandlerTrace(d, r), CompleteLifecycleAction(CompletionParamsOf(d.value.value))) == 1 &&
      HandlerTrace(d, r)[|HandlerTrace(d, r)| - 1] == Done
  {
    if IsTermination(d) && r.lookup.Success? && |r.lookup.value| > 0 {
      var b, h := d.value.value, r.lookup.value[0];
      var c := CompleteLifecycleAction(CompletionParamsOf(b));
      var lookup := GetHostByIdLabel(HOST_ID_LABEL, Get(b, INSTANCE_ID_FIELD));
      assert HandlerTrace(d, r) == [lookup] + TeardownTrace(b, h, r);
      TeardownCounts(b, h, r);
      CountOfConcat([lookup], TeardownTrace(b, h, r), c);
      CountOfSingleton(lookup, c);
    }
  }

  lemma CountOfSingleton(x: Call, c: Call)
    ensures CountOf([x], c) == if x == c then 1 else 0
  {
    assert [x][1..] == [];
  }

  /** How often the host teardown acknowledges the message and requests the completion. */
  lemma TeardownCounts(b: Body, hostId: HostId, r: Replies)
    ensures CountOf(TeardownTrace(b, hostId, r), Done) == 1 + |OnRejection(r.deactivate)| + |OnRejection(r.delete)|
    ensures CountOf(TeardownTrace(b, hostId, r), CompleteLifecycleAction(CompletionParamsOf(b))) == 1
    ensures TeardownTrace(b, hostId, r)[|TeardownTrace(b, hostId, r)| - 1] == Done
  {
    var c := CompleteLifecycleAction(CompletionParamsOf(b));
    var p1, p2, p3, p4 := [DeactivateHost(hostId)], OnRejection(r.deactivate), [DeleteHost(hostId)], OnRejection(r.delete);
    var p5 := [c] + [Done];
    assert TeardownTrace(b, hostId, r) == p1 + (p2 + (p3 + (p4 + p5)));
    forall x: Call | x == Done || x == c
      ensures CountOf(TeardownTrace(b, hostId, r), x) ==
        CountOf(p1, x) + CountOf(p2, x) + CountOf(p3, x) + CountOf(p4, x) + CountOf([c], x) + CountOf([Done], x)
    {
      CountOfConcat([c], [Done], x);
      CountOfConcat(p4, p5, x);
      CountOfConcat(p3, p4 + p5, x);
      CountOfConcat(p2, p3 + (p4 + p5), x);
      CountOfConcat(p1, p2 + (p3 + (p4 + p5)), x);
    }
    CountOfSingleton(DeactivateHost(hostId), Done);
    CountOfSingleton(DeleteHost(hostId), Done);
    CountOfSingleton(c, Done);
    CountOfSingleton(Done, Done);
    CountOfSingleton(DeactivateHost(hostId), c);
    CountOfSingleton(DeleteHost(hostId), c);
    CountOfSingleton(c, c);
    CountOfSingleton(Done, c);
    if r.deactivate.Fail? { CountOfSingleton(Done, Done); CountOfSingleton(Done, c); }
    if r.delete.Fail? { CountOfSingleton(Done, Done); CountOfSingleton(Done, c); }
  }

  // ---------------------------------------------------------------------------------------------
  // Where the chain as written departs from the fail-fast sequence
  // ---------------------------------------------------------------------------------------------

  /** A rejected lookup acknowledges the message and then raises in the next continuation. */
  lemma LookupFailureRaisesAfterAcknowledging(b: Body, r: Replies)
    requires Classify(b) == InstanceTerminating
    requires r.lookup.Failure?
    ensures HandlerTrace(Parsed(Some(b)), r) == [GetHostByIdLabel(HOST_ID_LABEL, Get(b, INSTANCE_ID_FIELD)), Done]
    ensures HandlerEnding(Parsed(Some(b)), r) == RejectedWithTypeError
  {
  }

  /**
    A rejected deactivate does not stop the chain: the host is still deleted, the lifecycle action
    is still completed, and the message is acknowledged two or three times.
  */
  lemma DeactivateFailureStillDeletes(b: Body, r: Replies)
    requires Classify(b) == InstanceTerminating
    requires r.lookup.Success? && |r.lookup.value| > 0
    requires r.deactivate.Fail?
    ensures DeleteHost(r.lookup.value[0]) in HandlerTrace(Parsed(Some(b)), r)
    ensures CompleteLifecycleAction(CompletionParamsOf(b)) in HandlerTrace(Parsed(Some(b)), r)
    ensures CountOf(HandlerTrace(Parsed(Some(b)), r), Done) == if r.delete.Fail? then 3 else 2
  {
    var h := r.lookup.value[0];
    var lookup := GetHostByIdLabel(HOST_ID_LABEL, Get(b, INSTANCE_ID_FIELD));
    var teardown := TeardownTrace(b, h, r);
    assert HandlerTrace(Parsed(Some(b)), r) == [lookup] + teardown;
    assert teardown[2] == DeleteHost(h);
    assert teardown[|teardown| - 2] == CompleteLifecycleAction(CompletionParamsOf(b));
    TeardownCounts(b, h, r);
    CountOfConcat([lookup], teardown, Done);
    CountOfSingleton(lookup, Done);
  }

  /** A message whose body is the JSON text `null` is never acknowledged. */
  lemma NullBodyIsNeverAcknowledged(r: Replies)
    ensures CountOf(HandlerTrace(Parsed(None), r), Done) == 0
    ensures HandlerEnding(Parsed(None), r) == ThrewTypeError
  {
  }

  // ---------------------------------------------------------------------------------------------
  // Properties of the fail-fast handler
  // ---------------------------------------------------------------------------------------------

  /** Every message is acknowledged exactly once, and the acknowledgement is the last call. */
  lemma FailFastAcknowledgesOnce(d: Decoded, r: Replies)
    ensures CountOf(FailFastTrace(d, r), Done) == 1
    ensures FailFastTrace(d, r)[|FailFastTrace(d, r)| - 1] == Done
  {
    if IsTermination(d) {
      var b := d.value.value;
      var lookup := GetHostByIdLabel(HOST_ID_LABEL, Get(b, INSTANCE_ID_FIELD));
      if r.lookup.Failure? || |r.lookup.value| == 0 {
        assert FailFastTrace(d, r) == [lookup] + [Done];
        CountOfConcat([lookup], [Done], Done);
      } else {
        var h := r.lookup.value[0];
        var rest := FailFastTrace(d, r)[2..];
        assert FailFastTrace(d, r) == [lookup, DeactivateHost(h)] + rest;
        CountOfConcat([lookup, DeactivateHost(h)], rest, Done);
        if r.deactivate.Fail? {
          assert rest == [Done];
        } else if r.delete.Fail? {
          assert rest == [DeleteHost(h), Done];
        } else {
          assert rest == [DeleteHost(h), CompleteLifecycleAction(CompletionParamsOf(b)), Done];
        }
      }
    }
  }

  /** A rejected step ends the sequence: nothing after it is requested. */
  lemma FailFastStopsAtFirstFailure(d: Decoded, r: Replies)
    ensures r.lookup.Failure? ==> NoExternalCall(FailFastTrace(d, r)[1..])
    ensures r.lookup.Success? && |r.lookup.value| == 0 ==> NoExternalCall(FailFastTrace(d, r)[1..])
    ensures forall i :: 0 <= i < |FailFastTrace(d, r)| && FailFastTrace(d, r)[i].DeleteHost? ==>
      r.deactivate.Pass?
    ensures forall i :: 0 <= i < |FailFastTrace(d, r)| && FailFastTrace(d, r)[i].CompleteLifecycleAction? ==>
      r.deactivate.Pass? && r.delete.Pass?
    ensures forall j :: 0 <= j < |FailFastTrace(d, r)| && FailFastTrace(d, r)[j].DeleteHost? ==>
      exists i :: 0 <= i < j && FailFastTrace(d, r)[i] == DeactivateHost(FailFastTrace(d, r)[j].hostId)
    ensures forall j :: 0 <= j < |FailFastTrace(d, r)| && FailFastTrace(d, r)[j].CompleteLifecycleAction? ==>
      exists i :: 0 <= i < j && FailFastTrace(d, r)[i].DeleteHost?
  {
    var t := FailFastTrace(d, r);
    forall j | 0 <= j < |t| && t[j].DeleteHost?
      ensures exists i :: 0 <= i < j && t[i] == DeactivateHost(t[j].hostId)
    {
      assert t[1] == DeactivateHost(r.lookup.value[0]);
    }
    forall j | 0 <= j < |t| && t[j].CompleteLifecycleAction?
      ensures exists i :: 0 <= i < j && t[i].DeleteHost?
    {
      assert t[2] == DeleteHost(r.lookup.value[0]);
    }
  }

  /** When no step is rejected and the body is not `null`, both handlers make the same calls. */
  lemma FailFastAgreesWhenNothingFails(d: Decoded, r: Replies)
    requires d != Parsed(None)
    requires r.lookup.Success? && r.deactivate.Pass? && r.delete.Pass?
    ensures FailFastTrace(d, r) == HandlerTrace(d, r)
  {
  }
}
