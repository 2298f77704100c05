# rancher-delete-host, modelled in Dafny

This service removes an EC2 instance's node from a Rancher server before the autoscaling group
terminates the instance. It consumes autoscaling lifecycle notifications from an SQS queue. For
each message, `handleMessage` (app.js) does the following:

- It decodes the body as JSON.
- It acknowledges test notifications and unknown messages with `done()`.
- For an `autoscaling:EC2_INSTANCE_TERMINATING` transition, it runs a chain against the Rancher
  server: look up the host labelled `HOSTID` = instance id, deactivate it, delete it.
- It then completes the lifecycle action with `CONTINUE` and acknowledges the message.

An older webhook variant (index__OLD.js) does three things:

- It reads its settings from the environment and builds the Rancher URL.
- It routes POSTed SNS messages by their `x-amz-sns-message-type` header.
- It reconciles the autoscaling topic's subscriptions, so that this host's endpoint ends up as
  the one confirmed subscriber.

Files:

- `outcomes.dfy`: `Option`, `Result` and `Outcome` (how a promise or callback settles).
- `lifecycle_handler.dfy`, module `LifecycleHandler`: the queue handler of app.js.
  - The Rancher client, the autoscaling client and `done` are the class `Collaborators`. Each of
    its methods appends its call, with the arguments, to a ghost `trace`, then answers with a
    scripted reply from `replies`.
  - Each collaborator is called at most once per message, so one reply per operation describes
    every run in which each call settles. A call that never settles is not described (see Left out).
  - `HandleMessage` is proved to produce exactly the trace `HandlerTrace`, and the properties of
    the handler are lemmas about `HandlerTrace`.
- `legacy_server.dfy`, module `LegacyServer`: configuration loading, POST routing and
  subscription reconciliation from index__OLD.js.

The handler is modelled as the code behaves. Every step is chained as
`.catch(errorResponse).then(next)`, so a rejected step acknowledges the message and the next
continuation still runs. The code's own text points to a fail-fast chain instead. The "standard
error response" at app.js:45-50 reports that the host could not be removed and then acknowledges
the message, as a terminal step. The comment at app.js:85 relies on AWS, not
on a later step, to complete the hook after a failure. Yet the code does not stop after a failed
step. The model follows
the code, and the difference is recorded under Findings. `HandleMessageFailFast` is the
corrected handler, and its intended properties are proved.

## Model

| member | source | states |
|---|---|---|
| `LifecycleHandler.Classify` | app.js:36-42 | The test-notification check comes first: the result is a test notification exactly when `Event` is `autoscaling:TEST_NOTIFICATION`, whatever `LifecycleTransition` holds. It is instance-terminating exactly when the event is not a test and `LifecycleTransition` is `autoscaling:EC2_INSTANCE_TERMINATING`. The truthiness guards never change the outcome. |
| `LifecycleHandler.Collaborators.GetHostByIdLabel` | app.js:54 | Records the lookup with its label name and value, then answers with the Rancher server's scripted reply. |
| `LifecycleHandler.Collaborators.DeactivateHost` | app.js:65 | Records the deactivate request for the given host, then answers with the scripted settlement. |
| `LifecycleHandler.Collaborators.DeleteHost` | app.js:71 | Records the delete request for the given host, then answers with the scripted settlement. |
| `LifecycleHandler.Collaborators.CompleteLifecycleAction` | app.js:78-83 | Records the completion request with its parameters, then hands the callback the scripted `err`. |
| `LifecycleHandler.Collaborators.Done` | app.js:31 | Records one acknowledgement of the message. |
| `LifecycleHandler.ErrorResponse` | app.js:46-50 | `errorResponse` acknowledges the message once and makes no other call. |
| `LifecycleHandler.HandleMessage` | app.js:20-116 | The calls the handler makes, in order, are exactly `HandlerTrace` of the decoded body and the replies. How it ends is `HandlerEnding`: it settles, it throws on a `null` body, or it rejects after a failed lookup. |
| `LifecycleHandler.RemoveHost` | app.js:46-106 | The lookup goes to label `HOSTID` with the event's `EC2InstanceId`. A rejected lookup acknowledges the message and then leaves the promise rejected. An empty result acknowledges the message. Otherwise the host teardown runs on the first host id. |
| `LifecycleHandler.Teardown` | app.js:62-97 | Deactivate, then delete, then complete, then acknowledge. A rejected deactivate or delete adds an acknowledgement, and the chain continues after it. |
| `LifecycleHandler.MalformedIsOnlyAcknowledged` | app.js:25-32 | A body that is not JSON is acknowledged once, with no Rancher or autoscaling call. |
| `LifecycleHandler.TestNotificationIsOnlyAcknowledged` | app.js:36-39 | A test notification is acknowledged once with no external call, even when it also carries the terminating transition. |
| `LifecycleHandler.UnknownMessageIsOnlyAcknowledged` | app.js:110-114 | A message that is neither a test nor a terminating notification is acknowledged once, with no external call. |
| `LifecycleHandler.RemovalStartsOnlyOnTermination` | app.js:42-54 | Some external call happens if and only if the body is a terminating notification. The first call is then the lookup of label `HOSTID` with the body's `EC2InstanceId`. |
| `LifecycleHandler.EmptyLookupStops` | app.js:60-104 | An empty lookup result leads to the lookup and one acknowledgement only: no deactivate, delete or completion. |
| `LifecycleHandler.FirstHostIsDeactivatedThenDeleted` | app.js:62-71 | Every deactivate and delete targets `hostIds[0]` of a successful, non-empty lookup. Every deactivate comes before every delete, and each delete is preceded by a deactivate of the same host. |
| `LifecycleHandler.CompletionPassesCorrelationFields` | app.js:72-83 | A completion happens only for a terminating event. It carries the body's `AutoScalingGroupName`, `LifecycleActionToken` and `LifecycleHookName` unchanged, with result `CONTINUE`. It comes after a delete request. |
| `LifecycleHandler.CompletionErrorIsOnlyLogged` | app.js:83-94 | The calls do not depend on how the completion settles. Once a host is found, the completion is requested exactly once and the last call is the acknowledgement. |
| `LifecycleHandler.LookupFailureRaisesAfterAcknowledging` | app.js:54-60 | A rejected lookup gives the lookup and one acknowledgement. The continuation then raises a TypeError that nothing catches. |
| `LifecycleHandler.DeactivateFailureStillDeletes` | app.js:65-72 | After a rejected deactivate, the host is still deleted and the lifecycle action still completed. The message is acknowledged twice, or three times if the delete is also rejected. |
| `LifecycleHandler.NullBodyIsNeverAcknowledged` | app.js:26-36 | A body that is the JSON text `null` makes the handler throw before any acknowledgement. |
| `LifecycleHandler.RemoveHostFailFast` | app.js:46-106 | The corrected chain: the calls are exactly `FailFastRemovalTrace`, which stops at the first rejected step. |
| `LifecycleHandler.HandleMessageFailFast` | app.js:20-116 | The corrected handler: the calls are exactly `FailFastTrace`, with a `null` body handled like an unknown message. |
| `LifecycleHandler.FailFastAcknowledgesOnce` | app.js:46-50 | In the corrected handler, every message is acknowledged exactly once, and the acknowledgement is the last call. |
| `LifecycleHandler.FailFastStopsAtFirstFailure` | app.js:54-72 | In the corrected handler, no external call follows a rejected or empty lookup. A delete is preceded by a deactivate of the same host, and it happens only if that deactivate succeeded. A completion is preceded by a delete, and it happens only if both the deactivate and the delete succeeded. |
| `LifecycleHandler.FailFastAgreesWhenNothingFails` | app.js:54-95 | When no step is rejected and the body is not `null`, the corrected handler makes the same calls as the handler as written. |
| `LegacyServer.LoadConfig` | index__OLD.js:14-51 | The process continues if and only if all six variables are set and non-empty. Otherwise it exits with status 1 at the first missing group, in this order: port, key pair, delete host and route, topic ARN. The configuration holds the variables' values, and the Rancher URL is built from the two keys. |
| `LegacyServer.RancherUrlCarriesCredentials` | index__OLD.js:51 | The URL is `http://` + access key + `:` + secret key + `@rancher-server:8080/v1`. Both keys can be read back from it when the access key contains no `:`. |
| `LegacyServer.RancherUrlIsAmbiguousForColonKeys` | index__OLD.js:51 | The keys are not encoded, so two different key pairs can give the same URL. |
| `LegacyServer.RoutePost` | index__OLD.js:81-103 | A missing or empty `x-amz-sns-message-type` header gets 404 `Unknown message`. `SubscriptionConfirmation` goes to `confirmSubscription` and `Notification` goes to `handleNotifcation`. Any other value gets 404 `Not handled - ...`. |
| `LegacyServer.VerifySnsSubscription` | index__OLD.js:151-213 | The topic is listed first, and a failed listing exits with status 1. `endpointSubscribed` holds exactly when some subscription is a confirmed subscription of `http://` + delete host + delete route. The unsubscribe requests follow in list order. A subscribe request (`http`, topic ARN, endpoint) is issued exactly when the endpoint was not subscribed, and if that subscribe fails the process exits with status 1. |
| `LegacyServer.UnsubscribesExactlyStale` | index__OLD.js:165-178 | The loop issues only unsubscribe requests. An ARN is unsubscribed if and only if some confirmed subscription of another endpoint carries it. |
| `LegacyServer.PendingIsNeverUnsubscribed` | index__OLD.js:172 | No request unsubscribes `PendingConfirmation`. |
| `LegacyServer.OwnSubscriptionIsKept` | index__OLD.js:167-178 | When confirmed ARNs are distinct, this endpoint's confirmed subscription is never unsubscribed. |
| `LegacyServer.PendingOwnSubscriptionIsRenewed` | index__OLD.js:167-194 | If every subscription of this endpoint is still pending, the endpoint does not count as subscribed, so a fresh subscribe is issued. |

## Left out

- The SQS consumer is left out because it is transport and process lifecycle. This covers its creation, polling, its `error` handler that exits the process, and `consumer.start()`.
- JSON parsing itself is not modelled. The handler receives the value that `JSON.parse` produced, as `Decoded`.
- The decoded body keeps only its string-valued fields. Fields that hold `null`, numbers, arrays or objects are not modelled. This also leaves out JavaScript's loose `==`, under which an array such as `["autoscaling:TEST_NOTIFICATION"]` equals the string.
- A JSON number, string or array body behaves like an object without the three fields. It is modelled as an empty body.
- `./util/rancher` and the AWS SDK are not part of this model. Their replies are scripted parameters, and the handler cannot observe their internals.
- What sqs-consumer does with a thrown error, an unhandled rejection or a repeated `done()` is not modelled. The model reports these as `Ending` values and acknowledgement counts.
- The model only describes runs where every collaborator call settles. A lookup, deactivate or delete promise that never settles, or a `completeLifecycleAction` callback that never fires, stops the chain in the code with no later call and no `done()` (app.js:54-95 sets no timeout). `Result` and `Outcome` cannot express such a call.
- `console.log` output, the region and API versions, and the example payloads in comments are left out.
- In index__OLD.js, the following express and HTTP wiring is left out as I/O: `app.use(bodyParser...)`, the GET ping route, `app.listen`, the `setInterval` health ping with its 5-second timer and HTTP GET, and the parsing of its reply.
- `confirmSubscription` and `handleNotifcation` are not part of this model. Routing only names which of them receives the request.
- The asynchronous callbacks of the unsubscribe requests only log, and they are left out.
- `listSubscriptionsByTopic` returns one page of results (its `NextToken` is ignored by the code). The model takes the listed subscriptions as given.
- `process.exit(1)` is modelled as a returned exit status. Nothing after it runs.

## Findings

| source | as written | input that shows it | evidently intended | confidence | as-written member | corrected member |
|---|---|---|---|---|---|---|
| app.js:54-60 | `.catch(errorResponse)` resolves with `undefined`, so the following `.then` reads `hostIds.length` of `undefined` after the message was acknowledged. | A terminating notification whose host lookup is rejected. | Stop after `errorResponse`, with the message acknowledged once and no error raised. | high; not executed | `LifecycleHandler.LookupFailureRaisesAfterAcknowledging` | `LifecycleHandler.FailFastAcknowledgesOnce` |
| app.js:65-72 | A rejected deactivate (or delete) runs `errorResponse` and then the next continuation. The host is deleted anyway, the lifecycle action is completed, and `done()` runs two or three times. | A terminating notification, a lookup returning `["host-1"]`, and a rejected deactivate. | Abort at the first failed step: no delete after a failed deactivate, and no completion after a failed delete. | high; not executed | `LifecycleHandler.DeactivateFailureStillDeletes` | `LifecycleHandler.FailFastStopsAtFirstFailure` |
| app.js:26-36 | `JSON.parse("null")` succeeds, and `messageBody.Event` then throws before `done()`, so the message is never acknowledged. | A queue message whose body is `null`. | Treat it like any other unrecognised message and acknowledge it. | medium; not executed | `LifecycleHandler.NullBodyIsNeverAcknowledged` | `LifecycleHandler.HandleMessageFailFast` |
