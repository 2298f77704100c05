/**
  The decision logic of the legacy webhook server (index__OLD.js): reading its settings from the
  environment, routing a POSTed SNS message by its message-type header, and reconciling the
  autoscaling topic's subscriptions so that this host's endpoint is the one confirmed subscriber.

  The SNS client, express and the two request handlers are not part of this model: the SNS
  replies are parameters, and routing names the handler it hands the request to.
*/
module LegacyServer {
  import opened Outcomes

  // ---------------------------------------------------------------------------------------------
  // Settings
  // ---------------------------------------------------------------------------------------------

  /** `process.env`: the environment variables that are set, by name. */
  type Environment = map<string, string>

  const PORT_VAR := "PORT"
  const ACCESS_KEY_VAR := "RANCHER_SERVER_ACCESS_KEY"
  const SECRET_KEY_VAR := "RANCHER_SERVER_SECRET_KEY"
  const DELETE_HOST_VAR := "DELETE_HOST"
  const DELETE_ROUTE_VAR := "DELETE_ROUTE"
  const TOPIC_ARN_VAR := "ASG_HOOK_TOPIC_ARN"

  const REQUIRED_VARS := [PORT_VAR, ACCESS_KEY_VAR, SECRET_KEY_VAR, DELETE_HOST_VAR, DELETE_ROUTE_VAR, TOPIC_ARN_VAR]

  /** `process.env[name] || null`: an unset or empty variable reads as null. */
  function Setting(env: Environment, name: string): Option<string>
  {
    if name in env && env[name] != "" then Some(env[name]) else None
  }

  datatype Config = Config(
    port: string,
    accessKey: string,
    secretKey: string,
    deleteHost: string,
    deleteRoute: string,
    asgTopicArn: string,
    rancherUrl: string)

  /** The group of settings whose check stopped the process. */
  datatype MissingSetting = MissingPort | MissingKeys | MissingDeleteTarget | MissingTopicArn

  datatype Startup = Exit(status: int, missing: MissingSetting) | Configured(config: Config)

  const RANCHER_URL_SCHEME := "http://"
  const RANCHER_URL_SERVER := "@rancher-server:8080/v1"

  /** The Rancher API URL with the access key pair as its user information. */
  function RancherUrl(accessKey: string, secretKey: string): string
  {
    RANCHER_URL_SCHEME + accessKey + ":" + secretKey + RANCHER_URL_SERVER
  }

  /**
    Fills the configuration one setting at a time and stops the process with status 1 at the
    first group of settings that is missing: the port, the key pair, the delete host and route,
    the topic ARN.
  */
  method LoadConfig(env: Environment) returns (s: Startup)
    ensures s.Exit? ==> s.status == 1
    ensures s.Configured? <==> forall name :: name in REQUIRED_VARS ==> Setting(env, name).Some?
    ensures s == Exit(1, MissingPort) <==> Setting(env, PORT_VAR).None?
    ensures s == Exit(1, MissingKeys) <==>
      Setting(env, PORT_VAR).Some? &&
      (Setting(env, ACCESS_KEY_VAR).None? || Setting(env, SECRET_KEY_VAR).None?)
    ensures s == Exit(1, MissingDeleteTarget) <==>
      Setting(env, PORT_VAR).Some? && Setting(env, ACCESS_KEY_VAR).Some? && Setting(env, SECRET_KEY_VAR).Some? &&
      (Setting(env, DELETE_HOST_VAR).None? || Setting(env, DELETE_ROUTE_VAR).None?)
    ensures s == Exit(1, MissingTopicArn) <==>
      Setting(env, PORT_VAR).Some? && Setting(env, ACCESS_KEY_VAR).Some? && Setting(env, SECRET_KEY_VAR).Some? &&
      Setting(env, DELETE_HOST_VAR).Some? && Setting(env, DELETE_ROUTE_VAR).Some? &&
      Setting(env, TOPIC_ARN_VAR).None?
    ensures s.Configured? ==>
      s.config.port == env[PORT_VAR] &&
      s.config.accessKey == env[ACCESS_KEY_VAR] &&
      s.config.secretKey == env[SECRET_KEY_VAR] &&
      s.config.deleteHost == env[DELETE_HOST_VAR] &&
      s.config.deleteRoute == env[DELETE_ROUTE_VAR] &&
      s.config.asgTopicArn == env[TOPIC_ARN_VAR] &&
      s.config.rancherUrl == RancherUrl(env[ACCESS_KEY_VAR], env[SECRET_KEY_VAR])
  {
    var port := Setting(env, PORT_VAR);
    if port.None? {
      return Exit(1, MissingPort);
    }

    var accessKey := Setting(env, ACCESS_KEY_VAR);
    var secretKey := Setting(env, SECRET_KEY_VAR);
    if accessKey.None? || secretKey.None? {
      return Exit(1, MissingKeys);
    }

    var deleteHost := Setting(env, DELETE_HOST_VAR);
    var deleteRoute := Setting(env, DELETE_ROUTE_VAR);
    if deleteHost.None? || deleteRoute.None? {
      return Exit(1, MissingDeleteTarget);
    }

    var asgTopicArn := Setting(env, TOPIC_ARN_VAR);
    if asgTopicArn.None? {
      return Exit(1, MissingTopicArn);
    }

    var rancherUrl := RancherUrl(accessKey.value, secretKey.value);
    s := Configured(Config(port.value, accessKey.value, secretKey.value,
                           deleteHost.value, deleteRoute.value, asgTopicArn.value, rancherUrl));
  }

  /** Splits `s` at the first occurrence of `sep`. */
  function SplitAtFirst(s: string, sep: char): Option<(string, string)>
  {
    if s == [] then None
    else if s[0] == sep then Some(([], s[1..]))
    else
      match SplitAtFirst(s[1..], sep)
      case None => None
      case Some(parts) => Some(([s[0]] + parts.0, parts.1))
  }

  /** The access key and secret key a Rancher URL carries, read back from its user information. */
  function UrlCredentials(url: string): Option<(string, string)>
  {
    var n, m := |RANCHER_URL_SCHEME|, |RANCHER_URL_SERVER|;
    if n + m <= |url| && url[..n] == RANCHER_URL_SCHEME && url[|url| - m..] == RANCHER_URL_SERVER
    then SplitAtFirst(url[n..|url| - m], ':')
    else None
  }

  lemma {:induction false} SplitAtFirstJoin(a: string, b: string, sep: char)
    requires sep !in a
    ensures SplitAtFirst(a + [sep] + b, sep) == Some((a, b))
  {
    if a == [] {
      assert a + [sep] + b == [sep] + b;
    } else {
      assert (a + [sep] + b)[1..] == a[1..] + [sep] + b;
      SplitAtFirstJoin(a[1..], b, sep);
      assert (a + [sep] + b)[0] == a[0] != sep;
      assert [a[0]] + a[1..] == a;
    }
  }

  /** An access key without ':' can be read back from the URL together with the secret key. */
  lemma RancherUrlCarriesCredentials(accessKey: string, secretKey: string)
    requires ':' !in accessKey
    ensures UrlCredentials(RancherUrl(accessKey, secretKey)) == Some((accessKey, secretKey))
  {
    var url := RancherUrl(accessKey, secretKey);
    var n, m := |RANCHER_URL_SCHEME|, |RANCHER_URL_SERVER|;
    assert url == RANCHER_URL_SCHEME + (accessKey + [':'] + secretKey) + RANCHER_URL_SERVER;
    assert url[..n] == RANCHER_URL_SCHEME;
    assert url[|url| - m..] == RANCHER_URL_SERVER;
    assert url[n..|url| - m] == accessKey + [':'] + secretKey;
    SplitAtFirstJoin(accessKey, secretKey, ':');
  }

  /** The keys are not encoded, so a ':' inside the access key makes two key pairs share a URL. */
  lemma RancherUrlIsAmbiguousForColonKeys()
    ensures RancherUrl("a:b", "c") == RancherUrl("a", "b:c")
  {
  }

  // ---------------------------------------------------------------------------------------------
  // Routing a POSTed SNS message
  // ---------------------------------------------------------------------------------------------

  const MESSAGE_TYPE_HEADER := "x-amz-sns-message-type"
  const SUBSCRIPTION_CONFIRMATION := "SubscriptionConfirmation"
  const NOTIFICATION := "Notification"
  const UNKNOWN_MESSAGE := "Unknown message"
  const NOT_HANDLED := "Not handled - must be SubscriptionConfirmation or Notification"

  /** What the POST handler does with a request: hand it to an action, or answer it directly. */
  datatype PostDisposition =
    | ConfirmSubscription      // `confirmSubscription(req, res, sns)`
    | HandleNotification       // `handleNotifcation(req, res, config)`
    | Reply(status: int, body: string)

  /** The message-type header, or None when it is absent. Header names arrive lower-cased. */
  function MessageType(headers: map<string, string>): Option<string>
  {
    if MESSAGE_TYPE_HEADER in headers then Some(headers[MESSAGE_TYPE_HEADER]) else None
  }

  function RoutePost(headers: map<string, string>): (d: PostDisposition)
    ensures d == ConfirmSubscription <==> MessageType(headers) == Some(SUBSCRIPTION_CONFIRMATION)
    ensures d == HandleNotification <==> MessageType(headers) == Some(NOTIFICATION)
    ensures d.Reply? ==> d.status == 404
    ensures d == Reply(404, UNKNOWN_MESSAGE) <==> MessageType(headers) in {None, Some("")}
    ensures d == Reply(404, NOT_HANDLED) <==>
      MessageType(headers) !in {None, Some(""), Some(SUBSCRIPTION_CONFIRMATION), Some(NOTIFICATION)}
  {
    var messageType := MessageType(headers);
    if messageType.None? || messageType.value == "" then Reply(404, UNKNOWN_MESSAGE)
    else if messageType.value == SUBSCRIPTION_CONFIRMATION then ConfirmSubscription
    else if messageType.value == NOTIFICATION then HandleNotification
    else Reply(404, NOT_HANDLED)
  }

  // ---------------------------------------------------------------------------------------------
  // Reconciling the topic's subscriptions
  // ---------------------------------------------------------------------------------------------

  const PENDING_CONFIRMATION := "PendingConfirmation"

  /** One entry of `data.Subscriptions`. */
  datatype Subscription = Subscription(endpoint: string, subscriptionArn: string)

  /** A request issued to the SNS client. */
  datatype SnsRequest =
    | ListSubscriptionsByTopic(topicArn: string)
    | Unsubscribe(subscriptionArn: string)
    | Subscribe(protocol: string, topicArn: string, endpoint: string)

  /** The URL SNS should deliver to: this host's delete route. */
  function DeleteEndpoint(c: Config): string
  {
    "http://" + c.deleteHost + c.deleteRoute
  }

  /** A confirmed subscription of `endpoint`. */
  predicate IsConfirmedFor(s: Subscription, endpoint: string)
  {
    s.endpoint == endpoint && s.subscriptionArn != PENDING_CONFIRMATION
  }

  /** A confirmed subscription of some other endpoint: the loop's else-if branch. */
  predicate IsStale(s: Subscription, endpoint: string)
  {
    !IsConfirmedFor(s, endpoint) && s.subscriptionArn != PENDING_CONFIRMATION
  }

  predicate EndpointSubscribed(subs: seq<Subscription>, endpoint: string)
  {
    exists i :: 0 <= i < |subs| && IsConfirmedFor(subs[i], endpoint)
  }

  /** The unsubscribe requests for the stale subscriptions, in list order. */
  function UnsubscribeRequests(subs: seq<Subscription>, endpoint: string): seq<SnsRequest>
  {
    if subs == [] then []
    else
      var last := subs[|subs| - 1];
      UnsubscribeRequests(subs[..|subs| - 1], endpoint) +
      (if IsStale(last, endpoint) then [Unsubscribe(last.subscriptionArn)] else [])
  }

  /**
    `verifySnsSubscription`: list the topic's subscriptions (exit with status 1 when that fails),
    walk them in order, remember whether this endpoint holds a confirmed subscription and
    unsubscribe every other confirmed one, then subscribe this endpoint if it had none (exit with
    status 1 when that fails). `requests` are the SNS requests issued, in order.
  */
  method VerifySnsSubscription(config: Config, listing: Result<seq<Subscription>, string>, subscribed: Outcome<string>)
    returns (requests: seq<SnsRequest>, endpointSubscribed: bool, exitStatus: Option<int>)
    ensures |requests| >= 1 && requests[0] == ListSubscriptionsByTopic(config.asgTopicArn)
    ensures listing.Failure? ==> requests == [ListSubscriptionsByTopic(config.asgTopicArn)] && exitStatus == Some(1)
    ensures listing.Success? ==> endpointSubscribed == EndpointSubscribed(listing.value, DeleteEndpoint(config))
    ensures listing.Success? ==>
      requests == [ListSubscriptionsByTopic(config.asgTopicArn)] +
                  UnsubscribeRequests(listing.value, DeleteEndpoint(config)) +
                  (if endpointSubscribed then [] else [Subscribe("http", config.asgTopicArn, DeleteEndpoint(config))])
    ensures listing.Success? ==>
      exitStatus == if !endpointSubscribed && subscribed.Fail? then Some(1) else None
  {
    requests := [ListSubscriptionsByTopic(config.asgTopicArn)];
    endpointSubscribed := false;
    if listing.Failure? {
      return requests, endpointSubscribed, Some(1);
    }
    var subs := listing.value;
    var endpoint := DeleteEndpoint(config);
    for i := 0 to |subs|
      invariant endpointSubscribed == EndpointSubscribed(subs[..i], endpoint)
      invariant requests == [ListSubscriptionsByTopic(config.asgTopicArn)] + UnsubscribeRequests(subs[..i], endpoint)
    {
      var sub := subs[i];
      assert subs[..i + 1][..i] == subs[..i];
      if sub.endpoint == endpoint && sub.subscriptionArn != PENDING_CONFIRMATION {
        endpointSubscribed := true;
      } else if sub.subscriptionArn != PENDING_CONFIRMATION {
        requests := requests + [Unsubscribe(sub.subscriptionArn)];
      }
    }
    assert subs[..|subs|] == subs;
    exitStatus := None;
    if !endpointSubscribed {
      requests := requests + [Subscribe("http", config.asgTopicArn, endpoint)];
      if subscribed.Fail? {
        exitStatus := Some(1);
      }
    }
  }

  /** Exactly the stale subscriptions are unsubscribed, each by its own ARN. */
  lemma {:induction false} UnsubscribesExactlyStale(subs: seq<Subscription>, endpoint: string)
    ensures forall k :: 0 <= k < |UnsubscribeRequests(subs, endpoint)| ==> UnsubscribeRequests(subs, endpoint)[k].Unsubscribe?
    ensures forall arn :: Unsubscribe(arn) in UnsubscribeRequests(subs, endpoint) <==>
      exists i :: 0 <= i < |subs| && IsStale(subs[i], endpoint) && subs[i].subscriptionArn == arn
  {
    if subs != [] {
      var init := subs[..|subs| - 1];
      UnsubscribesExactlyStale(init, endpoint);
      forall arn | Unsubscribe(arn) in UnsubscribeRequests(subs, endpoint)
        ensures exists i :: 0 <= i < |subs| && IsStale(subs[i], endpoint) && subs[i].subscriptionArn == arn
      {
        if Unsubscribe(arn) in UnsubscribeRequests(init, endpoint) {
          var i :| 0 <= i < |init| && IsStale(init[i], endpoint) && init[i].subscriptionArn == arn;
          assert subs[i] == init[i];
        } else {
          assert IsStale(subs[|subs| - 1], endpoint) && subs[|subs| - 1].subscriptionArn == arn;
        }
      }
      forall arn | exists i :: 0 <= i < |subs| && IsStale(subs[i], endpoint) && subs[i].subscriptionArn == arn
        ensures Unsubscribe(arn) in UnsubscribeRequests(subs, endpoint)
      {
        var i :| 0 <= i < |subs| && IsStale(subs[i], endpoint) && subs[i].subscriptionArn == arn;
        if i < |subs| - 1 {
          assert init[i] == subs[i];
        }
      }
    }
  }

  /** A subscription still pending confirmation is never unsubscribed. */
  lemma PendingIsNeverUnsubscribed(subs: seq<Subscription>, endpoint: string)
    ensures Unsubscribe(PENDING_CONFIRMATION) !in UnsubscribeRequests(subs, endpoint)
  {
    UnsubscribesExactlyStale(subs, endpoint);
  }

  /**
    This endpoint's confirmed subscription is never unsubscribed, provided no other subscription
    shares its ARN (SNS gives every confirmed subscription its own ARN).
  */
  lemma OwnSubscriptionIsKept(subs: seq<Subscription>, endpoint: string)
    requires forall i, j :: 0 <= i < |subs| && 0 <= j < |subs| && i != j ==>
      subs[i].subscriptionArn == PENDING_CONFIRMATION || subs[i].subscriptionArn != subs[j].subscriptionArn
    ensures forall i :: 0 <= i < |subs| && IsConfirmedFor(subs[i], endpoint) ==>
      Unsubscribe(subs[i].subscriptionArn) !in UnsubscribeRequests(subs, endpoint)
  {
    UnsubscribesExactlyStale(subs, endpoint);
  }

  /** A subscription of this endpoint that is still pending does not count: a fresh subscribe follows. */
  lemma PendingOwnSubscriptionIsRenewed(subs: seq<Subscription>, endpoint: string)
    requires forall i :: 0 <= i < |subs| && subs[i].endpoint == endpoint ==> subs[i].subscriptionArn == PENDING_CONFIRMATION
    ensures !EndpointSubscribed(subs, endpoint)
  {
  }
}
