/**
 * The Pub/Sub subscriber of package pubsub: the set-up decision flow of
 * `NewSubscriber` against an abstract Pub/Sub client, the field mapping of
 * `subscriptionConfigToUpdate`, and the `Consume` loop that hands each
 * received message to the handler, acks it on success and nacks it and stops
 * on the first failure. The end of the received sequence stands for the
 * context being cancelled.
 */
module PubSubSubscriber {
  import opened Wrappers
  import opened Strings
  import opened PubSubConfig

  /** The retry policy given to a subscription that has none. */
  const MinimumBackoff: int := 200 * Millisecond
  const MaximumBackoff: int := 600 * Second

  datatype SubscriptionConfigToUpdate = SubscriptionConfigToUpdate(
    pushConfig: Option<PushConfig>,
    bigQueryConfig: Option<BigQueryConfig>,
    ackDeadline: int,
    retainAckedMessages: bool,
    retentionDuration: int,
    expirationPolicy: int,
    deadLetterPolicy: Option<DeadLetterPolicy>,
    labels: map<string, string>,
    retryPolicy: Option<RetryPolicy>)

  /** `subscriptionConfigToUpdate`: push and BigQuery settings only when configured; the other updatable fields copied. */
  function ToUpdate(config: SubscriptionConfig): (u: SubscriptionConfigToUpdate)
    ensures u.pushConfig.None? <==> config.pushConfig.endpoint == ""
    ensures u.pushConfig.Some? ==> u.pushConfig.value == config.pushConfig
    ensures u.bigQueryConfig.None? <==> config.bigQueryConfig.table == ""
    ensures u.bigQueryConfig.Some? ==> u.bigQueryConfig.value == config.bigQueryConfig
    ensures u.ackDeadline == config.ackDeadline && u.retainAckedMessages == config.retainAckedMessages
    ensures u.retentionDuration == config.retentionDuration && u.expirationPolicy == config.expirationPolicy
    ensures u.deadLetterPolicy == config.deadLetterPolicy && u.labels == config.labels && u.retryPolicy == config.retryPolicy
  {
    var pushConfig := if config.pushConfig.endpoint != "" then Some(config.pushConfig) else None;
    var bigQueryConfig := if config.bigQueryConfig.table != "" then Some(config.bigQueryConfig) else None;
    SubscriptionConfigToUpdate(
      pushConfig, bigQueryConfig, config.ackDeadline, config.retainAckedMessages, config.retentionDuration,
      config.expirationPolicy, config.deadLetterPolicy, config.labels, config.retryPolicy)
  }

  /** The update never carries the name, the topic, the ordering flag or the topic message retention. */
  lemma UpdateIgnoresFixedFields(config: SubscriptionConfig, name: string, topic: string, ordering: bool, retention: int)
    ensures ToUpdate(config) == ToUpdate(config.(name := name, topic := topic, enableMessageOrdering := ordering,
                                                 topicMessageRetentionDuration := retention))
  {
  }

  /** What the Pub/Sub client answers; an `Err` is the error its call returns. */
  datatype Remote = Remote(
    topicExists: string -> Result<bool>,
    subscriptionExists: string -> Result<bool>,
    createError: Option<string>,
    updateError: Option<string>,
    defaultReceiveSettings: ReceiveSettings)

  datatype RemoteCall =
    | TopicExistsCall(topic: string)
    | SubscriptionExistsCall(subscriptionId: string)
    | CreateCall(subscriptionId: string, config: SubscriptionConfig)
    | UpdateCall(subscriptionId: string, update: SubscriptionConfigToUpdate)

  datatype Subscription = Subscription(id: string, receiveSettings: ReceiveSettings)

  /** The outcome of `NewSubscriber`: the subscription or the error, the client calls made, and the caller's config afterwards. */
  datatype SetUp = SetUp(subscription: Result<Subscription>, calls: seq<RemoteCall>, config: Option<SubscriberConfig>)

  /** The retry policy the subscription is created or updated with. */
  function WithDefaultRetry(c: SubscriptionConfig): (r: SubscriptionConfig)
    ensures c.retryPolicy.Some? ==> r == c
    ensures c.retryPolicy.None? ==> r == c.(retryPolicy := Some(RetryPolicy(MinimumBackoff, MaximumBackoff)))
  {
    if c.retryPolicy.None? then c.(retryPolicy := Some(RetryPolicy(MinimumBackoff, MaximumBackoff))) else c
  }

  /** `NewSubscriber`'s decision flow: refuse a missing or invalid config, check the topic and the subscription, then create or update. */
  function NewSubscriberSetUp(remote: Remote, config: Option<SubscriberConfig>): (r: SetUp)
    ensures r.calls == [] <==> config.None? || Validate(config.value).Some?
    ensures |r.calls| <= 3
    ensures r.subscription.Ok? ==> |r.calls| == 3 && r.subscription.value.id == config.value.subscriptionId
    ensures r.config.Some? <==> config.Some?
  {
    if config.None? then SetUp(Err("config is not set"), [], config)
    else
      var c := config.value;
      match Validate(c)
      case Some(e) => SetUp(Err(e), [], config)
      case None =>
        var topic := c.subscriptionConfig.value.topic;
        var c1 := [TopicExistsCall(topic)];
        match remote.topicExists(topic)
        case Err(e) => SetUp(Err(e), c1, config)
        case Ok(false) => SetUp(Err("topic " + topic + " does not exist"), c1, config)
        case Ok(true) =>
          var c2 := c1 + [SubscriptionExistsCall(c.subscriptionId)];
          match remote.subscriptionExists(c.subscriptionId)
          case Err(e) => SetUp(Err(e), c2, config)
          case Ok(present) =>
            var sc := WithDefaultRetry(c.subscriptionConfig.value);
            var updated := Some(c.(subscriptionConfig := Some(sc)));
            var call := if present then UpdateCall(c.subscriptionId, ToUpdate(sc)) else CreateCall(c.subscriptionId, sc);
            var err := if present then remote.updateError else remote.createError;
            if err.Some? then SetUp(Err(err.value), c2 + [call], updated)
            else
              var settings := if c.receiveSettings.Some? then c.receiveSettings.value else remote.defaultReceiveSettings;
              SetUp(Ok(Subscription(c.subscriptionId, settings)), c2 + [call], updated)
  }

  /** A missing or invalid config is refused before the client is called, and the config is left as it was. */
  lemma InvalidConfigTouchesNothing(remote: Remote, config: Option<SubscriberConfig>)
    requires config.None? || Validate(config.value).Some?
    ensures var s := NewSubscriberSetUp(remote, config);
            && s.calls == [] && s.config == config
            && s.subscription == Err(if config.None? then "config is not set" else Validate(config.value).value)
  {
  }

  /** A topic that does not exist stops set-up after the one existence check. */
  lemma MissingTopicRefused(remote: Remote, c: SubscriberConfig)
    requires Validate(c).None?
    requires remote.topicExists(c.subscriptionConfig.value.topic) == Ok(false)
    ensures var s := NewSubscriberSetUp(remote, Some(c));
            && s.subscription == Err("topic " + c.subscriptionConfig.value.topic + " does not exist")
            && s.calls == [TopicExistsCall(c.subscriptionConfig.value.topic)]
  {
  }

  /** Once both existence checks answer, exactly one of create and update is made, with the retry policy defaulted. */
  lemma CreateOrUpdateOnce(remote: Remote, c: SubscriberConfig)
    requires Validate(c).None?
    requires remote.topicExists(c.subscriptionConfig.value.topic) == Ok(true)
    requires remote.subscriptionExists(c.subscriptionId).Ok?
    ensures var s := NewSubscriberSetUp(remote, Some(c));
            var sc := WithDefaultRetry(c.subscriptionConfig.value);
            && |s.calls| == 3
            && (remote.subscriptionExists(c.subscriptionId).value ==> s.calls[2] == UpdateCall(c.subscriptionId, ToUpdate(sc)))
            && (!remote.subscriptionExists(c.subscriptionId).value ==> s.calls[2] == CreateCall(c.subscriptionId, sc))
            && s.config == Some(c.(subscriptionConfig := Some(sc)))
            && s.config.value.subscriptionConfig.value.retryPolicy.Some?
  {
  }

  /** A subscription is handed out only for a valid config whose topic exists, with the caller's receive settings when given. */
  lemma {:induction false} SubscriptionOnlyForValidConfig(remote: Remote, config: Option<SubscriberConfig>)
    requires NewSubscriberSetUp(remote, config).subscription.Ok?
    ensures config.Some? && IsValid(config.value)
    ensures remote.topicExists(config.value.subscriptionConfig.value.topic) == Ok(true)
    ensures var sub := NewSubscriberSetUp(remote, config).subscription.value;
            && sub.id == config.value.subscriptionId
            && sub.receiveSettings == (if config.value.receiveSettings.Some? then config.value.receiveSettings.value
                                       else remote.defaultReceiveSettings)
  {
    ValidateReportsFirstUnmet(config.value);
  }

  datatype ReceivedMessage = ReceivedMessage(id: string, data: seq<uint8>)

  datatype Settlement = Ack(id: string) | Nack(id: string)

  /** A handler returns the error it failed with, if any. */
  type SubscriptionHandler = seq<uint8> -> Option<string>

  /** What consuming the messages does: the settlements made, in order, and the error sent, if any. */
  function ConsumeRun(handler: SubscriptionHandler, messages: seq<ReceivedMessage>): (seq<Settlement>, Option<string>)
  {
    if |messages| == 0 then ([], None)
    else match handler(messages[0].data)
      case Some(e) => ([Nack(messages[0].id)], Some(e))
      case None =>
        var rest := ConsumeRun(handler, messages[1..]);
        ([Ack(messages[0].id)] + rest.0, rest.1)
  }

  /**
   * Messages are settled in the order received, each acked exactly when the
   * handler accepts it; the first failure is nacked, reported and ends the run.
   */
  lemma {:induction false} ConsumeRunSettlesInOrder(handler: SubscriptionHandler, messages: seq<ReceivedMessage>)
    ensures var (settled, err) := ConsumeRun(handler, messages);
            && |settled| <= |messages|
            && (forall i :: 0 <= i < |settled| ==> settled[i].id == messages[i].id)
            && (forall i :: 0 <= i < |settled| ==> (settled[i].Ack? <==> handler(messages[i].data).None?))
            && (err.None? <==> |settled| == |messages| && forall i :: 0 <= i < |settled| ==> settled[i].Ack?)
            && (err.Some? ==> |settled| >= 1 && err == handler(messages[|settled| - 1].data)
                              && forall i :: 0 <= i < |settled| - 1 ==> settled[i].Ack?)
    decreases |messages|
  {
    if |messages| > 0 && handler(messages[0].data).None? {
      ConsumeRunSettlesInOrder(handler, messages[1..]);
    }
  }

  /** One step of `ConsumeRun` from position `i`. */
  lemma ConsumeRunStep(handler: SubscriptionHandler, messages: seq<ReceivedMessage>, i: nat)
    requires i < |messages|
    ensures var run := ConsumeRun(handler, messages[i..]);
            var next := ConsumeRun(handler, messages[i + 1..]);
            && (handler(messages[i].data).Some? ==> run == ([Nack(messages[i].id)], handler(messages[i].data)))
            && (handler(messages[i].data).None? ==> run == ([Ack(messages[i].id)] + next.0, next.1))
  {
    assert messages[i..][0] == messages[i];
    assert messages[i..][1..] == messages[i + 1..];
  }

  class Subscriber {
    const subscription: Subscription
    const logger: string
    var messagesReceivedCount: int
    var messagesProcessedCount: int
    /** The acks and nacks sent back, in order. */
    var settlements: seq<Settlement>

    constructor (subscription: Subscription, logger: string)
      ensures this.subscription == subscription && this.logger == logger
      ensures messagesReceivedCount == 0 && messagesProcessedCount == 0 && settlements == []
    {
      this.subscription := subscription;
      this.logger := logger;
      messagesReceivedCount := 0;
      messagesProcessedCount := 0;
      settlements := [];
    }

    /** `Consume`: returns what was sent on the error channel, which is closed on return. */
    method Consume(handler: SubscriptionHandler, messages: seq<ReceivedMessage>) returns (errors: seq<string>)
      modifies this
      ensures var run := ConsumeRun(handler, messages);
              && settlements == old(settlements) + run.0
              && messagesReceivedCount == old(messagesReceivedCount) + |run.0|
              && messagesProcessedCount == old(messagesProcessedCount) + |run.0| - (if run.1.Some? then 1 else 0)
              && errors == (if run.1.Some? then [run.1.value] else [])
      ensures messagesProcessedCount - old(messagesProcessedCount) <= messagesReceivedCount - old(messagesReceivedCount)
              <= messagesProcessedCount - old(messagesProcessedCount) + 1
    {
      ghost var run := ConsumeRun(handler, messages);
      var done: seq<Settlement> := [];
      var i := 0;
      assert messages[i..] == messages;
      while i < |messages|
        invariant 0 <= i <= |messages|
        invariant run.0 == done + ConsumeRun(handler, messages[i..]).0
        invariant run.1 == ConsumeRun(handler, messages[i..]).1
        invariant |done| == i
        invariant settlements == old(settlements) + done
        invariant messagesReceivedCount == old(messagesReceivedCount) + i
        invariant messagesProcessedCount == old(messagesProcessedCount) + i
        decreases |messages| - i
      {
        var msg := messages[i];
        messagesReceivedCount := messagesReceivedCount + 1;
        var err := handler(msg.data);
        ConsumeRunStep(handler, messages, i);
        if err.Some? {
          assert run == (done + [Nack(msg.id)], err);
          errors := [err.value];
          settlements := settlements + [Nack(msg.id)];
          return;
        }
        messagesProcessedCount := messagesProcessedCount + 1;
        settlements := settlements + [Ack(msg.id)];
        done := done + [Ack(msg.id)];
        i := i + 1;
      }
      assert messages[i..] == [];
      assert ConsumeRun(handler, messages[i..]) == ([], None);
      assert done + [] == done;
      errors := [];
    }
  }

  /** `NewSubscriber`: a subscriber over the subscription set-up produces, or its error. */
  method NewSubscriber(remote: Remote, config: Option<SubscriberConfig>)
    returns (subscriber: Subscriber?, err: Option<string>, updatedConfig: Option<SubscriberConfig>)
    ensures var s := NewSubscriberSetUp(remote, config);
            && updatedConfig == s.config
            && (s.subscription.Err? ==> subscriber == null && err == Some(s.subscription.error))
            && (s.subscription.Ok? ==> err.None? && subscriber != null && fresh(subscriber)
                                       && subscriber.subscription == s.subscription.value
                                       && config.Some? && config.value.logger.Some?
                                       && subscriber.logger == config.value.logger.value
                                       && subscriber.messagesReceivedCount == 0 && subscriber.messagesProcessedCount == 0)
  {
    var s := NewSubscriberSetUp(remote, config);
    updatedConfig := s.config;
    if s.subscription.Err? {
      return null, Some(s.subscription.error), updatedConfig;
    }
    SubscriptionOnlyForValidConfig(remote, config);
    subscriber := new Subscriber(s.subscription.value, config.value.logger.value);
    err := None;
  }
}
