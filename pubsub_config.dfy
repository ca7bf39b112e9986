/**
 * The Pub/Sub subscriber configuration of package pubsub and its fail-fast
 * validation: the assertions are checked in declaration order and the first
 * one that does not hold gives the error.
 */
module PubSubConfig {
  import opened Wrappers

  /** Durations are in nanoseconds, as Go's `time.Duration`. */
  const Millisecond: int := 1_000_000
  const Second: int := 1000 * Millisecond

  datatype RetryPolicy = RetryPolicy(minimumBackoff: int, maximumBackoff: int)

  datatype PushConfig = PushConfig(endpoint: string, attributes: map<string, string>)

  datatype BigQueryConfig = BigQueryConfig(table: string, useTopicSchema: bool, writeMetadata: bool)

  datatype DeadLetterPolicy = DeadLetterPolicy(deadLetterTopic: string, maxDeliveryAttempts: int)

  /** A subscription's settings; `topic` is the topic's ID. */
  datatype SubscriptionConfig = SubscriptionConfig(
    name: string,
    topic: string,
    pushConfig: PushConfig,
    bigQueryConfig: BigQueryConfig,
    ackDeadline: int,
    retainAckedMessages: bool,
    retentionDuration: int,
    expirationPolicy: int,
    deadLetterPolicy: Option<DeadLetterPolicy>,
    labels: map<string, string>,
    retryPolicy: Option<RetryPolicy>,
    enableMessageOrdering: bool,
    topicMessageRetentionDuration: int)

  datatype ReceiveSettings = ReceiveSettings(maxOutstandingMessages: int, numGoroutines: int, synchronous: bool)

  /** A logger is identified by its name; `None` is a nil logger. */
  datatype SubscriberConfig = SubscriberConfig(
    subscriptionId: string,
    subscriptionConfig: Option<SubscriptionConfig>,
    receiveSettings: Option<ReceiveSettings>,
    logger: Option<string>)

  datatype Assertion = Assertion(holds: bool, message: string)

  /** The fail-fast validator: the message of the first assertion that fails, or none. */
  function FirstFailure(assertions: seq<Assertion>): (r: Option<string>)
    ensures r.None? <==> forall i :: 0 <= i < |assertions| ==> assertions[i].holds
    ensures r.Some? ==> exists i :: 0 <= i < |assertions| && !assertions[i].holds && assertions[i].message == r.value
                                    && forall j :: 0 <= j < i ==> assertions[j].holds
  {
    if |assertions| == 0 then None
    else if !assertions[0].holds then Some(assertions[0].message)
    else
      var r := FirstFailure(assertions[1..]);
      if r.Some? then
        var i :| 0 <= i < |assertions| - 1 && !assertions[1..][i].holds && assertions[1..][i].message == r.value
                 && forall j :: 0 <= j < i ==> assertions[1..][j].holds;
        assert !assertions[i + 1].holds && forall j :: 0 <= j < i + 1 ==> assertions[j].holds;
        r
      else r
  }

  /** The assertions `Validate` checks, in order. */
  function Assertions(c: SubscriberConfig): seq<Assertion>
  {
    [ Assertion(c.subscriptionConfig.Some?, "subscription config is not set"),
      Assertion(c.logger.Some?, "subscription logger is not set"),
      Assertion(c.subscriptionConfig.Some? && c.subscriptionConfig.value.topic != "", "subscription topic is not set"),
      Assertion(c.subscriptionConfig.Some? && c.subscriptionConfig.value.name != "", "subscription id is not set") ]
  }

  /** `Validate`: the error of the first unmet assertion, or none. */
  function Validate(c: SubscriberConfig): (err: Option<string>)
    ensures err.None? <==> forall i :: 0 <= i < |Assertions(c)| ==> Assertions(c)[i].holds
  {
    FirstFailure(Assertions(c))
  }

  predicate IsValid(c: SubscriberConfig)
  {
    c.subscriptionConfig.Some? && c.logger.Some? && c.subscriptionConfig.value.topic != "" && c.subscriptionConfig.value.name != ""
  }

  /** A failing assertion preceded only by holding ones is the one reported. */
  lemma FirstFailureAt(assertions: seq<Assertion>, k: nat)
    requires k < |assertions| && !assertions[k].holds
    requires forall j :: 0 <= j < k ==> assertions[j].holds
    ensures FirstFailure(assertions) == Some(assertions[k].message)
  {
    var r := FirstFailure(assertions);
    var i :| 0 <= i < |assertions| && !assertions[i].holds && assertions[i].message == r.value
             && forall j :: 0 <= j < i ==> assertions[j].holds;
    assert i == k;
  }

  /** `Validate` accepts exactly the configurations with all four settings, and otherwise names the first one missing. */
  lemma ValidateReportsFirstUnmet(c: SubscriberConfig)
    ensures Validate(c).None? <==> IsValid(c)
    ensures c.subscriptionConfig.None? ==> Validate(c) == Some("subscription config is not set")
    ensures c.subscriptionConfig.Some? && c.logger.None? ==> Validate(c) == Some("subscription logger is not set")
    ensures c.subscriptionConfig.Some? && c.logger.Some? && c.subscriptionConfig.value.topic == "" ==>
              Validate(c) == Some("subscription topic is not set")
    ensures c.subscriptionConfig.Some? && c.logger.Some? && c.subscriptionConfig.value.topic != "" ==>
              c.subscriptionConfig.value.name == "" ==> Validate(c) == Some("subscription id is not set")
  {
    var a := Assertions(c);
    if !a[0].holds {
      FirstFailureAt(a, 0);
    } else if !a[1].holds {
      FirstFailureAt(a, 1);
    } else if !a[2].holds {
      FirstFailureAt(a, 2);
    } else if !a[3].holds {
      FirstFailureAt(a, 3);
    } else {
      assert forall i :: 0 <= i < |a| ==> a[i].holds;
    }
  }

  /** The reported error is always one of the assertions' messages. */
  lemma {:induction false} FailureIsAnAssertionMessage(assertions: seq<Assertion>)
    requires FirstFailure(assertions).Some?
    ensures FirstFailure(assertions).value in set a | a in assertions :: a.message
  {
    var r := FirstFailure(assertions);
    var i :| 0 <= i < |assertions| && !assertions[i].holds && assertions[i].message == r.value
             && forall j :: 0 <= j < i ==> assertions[j].holds;
    assert assertions[i] in assertions;
  }
}
