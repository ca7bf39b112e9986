/**
 * `Publisher.Publish` of package pubsub: each message is sent in order,
 * refusing an empty key when the topic orders messages (the earlier messages
 * are already sent by then); then every publish result is awaited and the
 * last failure, if any, is returned.
 */
module PubSubPublisher {
  import opened Wrappers
  import opened Strings

  const MissingKeyError: string := "message key is required when MessageOrdering is enabled"
  const PublishErrorPrefix: string := "unable to publish message to GCP Pub/Sub: "

  datatype Message = Message(key: string, payload: seq<uint8>)

  datatype PublishSettings = PublishSettings(delayThreshold: int, countThreshold: int, byteThreshold: int)

  datatype Topic = Topic(name: string, enableOrdering: bool, publishSettings: Option<PublishSettings>)

  /** The client-side topic handle messages are published through. */
  datatype RemoteTopic = RemoteTopic(name: string, enableMessageOrdering: bool, publishSettings: PublishSettings)

  datatype OutgoingMessage = OutgoingMessage(orderingKey: string, data: seq<uint8>)

  /** The topic handle: the ordering flag applied, the settings overridden only when given. */
  function ConfigureTopic(topic: Topic, defaults: PublishSettings): (t: RemoteTopic)
    ensures t.name == topic.name && t.enableMessageOrdering == topic.enableOrdering
    ensures topic.publishSettings.None? ==> t.publishSettings == defaults
    ensures topic.publishSettings.Some? ==> t.publishSettings == topic.publishSettings.value
  {
    RemoteTopic(topic.name, topic.enableOrdering,
                if topic.publishSettings.Some? then topic.publishSettings.value else defaults)
  }

  function Outgoing(m: Message): OutgoingMessage
  {
    OutgoingMessage(m.key, m.payload)
  }

  function OutgoingAll(messages: seq<Message>): (out: seq<OutgoingMessage>)
    ensures |out| == |messages|
    ensures forall i :: 0 <= i < |messages| ==> out[i].orderingKey == messages[i].key && out[i].data == messages[i].payload
  {
    seq(|messages|, i requires 0 <= i < |messages| => Outgoing(messages[i]))
  }

  /** The position of the first message refused for lacking a key, if any. */
  function FirstMissingKey(ordering: bool, messages: seq<Message>): (k: Option<nat>)
    ensures k.None? <==> !ordering || forall i :: 0 <= i < |messages| ==> messages[i].key != ""
    ensures k.Some? ==> k.value < |messages| && messages[k.value].key == ""
                        && forall j :: 0 <= j < k.value ==> messages[j].key != ""
  {
    if !ordering || |messages| == 0 then None
    else
      var earlier := FirstMissingKey(ordering, messages[..|messages| - 1]);
      if earlier.Some? then earlier
      else if messages[|messages| - 1].key == "" then Some(|messages| - 1)
      else None
  }

  /** The wrapped errors of the first `n` publish results, in order; `outcome(i)` is the error result `i` reports. */
  function Failures(outcome: nat -> Option<string>, n: nat): (errs: seq<string>)
  {
    if n == 0 then []
    else match outcome(n - 1)
      case Some(e) => Failures(outcome, n - 1) + [PublishErrorPrefix + e]
      case None => Failures(outcome, n - 1)
  }

  /** The error `Publish` reports after awaiting `n` results: the last failure, or none. */
  function LastFailure(outcome: nat -> Option<string>, n: nat): Option<string>
  {
    var errs := Failures(outcome, n);
    if |errs| == 0 then None else Some(errs[|errs| - 1])
  }

  /** The reported error is that of the latest failing result, and there is one exactly when some result failed. */
  lemma {:induction false} LastFailureIsLatest(outcome: nat -> Option<string>, n: nat)
    ensures LastFailure(outcome, n).None? <==> forall i :: 0 <= i < n ==> outcome(i).None?
    ensures LastFailure(outcome, n).Some? ==>
              exists i :: 0 <= i < n && outcome(i).Some? && LastFailure(outcome, n).value == PublishErrorPrefix + outcome(i).value
                          && forall j :: i < j < n ==> outcome(j).None?
  {
    if n > 0 {
      LastFailureIsLatest(outcome, n - 1);
      if outcome(n - 1).Some? {
        assert LastFailure(outcome, n).value == PublishErrorPrefix + outcome(n - 1).value;
      } else {
        assert Failures(outcome, n) == Failures(outcome, n - 1);
      }
    }
  }

  /**
   * `Publish`: returns the messages handed to the client, in order, and the
   * error. The topic handle is built with `defaults` as the client's settings.
   */
  method Publish(topic: Topic, messages: seq<Message>, defaults: PublishSettings, outcome: nat -> Option<string>)
    returns (t: RemoteTopic, published: seq<OutgoingMessage>, err: Option<string>)
    ensures t == ConfigureTopic(topic, defaults)
    ensures var k := FirstMissingKey(topic.enableOrdering, messages);
            && (k.Some? ==> published == OutgoingAll(messages[..k.value]) && err == Some(MissingKeyError))
            && (k.None? ==> published == OutgoingAll(messages) && err == LastFailure(outcome, |messages|))
  {
    t := ConfigureTopic(topic, defaults);
    published := [];
    var i := 0;
    while i < |messages|
      invariant 0 <= i <= |messages|
      invariant published == OutgoingAll(messages[..i])
      invariant t.enableMessageOrdering ==> forall j :: 0 <= j < i ==> messages[j].key != ""
    {
      var message := Outgoing(messages[i]);
      if t.enableMessageOrdering && messages[i].key == "" {
        return t, published, Some(MissingKeyError);
      }
      published := published + [message];
      i := i + 1;
    }
    assert messages[..i] == messages;
    var resultErrors: seq<string> := [];
    var r := 0;
    while r < |published|
      invariant 0 <= r <= |published|
      invariant resultErrors == Failures(outcome, r)
    {
      var e := outcome(r);
      if e.Some? {
        resultErrors := resultErrors + [PublishErrorPrefix + e.value];
      }
      r := r + 1;
    }
    if |resultErrors| != 0 {
      return t, published, Some(resultErrors[|resultErrors| - 1]);
    }
    err := None;
  }

  /** Without ordering, empty keys are never refused. */
  lemma UnorderedAcceptsEmptyKeys(messages: seq<Message>)
    ensures FirstMissingKey(false, messages).None?
  {
  }
}
