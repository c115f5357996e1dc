/** What the device publishes: one message per `publish(topic, payload, qos)`
    call, with the JSON payload kept as structure rather than text. */
module Messages {
  import opened Values
  import opened Topics

  datatype JobStatus = InProgress | Succeeded | Failed | Rejected

  /** Payload shapes. Client tokens are random uuids and are kept only as the
      fact that one was sent. */
  datatype Payload =
      /** `{"state": {"reported": ...}}`, plus `"desired": null` when clearing */
    | ShadowUpdate(reported: map<string, Value>, clearDesired: bool)
      /** `{"clientToken": ...}` on the list-jobs topic */
    | ListJobsRequest
      /** `{"clientToken": ..., "includeJobDocument": true}` */
    | GetJobRequest
      /** `{"status": ...}`, with a client token when `withClientToken` */
    | JobUpdate(status: JobStatus, withClientToken: bool)
      /** the plain string `"alive"` */
    | Alive

  datatype Message = Message(topic: string, payload: Payload, qos: nat)

  /** A report of `reported` on the classic shadow's update topic at qos 0. */
  function ShadowReport(thingName: string, reported: map<string, Value>, clearDesired: bool): Message {
    Message(ShadowUpdateTopic(thingName, None), ShadowUpdate(reported, clearDesired), 0)
  }

  /** The messages of `msgs` published on `topic`, in publishing order. */
  function OnTopic(msgs: seq<Message>, topic: string): seq<Message> {
    if msgs == [] then []
    else if msgs[0].topic == topic then [msgs[0]] + OnTopic(msgs[1..], topic)
    else OnTopic(msgs[1..], topic)
  }

  /** The filter keeps exactly the messages published on `topic`. */
  lemma {:induction false} OnTopicMembers(msgs: seq<Message>, topic: string)
    ensures |OnTopic(msgs, topic)| <= |msgs|
    ensures forall m :: m in OnTopic(msgs, topic) <==> m in msgs && m.topic == topic
  {
    if msgs != [] {
      OnTopicMembers(msgs[1..], topic);
      assert msgs == [msgs[0]] + msgs[1..];
    }
  }

  /** Filtering by topic distributes over appending to the outbox. */
  lemma {:induction false} OnTopicAppend(a: seq<Message>, b: seq<Message>, topic: string)
    ensures OnTopic(a + b, topic) == OnTopic(a, topic) + OnTopic(b, topic)
  {
    if a == [] {
      assert a + b == b;
    } else {
      assert (a + b)[1..] == a[1..] + b;
      OnTopicAppend(a[1..], b, topic);
    }
  }
}
