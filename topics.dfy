/** The MQTT topic names the device publishes on. */
module Topics {
  import opened Values

  /** `$aws/things/<thing>/`, the root of every reserved topic of one thing. */
  function ThingPrefix(thingName: string): string {
    "$aws/things/" + thingName + "/"
  }

  /** The classic shadow's update topic, or a named shadow's. An empty name
      is falsy, so it selects the classic shadow as no name does. */
  function ShadowUpdateTopic(thingName: string, shadowName: Option<string>): string {
    if shadowName.Some? && shadowName.value != "" then ThingPrefix(thingName) + "shadow/name/" + shadowName.value + "/update"
    else ThingPrefix(thingName) + "shadow/update"
  }

  /** Any name that is empty or absent reports on the classic shadow; any
      other name gets its own topic, distinct from the classic one. */
  lemma ClassicShadowUnlessNamed(thingName: string, shadowName: Option<string>)
    ensures ShadowUpdateTopic(thingName, shadowName) == ShadowUpdateTopic(thingName, None)
        <==> shadowName.None? || shadowName.value == ""
  {
    if shadowName.Some? && shadowName.value != "" {
      var p := ThingPrefix(thingName);
      assert ShadowUpdateTopic(thingName, shadowName) == p + ("shadow/name/" + shadowName.value + "/update");
      assert ShadowUpdateTopic(thingName, shadowName)[|p| + 7] == 'n';
      assert ShadowUpdateTopic(thingName, None)[|p| + 7] == 'u';
    }
  }

  /** The topic on which the device asks for its pending jobs. */
  function ListJobsTopic(thingName: string): string {
    ThingPrefix(thingName) + "jobs/get"
  }

  /** `$aws/things/<thing>/jobs/<jobId>/<action>`. */
  function JobTopic(thingName: string, jobId: string, action: string): string {
    ThingPrefix(thingName) + "jobs/" + jobId + "/" + action
  }

  function JobGetTopic(thingName: string, jobId: string): string {
    JobTopic(thingName, jobId, "get")
  }

  function JobUpdateTopic(thingName: string, jobId: string): string {
    JobTopic(thingName, jobId, "update")
  }

  function HeartbeatTopic(thingName: string): string {
    "demofleet/" + thingName + "/heartbeat"
  }

  /** Reads the job id back out of a per-job topic with the given action;
      `None` when the topic does not have that shape. */
  function JobIdOf(thingName: string, topic: string, action: string): Option<string> {
    var head := ThingPrefix(thingName) + "jobs/";
    var tail := "/" + action;
    if |head| + |tail| <= |topic| && topic[..|head|] == head && topic[|topic| - |tail|..] == tail
    then Some(topic[|head|..|topic| - |tail|])
    else None
  }

  /** JobIdOf is the exact inverse of JobTopic: it recovers the id from a job
      topic, and it recovers an id only from the topic built from that id. */
  lemma JobIdOfInvertsJobTopic(thingName: string, topic: string, jobId: string, action: string)
    ensures JobIdOf(thingName, topic, action) == Some(jobId) <==> topic == JobTopic(thingName, jobId, action)
  {
    var head := ThingPrefix(thingName) + "jobs/";
    var tail := "/" + action;
    assert JobTopic(thingName, jobId, action) == head + jobId + tail;
    if topic == head + jobId + tail {
      assert topic[..|head|] == head;
      assert topic[|topic| - |tail|..] == tail;
      assert topic[|head|..|topic| - |tail|] == jobId;
    }
    if JobIdOf(thingName, topic, action) == Some(jobId) {
      assert topic == topic[..|head|] + topic[|head|..|topic| - |tail|] + topic[|topic| - |tail|..];
    }
  }

  /** Distinct jobs are reported on distinct topics. */
  lemma JobTopicInjective(thingName: string, id1: string, id2: string, action: string)
    requires JobTopic(thingName, id1, action) == JobTopic(thingName, id2, action)
    ensures id1 == id2
  {
    JobIdOfInvertsJobTopic(thingName, JobTopic(thingName, id1, action), id1, action);
    JobIdOfInvertsJobTopic(thingName, JobTopic(thingName, id1, action), id2, action);
  }

  /** No topic other than a job's own update topic carries its status:
      shadow reports, list requests and heartbeats go elsewhere. */
  lemma OtherTopicsAreNotJobUpdates(thingName: string, jobId: string)
    ensures ShadowUpdateTopic(thingName, None) != JobUpdateTopic(thingName, jobId)
    ensures ListJobsTopic(thingName) != JobUpdateTopic(thingName, jobId)
    ensures HeartbeatTopic(thingName) != JobUpdateTopic(thingName, jobId)
  {
    var p := ThingPrefix(thingName);
    var s := ShadowUpdateTopic(thingName, None);
    var u := JobUpdateTopic(thingName, jobId);
    var l := ListJobsTopic(thingName);
    assert s == p + "shadow/update" && u == p + ("jobs/" + jobId + "/update");
    assert s[|p|] == 's' && u[|p|] == 'j';
    assert l[|l| - 1] == 't' && u[|u| - 1] == 'e';
    assert HeartbeatTopic(thingName)[0] == 'd' && u[0] == '$';
  }
}
