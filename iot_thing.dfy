/** The device agent: one thing's shadow, its open jobs, its heartbeat switch
    and the messages it has published, changed in place by the message
    callbacks, the job handlers and the heartbeat loop. */
module IoTClient {
  import opened Values
  import opened Topics
  import opened Messages
  import opened Shadow
  import opened Jobs
  import opened Faults

  const ThingNamePrefix := "fh_workshop_"
  const DesiredKey := "desired"
  const QueuedKey := "QUEUED"
  const MaxConnectAttempts := 5
  /** The temperature a stuck sensor reports, at which heartbeats stop perturbing it. */
  const StuckTemperature := 100
  /** The temperatures a heartbeat tick may draw. */
  const TemperatureChoices: set<int> := {10, 11, 12, 13, 14, 15, 16}
  const HeartbeatQos := 1

  /** The exceptions that end a callback early. */
  datatype PyError =
    | KeyError(key: string)
    | TypeError
    | AttributeError
    | ConnectTimeout  // a single connect that timed out
    | GaveUp          // the plain exception raised after the last connect attempt

  /** How a handler ends: it returns, raises, exits the process with a code,
      or restarts the agent and never comes back. */
  datatype Outcome = Returned | Raised(error: PyError) | Exited(code: int) | Restarted

  /** How the fault-injection operation ends for each branch. */
  function FaultOutcome(fault: Fault): Outcome {
    match fault
    case BatteryDead => Exited(0)
    case FirmwareCrash => Exited(1)
    case CompareError => Raised(TypeError)
    case _ => Returned
  }

  /** What running a job's handler does to the device: the new shadow, the
      new heartbeat switch, the messages it publishes and how it ends. */
  datatype Effect = Effect(shadow: map<string, Value>, sendHeartbeats: Value, published: seq<Message>, outcome: Outcome)

  /** The effect of the fault-injection operation on a device in this state. */
  function FaultEffect(thingName: string, shadow: map<string, Value>, sendHeartbeats: Value): Effect
    requires InitialKeys <= shadow.Keys
  {
    var fault := FaultBranch(shadow);
    match fault
    case BatteryDead => Effect(shadow, Bool(false), [], FaultOutcome(fault))
    case TelemetryBug => Effect(shadow, Bool(false), [], FaultOutcome(fault))
    case StuckSensor =>
      var stuck := shadow[TemperatureKey := Int(StuckTemperature)];
      Effect(stuck, sendHeartbeats, [ShadowReport(thingName, stuck, true)], FaultOutcome(fault))
    case _ => Effect(shadow, sendHeartbeats, [], FaultOutcome(fault))
  }

  /** The effect of dispatching a job document on a device in this state;
      `reconnects` is whether a reboot's reconnect succeeds. */
  function JobEffect(thingName: string, shadow: map<string, Value>, sendHeartbeats: Value,
                     jobDocument: map<string, Value>, reconnects: bool): (e: Effect)
    requires InitialKeys <= shadow.Keys
    ensures e.shadow.Keys == shadow.Keys
    ensures OnlyShadowOrListTopics(thingName, e.published)
    ensures !e.outcome.Returned? ==>
      OperationKey in jobDocument && jobDocument[OperationKey] in {FirmwareUpgradeOp, ConnectivityIssuesOp, RebootOp}
    ensures OperationKey !in jobDocument || jobDocument[OperationKey] !in {FirmwareUpgradeOp, ConnectivityIssuesOp, RebootOp} ==>
      e == Effect(shadow, sendHeartbeats, [], Returned)
    ensures OperationKey in jobDocument && jobDocument[OperationKey] == RebootOp ==>
      e.sendHeartbeats == Bool(false) && e.shadow == shadow
  {
    if OperationKey !in jobDocument then Effect(shadow, sendHeartbeats, [], Returned)
    else
      var op := jobDocument[OperationKey];
      if op == FirmwareUpgradeOp then
        if FirmwareVersionKey in jobDocument then
          var version := jobDocument[FirmwareVersionKey];
          Effect(shadow[FirmwareVersionKey := version], sendHeartbeats,
                 [ShadowReport(thingName, map[FirmwareVersionKey := version], false)], Returned)
        else Effect(shadow, sendHeartbeats, [], Raised(KeyError(FirmwareVersionKey)))
      else if op == ConnectivityIssuesOp then FaultEffect(thingName, shadow, sendHeartbeats)
      else if op == RebootOp then
        if reconnects then Effect(shadow, Bool(false), [ListJobsMessage(thingName)], Restarted)
        else Effect(shadow, Bool(false), [], Raised(ConnectTimeout))
      else Effect(shadow, sendHeartbeats, [], Returned)
  }

  /** The bounded connect loop: `timesOut(i)` is whether the i-th attempt
      timed out. The device gives up after MaxConnectAttempts timeouts. */
  method ConnectWithRetry(timesOut: nat -> bool) returns (connected: bool, attempts: nat)
    ensures attempts <= MaxConnectAttempts
    ensures forall j :: 0 <= j < attempts ==> timesOut(j)
    ensures connected ==> !timesOut(attempts)
    ensures !connected ==> attempts == MaxConnectAttempts
    ensures connected <==> exists j :: 0 <= j < MaxConnectAttempts && !timesOut(j)
  {
    attempts := 0;
    while attempts < MaxConnectAttempts
      invariant attempts <= MaxConnectAttempts
      invariant forall j :: 0 <= j < attempts ==> timesOut(j)
    {
      if !timesOut(attempts) {
        return true, attempts;
      }
      attempts := attempts + 1;
    }
    connected := false;
  }

  class IoTThing {
    const serialNumber: string
    const thingName: string
    /** The reported state, one value per property. */
    var shadow: map<string, Value>
    /** The jobs whose detail has arrived and whose terminal status is not yet sent. */
    var openJobs: map<string, JobExecution>
    /** Whatever value the last `heartbeat` delta carried; tested for truthiness. */
    var sendHeartbeats: Value
    /** Every publish so far, oldest first. */
    var outbox: seq<Message>

    /** The initial properties are never removed. */
    ghost predicate Valid()
      reads this
    {
      InitialKeys <= shadow.Keys
    }

    /** A new device with randomly drawn battery, firmware and location. */
    constructor (serial: string, battery: int, firmware: string, location: string)
      requires battery in BatteryChoices
      requires firmware in FirmwareChoices
      requires location in LocationChoices
      ensures Valid()
      ensures serialNumber == serial && thingName == ThingNamePrefix + serial
      ensures shadow == InitialShadow(battery, firmware, location)
      ensures openJobs == map[] && sendHeartbeats == Bool(true) && outbox == []
    {
      serialNumber := serial;
      thingName := ThingNamePrefix + serial;
      shadow := InitialShadow(battery, firmware, location);
      openJobs := map[];
      sendHeartbeats := Bool(true);
      outbox := [];
    }

    /** The transport's publish, recorded in the outbox. */
    method Publish(topic: string, payload: Payload, qos: nat)
      modifies this`outbox
      ensures outbox == old(outbox) + [Message(topic, payload, qos)]
    {
      outbox := outbox + [Message(topic, payload, qos)];
    }

    /** Publishes `value` as the reported state, optionally clearing desired. */
    method ReportShadow(value: map<string, Value>, shadowName: Option<string>, clearDesired: bool)
      modifies this`outbox
      ensures outbox == old(outbox) + [Message(ShadowUpdateTopic(thingName, shadowName), ShadowUpdate(value, clearDesired), 0)]
    {
      Publish(ShadowUpdateTopic(thingName, shadowName), ShadowUpdate(value, clearDesired), 0);
    }

    /** Merges a desired delta into the shadow, switches heartbeats when the
        delta has a `heartbeat` key, and reports the whole shadow with desired
        cleared. */
    method UpdateConfigurationFromDelta(desired: map<string, Value>)
      requires Valid()
      modifies this`shadow, this`sendHeartbeats, this`outbox
      ensures Valid()
      ensures shadow.Keys == old(shadow).Keys + desired.Keys
      ensures forall k :: k in desired ==> shadow[k] == desired[k]
      ensures forall k :: k in old(shadow) && k !in desired ==> shadow[k] == old(shadow)[k]
      ensures sendHeartbeats == if HeartbeatKey in desired then desired[HeartbeatKey] else old(sendHeartbeats)
      ensures outbox == old(outbox) + [ShadowReport(thingName, shadow, true)]
    {
      var pending := desired.Keys;
      while pending != {}
        invariant pending <= desired.Keys
        invariant shadow == old(shadow) + (desired - pending)
        invariant sendHeartbeats == if HeartbeatKey in desired && HeartbeatKey !in pending
                                    then desired[HeartbeatKey] else old(sendHeartbeats)
        invariant outbox == old(outbox)
        decreases pending
      {
        var key :| key in pending;
        if key == HeartbeatKey {
          sendHeartbeats := desired[key];
        }
        shadow := shadow[key := desired[key]];
        pending := pending - {key};
        assert shadow == old(shadow) + (desired - pending);
      }
      assert desired - pending == desired;
      ReportShadow(shadow, None, true);
    }

    /** Handles an accepted shadow update (its `state` object): applies the
        desired part only when it is present and truthy. A truthy desired
        value that is not an object makes the merge raise. */
    method ShadowCallback(state: map<string, Value>) returns (outcome: Outcome)
      requires Valid()
      modifies this`shadow, this`sendHeartbeats, this`outbox
      ensures Valid()
      ensures !(DesiredKey in state && Truthy(state[DesiredKey])) ==>
        outcome == Returned && shadow == old(shadow) && sendHeartbeats == old(sendHeartbeats) && outbox == old(outbox)
      ensures DesiredKey in state && Truthy(state[DesiredKey]) && state[DesiredKey].Obj? ==>
        var desired := state[DesiredKey].fields;
        && outcome == Returned
        && shadow == old(shadow) + desired
        && sendHeartbeats == (if HeartbeatKey in desired then desired[HeartbeatKey] else old(sendHeartbeats))
        && outbox == old(outbox) + [ShadowReport(thingName, shadow, true)]
      ensures DesiredKey in state && Truthy(state[DesiredKey]) && !state[DesiredKey].Obj? ==>
        outcome == Raised(AttributeError) && shadow == old(shadow) && sendHeartbeats == old(sendHeartbeats) && outbox == old(outbox)
    {
      outcome := Returned;
      if DesiredKey in state && Truthy(state[DesiredKey]) {
        match state[DesiredKey]
        case Obj(desired) =>
          UpdateConfigurationFromDelta(desired);
        case _ =>
          outcome := Raised(AttributeError);
      }
    }

    /** Asks for the thing's pending jobs (the publish of the jobs client set-up). */
    method InitJobsClient()
      modifies this`outbox
      ensures outbox == old(outbox) + [ListJobsMessage(thingName)]
    {
      Publish(ListJobsTopic(thingName), ListJobsRequest, 0);
    }

    /** Start-up after registration: connect with retries, report the initial
        shadow (without clearing desired) and ask for pending jobs. */
    method InitAppClient(timesOut: nat -> bool) returns (outcome: Outcome)
      modifies this`outbox
      ensures (exists j :: 0 <= j < MaxConnectAttempts && !timesOut(j)) ==>
        outcome == Returned && outbox == old(outbox) + [ShadowReport(thingName, shadow, false), ListJobsMessage(thingName)]
      ensures !(exists j :: 0 <= j < MaxConnectAttempts && !timesOut(j)) ==>
        outcome == Raised(GaveUp) && outbox == old(outbox)
    {
      var connected, _ := ConnectWithRetry(timesOut);
      if !connected {
        return Raised(GaveUp);
      }
      ReportShadow(shadow, None, false);
      InitJobsClient();
      outcome := Returned;
    }

    /** Requests the detail of every listed job, in list order. */
    method JobsHandler(jobs: seq<JobSummary>)
      modifies this`outbox
      ensures outbox == old(outbox) + GetRequests(thingName, jobs)
    {
      for i := 0 to |jobs|
        invariant outbox == old(outbox) + GetRequests(thingName, jobs[..i])
      {
        Publish(JobGetTopic(thingName, jobs[i].jobId), GetJobRequest, 0);
        assert GetRequests(thingName, jobs[..i + 1]) == GetRequests(thingName, jobs[..i]) + [GetJobRequestFor(thingName, jobs[i])];
      }
      assert jobs[..|jobs|] == jobs;
    }

    /** Handles the list-jobs response: queued jobs first, then in-progress
        ones; an absent, null or empty list requests nothing. */
    method InitJobsResponse(queuedJobs: Option<seq<JobSummary>>, inProgressJobs: Option<seq<JobSummary>>)
      modifies this`outbox
      ensures outbox == old(outbox) + GetRequests(thingName, Listed(queuedJobs)) + GetRequests(thingName, Listed(inProgressJobs))
    {
      if queuedJobs.Some? && queuedJobs.value != [] {
        JobsHandler(queuedJobs.value);
      }
      if inProgressJobs.Some? && inProgressJobs.value != [] {
        JobsHandler(inProgressJobs.value);
      }
    }

    /** Handles a new-jobs notification (its `jobs` object): only the QUEUED
        bucket is requested. */
    method JobsNotificationCallback(jobs: map<string, seq<JobSummary>>)
      modifies this`outbox
      ensures outbox == old(outbox) + (if QueuedKey in jobs then GetRequests(thingName, jobs[QueuedKey]) else [])
    {
      if QueuedKey in jobs {
        JobsHandler(jobs[QueuedKey]);
      }
    }

    /** Marks a job IN_PROGRESS. */
    method AcknowledgeJob(jobId: string)
      modifies this`outbox
      ensures outbox == old(outbox) + [Acknowledgement(thingName, jobId)]
    {
      Publish(JobUpdateTopic(thingName, jobId), JobUpdate(InProgress, true), 0);
    }

    /** Sets the firmware version from the job document and reports that one
        property, without clearing desired. */
    method FirmwareUpgrade(jobDocument: map<string, Value>) returns (outcome: Outcome)
      modifies this`shadow, this`outbox
      ensures FirmwareVersionKey in jobDocument ==>
        && outcome == Returned
        && shadow == old(shadow)[FirmwareVersionKey := jobDocument[FirmwareVersionKey]]
        && outbox == old(outbox) + [ShadowReport(thingName, map[FirmwareVersionKey := jobDocument[FirmwareVersionKey]], false)]
      ensures FirmwareVersionKey !in jobDocument ==>
        outcome == Raised(KeyError(FirmwareVersionKey)) && shadow == old(shadow) && outbox == old(outbox)
    {
      if FirmwareVersionKey !in jobDocument {
        return Raised(KeyError(FirmwareVersionKey));
      }
      shadow := shadow[FirmwareVersionKey := jobDocument[FirmwareVersionKey]];
      ReportShadow(map[FirmwareVersionKey := jobDocument[FirmwareVersionKey]], None, false);
      outcome := Returned;
    }

    /** The fault-injection operation: the first branch whose guard holds on
        the current shadow decides the effect (see Faults.FaultBranch). */
    method DemoConnectivityIssues() returns (outcome: Outcome)
      requires Valid()
      modifies this`shadow, this`sendHeartbeats, this`outbox
      ensures Valid()
      ensures outcome == FaultOutcome(FaultBranch(old(shadow)))
      ensures FaultBranch(old(shadow)) in {BatteryDead, TelemetryBug} ==>
        sendHeartbeats == Bool(false) && shadow == old(shadow) && outbox == old(outbox)
      ensures FaultBranch(old(shadow)) == StuckSensor ==>
        && shadow == old(shadow)[TemperatureKey := Int(StuckTemperature)]
        && sendHeartbeats == old(sendHeartbeats)
        && outbox == old(outbox) + [ShadowReport(thingName, shadow, true)]
      ensures FaultBranch(old(shadow)) in {FirmwareCrash, NoFault, CompareError} ==>
        sendHeartbeats == old(sendHeartbeats) && shadow == old(shadow) && outbox == old(outbox)
    {
      var fault := FaultBranch(shadow);
      outcome := FaultOutcome(fault);
      match fault
      case BatteryDead =>
        sendHeartbeats := Bool(false);
      case StuckSensor =>
        UpdateConfigurationFromDelta(map[TemperatureKey := Int(StuckTemperature)]);
      case TelemetryBug =>
        sendHeartbeats := Bool(false);
      case _ =>
    }

    /** Stops heartbeats, reconnects and re-requests pending jobs, then enters
        the heartbeat loop for good. `reconnects` is whether the reconnect
        succeeds. */
    method Reboot(reconnects: bool) returns (outcome: Outcome)
      modifies this`sendHeartbeats, this`outbox
      ensures sendHeartbeats == Bool(false)
      ensures reconnects ==> outcome == Restarted && outbox == old(outbox) + [ListJobsMessage(thingName)]
      ensures !reconnects ==> outcome == Raised(ConnectTimeout) && outbox == old(outbox)
    {
      sendHeartbeats := Bool(false);
      if !reconnects {
        return Raised(ConnectTimeout);
      }
      InitJobsClient();
      outcome := Restarted;
    }

    /** Dispatches an open job's operation. When it returns, it returns the
        operation with success, or nothing with failure when the document has
        no operation. */
    method ExecuteJob(jobId: string, reconnects: bool) returns (operation: Option<Value>, success: bool, outcome: Outcome)
      requires Valid() && jobId in openJobs
      modifies this`shadow, this`sendHeartbeats, this`outbox
      ensures Valid()
      ensures var e := JobEffect(thingName, old(shadow), old(sendHeartbeats), openJobs[jobId].jobDocument, reconnects);
        && shadow == e.shadow && sendHeartbeats == e.sendHeartbeats
        && outbox == old(outbox) + e.published && outcome == e.outcome
      ensures outcome.Returned? ==> (operation, success) == ExecutionResult(openJobs[jobId].jobDocument)
    {
      var doc := openJobs[jobId].jobDocument;
      outcome := Returned;
      if OperationKey in doc {
        var op := doc[OperationKey];
        if op == FirmwareUpgradeOp {
          outcome := FirmwareUpgrade(doc);
        } else if op == ConnectivityIssuesOp {
          outcome := DemoConnectivityIssues();
        } else if op == RebootOp {
          outcome := Reboot(reconnects);
        }
        operation, success := Some(op), true;
      } else {
        operation, success := None, false;
      }
    }

    /** Handles a job's detail (its `execution` object): records the job,
        acknowledges it, runs it, and if the handler returns, publishes the
        terminal status and forgets the job. A job delivered again is run again. */
    method JobDetailCallback(execution: JobExecution, reconnects: bool) returns (outcome: Outcome)
      requires Valid()
      modifies this`openJobs, this`shadow, this`sendHeartbeats, this`outbox
      ensures Valid()
      ensures var id, doc := execution.jobId, execution.jobDocument;
        var e := JobEffect(thingName, old(shadow), old(sendHeartbeats), doc, reconnects);
        var status := if OperationKey in doc then Succeeded else Rejected;
        && shadow == e.shadow && sendHeartbeats == e.sendHeartbeats && outcome == e.outcome
        && outbox == old(outbox) + [Acknowledgement(thingName, id)] + e.published
                     + (if outcome.Returned? then [StatusReport(thingName, id, status)] else [])
        && openJobs == (if outcome.Returned? then old(openJobs) - {id} else old(openJobs)[id := execution])
      ensures var id, doc, t := execution.jobId, execution.jobDocument, JobUpdateTopic(thingName, execution.jobId);
        var status := if OperationKey in doc then Succeeded else Rejected;
        && (outcome.Returned? ==>
              OnTopic(outbox, t) == OnTopic(old(outbox), t) + [Acknowledgement(thingName, id), StatusReport(thingName, id, status)])
        && (!outcome.Returned? ==>
              && OperationKey in doc
              && OnTopic(outbox, t) == OnTopic(old(outbox), t) + [Acknowledgement(thingName, id)])
        && (OperationKey !in doc ==> shadow == old(shadow) && sendHeartbeats == old(sendHeartbeats))
    {
      var id := execution.jobId;
      openJobs := openJobs[id := execution];
      AcknowledgeJob(id);
      ghost var acknowledged := outbox;
      assert openJobs[id].jobDocument == execution.jobDocument;
      var operation, success;
      operation, success, outcome := ExecuteJob(id, reconnects);
      ghost var handled := JobEffect(thingName, old(shadow), old(sendHeartbeats), execution.jobDocument, reconnects).published;
      assert outbox == old(outbox) + [Acknowledgement(thingName, id)] + handled;
      if !outcome.Returned? {
        OnlyAcknowledged(old(outbox), handled, thingName, id);
        return;
      }
      var status := StatusFor(operation, success);
      StatusTable(execution.jobDocument);
      Publish(JobUpdateTopic(thingName, id), JobUpdate(status, false), 0);
      openJobs := openJobs - {id};
      assert outbox == old(outbox) + [Acknowledgement(thingName, id)] + handled + [StatusReport(thingName, id, status)];
      StatusMessagesInOrder(old(outbox), handled, thingName, id, status);
    }

    /** One pass of the heartbeat loop: when heartbeats are on, publish
        "alive" and, unless the temperature is stuck at 100, feed a new
        temperature through the delta path. When they are off, nothing happens. */
    method HeartbeatTick(newTemperature: int)
      requires Valid() && newTemperature in TemperatureChoices
      modifies this`shadow, this`sendHeartbeats, this`outbox
      ensures Valid()
      ensures sendHeartbeats == old(sendHeartbeats)
      ensures !Truthy(old(sendHeartbeats)) ==> shadow == old(shadow) && outbox == old(outbox)
      ensures Truthy(old(sendHeartbeats)) ==>
        var perturbed := old(shadow)[TemperatureKey] != Int(StuckTemperature);
        && shadow == (if perturbed then old(shadow)[TemperatureKey := Int(newTemperature)] else old(shadow))
        && outbox == old(outbox) + [Message(HeartbeatTopic(thingName), Alive, HeartbeatQos)]
                                 + (if perturbed then [ShadowReport(thingName, shadow, true)] else [])
    {
      if Truthy(sendHeartbeats) {
        Publish(HeartbeatTopic(thingName), Alive, HeartbeatQos);
        if shadow[TemperatureKey] != Int(StuckTemperature) {
          UpdateConfigurationFromDelta(map[TemperatureKey := Int(newTemperature)]);
        }
      }
    }
  }
}
