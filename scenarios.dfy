/** Worked scenarios: what a caller can prove about a device from the
    contracts of IoTClient alone. */
module Scenarios {
  import opened Values
  import opened Topics
  import opened Messages
  import opened Shadow
  import opened Jobs
  import opened IoTClient

  /** A `{heartbeat: false}` delta is reported with desired cleared, and the
      heartbeat ticks after it publish nothing. */
  method HeartbeatSwitchedOff(newTemperature: int)
    requires newTemperature in TemperatureChoices
  {
    var thing := new IoTThing("serial-1", 30, "2.0", "nyc");
    var desired := map[HeartbeatKey := Bool(false)];
    assert HeartbeatKey in desired;
    var outcome := thing.ShadowCallback(map[DesiredKey := Obj(desired)]);
    assert outcome == Returned;
    assert thing.sendHeartbeats == Bool(false);
    assert thing.shadow[HeartbeatKey] == Bool(false);
    assert thing.outbox == [ShadowReport(thing.thingName, thing.shadow, true)];
    var before := thing.outbox;
    thing.HeartbeatTick(newTemperature);
    thing.HeartbeatTick(newTemperature);
    assert thing.outbox == before;
  }

  /** A firmware job sets the firmware version, and its statuses are
      IN_PROGRESS then SUCCEEDED. */
  method FirmwareJob(reconnects: bool) {
    var thing := new IoTThing("serial-2", 90, "1.5", "sf");
    var doc := map[OperationKey := FirmwareUpgradeOp, FirmwareVersionKey := Str("2.0")];
    var outcome := thing.JobDetailCallback(JobExecution("job-1", doc), reconnects);
    assert outcome == Returned;
    assert thing.shadow[FirmwareVersionKey] == Str("2.0");
    assert thing.openJobs == map[];
    assert OnTopic(thing.outbox, JobUpdateTopic(thing.thingName, "job-1"))
        == [Acknowledgement(thing.thingName, "job-1"), StatusReport(thing.thingName, "job-1", Succeeded)];
  }

  /** A job without an operation is rejected and leaves the shadow alone. */
  method JobWithoutOperation(reconnects: bool) {
    var thing := new IoTThing("serial-3", 10, "1.0", "atl");
    var shadowBefore := thing.shadow;
    var outcome := thing.JobDetailCallback(JobExecution("job-2", map["note" := Str("none")]), reconnects);
    assert thing.shadow == shadowBefore;
    assert thing.outbox == [Acknowledgement(thing.thingName, "job-2"), StatusReport(thing.thingName, "job-2", Rejected)];
  }

  /** With the battery at 1 the fault operation exits with code 0 whatever the
      firmware and location: the job stays open with only its acknowledgement. */
  method LowBatteryFault(reconnects: bool) {
    var thing := new IoTThing("serial-4", 1, "0.1", "atl");
    var outcome := thing.JobDetailCallback(JobExecution("job-3", map[OperationKey := ConnectivityIssuesOp]), reconnects);
    assert outcome == Exited(0);
    assert thing.sendHeartbeats == Bool(false);
    assert "job-3" in thing.openJobs;
    assert OnTopic(thing.outbox, JobUpdateTopic(thing.thingName, "job-3")) == [Acknowledgement(thing.thingName, "job-3")];
  }

  /** Delivering the same job detail twice runs the job twice: nothing
      suppresses the duplicate. */
  method RedeliveredJob(reconnects: bool) {
    var thing := new IoTThing("serial-5", 30, "1.5", "la");
    var job := JobExecution("job-4", map[OperationKey := Str("CALIBRATE")]);
    var first := thing.JobDetailCallback(job, reconnects);
    var second := thing.JobDetailCallback(job, reconnects);
    var ack, done := Acknowledgement(thing.thingName, "job-4"), StatusReport(thing.thingName, "job-4", Succeeded);
    assert OnTopic(thing.outbox, JobUpdateTopic(thing.thingName, "job-4")) == [ack, done, ack, done];
  }

  /** On a device in "atl" the fault operation forces the temperature to 100
      and reports it, and the job succeeds. */
  method StuckSensorFault(reconnects: bool) {
    var thing := new IoTThing("serial-6", 30, "1.5", "atl");
    var before := thing.shadow;
    var outcome := thing.JobDetailCallback(JobExecution("job-5", map[OperationKey := ConnectivityIssuesOp]), reconnects);
    assert outcome == Returned;
    assert thing.shadow == before[TemperatureKey := Int(StuckTemperature)];
    assert ShadowReport(thing.thingName, thing.shadow, true) in thing.outbox;
  }

  /** On a healthy device elsewhere the fault operation changes nothing. */
  method NoFaultOnHealthyDevice(reconnects: bool) {
    var thing := new IoTThing("serial-7", 30, "1.5", "nyc");
    var before := thing.shadow;
    var outcome := thing.JobDetailCallback(JobExecution("job-6", map[OperationKey := ConnectivityIssuesOp]), reconnects);
    assert outcome == Returned;
    assert thing.shadow == before;
    assert thing.sendHeartbeats == Bool(true);
  }

  /** A firmware job's report carries only the new version and keeps desired. */
  method FirmwareReport(reconnects: bool) {
    var thing := new IoTThing("serial-8", 90, "1.0", "chi");
    var doc := map[OperationKey := FirmwareUpgradeOp, FirmwareVersionKey := Str("2.0")];
    var outcome := thing.JobDetailCallback(JobExecution("job-7", doc), reconnects);
    assert thing.outbox[1] == ShadowReport(thing.thingName, map[FirmwareVersionKey := Str("2.0")], false);
  }

  /** A reboot job turns heartbeats off, re-requests pending jobs and never
      reports a terminal status. */
  method RebootJob() {
    var thing := new IoTThing("serial-9", 30, "2.0", "bos");
    var outcome := thing.JobDetailCallback(JobExecution("job-8", map[OperationKey := RebootOp]), true);
    assert outcome == Restarted;
    assert thing.sendHeartbeats == Bool(false);
    assert thing.outbox == [Acknowledgement(thing.thingName, "job-8"), ListJobsMessage(thing.thingName)];
    assert "job-8" in thing.openJobs;
  }
}
