# Device agent of the fleet demo: shadow sync and job lifecycle

This project models the device-side orchestration of `IoTThing` in
`iot_client.py`: a simulated IoT device keeps a shadow document in step with
the cloud and runs remotely issued jobs, and a heartbeat loop changes the same
state. The model is written in Dafny and its properties are proved.

The state that the device changes in place is a class, `IoTClient.IoTThing`,
with four fields:

- `shadow`: the reported properties, a `map<string, Value>`.
- `openJobs`: the job table, keyed by job id.
- `sendHeartbeats`: the heartbeat switch. It holds whatever JSON value the last
  `heartbeat` delta carried, and the device tests it for Python truthiness.
- `outbox`: every `publish(topic, payload, qos)` made so far, oldest first.
  JSON payloads are kept as structured `Payload` values.

Each callback, job handler and heartbeat tick is a method on the class. Its
postcondition gives the new state in terms of the old one.

The decisions inside them are functions in their own modules, each with lemmas:

- `Topics`: topic names and reading a job id back out of a topic.
- `Jobs`: the detail requests for a job list, the status table, and the order
  of a job's status messages.
- `Faults`: the branch priority of the fault-injection operation.

`Scenarios` works through the device's documented scenarios using only the
contracts:

- a `heartbeat: false` delta silences later ticks;
- a firmware job ends `IN_PROGRESS` then `SUCCEEDED`;
- a job with no operation is `REJECTED` and the shadow is not touched;
- a battery at 1 exits with code 0;
- a job detail delivered twice runs twice;
- a device in "atl" reports a stuck temperature of 100;
- a healthy device is left alone by the fault operation;
- a firmware job reports only the new version;
- a reboot job turns heartbeats off, asks for the job list again and leaves
  the job open.

A handler that does not return is modelled by the `Outcome` datatype:

- `Raised(e)`: a Python exception, e.g. `KeyError` when a firmware job has no
  `firmware_version`, `TypeError` when the battery value cannot be compared
  with 3, or `AttributeError` when the desired value is truthy but not an object.
- `Exited(code)`: `sys.exit`.
- `Restarted`: `reboot`, which ends in the heartbeat loop and never returns.

In each of these cases no terminal status is published, and the job stays in
`openJobs`.

In these places the model follows the code's behaviour:

- The heartbeat tick changes the temperature only when heartbeats are on, since
  the perturbation is nested inside the `send_heartbeats` test
  (iot_client.py:387-393).
- Topics are `$aws/things/<name>/...` and `demofleet/<name>/heartbeat`.
- The heartbeat switch is not a bool. It stores the delta's value as given.
- Clearing desired sends `"desired": null` for the whole desired partition.
- A job detail delivered again is executed again. There is no duplicate check.

## Model

| member | source | states |
|---|---|---|
| `Topics.ClassicShadowUnlessNamed` | iot_client.py:194-197 | a report goes to the classic shadow's topic exactly when the shadow name is absent or empty; any other name gets its own topic |
| `Topics.JobIdOfInvertsJobTopic` | iot_client.py:276-278 | reading the job id out of a per-job topic gives back exactly the id the topic was built from, and no other topic yields that id |
| `Topics.JobTopicInjective` | iot_client.py:319-321 | two different jobs never share a status-update topic |
| `Topics.OtherTopicsAreNotJobUpdates` | iot_client.py:195-197 | the shadow-update, list-jobs and heartbeat topics are never a job's status-update topic |
| `Shadow.InitialShadow` | iot_client.py:62-67 | the initial shadow has exactly the battery, firmware, temperature and location properties, with temperature 15 |
| `Faults.FaultBranch` | iot_client.py:396-415 | first match wins: battery below 3 (including a bool battery) → battery death; else firmware "0.1" → crash; else location "atl" → stuck sensor; else firmware "1.0" → telemetry bug; else nothing; a battery value that cannot be compared with 3 → TypeError |
| `Faults.LowBatteryDominates` | iot_client.py:397-402 | with the battery below 3 the battery branch is taken whatever the firmware, location and temperature are |
| `Faults.FaultBranchReadsOnlyGuards` | iot_client.py:397-413 | the branch depends only on the battery, firmware and location properties |
| `Jobs.GetRequestsNameJobsInOrder` | iot_client.py:269-281 | a job list becomes one detail request per job, and the i-th request's topic names the i-th job |
| `Jobs.StatusTable` | iot_client.py:292-297 | a document with an `operation` key ends SUCCEEDED, whatever the operation's name; one without ends REJECTED; FAILED is never produced |
| `Jobs.StatusMessagesInOrder` | iot_client.py:287-309 | on a job's update topic, IN_PROGRESS comes first and exactly one terminal status follows; the handler's own publishes add nothing on that topic |
| `Jobs.OnlyAcknowledged` | iot_client.py:288-290 | when the handler does not return, IN_PROGRESS is the job's only status message |
| `IoTClient.ConnectWithRetry` | iot_client.py:158-171 | connects exactly when one of the first five attempts does not time out; every earlier attempt timed out; after five timeouts it gives up |
| `IoTClient.IoTThing.constructor` | iot_client.py:39-78 | thing name `fh_workshop_<serial>`, the initial shadow, no open jobs, heartbeats on, nothing published |
| `IoTClient.IoTThing.ReportShadow` | iot_client.py:188-203 | appends one qos-0 report of the given value, with desired cleared only when asked; the topic is the named shadow's for a non-empty name and the classic one otherwise |
| `IoTClient.IoTThing.UpdateConfigurationFromDelta` | iot_client.py:220-226 | every delta key takes the delta's value, every other key keeps its value, no key is lost; the heartbeat switch takes the `heartbeat` value exactly when that key is in the delta; exactly one report of the whole new shadow with desired cleared is appended |
| `IoTClient.IoTThing.ShadowCallback` | iot_client.py:205-218 | a present, truthy, object-valued `desired` is applied as a delta; an absent, null or empty one changes nothing; a truthy non-object raises and changes nothing |
| `IoTClient.IoTThing.InitJobsClient` | iot_client.py:239-243 | appends one list-jobs request on `.../jobs/get` at qos 0 |
| `IoTClient.IoTThing.InitAppClient` | iot_client.py:158-179 | after a successful connect, reports the initial shadow without clearing desired and then asks for pending jobs; after five timeouts it raises the plain give-up exception and publishes nothing |
| `IoTClient.IoTThing.JobsHandler` | iot_client.py:269-281 | appends the detail requests of the listed jobs, one per job, in list order |
| `IoTClient.IoTThing.InitJobsResponse` | iot_client.py:248-259 | requests queued jobs before in-progress ones; an absent, null or empty list requests nothing |
| `IoTClient.IoTThing.JobsNotificationCallback` | iot_client.py:261-267 | requests exactly the jobs of the QUEUED bucket, in order, and nothing when it is absent |
| `IoTClient.IoTThing.AcknowledgeJob` | iot_client.py:313-323 | appends IN_PROGRESS, with a client token, on the job's update topic |
| `IoTClient.IoTThing.FirmwareUpgrade` | iot_client.py:381-383 | sets `firmware_version` to the document's value and reports only that property without clearing desired; a document without the key raises KeyError and changes nothing |
| `IoTClient.IoTThing.DemoConnectivityIssues` | iot_client.py:396-415 | per branch: battery death stops heartbeats and exits 0; crash exits 1; stuck sensor sets temperature to 100 through the delta path and reports; telemetry bug stops heartbeats only; otherwise, or on TypeError, nothing changes |
| `IoTClient.IoTThing.Reboot` | iot_client.py:434-444 | stops heartbeats; on reconnect it re-requests pending jobs and never returns; a failed reconnect raises |
| `IoTClient.JobEffect` | iot_client.py:328-341 | a handler never adds or removes shadow keys and publishes only shadow reports and list-jobs requests; only the firmware, fault and reboot operations can end other than by returning; an unknown or missing operation changes nothing; a reboot always turns heartbeats off |
| `IoTClient.IoTThing.ExecuteJob` | iot_client.py:325-341 | the new shadow, heartbeat switch, appended messages and outcome are exactly those of `JobEffect` for the job's document (per operation: firmware set and single-key report, or KeyError; the fault branch's effect; reboot's switch-off and list request; nothing otherwise); on return gives (operation, true), or (nothing, false) when there is no operation |
| `IoTClient.IoTThing.JobDetailCallback` | iot_client.py:283-309 | the outbox gains IN_PROGRESS, then the handler's messages, then, only if the handler returns, one terminal status (SUCCEEDED with an operation key, REJECTED without); shadow and heartbeat switch are the handler's (`JobEffect`); the job leaves the table when the handler returns and stays otherwise; on the job's topic exactly IN_PROGRESS then the terminal status appear; no operation means no shadow change |
| `IoTClient.IoTThing.HeartbeatTick` | iot_client.py:385-394 | with heartbeats off nothing is published and nothing changes; with them on, "alive" goes at qos 1 to `demofleet/<name>/heartbeat`, then, unless the temperature is 100, the new temperature is applied through the delta path |

## Left out

- Key generation, CSR construction, certificate and thing registration, and the
  credential fetch (iot_client.py:80-141, 352-379): cryptography and calls into
  cloud services.
- MQTT configuration, `subscribe`, `disconnect` and the temporary credential
  files: transport plumbing. `connect` appears only as the result of each
  attempt, a parameter.
- `time.sleep`, `print` and logging: no effect on state.
- The uuid client tokens are kept only as the fact that a token was sent. The
  random choices are parameters restricted to the listed values.
- JSON encoding and decoding. Each callback receives the already-decoded object
  it indexes (`state`, the job lists, the `jobs` object, `execution`), with the
  types the cloud service sends. So these malformed inputs, on which the code
  raises, are not modelled:
  - payloads missing those top-level keys;
  - a `state` that is not an object (iot_client.py:212);
  - an `execution` without `jobDocument`, or with a non-object one
    (iot_client.py:327-328). There the code raises after IN_PROGRESS is
    published, so the job would stay open with only its acknowledgement;
  - a null `QUEUED` bucket (TypeError at iot_client.py:270);
  - a truthy `queuedJobs` or `inProgressJobs` that is not a list, or list
    entries without `jobId` (iot_client.py:270-271).
- JSON floating-point numbers: `Value` has integers only, so Python's
  comparisons between `100` and `100.0` are not captured.
- The infinite heartbeat loop is modelled as one tick, `HeartbeatTick`.
  `reboot` ending in that loop is the terminal outcome `Restarted`.
- Concurrency between the callback thread and the heartbeat loop: the model is
  sequential.
- The commented-out connectivity branch (iot_client.py:417-432).
- `subscribe_callback` (iot_client.py:343-350): it only prints.
