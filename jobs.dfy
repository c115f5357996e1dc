/** The pure decisions of the job lifecycle: which requests a job list turns
    into, which status a finished job gets, and in which order a job's status
    messages appear. */
module Jobs {
  import opened Values
  import opened Topics
  import opened Messages

  const OperationKey := "operation"
  const FirmwareUpgradeOp := Str("FIRMWARE_UPGRADE")
  const ConnectivityIssuesOp := Str("ORDER_66")
  const RebootOp := Str("REBOOT")

  /** An entry of a job list (`{"jobId": ...}`). */
  datatype JobSummary = JobSummary(jobId: string)

  /** The `execution` object of a job-detail message. */
  datatype JobExecution = JobExecution(jobId: string, jobDocument: map<string, Value>)

  function GetJobRequestFor(thingName: string, job: JobSummary): Message {
    Message(JobGetTopic(thingName, job.jobId), GetJobRequest, 0)
  }

  /** One detail request per listed job, in list order. */
  function GetRequests(thingName: string, jobs: seq<JobSummary>): seq<Message> {
    seq(|jobs|, i requires 0 <= i < |jobs| => GetJobRequestFor(thingName, jobs[i]))
  }

  /** The requests name exactly the listed jobs, in list order: reading the job
      id back out of the i-th request's topic gives the i-th job. */
  lemma GetRequestsNameJobsInOrder(thingName: string, jobs: seq<JobSummary>)
    ensures |GetRequests(thingName, jobs)| == |jobs|
    ensures forall i :: 0 <= i < |jobs| ==>
      && GetRequests(thingName, jobs)[i].payload == GetJobRequest
      && JobIdOf(thingName, GetRequests(thingName, jobs)[i].topic, "get") == Some(jobs[i].jobId)
  {
    forall i | 0 <= i < |jobs|
      ensures JobIdOf(thingName, GetRequests(thingName, jobs)[i].topic, "get") == Some(jobs[i].jobId)
    {
      JobIdOfInvertsJobTopic(thingName, GetRequests(thingName, jobs)[i].topic, jobs[i].jobId, "get");
    }
  }

  /** The IN_PROGRESS acknowledgement, which carries a client token. */
  function Acknowledgement(thingName: string, jobId: string): Message {
    Message(JobUpdateTopic(thingName, jobId), JobUpdate(InProgress, true), 0)
  }

  /** The terminal status report, which carries no client token. */
  function StatusReport(thingName: string, jobId: string, status: JobStatus): Message {
    Message(JobUpdateTopic(thingName, jobId), JobUpdate(status, false), 0)
  }

  /** The pair `(operation, success)` that job execution returns when its
      handler returns: the operation when the document names one, else nothing. */
  function ExecutionResult(jobDocument: map<string, Value>): (Option<Value>, bool) {
    if OperationKey in jobDocument then (Some(jobDocument[OperationKey]), true) else (None, false)
  }

  /** The three-way status choice on `(operation, success)`. */
  function StatusFor(operation: Option<Value>, success: bool): JobStatus {
    if success then Succeeded
    else if operation.Some? && Truthy(operation.value) then Failed
    else Rejected
  }

  /** The status table: a document with an `operation` key succeeds, whatever
      the operation's name; one without is rejected; nothing ever fails. */
  lemma StatusTable(jobDocument: map<string, Value>)
    ensures StatusFor(ExecutionResult(jobDocument).0, ExecutionResult(jobDocument).1)
            == (if OperationKey in jobDocument then Succeeded else Rejected)
    ensures StatusFor(ExecutionResult(jobDocument).0, ExecutionResult(jobDocument).1) != Failed
  {
  }

  /** The request for the thing's pending jobs. */
  function ListJobsMessage(thingName: string): Message {
    Message(ListJobsTopic(thingName), ListJobsRequest, 0)
  }

  /** The job list a list-jobs response carries under one key: absent, null
      and empty all come to no jobs. */
  function Listed(jobs: Option<seq<JobSummary>>): seq<JobSummary> {
    if jobs.Some? then jobs.value else []
  }

  /** Every message of `msgs` is a shadow report or a list-jobs request: what
      a job's handler may publish before the job's terminal status. */
  ghost predicate OnlyShadowOrListTopics(thingName: string, msgs: seq<Message>) {
    forall m :: m in msgs ==> m.topic == ShadowUpdateTopic(thingName, None) || m.topic == ListJobsTopic(thingName)
  }

  /** Messages on shadow-update or list-jobs topics never carry a job's status. */
  lemma NoStatusAmong(msgs: seq<Message>, thingName: string, jobId: string)
    requires OnlyShadowOrListTopics(thingName, msgs)
    ensures OnTopic(msgs, JobUpdateTopic(thingName, jobId)) == []
  {
    OtherTopicsAreNotJobUpdates(thingName, jobId);
    OnTopicMembers(msgs, JobUpdateTopic(thingName, jobId));
  }

  /** For one job, the acknowledgement comes before the terminal status, and
      whatever the handler publishes in between adds no status of that job. */
  lemma StatusMessagesInOrder(before: seq<Message>, handled: seq<Message>, thingName: string, jobId: string, status: JobStatus)
    requires OnlyShadowOrListTopics(thingName, handled)
    ensures OnTopic(before + [Acknowledgement(thingName, jobId)] + handled + [StatusReport(thingName, jobId, status)],
                    JobUpdateTopic(thingName, jobId))
         == OnTopic(before, JobUpdateTopic(thingName, jobId))
            + [Acknowledgement(thingName, jobId), StatusReport(thingName, jobId, status)]
  {
    var t := JobUpdateTopic(thingName, jobId);
    var ack, fin := Acknowledgement(thingName, jobId), StatusReport(thingName, jobId, status);
    NoStatusAmong(handled, thingName, jobId);
    OnTopicAppend(before + [ack] + handled, [fin], t);
    OnTopicAppend(before + [ack], handled, t);
    OnTopicAppend(before, [ack], t);
  }

  /** When the handler never returns, the job's only status is the acknowledgement. */
  lemma OnlyAcknowledged(before: seq<Message>, handled: seq<Message>, thingName: string, jobId: string)
    requires OnlyShadowOrListTopics(thingName, handled)
    ensures OnTopic(before + [Acknowledgement(thingName, jobId)] + handled, JobUpdateTopic(thingName, jobId))
         == OnTopic(before, JobUpdateTopic(thingName, jobId)) + [Acknowledgement(thingName, jobId)]
  {
    var t := JobUpdateTopic(thingName, jobId);
    NoStatusAmong(handled, thingName, jobId);
    OnTopicAppend(before + [Acknowledgement(thingName, jobId)], handled, t);
    OnTopicAppend(before, [Acknowledgement(thingName, jobId)], t);
  }
}
