/** The documents and topic names the virtual device exchanges with the broker,
    and the decisions of its job pipeline that depend only on message contents. */
module DeviceJobs {
  import opened Strings
  import opened Json

  /** `JobStatus` and the names the device reports. */
  datatype JobStatus = Queued | InProgress | Failed | Succeeded | Canceled | TimedOut | Rejected | Removed
  {
    function Name(): string {
      match this
      case Queued => "QUEUED"
      case InProgress => "IN_PROGRESS"
      case Failed => "FAILED"
      case Succeeded => "SUCCEEDED"
      case Canceled => "CANCELED"
      case TimedOut => "TIMED_OUT"
      case Rejected => "REJECTED"
      case Removed => "REMOVED"
    }
  }

  function ShadowGetTopic(thing: string): string { "$aws/things/" + thing + "/shadow/get" }
  function ShadowUpdateTopic(thing: string): string { "$aws/things/" + thing + "/shadow/update" }
  function JobsGetTopic(thing: string): string { "$aws/things/" + thing + "/jobs/get" }
  function StartNextTopic(thing: string): string { "$aws/things/" + thing + "/jobs/start-next" }
  function JobUpdateTopic(thing: string, jobId: string): string { "$aws/things/" + thing + "/jobs/" + jobId + "/update" }
  /** The default telemetry topic template `dt/ac/company1/area1/{}/temp` formatted with the device name. */
  function DefaultTelemetryTopic(thing: string): string { "dt/ac/company1/area1/" + thing + "/temp" }

  /** The request sent to start the next queued job. */
  function StartNextRequest(): (r: Json)
    ensures r.JObj? && r.fields.Keys == {"statusDetails", "stepTimeoutInMinutes"}
    ensures r.fields["statusDetails"] == JObj(map["string" := JStr(InProgress.Name())])
    ensures r.fields["stepTimeoutInMinutes"] == JInt(1)
  {
    JObj(map[
      "statusDetails" := JObj(map["string" := JStr(InProgress.Name())]),
      "stepTimeoutInMinutes" := JInt(1)])
  }

  /** `generate_job_start_response_doc`: the terminal status report for a job. */
  function GenerateJobStartResponseDoc(response: Json, version: Json, timeout: Json): (r: Json)
    ensures r.JObj? && r.fields.Keys == {"status", "expectedVersion", "stepTimeoutInMinutes"}
    ensures r.fields["status"] == JStr(Succeeded.Name()) <==> Truthy(response)
    ensures r.fields["status"] == JStr(Failed.Name()) <==> !Truthy(response)
    ensures r.fields["expectedVersion"] == version
    ensures r.fields["stepTimeoutInMinutes"] == timeout
  {
    var status := if Truthy(response) then Succeeded else Failed;
    JObj(map[
      "status" := JStr(status.Name()),
      "expectedVersion" := version,
      "stepTimeoutInMinutes" := timeout])
  }

  /** The job actions the device knows, after lower-casing `action`. */
  datatype JobAction = RotateCert | ChangeUnit | UpdateFirmware | UnknownAction(action: string)

  function ClassifyAction(action: string): (r: JobAction)
    ensures r == RotateCert <==> Lower(action) == "rotate-cert"
    ensures r == ChangeUnit <==> Lower(action) == "change-unit"
    ensures r == UpdateFirmware <==> Lower(action) == "update-firmware"
    ensures r.UnknownAction? ==> r.action == action
  {
    var a := Lower(action);
    if a == "rotate-cert" then RotateCert
    else if a == "change-unit" then ChangeUnit
    else if a == "update-firmware" then UpdateFirmware
    else UnknownAction(action)
  }

  /** Matching ignores the case of ASCII letters. */
  lemma {:induction false} ClassifyIgnoresCase(a: string, b: string)
    requires Lower(a) == Lower(b)
    ensures ClassifyAction(a).UnknownAction? == ClassifyAction(b).UnknownAction?
    ensures !ClassifyAction(a).UnknownAction? ==> ClassifyAction(a) == ClassifyAction(b)
  {
  }

  /** The fields of a start-next response the device reads, in the order it reads them. */
  datatype JobExecution = JobExecution(jobId: string, jobDoc: Json, version: Json)

  /** `payload["execution"]["jobId"]`, `["jobDocument"]`, `["versionNumber"]`; None when
      any lookup raises (or the job id is not a string). */
  function ParseStartNext(payload: Json): (r: Option<JobExecution>)
    ensures r.Some? <==>
      && Index(payload, "execution").Some?
      && Index(payload.fields["execution"], "jobId").Some?
      && Index(payload.fields["execution"], "jobId").value.JStr?
      && Index(payload.fields["execution"], "jobDocument").Some?
      && Index(payload.fields["execution"], "versionNumber").Some?
    ensures r.Some? ==>
      var e := payload.fields["execution"].fields;
      r.value == JobExecution(e["jobId"].s, e["jobDocument"], e["versionNumber"])
  {
    match Index(payload, "execution")
    case None => None
    case Some(execution) =>
      match (Index(execution, "jobId"), Index(execution, "jobDocument"), Index(execution, "versionNumber"))
      case (Some(JStr(id)), Some(doc), Some(version)) => Some(JobExecution(id, doc, version))
      case _ => None
  }

  /** The branch `handle_jobs_start_next_callback` takes for a job document; None when
      the source raises before reporting: `"action" in job_doc` is a TypeError, the
      document has no `action` (so `response` is never bound), `job_doc["action"]`
      raises, or the action is not a string and has no `lower()`. */
  function ActionOf(jobDoc: Json): (r: Option<JobAction>)
    ensures r.Some? <==> jobDoc.JObj? && "action" in jobDoc.fields && jobDoc.fields["action"].JStr?
    ensures r.Some? ==> r.value == ClassifyAction(jobDoc.fields["action"].s)
  {
    match In("action", jobDoc)
    case None => None
    case Some(present) =>
      if !present then None
      else match Index(jobDoc, "action")
        case Some(JStr(a)) => Some(ClassifyAction(a))
        case _ => None
  }

  /** The desired-state document the switch variant publishes to its target. */
  function SwitchDesired(on: bool): Json
  {
    JObj(map["state" := JObj(map["desired" := JObj(map["status" := JStr(if on then "on" else "off")])])])
  }
}
