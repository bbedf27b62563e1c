/** The device-factory Lambda: an API Gateway request names an operation in its
    JSON body, and the handler creates, describes, deletes or links simulated
    devices. IoT, IoT Data, S3 and ECS are abstract: what they answer and which
    requests raise is the `Cloud` value; the DynamoDB catalog is a
    `DeviceCatalog.Catalog`.

    Two error paths of the source cannot do what they are written for (see the
    README's Findings): every model function takes `asWritten`, true for the
    code as written and false for the corrected code the handler method runs. */
module DeviceFactory {
  import opened Strings
  import opened Json
  import opened Services
  import opened LambdaResponses
  import opened DeviceCatalog

  const Prefix := "dev"
  const DefaultDeviceType: Json := JStr("generic")
  const DeviceIdNotFound := "device_id not found"

  /** The shadow document a new device starts with: `{"state":{"desired":{"debug":"off"}}}`. */
  const DebugOffShadow: Json :=
    JObj(map["state" := JObj(map["desired" := JObj(map["debug" := JStr("off")])])])

  // ---------------------------------------------------------------- names

  /** `create_random_name(size)`: `picks[i]` is the index in `ascii_uppercase`
      of the i-th `choice`. */
  function CreateRandomName(picks: seq<nat>): (r: string)
    requires forall i :: 0 <= i < |picks| ==> picks[i] < 26
    ensures |r| == |picks|
    ensures forall i :: 0 <= i < |r| ==> 'A' <= r[i] <= 'Z'
  {
    seq(|picks|, i requires 0 <= i < |picks| => ('A' as int + picks[i]) as char)
  }

  /** Different draws give different names, so the name space has 26^size members. */
  lemma {:induction false} RandomNamesFollowDraws(p: seq<nat>, q: seq<nat>)
    requires forall i :: 0 <= i < |p| ==> p[i] < 26
    requires forall i :: 0 <= i < |q| ==> q[i] < 26
    ensures CreateRandomName(p) == CreateRandomName(q) <==> p == q
  {
    if CreateRandomName(p) == CreateRandomName(q) {
      forall i | 0 <= i < |p|
        ensures p[i] == q[i]
      {
        assert CreateRandomName(p)[i] == CreateRandomName(q)[i];
      }
    }
  }

  /** `"{}-{}".format(PREFIX, serial_number)`. */
  function DevName(serial: string): (name: string)
    ensures |name| == |serial| + 4
    ensures StartsWith(name, "dev-") && name[4..] == serial
  {
    Prefix + "-" + serial
  }

  /** A device name is "dev-" followed by exactly four upper-case ASCII letters. */
  lemma {:induction false} DeviceNameShape(picks: seq<nat>)
    requires |picks| == 4 && forall i :: 0 <= i < 4 ==> picks[i] < 26
    ensures var name := DevName(CreateRandomName(picks));
      && |name| == 8 && name[..4] == "dev-"
      && forall i :: 4 <= i < 8 ==> 'A' <= name[i] <= 'Z'
  {
    var name := DevName(CreateRandomName(picks));
    assert forall i :: 4 <= i < 8 ==> name[i] == CreateRandomName(picks)[i - 4];
  }

  // ---------------------------------------------------------------- services

  /** Exceptions by the class the source tells apart: `create_device` catches
      only `ClientError`; a parameter error, a KeyError or an IndexError
      passes through. */
  datatype ErrorKind = ClientError | OtherError
  datatype Error = Error(kind: ErrorKind, message: string)

  /** The requests the Lambda sends to IoT, IoT Data, S3, ECS and DynamoDB. */
  datatype Request =
    | CreateKeysAndCertificate
    | CreateThingGroup(group: Json)
    | CreateThing(thing: string, serial: string)
    | CreatePolicy(policy: string, document: Json)
    | AttachThingPrincipal(thing: string, principal: string)
    | AttachPolicy(policy: string, target: Json)
    | AddThingToThingGroup(group: Json, thing: string)
    | UpdateThingShadow(thing: string, payload: Json)
    | DescribeEndpoint
    | UploadFile(file: string)
    | PresignUrl(file: string)
    | RunTask(startedBy: string, configUrl: Json)
    | PutCatalogItem(id: string)
    | GetCatalogItem(key: Json)
    | ListThingPrincipals(thing: string)

  /** What the services answer: the new certificate, the data endpoint, the
      presigned configuration URL, the `run_task` response and its task, the
      default IoT policy document, each thing's principals, and the requests
      that raise with their exception. */
  datatype Cloud = Cloud(
    certificateArn: string,
    certificatePem: string,
    endpoint: string,
    presignedUrl: string,
    runTaskResponse: Json,
    taskArn: string,
    clusterArn: string,
    defaultPolicy: Json,
    principals: map<string, seq<Json>>,
    failing: map<Request, Error>)

  /** Everything a handler invocation depends on besides the request: the four
      letters `create_random_name` draws, the clock reading stored as "ts",
      the services, the catalog, and what the unmodelled `delete_device` does. */
  datatype World = World(serial: string, now: string, cloud: Cloud, catalog: Catalog, deleteOutcome: OpOutcome)

  /** How an operation ends: it returns a response or raises. */
  datatype OpOutcome = OpReturned(response: Response) | OpRaised(error: Error)

  /** The requests an operation issued, the catalog afterwards and its outcome. */
  datatype FactoryRun = FactoryRun(requests: seq<Request>, catalog: Catalog, outcome: OpOutcome)

  /** botocore checks request parameters before sending: a `None` where a
      string is expected raises ParamValidationError, which is not a ClientError. */
  const ParamValidation := Error(OtherError, "ParamValidationError")

  /** `json.dumps` of a dict holding an exception object raises TypeError. */
  const NotSerializable := Error(OtherError, "TypeError: Object of type Exception is not JSON serializable")

  // ---------------------------------------------------------------- create-device

  /** The requests between the thing group and the configuration upload, in
      the order `create_device` issues them. */
  function ProvisionPlan(group: Json, serial: string, cloud: Cloud): (plan: seq<Request>)
    ensures |plan| == 8
    ensures plan[0] == CreateThing(DevName(serial), serial)
    ensures plan[1] == CreatePolicy(DevName(serial) + "-Policy", cloud.defaultPolicy)
    ensures plan[3] == AttachPolicy(DevName(serial) + "-Policy", JStr(cloud.certificateArn))
    ensures plan[4] == AddThingToThingGroup(group, DevName(serial))
  {
    var dev := DevName(serial);
    var policy := dev + "-Policy";
    [CreateThing(dev, serial),
     CreatePolicy(policy, cloud.defaultPolicy),
     AttachThingPrincipal(dev, cloud.certificateArn),
     AttachPolicy(policy, JStr(cloud.certificateArn)),
     AddThingToThingGroup(group, dev),
     UpdateThingShadow(dev, DebugOffShadow),
     DescribeEndpoint,
     UploadFile(dev + ".cfg")]
  }

  /** The catalog item `include_device_in_catalog` writes. */
  function CatalogItem(dev: string, cloud: Cloud, now: string): (item: Doc)
    ensures "id" in item && item["id"] == JStr(dev)
    ensures "Status" in item && item["Status"] == JStr(Provisioned)
  {
    map["id" := JStr(dev),
        "iot_endpoint" := JStr(cloud.endpoint),
        "cert" := JStr(cloud.certificatePem),
        "ts" := JStr(now),
        "Status" := JStr(Provisioned),
        "TaskArn" := JStr(cloud.taskArn),
        "ClusterArn" := JStr(cloud.clusterArn)]
  }

  /** The `except ClientError` branch of `create_device`: the partial response
      gets `result` and `error-msg`, and goes out as an error response. As
      written, the exception object in it makes `json.dumps` raise. Any other
      exception passes through. */
  function CreateFailure(e: Error, response: Doc, asWritten: bool): (o: OpOutcome)
    ensures e.kind == OtherError ==> o == OpRaised(e)
    ensures e.kind == ClientError && asWritten ==> o.OpRaised?
    ensures e.kind == ClientError && !asWritten ==>
      o == OpReturned(GenerateErrorResponse(JObj(response["result" := JStr("ERROR")]["error-msg" := JStr(e.message)])))
  {
    if e.kind == OtherError then OpRaised(e)
    else if asWritten then OpRaised(NotSerializable)
    else OpReturned(GenerateErrorResponse(JObj(response["result" := JStr("ERROR")]["error-msg" := JStr(e.message)])))
  }

  /** The URL `create_presigned_s3_url` returns: None after a ClientError. */
  function ConfigUrl(cloud: Cloud, dev: string): Json {
    if PresignUrl(dev + ".cfg") in cloud.failing then JNull else JStr(cloud.presignedUrl)
  }

  /** What escapes `create_device` when presigning fails: the exception
      itself unless it is a ClientError; then the URL is None and `run_task`
      refuses it before sending anything. */
  function PresignFailure(e: Error): (r: Error)
    ensures r.kind == OtherError
    ensures e.kind == OtherError ==> r == e
  {
    if e.kind == OtherError then e else ParamValidation
  }

  /** The requests of a launch that goes through: presign the configuration
      URL, start the task, write the catalog item. */
  function LaunchPlan(serial: string, cloud: Cloud): seq<Request> {
    var dev := DevName(serial);
    [PresignUrl(dev + ".cfg"), RunTask(dev, ConfigUrl(cloud, dev)), PutCatalogItem(dev)]
  }

  /** Every request a complete `create_device` issues, in order. */
  function CreatePlan(group: Json, serial: string, cloud: Cloud): seq<Request> {
    [CreateKeysAndCertificate, CreateThingGroup(group)] + ProvisionPlan(group, serial, cloud) + LaunchPlan(serial, cloud)
  }

  /** The response `create_device` builds when every step succeeds. */
  function CreatedResponse(dev: string, cloud: Cloud): Doc {
    map["dev_name" := JStr(dev),
        "endpoint" := JStr(cloud.endpoint),
        "task_arn" := JStr(cloud.taskArn),
        "cluster_arn" := JStr(cloud.clusterArn),
        "config_file_url" := ConfigUrl(cloud, dev),
        "result" := JStr("OK")]
  }

  /** An operation that answered with a 200 response. */
  predicate Succeeded(o: OpOutcome) {
    o.OpReturned? && o.response.statusCode == 200
  }

  /** The services let a launch through: presigning succeeds, the task
      starts, its response passes `check_error_response` and the catalog write
      goes through. */
  predicate LaunchGoesThrough(serial: string, cloud: Cloud) {
    var dev := DevName(serial);
    && PresignUrl(dev + ".cfg") !in cloud.failing
    && RunTask(dev, ConfigUrl(cloud, dev)) !in cloud.failing
    && CheckErrorResponse(cloud.runTaskResponse)
    && PutCatalogItem(dev) !in cloud.failing
  }

  /** A 500 answer carries, under "error-message", a document with result
      ERROR that names the device exactly when `named`. */
  predicate ErrorDocument(o: OpOutcome, named: bool) {
    o.OpReturned? && o.response.statusCode == 500 ==>
      && o.response.body.JObj? && "error-message" in o.response.body.fields
      && var doc := o.response.body.fields["error-message"];
      && doc.JObj? && "result" in doc.fields && doc.fields["result"] == JStr("ERROR")
      && ("dev_name" in doc.fields <==> named)
  }

  /** The part of `create_device` after the configuration upload: presign the
      configuration URL, start the container and record the device in the
      catalog. After a ClientError the URL is None, and `run_task` refuses it
      before sending anything. */
  function LaunchDevice(serial: string, w: World, asWritten: bool): (r: FactoryRun)
    ensures r.requests <= LaunchPlan(serial, w.cloud)
    ensures Succeeded(r.outcome) ==>
      var dev := DevName(serial);
      && r.requests == LaunchPlan(serial, w.cloud)
      && r.catalog == PutItem(w.catalog, CatalogItem(dev, w.cloud, w.now))
      && r.outcome.response.body == JObj(CreatedResponse(dev, w.cloud))
    ensures r.catalog != w.catalog ==> Succeeded(r.outcome)
  {
    var cloud := w.cloud;
    var failing := cloud.failing.Keys;
    var dev := DevName(serial);
    var response := map["dev_name" := JStr(dev)];
    var presign := PresignUrl(dev + ".cfg");
    if presign in failing then
      FactoryRun([presign], w.catalog, OpRaised(PresignFailure(cloud.failing[presign])))
    else
      var task := RunTask(dev, ConfigUrl(cloud, dev));
      if task in failing then
        FactoryRun([presign, task], w.catalog, CreateFailure(cloud.failing[task], response, asWritten))
      else if !CheckErrorResponse(cloud.runTaskResponse) then
        FactoryRun([presign, task], w.catalog, OpRaised(Error(OtherError, "Invalid response code / Error launching task")))
      else
        var put := PutCatalogItem(dev);
        if put in failing then
          FactoryRun([presign, task, put], w.catalog, CreateFailure(cloud.failing[put], response, asWritten))
        else
          FactoryRun([presign, task, put],
                     PutItem(w.catalog, CatalogItem(dev, cloud, w.now)),
                     OpReturned(GenerateResponse(JObj(CreatedResponse(dev, cloud)))))
  }

  /** The launch succeeds exactly when the services let it through. */
  lemma {:induction false} LaunchSucceeds(serial: string, w: World, asWritten: bool)
    ensures Succeeded(LaunchDevice(serial, w, asWritten).outcome) <==> LaunchGoesThrough(serial, w.cloud)
  {
  }

  /** A presigning failure of either kind ends `create_device` with an
      exception that its `except ClientError` does not catch: no task is
      started and nothing is written to the catalog. */
  lemma {:induction false} PresignFailureEscapes(serial: string, w: World, asWritten: bool)
    requires PresignUrl(DevName(serial) + ".cfg") in w.cloud.failing
    ensures var r := LaunchDevice(serial, w, asWritten);
      && r.requests == [PresignUrl(DevName(serial) + ".cfg")]
      && r.catalog == w.catalog
      && r.outcome.OpRaised? && r.outcome.error.kind == OtherError
  {
  }

  /** A ClientError during the corrected launch is answered with the partial
      response, which already names the device. */
  lemma {:induction false} LaunchClientError(serial: string, w: World)
    ensures ErrorDocument(LaunchDevice(serial, w, false).outcome, true)
  {
  }

  /** `create_device` after the thing group: the provisioning requests of the
      outer `try`, then the launch. */
  function ProvisionRun(group: Json, w: World, asWritten: bool): FactoryRun {
    var failing := w.cloud.failing.Keys;
    var plan := ProvisionPlan(group, w.serial, w.cloud);
    var run := Attempt(plan, failing);
    AttemptFacts(plan, failing);
    if run.raised then
      var response := map["dev_name" := JStr(DevName(w.serial))];
      FactoryRun(run.issued, w.catalog, CreateFailure(w.cloud.failing[run.issued[|run.issued| - 1]], response, asWritten))
    else
      var launch := LaunchDevice(w.serial, w, asWritten);
      FactoryRun(plan + launch.requests, launch.catalog, launch.outcome)
  }

  /** A provisioning request that raises ends `create_device` without a
      device: nothing is written to the catalog. */
  lemma {:induction false} ProvisionRaisedFails(group: Json, w: World, asWritten: bool)
    requires Attempt(ProvisionPlan(group, w.serial, w.cloud), w.cloud.failing.Keys).raised
    ensures var r := ProvisionRun(group, w, asWritten);
      && r.requests <= ProvisionPlan(group, w.serial, w.cloud)
      && r.catalog == w.catalog && !Succeeded(r.outcome)
  {
    AttemptFacts(ProvisionPlan(group, w.serial, w.cloud), w.cloud.failing.Keys);
  }

  /** The requests from provisioning on follow the plan and stop early only on
      failure; the catalog changes only when the operation succeeds, and then
      holds the device item and the response reports the device. */
  lemma {:induction false} ProvisionRequests(group: Json, w: World, asWritten: bool)
    ensures var r := ProvisionRun(group, w, asWritten);
      && r.requests <= ProvisionPlan(group, w.serial, w.cloud) + LaunchPlan(w.serial, w.cloud)
      && (r.catalog != w.catalog ==> Succeeded(r.outcome))
      && (Succeeded(r.outcome) ==>
            var dev := DevName(w.serial);
            && r.requests == ProvisionPlan(group, w.serial, w.cloud) + LaunchPlan(w.serial, w.cloud)
            && r.catalog == PutItem(w.catalog, CatalogItem(dev, w.cloud, w.now))
            && r.outcome.response.body == JObj(CreatedResponse(dev, w.cloud)))
  {
    var plan := ProvisionPlan(group, w.serial, w.cloud);
    var launchPlan := LaunchPlan(w.serial, w.cloud);
    var r := ProvisionRun(group, w, asWritten);
    if Attempt(plan, w.cloud.failing.Keys).raised {
      ProvisionRaisedFails(group, w, asWritten);
      assert r.requests <= plan + launchPlan by {
        assert forall i :: 0 <= i < |r.requests| ==> r.requests[i] == plan[i];
      }
    } else {
      var launch := LaunchDevice(w.serial, w, asWritten);
      assert r == FactoryRun(plan + launch.requests, launch.catalog, launch.outcome);
      assert r.requests <= plan + launchPlan by {
        assert forall i :: 0 <= i < |launch.requests| ==> launch.requests[i] == launchPlan[i];
      }
    }
  }

  /** Provisioning and launch succeed exactly when no provisioning request
      raises and the services let the launch through. */
  lemma {:induction false} ProvisionSucceeds(group: Json, w: World, asWritten: bool)
    ensures Succeeded(ProvisionRun(group, w, asWritten).outcome) <==>
      && (forall q :: q in ProvisionPlan(group, w.serial, w.cloud) ==> q !in w.cloud.failing)
      && LaunchGoesThrough(w.serial, w.cloud)
  {
    var failing := w.cloud.failing.Keys;
    var plan := ProvisionPlan(group, w.serial, w.cloud);
    AttemptPasses(plan, failing);
    if Attempt(plan, failing).raised {
      ProvisionRaisedFails(group, w, asWritten);
    } else {
      var launch := LaunchDevice(w.serial, w, asWritten);
      assert ProvisionRun(group, w, asWritten) == FactoryRun(plan + launch.requests, launch.catalog, launch.outcome);
      LaunchSucceeds(w.serial, w, asWritten);
    }
  }

  /** A ClientError from provisioning on is answered, in the corrected code,
      with the partial response naming the device. */
  lemma {:induction false} ProvisionClientError(group: Json, w: World)
    ensures ErrorDocument(ProvisionRun(group, w, false).outcome, true)
  {
    var failing := w.cloud.failing.Keys;
    var plan := ProvisionPlan(group, w.serial, w.cloud);
    if !Attempt(plan, failing).raised {
      LaunchClientError(w.serial, w);
    }
  }

  /** `create_device(thing_group_name)`. The thing-group request sits in its own
      `try`; as written, its handler calls `traceback.print_tb` on the
      exception, which raises AttributeError out of `create_device`. */
  function CreateDeviceRun(group: Json, w: World, asWritten: bool): (r: FactoryRun)
    ensures 0 < |r.requests| && r.requests[0] == CreateKeysAndCertificate
    ensures 1 < |r.requests| ==> r.requests[1] == CreateThingGroup(group)
  {
    var failing := w.cloud.failing.Keys;
    if CreateKeysAndCertificate in failing then
      FactoryRun([CreateKeysAndCertificate], w.catalog,
                 CreateFailure(w.cloud.failing[CreateKeysAndCertificate], map[], asWritten))
    else if CreateThingGroup(group) in failing && asWritten then
      FactoryRun([CreateKeysAndCertificate, CreateThingGroup(group)], w.catalog,
                 OpRaised(Error(OtherError, "AttributeError: tb_frame")))
    else
      var rest := ProvisionRun(group, w, asWritten);
      FactoryRun([CreateKeysAndCertificate, CreateThingGroup(group)] + rest.requests, rest.catalog, rest.outcome)
  }

  /** The requests `create_device` issues follow the plan and stop early only
      on failure; a device is stored in the catalog, with status PROV, exactly
      when the operation succeeds, and the response then reports it. */
  lemma {:induction false} CreateDeviceRequests(group: Json, w: World, asWritten: bool)
    ensures var r := CreateDeviceRun(group, w, asWritten);
      && r.requests <= CreatePlan(group, w.serial, w.cloud)
      && (r.catalog != w.catalog ==> Succeeded(r.outcome))
      && (Succeeded(r.outcome) ==>
            && r.requests == CreatePlan(group, w.serial, w.cloud)
            && r.catalog == PutItem(w.catalog, CatalogItem(DevName(w.serial), w.cloud, w.now))
            && r.outcome.response.body == JObj(CreatedResponse(DevName(w.serial), w.cloud)))
  {
    var head := [CreateKeysAndCertificate, CreateThingGroup(group)];
    var tail := ProvisionPlan(group, w.serial, w.cloud) + LaunchPlan(w.serial, w.cloud);
    assert CreatePlan(group, w.serial, w.cloud) == head + tail;
    var failing := w.cloud.failing.Keys;
    if CreateKeysAndCertificate !in failing && !(CreateThingGroup(group) in failing && asWritten) {
      var rest := ProvisionRun(group, w, asWritten);
      ProvisionRequests(group, w, asWritten);
      assert head + rest.requests <= head + tail by {
        assert forall i :: 0 <= i < |rest.requests| ==> rest.requests[i] == tail[i];
      }
    }
  }

  /** `create_device` succeeds exactly when no request it does not guard
      raises and the services let the launch through; in the corrected code a
      failure creating the thing group is absorbed. */
  lemma {:induction false} CreateDeviceSucceeds(group: Json, w: World, asWritten: bool)
    ensures Succeeded(CreateDeviceRun(group, w, asWritten).outcome) <==>
      && CreateKeysAndCertificate !in w.cloud.failing
      && (asWritten ==> CreateThingGroup(group) !in w.cloud.failing)
      && (forall q :: q in ProvisionPlan(group, w.serial, w.cloud) ==> q !in w.cloud.failing)
      && LaunchGoesThrough(w.serial, w.cloud)
  {
    if CreateKeysAndCertificate !in w.cloud.failing && !(CreateThingGroup(group) in w.cloud.failing && asWritten) {
      ProvisionSucceeds(group, w, asWritten);
    }
  }

  /** A ClientError inside `create_device` gives, in the corrected code, a 500
      whose error document is the partial response with result ERROR; it
      holds `dev_name` exactly when the certificate was created first. */
  lemma {:induction false} CreateDeviceClientError(group: Json, w: World)
    ensures ErrorDocument(CreateDeviceRun(group, w, false).outcome, CreateKeysAndCertificate !in w.cloud.failing)
  {
    if CreateKeysAndCertificate !in w.cloud.failing {
      ProvisionClientError(group, w);
    }
  }

  /** The imperative `create_device` of the corrected code: the response dict
      is filled in step by step around the service requests. */
  method CreateDevice(group: Json, w: World) returns (requests: seq<Request>, catalog: Catalog, outcome: OpOutcome)
    ensures FactoryRun(requests, catalog, outcome) == CreateDeviceRun(group, w, false)
  {
    var cloud := w.cloud;
    var failing := cloud.failing.Keys;
    catalog := w.catalog;
    var response: Doc := map[];
    requests := [CreateKeysAndCertificate];
    if CreateKeysAndCertificate in failing {
      outcome := CreateFailure(cloud.failing[CreateKeysAndCertificate], response, false);
      return;
    }
    response := map["dev_name" := JStr(DevName(w.serial))];
    requests := requests + [CreateThingGroup(group)];
    var plan := ProvisionPlan(group, w.serial, cloud);
    var run := Attempt(plan, failing);
    AttemptFacts(plan, failing);
    requests := requests + run.issued;
    assert requests == [CreateKeysAndCertificate, CreateThingGroup(group)] + run.issued;
    if run.raised {
      outcome := CreateFailure(cloud.failing[run.issued[|run.issued| - 1]], response, false);
      CreateDeviceProvisionRaised(group, w);
      return;
    }
    var launched;
    launched, catalog, outcome := Launch(response, w);
    CreateDeviceLaunched(group, w);
    requests := requests + launched;
    assert requests == [CreateKeysAndCertificate, CreateThingGroup(group)] + plan + launched;
  }

  /** `create_device` when a provisioning request raises. */
  lemma {:induction false} CreateDeviceProvisionRaised(group: Json, w: World)
    requires CreateKeysAndCertificate !in w.cloud.failing
    requires Attempt(ProvisionPlan(group, w.serial, w.cloud), w.cloud.failing.Keys).raised
    ensures var run := Attempt(ProvisionPlan(group, w.serial, w.cloud), w.cloud.failing.Keys);
      && |run.issued| > 0 && run.issued[|run.issued| - 1] in w.cloud.failing
      && CreateDeviceRun(group, w, false) ==
           FactoryRun([CreateKeysAndCertificate, CreateThingGroup(group)] + run.issued, w.catalog,
                      CreateFailure(w.cloud.failing[run.issued[|run.issued| - 1]], map["dev_name" := JStr(DevName(w.serial))], false))
  {
    AttemptFacts(ProvisionPlan(group, w.serial, w.cloud), w.cloud.failing.Keys);
  }

  /** `create_device` when provisioning goes through: the launch follows. */
  lemma {:induction false} CreateDeviceLaunched(group: Json, w: World)
    requires CreateKeysAndCertificate !in w.cloud.failing
    requires !Attempt(ProvisionPlan(group, w.serial, w.cloud), w.cloud.failing.Keys).raised
    ensures var launch := LaunchDevice(w.serial, w, false);
      && Attempt(ProvisionPlan(group, w.serial, w.cloud), w.cloud.failing.Keys).issued == ProvisionPlan(group, w.serial, w.cloud)
      && CreateDeviceRun(group, w, false) ==
           FactoryRun([CreateKeysAndCertificate, CreateThingGroup(group)] + ProvisionPlan(group, w.serial, w.cloud) + launch.requests,
                      launch.catalog, launch.outcome)
  {
    var plan := ProvisionPlan(group, w.serial, w.cloud);
    AttemptFacts(plan, w.cloud.failing.Keys);
    var launch := LaunchDevice(w.serial, w, false);
    assert ProvisionRun(group, w, false) == FactoryRun(plan + launch.requests, launch.catalog, launch.outcome);
    assert [CreateKeysAndCertificate, CreateThingGroup(group)] + (plan + launch.requests) ==
           [CreateKeysAndCertificate, CreateThingGroup(group)] + plan + launch.requests;
  }

  /** The rest of the corrected `create_device`, from the presigned URL on;
      `response` is the dict holding `dev_name`. */
  method Launch(response: Doc, w: World) returns (requests: seq<Request>, catalog: Catalog, outcome: OpOutcome)
    requires response == map["dev_name" := JStr(DevName(w.serial))]
    ensures FactoryRun(requests, catalog, outcome) == LaunchDevice(w.serial, w, false)
  {
    var cloud := w.cloud;
    var failing := cloud.failing.Keys;
    var dev := DevName(w.serial);
    catalog := w.catalog;
    var presign := PresignUrl(dev + ".cfg");
    requests := [presign];
    var url := JStr(cloud.presignedUrl);
    if presign in failing {
      if cloud.failing[presign].kind == OtherError {
        outcome := OpRaised(cloud.failing[presign]);
        return;
      }
      url := JNull;
      outcome := OpRaised(ParamValidation);
      return;
    }
    var task := RunTask(dev, url);
    requests := requests + [task];
    if task in failing {
      outcome := CreateFailure(cloud.failing[task], response, false);
      return;
    }
    if !CheckErrorResponse(cloud.runTaskResponse) {
      outcome := OpRaised(Error(OtherError, "Invalid response code / Error launching task"));
      return;
    }
    var put := PutCatalogItem(dev);
    requests := requests + [put];
    if put in failing {
      outcome := CreateFailure(cloud.failing[put], response, false);
      return;
    }
    catalog := PutItem(catalog, CatalogItem(dev, cloud, w.now));
    var created := response;
    created := created["endpoint" := JStr(cloud.endpoint)];
    created := created["task_arn" := JStr(cloud.taskArn)];
    created := created["cluster_arn" := JStr(cloud.clusterArn)];
    created := created["config_file_url" := url];
    created := created["result" := JStr("OK")];
    assert created == CreatedResponse(dev, cloud);
    outcome := OpReturned(GenerateResponse(JObj(created)));
  }

  // ---------------------------------------------------------------- describe / link

  /** `describe_device(device_id)`: the catalog lookup raises when the item is
      missing (KeyError) or the request fails; otherwise `{"dev-name": id}`. */
  function DescribeDevice(id: Json, w: World): (r: FactoryRun)
    ensures r.catalog == w.catalog && r.requests == [GetCatalogItem(id)]
    ensures r.outcome.OpReturned? <==> GetCatalogItem(id) !in w.cloud.failing && id in w.catalog
    ensures r.outcome.OpReturned? ==> r.outcome.response == GenerateResponse(JObj(map["dev-name" := id]))
  {
    var get := GetCatalogItem(id);
    var outcome :=
      if get in w.cloud.failing then OpRaised(w.cloud.failing[get])
      else match GetItem(w.catalog, id)
        case None => OpRaised(Error(OtherError, "KeyError: 'Item'"))
        case Some(_) => OpReturned(GenerateResponse(JObj(map["dev-name" := id])));
    FactoryRun([get], w.catalog, outcome)
  }

  /** `"{}-att-{}-Policy".format(source, target)`. */
  function LinkPolicyName(source: string, target: string): string {
    source + "-att-" + target + "-Policy"
  }

  /** The control policy: job and shadow actions on the target thing, and
      publishing on the target's shadow topics. */
  function ControlPolicy(target: string): (doc: Json) {
    JObj(map[
      "Version" := JStr("2012-10-17"),
      "Statement" := JArr([
        JObj(map[
          "Effect" := JStr("Allow"),
          "Action" := JArr([JStr("iot:GetPendingJobExecutions"), JStr("iot:GetThingShadow"),
                            JStr("iot:UpdateThingShadow"), JStr("iot:StartNextPendingJobExecution")]),
          "Resource" := JArr([JStr("arn:aws:iot:us-east-1:*:thing/" + target)])]),
        JObj(map[
          "Effect" := JStr("Allow"),
          "Action" := JArr([JStr("iot:Publish")]),
          "Resource" := JArr([JStr("arn:aws:iot:us-east-1:*:topic/$aws/things/" + target + "/shadow/*")])])])])
  }

  /** `link_devices(source, target)` for string ids: create the control policy,
      list the source's principals and attach the policy to the first one (an
      IndexError when it has none). Ids that are not strings are outside the
      model and shown as a raised parameter error. */
  function LinkDevices(source: Json, target: Json, w: World): (r: FactoryRun)
    ensures r.catalog == w.catalog
    ensures r.outcome.OpReturned? ==> source.JStr? && source.s in w.cloud.principals && w.cloud.principals[source.s] != []
    ensures source.JStr? && target.JStr? ==>
      var policy := LinkPolicyName(source.s, target.s);
      && 0 < |r.requests| && r.requests[0] == CreatePolicy(policy, ControlPolicy(target.s))
      && (r.outcome.OpReturned? ==>
            && r.requests == [CreatePolicy(policy, ControlPolicy(target.s)), ListThingPrincipals(source.s),
                              AttachPolicy(policy, w.cloud.principals[source.s][0])]
            && r.outcome.response == GenerateResponse(JObj(map[
                 "source-device-id" := source, "target-device-id" := target, "policy-name" := JStr(policy)])))
  {
    if !(source.JStr? && target.JStr?) then
      FactoryRun([], w.catalog, OpRaised(ParamValidation))
    else
      var policy := LinkPolicyName(source.s, target.s);
      var failing := w.cloud.failing;
      var run := Attempt([CreatePolicy(policy, ControlPolicy(target.s)), ListThingPrincipals(source.s)], failing.Keys);
      AttemptFacts([CreatePolicy(policy, ControlPolicy(target.s)), ListThingPrincipals(source.s)], failing.Keys);
      if run.raised then
        FactoryRun(run.issued, w.catalog, OpRaised(failing[run.issued[|run.issued| - 1]]))
      else
        var principals := if source.s in w.cloud.principals then w.cloud.principals[source.s] else [];
        if principals == [] then
          FactoryRun(run.issued, w.catalog, OpRaised(Error(OtherError, "IndexError: list index out of range")))
        else
          var attach := AttachPolicy(policy, principals[0]);
          if attach in failing then
            FactoryRun(run.issued + [attach], w.catalog, OpRaised(failing[attach]))
          else
            FactoryRun(run.issued + [attach], w.catalog, OpReturned(GenerateResponse(JObj(map[
              "source-device-id" := source, "target-device-id" := target, "policy-name" := JStr(policy)]))))
  }

  // ---------------------------------------------------------------- routing

  /** The operation and the body's fields after the handler's parsing. */
  datatype ParsedRequest = ParsedRequest(op: Json, fields: Doc)

  /** The handler's parsing. `parsed` is `json.loads(event["body"])`, None when
      the event has no body or it does not parse. `op` stays "" unless the
      body holds "operation"; a list or string body holding that word raises
      inside the `try` on subscription, which also leaves "". The fields only
      matter once an operation was found, and then the body is a dict. */
  function ParseRequest(parsed: Option<Json>): (r: ParsedRequest)
    ensures parsed.Some? && parsed.value.JObj? && "operation" in parsed.value.fields ==>
      r == ParsedRequest(parsed.value.fields["operation"], parsed.value.fields)
    ensures !(parsed.Some? && parsed.value.JObj? && "operation" in parsed.value.fields) ==>
      r.op == JStr("")
  {
    match parsed
    case None => ParsedRequest(JStr(""), map[])
    case Some(body) =>
      var fields := if body.JObj? then body.fields else map[];
      match In("operation", body)
      case Some(true) =>
        (match Index(body, "operation")
         case Some(op) => ParsedRequest(op, fields)
         case None => ParsedRequest(JStr(""), fields))
      case _ => ParsedRequest(JStr(""), fields)
  }

  /** What the handler decided to do. */
  datatype Operation =
    | Create(deviceType: Json)
    | Describe(deviceId: Json)
    | Delete(deviceId: Json)
    | Link(source: Json, target: Json)
    | MissingDeviceId
    | Unsupported(op: Json)

  const Operations: set<Json> :=
    {JStr("create-device"), JStr("describe-device"), JStr("delete-device"), JStr("link-devices")}

  /** The `if`/`elif` chain on `op`: the defaults are "generic" for the device
      type and "" for link ids; describe and delete need "device-id". */
  function Route(req: ParsedRequest): (o: Operation)
    ensures o.Unsupported? <==> req.op !in Operations
    ensures o.Unsupported? ==> o.op == req.op
    ensures o.MissingDeviceId? <==>
      (req.op == JStr("describe-device") || req.op == JStr("delete-device")) && "device-id" !in req.fields
    ensures o.Create? ==> req.op == JStr("create-device") && o.deviceType == Get(req.fields, "device-type", DefaultDeviceType)
    ensures o.Link? ==>
      && req.op == JStr("link-devices")
      && o.source == Get(req.fields, "source-device-id", JStr(""))
      && o.target == Get(req.fields, "target-device-id", JStr(""))
  {
    if req.op == JStr("create-device") then
      Create(Get(req.fields, "device-type", DefaultDeviceType))
    else if req.op == JStr("describe-device") then
      if "device-id" in req.fields then Describe(req.fields["device-id"]) else MissingDeviceId
    else if req.op == JStr("delete-device") then
      if "device-id" in req.fields then Delete(req.fields["device-id"]) else MissingDeviceId
    else if req.op == JStr("link-devices") then
      Link(Get(req.fields, "source-device-id", JStr("")), Get(req.fields, "target-device-id", JStr("")))
    else
      Unsupported(req.op)
  }

  /** Runs the chosen operation inside the handler's `try`. */
  function Dispatch(o: Operation, w: World, asWritten: bool): (r: FactoryRun)
    ensures !o.Create? ==> r.catalog == w.catalog
    ensures o.MissingDeviceId? ==> r == FactoryRun([], w.catalog, OpReturned(GenerateErrorResponse(JStr(DeviceIdNotFound))))
    ensures o.Unsupported? ==> r == FactoryRun([], w.catalog, OpReturned(GenerateErrorResponse(o.op)))
  {
    match o
    case Create(deviceType) => CreateDeviceRun(deviceType, w, asWritten)
    case Describe(id) => DescribeDevice(id, w)
    case Delete(_) => FactoryRun([], w.catalog, w.deleteOutcome)
    case Link(source, target) => LinkDevices(source, target, w)
    case MissingDeviceId => FactoryRun([], w.catalog, OpReturned(GenerateErrorResponse(JStr(DeviceIdNotFound))))
    case Unsupported(op) => FactoryRun([], w.catalog, OpReturned(GenerateErrorResponse(op)))
  }

  /** How an invocation ends: the Lambda returns a response or raises. */
  datatype HandlerResult = Returned(response: Response) | Raised(error: Error)

  /** The handler's `except Exception as e: response = generate_error_response(e)`.
      As written, `json.dumps` cannot encode the exception and raises again. */
  function Respond(outcome: OpOutcome, asWritten: bool): (r: HandlerResult)
    ensures outcome.OpReturned? ==> r == Returned(outcome.response)
    ensures outcome.OpRaised? && asWritten ==> r.Raised?
    ensures outcome.OpRaised? && !asWritten ==>
      r == Returned(GenerateErrorResponse(JStr(outcome.error.message)))
  {
    match outcome
    case OpReturned(response) => Returned(response)
    case OpRaised(e) => if asWritten then Raised(NotSerializable) else Returned(GenerateErrorResponse(JStr(e.message)))
  }

  /** The requests, the catalog afterwards and the Lambda's result. */
  datatype HandlerRun = HandlerRun(requests: seq<Request>, catalog: Catalog, result: HandlerResult)

  /** `lambda_handler(event, context)`, as written or corrected. */
  function Handler(parsed: Option<Json>, w: World, asWritten: bool): (r: HandlerRun)
    ensures !asWritten ==> r.result.Returned?
    ensures var o := Route(ParseRequest(parsed));
      && (o.Unsupported? ==> r == HandlerRun([], w.catalog, Returned(GenerateErrorResponse(o.op))))
      && (o.MissingDeviceId? ==> r == HandlerRun([], w.catalog, Returned(GenerateErrorResponse(JStr(DeviceIdNotFound)))))
  {
    var run := Dispatch(Route(ParseRequest(parsed)), w, asWritten);
    HandlerRun(run.requests, run.catalog, Respond(run.outcome, asWritten))
  }

  /** The corrected handler, written as the source is: `op`, `body` and
      `response` are reassigned along the branches. */
  method LambdaHandler(parsed: Option<Json>, w: World) returns (requests: seq<Request>, catalog: Catalog, response: Response)
    ensures HandlerRun(requests, catalog, Returned(response)) == Handler(parsed, w, false)
  {
    var op := JStr("");
    var body: Doc := map[];
    if parsed.Some? {
      if parsed.value.JObj? {
        body := parsed.value.fields;
      }
      if In("operation", parsed.value) == Some(true) && Index(parsed.value, "operation").Some? {
        op := Index(parsed.value, "operation").value;
      }
    }
    assert ParseRequest(parsed) == ParsedRequest(op, body);
    ghost var o := Route(ParsedRequest(op, body));
    requests := [];
    catalog := w.catalog;
    var outcome: OpOutcome;
    if op == JStr("create-device") {
      var deviceType := DefaultDeviceType;
      if "device-type" in body {
        deviceType := body["device-type"];
      }
      assert o == Create(deviceType);
      requests, catalog, outcome := CreateDevice(deviceType, w);
    } else if op == JStr("describe-device") {
      if "device-id" in body {
        var run := DescribeDevice(body["device-id"], w);
        requests, outcome := run.requests, run.outcome;
      } else {
        outcome := OpReturned(GenerateErrorResponse(JStr(DeviceIdNotFound)));
      }
    } else if op == JStr("delete-device") {
      if "device-id" in body {
        outcome := w.deleteOutcome;
      } else {
        outcome := OpReturned(GenerateErrorResponse(JStr(DeviceIdNotFound)));
      }
    } else if op == JStr("link-devices") {
      var source := JStr("");
      var target := JStr("");
      if "source-device-id" in body {
        source := body["source-device-id"];
      }
      if "target-device-id" in body {
        target := body["target-device-id"];
      }
      assert o == Link(source, target);
      var run := LinkDevices(source, target, w);
      requests, outcome := run.requests, run.outcome;
    } else {
      outcome := OpReturned(GenerateErrorResponse(op));
    }
    assert FactoryRun(requests, catalog, outcome) == Dispatch(o, w, false);
    match outcome {
      case OpReturned(r) => response := r;
      case OpRaised(e) => response := GenerateErrorResponse(JStr(e.message));
    }
  }

  // ---------------------------------------------------------------- properties

  /** Without a body, with a body that does not parse or without "operation",
      the handler answers 500 with the empty operation and calls no service. */
  lemma {:induction false} NoOperationIsAnError(parsed: Option<Json>, w: World, asWritten: bool)
    requires !(parsed.Some? && parsed.value.JObj? && "operation" in parsed.value.fields)
    ensures Handler(parsed, w, asWritten) == HandlerRun([], w.catalog, Returned(GenerateErrorResponse(JStr(""))))
  {
    assert Route(ParseRequest(parsed)) == Unsupported(JStr(""));
  }

  /** A create-device request runs `create_device` on the requested device type. */
  lemma {:induction false} HandlerCreates(fields: Doc, w: World, asWritten: bool)
    requires "operation" in fields && fields["operation"] == JStr("create-device")
    ensures var run := CreateDeviceRun(Get(fields, "device-type", DefaultDeviceType), w, asWritten);
      Handler(Some(JObj(fields)), w, asWritten) == HandlerRun(run.requests, run.catalog, Respond(run.outcome, asWritten))
  {
    assert Route(ParseRequest(Some(JObj(fields)))) == Create(Get(fields, "device-type", DefaultDeviceType));
  }

  /** create-device passes "device-type" as the thing group, "generic" by default. */
  lemma {:induction false} CreateUsesDeviceType(fields: Doc, w: World, asWritten: bool)
    requires "operation" in fields && fields["operation"] == JStr("create-device")
    ensures var r := Handler(Some(JObj(fields)), w, asWritten);
      1 < |r.requests| ==> r.requests[1] == CreateThingGroup(Get(fields, "device-type", JStr("generic")))
  {
    HandlerCreates(fields, w, asWritten);
  }

  /** link-devices with missing ids uses "" for them, so the policy is named
      "-att--Policy" when both are missing. */
  lemma {:induction false} LinkDefaultsToEmptyIds(fields: Doc, w: World, asWritten: bool)
    requires "operation" in fields && fields["operation"] == JStr("link-devices")
    requires "source-device-id" !in fields && "target-device-id" !in fields
    ensures Handler(Some(JObj(fields)), w, asWritten).requests[0] == CreatePolicy("-att--Policy", ControlPolicy(""))
  {
    assert Route(ParseRequest(Some(JObj(fields)))) == Link(JStr(""), JStr(""));
    assert LinkPolicyName("", "") == "-att--Policy";
  }

  /** A device the corrected handler created is in the catalog with status
      PROV, and can be described afterwards unless the lookup itself fails. */
  lemma {:induction false} CreatedDeviceCanBeDescribed(parsed: Option<Json>, w: World)
    requires Route(ParseRequest(parsed)).Create?
    requires var r := Handler(parsed, w, false); r.result.Returned? && r.result.response.statusCode == 200
    ensures var r := Handler(parsed, w, false);
      var dev := JStr(DevName(w.serial));
      && r.catalog == PutItem(w.catalog, CatalogItem(DevName(w.serial), w.cloud, w.now))
      && dev in r.catalog && r.catalog[dev]["Status"] == JStr(Provisioned)
      && (DescribeDevice(dev, w.(catalog := r.catalog)).outcome.OpReturned? <==> GetCatalogItem(dev) !in w.cloud.failing)
  {
    var o := Route(ParseRequest(parsed));
    var run := CreateDeviceRun(o.deviceType, w, false);
    assert Handler(parsed, w, false) == HandlerRun(run.requests, run.catalog, Respond(run.outcome, false));
    assert Succeeded(run.outcome);
    CreateDeviceRequests(o.deviceType, w, false);
  }

  // ---------------------------------------------------------------- as written

  /** As written, an exception escaping an operation does not become a 500:
      the handler raises instead, here for a rejected certificate request. */
  lemma {:induction false} ErrorResponseRaisesAsWritten(fields: Doc, w: World)
    requires "operation" in fields && fields["operation"] == JStr("create-device")
    requires CreateKeysAndCertificate in w.cloud.failing
    requires w.cloud.failing[CreateKeysAndCertificate].kind == ClientError
    ensures Handler(Some(JObj(fields)), w, true).result.Raised?
    ensures var r := Handler(Some(JObj(fields)), w, false);
      && r.result.Returned? && r.result.response.statusCode == 500
      && r.result.response.body.fields["error-message"] == JObj(map[
           "result" := JStr("ERROR"),
           "error-msg" := JStr(w.cloud.failing[CreateKeysAndCertificate].message)])
  {
    HandlerCreates(fields, w, true);
    HandlerCreates(fields, w, false);
  }

  /** As written, a failure creating the thing group aborts `create_device`
      and the handler raises; corrected, the failure is absorbed and the
      device is created when nothing else fails. */
  lemma {:induction false} GroupFailureAbortsAsWritten(fields: Doc, w: World)
    requires "operation" in fields && fields["operation"] == JStr("create-device")
    requires var group := Get(fields, "device-type", DefaultDeviceType);
      w.cloud.failing.Keys == {CreateThingGroup(group)}
    requires CheckErrorResponse(w.cloud.runTaskResponse)
    ensures Handler(Some(JObj(fields)), w, true).result.Raised?
    ensures var r := Handler(Some(JObj(fields)), w, false);
      r.result.Returned? && r.result.response.statusCode == 200
  {
    HandlerCreates(fields, w, true);
    HandlerCreates(fields, w, false);
    GroupFailureAbsorbed(Get(fields, "device-type", DefaultDeviceType), w);
  }

  /** When only the thing group cannot be created, the corrected
      `create_device` still succeeds. */
  lemma {:induction false} GroupFailureAbsorbed(group: Json, w: World)
    requires w.cloud.failing.Keys == {CreateThingGroup(group)}
    requires CheckErrorResponse(w.cloud.runTaskResponse)
    ensures Succeeded(CreateDeviceRun(group, w, false).outcome)
  {
    forall q | q in ProvisionPlan(group, w.serial, w.cloud)
      ensures q !in w.cloud.failing
    {
      assert q !in w.cloud.failing.Keys;
    }
    CreateDeviceSucceeds(group, w, false);
  }
}
