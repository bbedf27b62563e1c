# AWS IoT playground — a verified Dafny model

This project models the working parts of the AWS IoT playground, which has six
programs:

- **Virtual device** (`VirtualDevice`, `DeviceJobs`, `ConnectRetry`,
  `LogBuffer`). A simulated IoT thing that publishes telemetry and keeps its
  shadow. It runs jobs that change its unit, update its firmware or rotate
  its certificate, and answers commands. On a forced reconnect it reconnects
  with a bounded retry, and it keeps its recent log lines in a fixed-size
  ring buffer. A switch variant publishes a desired on/off state to a target
  device.
- **Device-factory Lambda** (`DeviceFactory`, `DeviceCatalog`,
  `LambdaResponses`). Behind API Gateway, it:
  - creates a device: certificate, thing, policy, group, shadow,
    configuration file, container and catalog item;
  - describes a device from the DynamoDB catalog;
  - links two devices through a control policy.
- **Device-command Lambda** (`DeviceCommand`). A device container that reports
  in is marked RUNNING, with its IP address, in the catalog.
- **Device Defender findings processor** (`PolicyRemediation`). When an audit
  finds an overly permissive IoT policy whose name has the configured prefix,
  it installs a restrictive default version. To stay within the five-version
  limit it deletes the offending version or an older one.
- **Device Defender alerts processor** (`AlertsProcessor`). It moves the
  violating thing into the Quarantine group and sets `quarantine` in the
  thing's desired shadow state.
- **Clean-up script** (`CleanUp`). It deletes:
  - IAM roles with their policies;
  - orphan IoT policies and certificates;
  - "dev-" things (other than "dev-DDQA" ones) with their policies and
    certificates.

How the model represents the programs:

- **Services.** AWS services are an abstract account plus the set of
  requests that raise. A `try` block becomes a plan of requests that stops at
  the first request that raises (`Services.Attempt`). Every operation yields
  the requests it issued, in order, so contracts can speak about the order of
  deletions and what is left untouched.
- **Device state.** The virtual device is a class whose methods update its
  fields. Everything the device asks of the MQTT client is appended to a
  `trace` field.
- **Payloads.** A payload is a parsed JSON value (`Json.Json`). Python's `in`,
  subscription and truthiness are modelled with their TypeError and KeyError
  cases.
- **Deviations.** Where the code deviates from what it evidently intends, the
  as-written behaviour is modelled beside the corrected one (see Findings).

`DeviceLifecycle` ties two programs together: the clean-up script removes
exactly the devices the factory creates, except those whose serial is "DDQA".

## Model

| member | source | states |
|---|---|---|
| LogBuffer.MaxSizeList.constructor | virtual-device/virtual_device.py:627-629 | a fresh buffer of `size_limit` slots with nothing pushed |
| LogBuffer.MaxSizeList.Push | virtual-device/virtual_device.py:632-634 | the item is written at `next % len` and the pushed history grows by exactly that item, keeping the ring invariant |
| LogBuffer.MaxSizeList.GetList | virtual-device/virtual_device.py:637-642 | the list returned is the last `min(next, size)` pushed items, oldest first (the two branches of `get_list` agree with one window function) |
| LogBuffer.Window | virtual-device/virtual_device.py:637-642 | the window holds the smaller of n and the number pushed and they are the newest ones in order |
| LogBuffer.WindowPush | virtual-device/virtual_device.py:632-642 | pushing onto a full window drops the oldest item and appends the new one; below capacity it only appends |
| LogBuffer.OverwriteOldest | virtual-device/virtual_device.py:626-642 | with two slots, three pushes leave exactly the last two items |
| ConnectRetry.Connect | virtual-device/virtual_device.py:385-416 | the loop of `connect` (one attempt with timeout, then up to eleven counted retries while not connected) computes the specification `ConnectSpec` |
| ConnectRetry.ReturnedStep | virtual-device/virtual_device.py:398-403 | only attempts that return increase `connect_count` |
| ConnectRetry.RetryOutcome | virtual-device/virtual_device.py:398-416 | the retry loop ends at the first attempt that returns a truthy result, or when the count passes 10, and reports that last result |
| ConnectRetry.ConnectedIffLastAttemptSucceeded | virtual-device/virtual_device.py:408-416 | `connect` reports connected exactly when the last attempt it made returned a truthy result |
| ConnectRetry.RetriesAreBounded | virtual-device/virtual_device.py:398 | at most eleven retries return, and a device that ends unconnected used exactly eleven |
| ConnectRetry.RetryEnds | virtual-device/virtual_device.py:398-406 | the retry loop ends once enough attempts return |
| ConnectRetry.ConnectEnds | virtual-device/virtual_device.py:385-416 | `connect` ends whenever more than ten retry attempts return |
| DeviceJobs.StartNextRequest | virtual-device/virtual_device.py:114-119 | the start-next request marks the job IN_PROGRESS with a one-minute step timeout |
| DeviceJobs.GenerateJobStartResponseDoc | virtual-device/virtual_device.py:127-139 | the job update is SUCCEEDED exactly when the action's result is truthy, FAILED otherwise, and carries the version and timeout given |
| DeviceJobs.ClassifyAction | virtual-device/virtual_device.py:161-172 | an action is rotate-cert, change-unit or update-firmware exactly when its lower-cased text is that name; anything else is unknown |
| DeviceJobs.ClassifyIgnoresCase | virtual-device/virtual_device.py:161-167 | actions that differ only in letter case are classified alike |
| DeviceJobs.ParseStartNext | virtual-device/virtual_device.py:151-153 | the job id, document and version are read exactly when `payload["execution"]` holds all three |
| DeviceJobs.ActionOf | virtual-device/virtual_device.py:158-172 | the branch taken for a job document with a string `action`; none when the lookup raises or `response` is left unbound |
| VirtualDevice.RenameAllOk | virtual-device/virtual_device.py:451-462 | `backup_files` completes exactly when every file it renames exists |
| VirtualDevice.RenameAllMoved | virtual-device/virtual_device.py:451-462 | after a complete backup each file is gone and its ".bkp" copy holds its old content |
| VirtualDevice.RenameAllUntouched | virtual-device/virtual_device.py:451-462 | files other than the renamed ones and their backups are unchanged |
| VirtualDevice.WriteAllOk | virtual-device/virtual_device.py:465-493 | `prepare_files` completes exactly when the configuration is a dict holding every key |
| VirtualDevice.WriteAllWritten | virtual-device/virtual_device.py:465-493 | after a complete write each credential file holds its configuration value |
| VirtualDevice.WriteAllUntouched | virtual-device/virtual_device.py:465-493 | files other than the five written are unchanged |
| VirtualDevice.CredentialPathsRenamable | virtual-device/virtual_device.py:454-458 | the five credential paths are distinct and no backup name collides with a credential path |
| VirtualDevice.InstallBundleOk | virtual-device/virtual_device.py:368-373 | the files part of a certificate rotation succeeds exactly when all five files exist and the bundle has all five keys |
| VirtualDevice.InstallBundleContents | virtual-device/virtual_device.py:368-373 | after a rotation each credential file holds the bundle's value and its backup the previous content |
| VirtualDevice.ActionDownloads | virtual-device/virtual_device.py:331-338 | a job downloads at most one URL, and only when its document names the URL for its action |
| VirtualDevice.Device.constructor | virtual-device/virtual_device.py:34-63 | a new device has the class defaults: 60 s sampling delay, metric unit, empty shadow, clean disconnect, no last will |
| VirtualDevice.Device.SetSamplingDelay | virtual-device/virtual_device.py:82-88 | sets the delay and makes the next sample due now |
| VirtualDevice.Device.ForceReconnect | virtual-device/virtual_device.py:91-92 | raises the reconnect flag |
| VirtualDevice.Device.SetCleanDisconnect | virtual-device/virtual_device.py:95-96 | sets the clean-disconnect flag |
| VirtualDevice.Device.Stop | virtual-device/virtual_device.py:184-186 | raises the stop flag |
| VirtualDevice.Device.RegisterLastWill | virtual-device/virtual_device.py:581-587 | stores the last-will topic and message and returns "" |
| VirtualDevice.Device.GetShadow | virtual-device/virtual_device.py:99-103 | publishes an empty message to the thing's shadow/get topic and returns the stored shadow |
| VirtualDevice.Device.GetJobs | virtual-device/virtual_device.py:106-108 | publishes an empty message to the thing's jobs/get topic |
| VirtualDevice.Device.StartNextQueuedJob | virtual-device/virtual_device.py:111-124 | publishes the start-next request to the device's own start-next topic |
| VirtualDevice.Device.HandleJobsGetCallback | virtual-device/virtual_device.py:278-298 | the next job is started exactly when `queuedJobs` is truthy; a payload that is not a dict raises |
| VirtualDevice.Device.HandleJobsNotifyNextCallback | virtual-device/virtual_device.py:301-313 | the next job is started exactly when the payload holds `execution`; `in` on a number, boolean or null raises |
| VirtualDevice.Device.ChangeUnit | virtual-device/virtual_device.py:189-198 | the unit becomes the document's `unit` when present and is kept otherwise |
| VirtualDevice.Device.UpdateFirmware | virtual-device/virtual_device.py:325-353 | succeeds exactly when the document names a firmware URL and its download succeeds |
| VirtualDevice.Device.RotateCertificate | virtual-device/virtual_device.py:356-382 | succeeds exactly when the URL is named, downloads, and the backup and rewrite complete; then the files hold the new bundle and a reconnect is forced |
| VirtualDevice.Device.HandleJobsStartNextCallback | virtual-device/virtual_device.py:142-181 | runs the action named by the job document and publishes SUCCEEDED/FAILED for the job on its update topic; raises when the execution or action lookups do; for rotate-cert the files are backed up and rewritten exactly when the URL is named and the download worked, and are otherwise untouched |
| VirtualDevice.Device.HandleShadowUpdateCallback | virtual-device/virtual_device.py:201-218 | stores the payload as the shadow and in the shadow file; raises only where the logging lookups (`in` and the subscriptions) raise |
| VirtualDevice.DesiredLookupOnState | virtual-device/virtual_device.py:210-212 | the logging lookups succeed when `state` is an object; a `state` list or string containing "desired" passes the `in` test and then raises on the subscription |
| VirtualDevice.Device.HandleShadowGetCallback | virtual-device/virtual_device.py:252-275 | a rejected answer changes nothing; an accepted one is stored like a shadow update |
| VirtualDevice.Device.HandleCmdReplyCallback | virtual-device/virtual_device.py:221-245 | a command with `type` is answered on its response topic with its session id and status OK; other payloads publish nothing |
| VirtualDevice.CmdReply | virtual-device/virtual_device.py:236-239 | the reply holds exactly the session id and status OK |
| VirtualDevice.Device.Begin | virtual-device/virtual_device.py:537-549 | asks for pending jobs, then for the shadow, and makes the first sample due now |
| VirtualDevice.Device.Tick | virtual-device/virtual_device.py:551-578 | one loop iteration: publishes telemetry when due and schedules the next sample; on stop disconnects if clean and ends the loop; on a forced reconnect reconfigures, reconnects and clears the flag |
| VirtualDevice.VirtualSwitch.constructor | virtual-device/virtual_device.py:590-595 | a switch targets "dev-NANN" by default |
| VirtualDevice.VirtualSwitch.SetTargetDevice | virtual-device/virtual_device.py:598-599 | sets the target device |
| VirtualDevice.VirtualSwitch.Press | virtual-device/virtual_device.py:602-615 | publishes the desired on/off status to the target's shadow/update topic |
| LambdaResponses.GenerateResponse | lambdas/device_factory_lambda/lambda_function.py:433-437 | a success response is status 200 with the parameters as body |
| LambdaResponses.GenerateErrorResponse | lambdas/device_command_lambda/lambda_function.py:94-100 | an error response is status 500 whose body holds the operand under "error-message" alone |
| LambdaResponses.ResponsesAreDistinguishable | lambdas/device_factory_lambda/lambda_function.py:433-446 | a success response never equals an error response, and error responses are equal exactly when their operands are |
| LambdaResponses.HttpCode | lambdas/device_factory_lambda/lambda_function.py:154-158 | a response without ResponseMetadata counts as code 0 |
| LambdaResponses.CheckReadsHttpCode | lambdas/device_command_lambda/lambda_function.py:76-84 | the check passes exactly when the `http_code` read from the response's metadata is 200, i.e. when the metadata holds HTTPStatusCode 200 |
| LambdaResponses.MissingMetadataRaises | lambdas/device_factory_lambda/lambda_function.py:154-162 | missing metadata or status code makes the check raise |
| DeviceCatalog.PutItem | lambdas/device_factory_lambda/lambda_function.py:65-78 | `put_item` stores the item under its id, replacing any previous item and leaving the others |
| DeviceCatalog.GetItem | lambdas/device_factory_lambda/lambda_function.py:100-107 | `get_item(...)["Item"]` answers exactly for a stored id, with that item |
| DeviceCatalog.SetAttributes | lambdas/device_command_lambda/lambda_function.py:56-74 | `update_item` with SET creates the item if missing, overwrites the named attributes and keeps the others and every other item |
| DeviceCatalog.WritesKeepKeys | lambdas/device_factory_lambda/lambda_function.py:65-97 | both kinds of write keep every item stored under its own id |
| DeviceCommand.LambdaHandler | lambdas/device_command_lambda/lambda_function.py:103-112 | the device named by `event["device"]` becomes RUNNING with the event's ip and "OK" is returned; a rejected update raises and changes nothing |
| DeviceCommand.HandlerKeepsItems | lambdas/device_command_lambda/lambda_function.py:56-74 | the handler keeps the catalog keyed and keeps the stored attributes other than Status and ip |
| AlertsProcessor.GetThingName | lambdas/ddd_alerts_processor_lambda/lambda_function.py:45-51 | the thing name is `msg["thingName"]` when present and "" otherwise; a non-container message raises |
| AlertsProcessor.SampleThingName | tests/test-ddd.py:15-19 | the test's sample message yields "dev-IZWB" |
| AlertsProcessor.QuarantineRequests | lambdas/ddd_alerts_processor_lambda/lambda_function.py:92-107 | the thing is moved from DEFAULT to Quarantine, then `quarantine` is set in its desired shadow |
| AlertsProcessor.LambdaHandler | lambdas/ddd_alerts_processor_lambda/lambda_function.py:81-109 | the group is created first, then the quarantine requests up to the first that raises; "OK" exactly when none raised |
| AlertsProcessor.GroupCreationFailureIsSwallowed | lambdas/ddd_alerts_processor_lambda/lambda_function.py:54-78 | whether creating the Quarantine group fails does not change the handler's requests or result |
| AlertsProcessor.QuarantineWhenServiceSucceeds | lambdas/ddd_alerts_processor_lambda/lambda_function.py:88-109 | with no failures the handler issues exactly the three requests for the named thing and returns "OK" |
| DeviceFactory.CreateRandomName | lambdas/device_factory_lambda/lambda_function.py:61-62 | a random name has the requested length and only upper-case ASCII letters |
| DeviceFactory.RandomNamesFollowDraws | lambdas/device_factory_lambda/lambda_function.py:61-62 | two names are equal exactly when their letter draws are |
| DeviceFactory.DevName | lambdas/device_factory_lambda/lambda_function.py:224-225 | a device name is "dev-" followed by the serial |
| DeviceFactory.DeviceNameShape | lambdas/device_factory_lambda/lambda_function.py:224-225 | a created device's name is "dev-" and four upper-case letters |
| DeviceFactory.ProvisionPlan | lambdas/device_factory_lambda/lambda_function.py:251-304 | after the group, the thing, its policy, the principal and policy attachments, the group membership, the shadow and the endpoint are requested in this order |
| DeviceFactory.CatalogItem | lambdas/device_factory_lambda/lambda_function.py:65-76 | the catalog item is keyed by the device name with status PROV |
| DeviceFactory.CreateFailure | lambdas/device_factory_lambda/lambda_function.py:315-322 | a non-ClientError escapes; a ClientError gives a 500 whose document is the partial response with result ERROR (as written: raises) |
| DeviceFactory.LaunchDevice | lambdas/device_factory_lambda/lambda_function.py:305-313 | presign, run task and catalog write happen in order; the catalog changes exactly when creation succeeds, and then holds the device item |
| DeviceFactory.PresignFailure | lambdas/device_factory_lambda/lambda_function.py:110-128 | a failed presign always escapes as a non-ClientError: the exception itself, or the parameter error `run_task` raises on a `None` URL |
| DeviceFactory.PresignFailureEscapes | lambdas/device_factory_lambda/lambda_function.py:180-190 | when presigning fails, no task is started, the catalog is unchanged and the exception escapes `create_device`'s `except ClientError` |
| DeviceFactory.CreateDeviceRun | lambdas/device_factory_lambda/lambda_function.py:209-324 | `create_device` first creates the keys and certificate, then the group |
| DeviceFactory.CreateDeviceRequests | lambdas/device_factory_lambda/lambda_function.py:209-324 | the requests are a prefix of the full plan; on success they are all of it, the device is in the catalog and the response reports endpoint, ARNs and URL |
| DeviceFactory.CreateDeviceSucceeds | lambdas/device_factory_lambda/lambda_function.py:240-313 | creation succeeds exactly when no unguarded request raises, presigning succeeds, and the ECS response passes the check |
| DeviceFactory.LaunchSucceeds | lambdas/device_factory_lambda/lambda_function.py:180-190 | the launch succeeds exactly when presigning succeeds and the task and catalog write go through |
| DeviceFactory.CreateDeviceClientError | lambdas/device_factory_lambda/lambda_function.py:315-322 | the corrected ClientError response has result ERROR and holds `dev_name` exactly when the certificate was created |
| DeviceFactory.CreateDevice | lambdas/device_factory_lambda/lambda_function.py:209-324 | the step-by-step `create_device` (corrected) computes `CreateDeviceRun` |
| DeviceFactory.Launch | lambdas/device_factory_lambda/lambda_function.py:305-313 | the step-by-step launch with the response dict filled in computes `LaunchDevice` |
| DeviceFactory.DescribeDevice | lambdas/device_factory_lambda/lambda_function.py:367-374 | `describe_device` returns the id exactly when the catalog holds it and the lookup does not fail; it changes nothing |
| DeviceFactory.LinkDevices | lambdas/device_factory_lambda/lambda_function.py:377-430 | creates the control policy, then attaches it to the source's first principal; succeeds only when that principal exists |
| DeviceFactory.ParseRequest | lambdas/device_factory_lambda/lambda_function.py:455-464 | `op` is the body's "operation" when the body parses to a dict holding it, "" otherwise |
| DeviceFactory.Route | lambdas/device_factory_lambda/lambda_function.py:466-506 | each known operation reads its fields with the source's defaults; unknown operations are echoed |
| DeviceFactory.Dispatch | lambdas/device_factory_lambda/lambda_function.py:466-506 | only create-device changes the catalog; a missing device id and an unknown operation give error responses without requests |
| DeviceFactory.Respond | lambdas/device_factory_lambda/lambda_function.py:507-510 | an escaping exception becomes a 500 in the corrected code and raises as written |
| DeviceFactory.Handler | lambdas/device_factory_lambda/lambda_function.py:449-514 | the corrected handler always returns a response; an unknown operation or a missing device id is answered with an error response and no request |
| DeviceFactory.LambdaHandler | lambdas/device_factory_lambda/lambda_function.py:449-514 | the step-by-step corrected handler computes `Handler` |
| DeviceFactory.NoOperationIsAnError | lambdas/device_factory_lambda/lambda_function.py:455-506 | without a parsable "operation" the handler answers a 500 with an empty operation and issues nothing |
| DeviceFactory.CreateUsesDeviceType | lambdas/device_factory_lambda/lambda_function.py:467-477 | create-device uses "device-type" as the thing group, "generic" by default |
| DeviceFactory.LinkDefaultsToEmptyIds | lambdas/device_factory_lambda/lambda_function.py:494-504 | link-devices without ids names the policy "-att--Policy" |
| DeviceFactory.CreatedDeviceCanBeDescribed | lambdas/device_factory_lambda/lambda_function.py:307-374 | a device the corrected handler created is in the catalog with status PROV, and describe-device then finds it unless the lookup request fails |
| DeviceFactory.ErrorResponseRaisesAsWritten | lambdas/device_factory_lambda/lambda_function.py:507-510 | as written, an exception from an operation makes the handler raise; corrected, it returns a 500 |
| DeviceFactory.GroupFailureAbortsAsWritten | lambdas/device_factory_lambda/lambda_function.py:240-249 | as written, a failing group creation aborts the handler; corrected, the device is still created |
| PolicyRemediation.LastIndex | lambdas/dda_findings_processor_lambda/lambda_function.py:68-72 | the index of the last version with the given default flag, nothing after it has that flag |
| PolicyRemediation.GetPolicyInfo | lambdas/dda_findings_processor_lambda/lambda_function.py:58-79 | the count of versions, whether the reported one is among them, and the last default and last non-default ids ("0" if none) |
| PolicyRemediation.Demote | lambdas/dda_findings_processor_lambda/lambda_function.py:107-111 | creating a default version clears every other version's default flag |
| PolicyRemediation.RemoveKeeps | lambdas/dda_findings_processor_lambda/lambda_function.py:117-120 | deleting a version keeps exactly the versions with other ids |
| PolicyRemediation.CreatedStore | lambdas/dda_findings_processor_lambda/lambda_function.py:107-111 | a created version becomes the only default, with distinct ids and one more version |
| PolicyRemediation.DeletedStore | lambdas/dda_findings_processor_lambda/lambda_function.py:117-137 | deleting an existing non-default version succeeds and removes exactly it |
| PolicyRemediation.DefaultIsLastDefault | lambdas/dda_findings_processor_lambda/lambda_function.py:68-72 | in a well-formed store the reported default is the version marked default |
| PolicyRemediation.FullStoreHasOlder | lambdas/dda_findings_processor_lambda/lambda_function.py:122-130 | a full store has a non-default version to delete |
| PolicyRemediation.Remediate | lambdas/dda_findings_processor_lambda/lambda_function.py:90-154 | the store changes, or the fix completes, only when the reported version exists |
| PolicyRemediation.RemediateWithRoom | lambdas/dda_findings_processor_lambda/lambda_function.py:103-120 | with room, a new default is created and the offending version deleted; the ids left are the old ones with the reported one replaced by the new one, and the store stays well-formed |
| PolicyRemediation.RemediateFull | lambdas/dda_findings_processor_lambda/lambda_function.py:122-146 | at five versions, the offending version (or, if it is the default, `older_version`, the last non-default one listed) is deleted first, then the new default created; exactly that id is replaced by the new one |
| PolicyRemediation.RemediateFound | lambdas/dda_findings_processor_lambda/lambda_function.py:95-154 | for a well-formed store holding the reported version the fix always completes, keeps the number of versions and the store well-formed, and makes the new version the only default; the reported version is gone unless the store was full and it was the default; the ids left are the old ones minus the deleted version, plus the new one |
| PolicyRemediation.PolicyStore.constructor | lambdas/dda_findings_processor_lambda/lambda_function.py:59-61 | the store holds the given versions |
| PolicyRemediation.PolicyStore.ListPolicyVersions | lambdas/dda_findings_processor_lambda/lambda_function.py:59-61 | lists the stored versions |
| PolicyRemediation.PolicyStore.CreatePolicyVersion | lambdas/dda_findings_processor_lambda/lambda_function.py:107-111 | creation succeeds exactly when the service accepts it, and then changes the store accordingly |
| PolicyRemediation.PolicyStore.DeletePolicyVersion | lambdas/dda_findings_processor_lambda/lambda_function.py:117-120 | deletion succeeds exactly when the version exists and is not the default |
| PolicyRemediation.FixOverlyPermissivePolicy | lambdas/dda_findings_processor_lambda/lambda_function.py:90-154 | the imperative fix changes the store and reports mitigation as `Remediate` specifies |
| PolicyRemediation.ProcessFinding | lambdas/dda_findings_processor_lambda/lambda_function.py:157-168 | a fix is requested exactly for an IOT_POLICY finding whose policy name has the prefix, with its name and version |
| PolicyRemediation.ProcessFindings | lambdas/dda_findings_processor_lambda/lambda_function.py:176-177 | every fix requested names a policy with the prefix, at most one per finding |
| PolicyRemediation.ProcessFindingsAppend | lambdas/dda_findings_processor_lambda/lambda_function.py:176-183 | processing two stretches of findings is processing the first and, unless it raised, the second |
| PolicyRemediation.ProcessFindingsSnoc | lambdas/dda_findings_processor_lambda/lambda_function.py:176-177 | one more finding adds its own fix request |
| PolicyRemediation.HandleOverlyPermissivePolicy | lambdas/dda_findings_processor_lambda/lambda_function.py:171-183 | the pages of findings are processed in order as one run over all findings |
| PolicyRemediation.PagesAfterRaise | lambdas/dda_findings_processor_lambda/lambda_function.py:176-183 | a finding that raises ends the whole run: later pages are not processed |
| PolicyRemediation.FlattenRest | lambdas/dda_findings_processor_lambda/lambda_function.py:176-183 | the findings split at a page are the earlier pages, that page and the later ones |
| PolicyRemediation.FlattenAppend | lambdas/dda_findings_processor_lambda/lambda_function.py:176-183 | the findings of two runs of pages are joined in order |
| PolicyRemediation.AuditFor | lambdas/dda_findings_processor_lambda/lambda_function.py:212-221 | compliant audits are skipped, the overly permissive check is handled, other issues are logged |
| PolicyRemediation.AuditSteps | lambdas/dda_findings_processor_lambda/lambda_function.py:212-221 | the loop raises exactly when some audit raises; all-compliant audits take no step |
| PolicyRemediation.AuditStepsSnoc | lambdas/dda_findings_processor_lambda/lambda_function.py:212-221 | one more audit adds its own step |
| PolicyRemediation.AuditStepsPrefixRaised | lambdas/dda_findings_processor_lambda/lambda_function.py:212-221 | after a raising audit, later audits take no steps |
| PolicyRemediation.AuditStepsAppend | lambdas/dda_findings_processor_lambda/lambda_function.py:212-221 | a run that raised is unaffected by audits after it |
| PolicyRemediation.LambdaHandler | lambdas/dda_findings_processor_lambda/lambda_function.py:198-223 | without a task id it raises; without a prefix it returns early; otherwise it takes the steps of the audits and returns "OK" unless one raises |
| CleanUp.RoleName | scripts/clean-up.py:38-43 | the role name is the suffix of the ARN after its last "/" (the whole ARN when it has none) and contains no "/" |
| CleanUp.RolePolicyStepsShape | scripts/clean-up.py:24-29 | each attached policy is detached, then deleted, in listing order |
| CleanUp.RolePlanOrder | scripts/clean-up.py:21-31 | the role's policies are listed first and the role is deleted last |
| CleanUp.DeleteRole | scripts/clean-up.py:18-35 | `delete_role` issues the role plan up to the first failing request |
| CleanUp.CleanDeviceDefenderConfig | scripts/clean-up.py:97-105 | the audit configuration is deleted (failure swallowed), then the audit role is deleted |
| CleanUp.VersionStepsContents | scripts/clean-up.py:130-140 | exactly the non-default versions are deleted, in order |
| CleanUp.PolicyPlanDeletes | scripts/clean-up.py:116-145 | a policy is deleted only when it has no targets, after its non-default versions |
| CleanUp.DeletePolicyIfOrphan | scripts/clean-up.py:114-148 | one policy's `try` block issues its plan up to the first failing request |
| CleanUp.DeleteOrphanPolicies | scripts/clean-up.py:108-148 | the loop over the listed policies computes `OrphanPolicyRun`: each policy in its own `try`, so a failure ends only that policy |
| CleanUp.EveryPolicyIsExamined | scripts/clean-up.py:111-119 | every listed policy has its targets listed, whatever failed before it |
| CleanUp.EveryCertificateIsExamined | scripts/clean-up.py:158-166 | every listed certificate has its attached policies listed, whatever failed before it |
| CleanUp.DeleteOrphanCertificates | scripts/clean-up.py:150-179 | the loop over the listed certificates computes `OrphanCertificateRun`: each certificate in its own `try`, deactivated then deleted when it has no attached policies |
| CleanUp.CertificatesDeletedOnlyWhenOrphan | scripts/clean-up.py:158-176 | a certificate is deleted only when no policy is attached to it, and only after it was set INACTIVE |
| CleanUp.ThingActionFor | scripts/clean-up.py:194-199 | a thing is removed exactly when its name starts with "dev-" but not with "dev-DDQA" |
| CleanUp.CertificateId | scripts/clean-up.py:244 | the certificate id exists exactly when the principal holds "/", and contains no "/" |
| CleanUp.CertificateIdIsSecondPiece | scripts/clean-up.py:244 | the certificate id is the text between the first "/" of the principal and the next "/" or the end |
| CleanUp.SplitHasPieces | scripts/clean-up.py:244 | `split('/')` gives a second piece exactly when "/" occurs |
| CleanUp.ThingWithoutPrincipalsStays | scripts/clean-up.py:203-209 | a thing with no principals is never deleted |
| CleanUp.PrincipalPlanOrder | scripts/clean-up.py:209-262 | per principal: list policies, detach and delete each, detach the principal, delete the thing, deactivate and delete the certificate |
| CleanUp.PolicyDetachStepsShape | scripts/clean-up.py:217-235 | each of the principal's policies is detached, then deleted, in listing order |
| CleanUp.RemovePrincipal | scripts/clean-up.py:209-262 | one principal's steps, stopping at the first that raises |
| CleanUp.DetachAndDelete | scripts/clean-up.py:237-262 | detaching the principal and deleting thing and certificate, stopping at the first that raises |
| CleanUp.RemoveThing | scripts/clean-up.py:200-264 | one thing's `try` block: its principals are processed in order until a step raises |
| CleanUp.CleanThingsAndAttachedResources | scripts/clean-up.py:182-265 | the things of the listing are processed in order, each selected one in its own `try` |
| CleanUp.OnlySelectedThingsAreDeleted | scripts/clean-up.py:192-248 | every deleted thing has the "dev-" prefix and not "dev-DDQA" |
| CleanUp.ThingPlanDeletesOnlyItself | scripts/clean-up.py:200-262 | removing a thing deletes no other thing |
| CleanUp.PrincipalsDeleteOnlyThing | scripts/clean-up.py:209-262 | the principal loop deletes only its own thing |
| CleanUp.PolicyDetachStepsDeleteNoThing | scripts/clean-up.py:217-235 | detaching and deleting policies deletes no thing |
| CleanUp.PageThingsAsWritten | scripts/clean-up.py:267-277 | as written: once a first token is seen in `r` the loop never stops asking, and when the removals replaced `r` no second page is asked for |
| CleanUp.ListedThings | scripts/clean-up.py:267-277 | the listing, when it ends, starts with the first page's things |
| CleanUp.ListedThingsEnds | scripts/clean-up.py:267-277 | the listing ends exactly when some page has no `nextToken` |
| CleanUp.PageThings | scripts/clean-up.py:267-277 | corrected paging collects the things of every page up to the last |
| DeviceLifecycle.CleanUpRemovesFactoryDevices | scripts/clean-up.py:194-199 | a device the factory names is removed by the clean-up exactly when its serial is not "DDQA" |

## Left out

- Logging of every kind (`log`, `setup_log`, `print_action`, `logger.*`, `traceback.print_exc`). The device's timestamped log lines are not fed into the modelled `MaxSizeList`: the buffer is modelled and proved on its own.
- `time.sleep`, the wall clock and `datetime`. Times are integer parameters (`now`, `loadTime`), and the catalog timestamp `ts` is a parameter of the world.
- Randomness. `choice(ascii_uppercase)` draws are a parameter (`picks`).
- The network and the SDKs. What the services answer is a parameter, and the requests that raise are a set. The MQTT client's own behaviour, the subscriptions in `setup`, `setup_shadow_callbacks`, `setup_jobs_callbacks` and `last_will`, and `urllib` downloads are not modelled: the device records its requests in `trace`, and a download's result is a parameter.
- JSON text. `json.loads`/`json.dumps` and the `'` to `"` replacement of payloads are not modelled: payloads are parsed values. The SNS envelope `event['Records'][0]['Sns']['Message']` is not modelled: handlers receive the parsed message.
- Files on disk. They are a map from path to content. The files `create_device` writes to `/tmp` and `prepare_config_file`'s file are not modelled. `upload_file_to_s3` is one request of the plan.
- `load_iot_policy`: the policy document read from `iot_default_policy.json` is a parameter.
- `delete_device` (factory lines 338-364) uses an undefined `policy_name` and cannot complete. Its outcome is a parameter of the world (`deleteOutcome`).
- `handle_job_get_callback` (virtual device lines 316-322) only logs, so it is not modelled.
- `VirtualBulb` adds nothing to the device, so it is not modelled.
- The `__main__` block is not modelled.
- `list_impacted_things` is never called and is not modelled.
- `clean_iot_logging_config`, `delete_security_profiles` and the module-level calls at the end of the clean-up script are not modelled. The script itself only runs `clean_device_defender_config`, which is modelled.
- Service paging is modelled only for the findings processor and for the clean-up of things. Every other listing is one answer.
- Python's full lower-casing is not modelled. Lower-casing is ASCII only, which decides the same three action names.
- `str(dev_name)` in `get_device_in_catalog`: ids are looked up as given, so non-string ids are not converted.
- `link_devices` is modelled for string ids only.
- KeyErrors on fields of service answers that the services always supply (`certificateArn`, `endpointAddress`, `tasks[0]`) are assumed absent.
- DeviceCommand.LambdaHandler: a `None` key rejected by DynamoDB is one case of `updateRaises`, not derived from the event.
- DeviceJobs.ParseStartNext: a job id that is not a string is treated as malformed. The source would format it into the update topic.
- VirtualDevice.Device.HandleCmdReplyCallback: a `response-topic` that is not a string is treated as raising. The source would hand it to the MQTT client.
- PolicyRemediation.ProcessFinding: a finding whose `policyVersionId` is not a string is ignored. The source still calls `fix_overly_permissive_policy`, which lists the versions, matches none and changes nothing; that listing request is not in the model.
- PolicyRemediation.LambdaHandler: records that the overly-permissive check was handled, but does not compose this with the run of `HandleOverlyPermissivePolicy`. A finding that raises there would also end the audit loop.
- CleanUp.CleanThingsAndAttachedResources: covers the first page of `list_things`. The paging after it is modelled separately, by `PageThingsAsWritten` and `PageThings`.

## Findings

| source | as written | input that shows it | evidently intended | confidence | as-written member | corrected member |
|---|---|---|---|---|---|---|
| lambdas/device_factory_lambda/lambda_function.py:315-322 and 507-510 | the exception object itself is put into the dict that `generate_error_response` passes to `json.dumps`, which raises TypeError, so the Lambda raises instead of answering | a create-device request whose `create_keys_and_certificate` raises a ClientError | answer a 500 whose "error-message" holds the error's text | not executed | DeviceFactory.ErrorResponseRaisesAsWritten | DeviceFactory.Handler |
| lambdas/device_factory_lambda/lambda_function.py:247-249 | `traceback.print_tb(e, ...)` is given an exception instead of a traceback and raises AttributeError, so a failing `create_thing_group` aborts the device creation | a create-device request whose `create_thing_group` the service refuses, e.g. for lack of permission or throttling | log the failure and go on creating the device | not executed | DeviceFactory.GroupFailureAbortsAsWritten | DeviceFactory.CreateDeviceSucceeds |
| scripts/clean-up.py:267-277 | `next_token` is never reset, and `r` may hold a removal's answer instead of the listing. Either the loop asks for pages forever, or later pages are never asked for. The things on later pages are never removed | a first `list_things` page with a `nextToken` whose things are all skipped (e.g. not "dev-" things): the loop never ends | page until an answer has no token, removing the selected things of every page | not executed | CleanUp.PageThingsAsWritten | CleanUp.PageThings |
