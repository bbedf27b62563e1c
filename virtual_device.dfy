/** The virtual device: its fields, the callbacks the MQTT client invokes, the job
    actions, and one iteration of the telemetry loop. The MQTT client and the
    downloads are not modelled; what the device asks of them is recorded, in
    order, in the field `trace`. The five credential files and the shadow file
    are an abstract map from path to content. */
module VirtualDevice {
  import opened Strings
  import opened Json
  import opened DeviceJobs
  import opened ConnectRetry

  const DefaultSamplingDelay: int := 60

  /** An MQTT message body: the empty string, or a JSON document. */
  datatype Message = Empty | Document(doc: Json)

  /** One request the device makes of the outside world. */
  datatype Effect =
    | Publish(topic: string, message: Message)
    | Disconnect
    | ConfigureCredentials
    | ConnectCall(result: ConnectResult)
    | Download(url: Json)

  /** The credential and configuration files, and the configuration keys written into them. */
  const CredentialPaths: seq<string> := ["/tmp/iot_endpoint", "/tmp/device_name", "/tmp/cert", "/tmp/key", "/tmp/rootCA.pem"]
  const ConfigKeys: seq<string> := ["iot_endpoint", "device_name", "cert", "key", "root_ca"]
  const ShadowFile: string := "/tmp/shadow"

  function Backup(path: string): string { path + ".bkp" }

  /** Outcome of a sequence of file operations: `ok` is false when one raised,
      and `files` holds whatever was done before that. */
  datatype FilesResult = FilesResult(ok: bool, files: map<string, Json>)

  /** `backup_files`: `os.rename(p, p + ".bkp")` for each path in turn, raising at
      the first path that does not exist. */
  function RenameAll(files: map<string, Json>, paths: seq<string>): FilesResult
    decreases |paths|
  {
    if paths == [] then FilesResult(true, files)
    else if paths[0] !in files then FilesResult(false, files)
    else RenameAll((files - {paths[0]})[Backup(paths[0]) := files[paths[0]]], paths[1..])
  }

  /** `prepare_files`: writes `cfg[keys[i]]` to `paths[i]` in turn, raising at the
      first lookup that fails. */
  function WriteAll(files: map<string, Json>, cfg: Json, keys: seq<string>, paths: seq<string>): FilesResult
    requires |keys| == |paths|
    decreases |keys|
  {
    if keys == [] then FilesResult(true, files)
    else match Index(cfg, keys[0])
      case None => FilesResult(false, files)
      case Some(v) => WriteAll(files[paths[0] := v], cfg, keys[1..], paths[1..])
  }

  /** Distinct paths, none of which is the backup name of another. */
  ghost predicate Renamable(paths: seq<string>)
  {
    && (forall i, j :: 0 <= i < j < |paths| ==> paths[i] != paths[j])
    && (forall i, j :: 0 <= i < |paths| && 0 <= j < |paths| ==> Backup(paths[i]) != paths[j])
  }

  lemma {:induction false} BackupInjective(p: string, q: string)
    requires Backup(p) == Backup(q)
    ensures p == q
  {
    assert p == Backup(p)[..|p|];
    assert q == Backup(q)[..|q|];
  }

  /** A file that is neither one of the paths nor a backup name is left as it was. */
  lemma {:induction false} RenameAllUntouched(files: map<string, Json>, paths: seq<string>, f: string)
    requires forall i :: 0 <= i < |paths| ==> f != paths[i] && f != Backup(paths[i])
    ensures f in RenameAll(files, paths).files <==> f in files
    ensures f in files ==> RenameAll(files, paths).files[f] == files[f]
    decreases |paths|
  {
    if paths != [] && paths[0] in files {
      var files1 := (files - {paths[0]})[Backup(paths[0]) := files[paths[0]]];
      forall i | 0 <= i < |paths[1..]| ensures f != paths[1..][i] && f != Backup(paths[1..][i]) {
        assert paths[1..][i] == paths[i + 1];
      }
      RenameAllUntouched(files1, paths[1..], f);
    }
  }

  lemma {:induction false} RenamableTail(paths: seq<string>)
    requires |paths| >= 1 && Renamable(paths)
    ensures Renamable(paths[1..])
    ensures forall j :: 0 <= j < |paths[1..]| ==>
      paths[1..][j] != paths[0] && paths[1..][j] != Backup(paths[0]) && Backup(paths[1..][j]) != Backup(paths[0])
  {
    var rest := paths[1..];
    forall j | 0 <= j < |rest|
      ensures rest[j] != paths[0] && rest[j] != Backup(paths[0]) && Backup(rest[j]) != Backup(paths[0])
    {
      assert rest[j] == paths[j + 1];
      if Backup(rest[j]) == Backup(paths[0]) {
        BackupInjective(rest[j], paths[0]);
      }
    }
    forall i, j | 0 <= i < j < |rest| ensures rest[i] != rest[j] {
      assert rest[i] == paths[i + 1] && rest[j] == paths[j + 1];
    }
    forall i, j | 0 <= i < |rest| && 0 <= j < |rest| ensures Backup(rest[i]) != rest[j] {
      assert rest[i] == paths[i + 1] && rest[j] == paths[j + 1];
    }
  }

  /** Renaming succeeds exactly when every path exists. */
  lemma {:induction false} RenameAllOk(files: map<string, Json>, paths: seq<string>)
    requires Renamable(paths)
    ensures RenameAll(files, paths).ok <==> forall i :: 0 <= i < |paths| ==> paths[i] in files
    decreases |paths|
  {
    if paths != [] && paths[0] in files {
      var rest := paths[1..];
      var files1 := (files - {paths[0]})[Backup(paths[0]) := files[paths[0]]];
      RenamableTail(paths);
      RenameAllOk(files1, rest);
      assert (forall i :: 0 <= i < |rest| ==> rest[i] in files1) <==>
             (forall i :: 1 <= i < |paths| ==> paths[i] in files) by {
        forall i | 1 <= i < |paths| ensures paths[i] == rest[i - 1] {}
      }
    }
  }

  /** After a successful rename, path k is gone and its backup holds its old content. */
  lemma {:induction false} RenameAllMoved(files: map<string, Json>, paths: seq<string>, k: nat)
    requires Renamable(paths) && k < |paths| && RenameAll(files, paths).ok
    ensures paths[k] in files
    ensures paths[k] !in RenameAll(files, paths).files
    ensures Backup(paths[k]) in RenameAll(files, paths).files
    ensures RenameAll(files, paths).files[Backup(paths[k])] == files[paths[k]]
    decreases |paths|
  {
    var rest := paths[1..];
    var files1 := (files - {paths[0]})[Backup(paths[0]) := files[paths[0]]];
    RenamableTail(paths);
    assert RenameAll(files, paths) == RenameAll(files1, rest);
    if k == 0 {
      RenameAllUntouched(files1, rest, Backup(paths[0]));
      assert forall i :: 0 <= i < |rest| ==> paths[0] != Backup(rest[i]) by {
        forall i | 0 <= i < |rest| ensures paths[0] != Backup(rest[i]) {
          assert rest[i] == paths[i + 1];
        }
      }
      RenameAllUntouched(files1, rest, paths[0]);
    } else {
      assert rest[k - 1] == paths[k];
      RenameAllMoved(files1, rest, k - 1);
    }
  }

  /** Writing succeeds exactly when the configuration is a document holding every key. */
  lemma {:induction false} WriteAllOk(files: map<string, Json>, cfg: Json, keys: seq<string>, paths: seq<string>)
    requires |keys| == |paths| >= 1
    ensures WriteAll(files, cfg, keys, paths).ok <==>
      cfg.JObj? && forall i :: 0 <= i < |keys| ==> keys[i] in cfg.fields
    decreases |keys|
  {
    if Index(cfg, keys[0]).Some? && |keys| > 1 {
      WriteAllOk(files[paths[0] := cfg.fields[keys[0]]], cfg, keys[1..], paths[1..]);
      assert forall i :: 1 <= i < |keys| ==> keys[i] == keys[1..][i - 1];
    }
  }

  /** A file that is not one of the paths is left as it was. */
  lemma {:induction false} WriteAllUntouched(files: map<string, Json>, cfg: Json, keys: seq<string>, paths: seq<string>, f: string)
    requires |keys| == |paths|
    requires forall i :: 0 <= i < |paths| ==> f != paths[i]
    ensures f in WriteAll(files, cfg, keys, paths).files <==> f in files
    ensures f in files ==> WriteAll(files, cfg, keys, paths).files[f] == files[f]
    decreases |keys|
  {
    if keys != [] && Index(cfg, keys[0]).Some? {
      forall i | 0 <= i < |paths[1..]| ensures f != paths[1..][i] {
        assert paths[1..][i] == paths[i + 1];
      }
      WriteAllUntouched(files[paths[0] := cfg.fields[keys[0]]], cfg, keys[1..], paths[1..], f);
    }
  }

  /** After a successful write, path k holds the value of key k. */
  lemma {:induction false} WriteAllWritten(files: map<string, Json>, cfg: Json, keys: seq<string>, paths: seq<string>, k: nat)
    requires |keys| == |paths| && k < |paths|
    requires forall i, j :: 0 <= i < j < |paths| ==> paths[i] != paths[j]
    requires WriteAll(files, cfg, keys, paths).ok
    ensures cfg.JObj? && keys[k] in cfg.fields
    ensures paths[k] in WriteAll(files, cfg, keys, paths).files
    ensures WriteAll(files, cfg, keys, paths).files[paths[k]] == cfg.fields[keys[k]]
    decreases |keys|
  {
    var files1 := files[paths[0] := cfg.fields[keys[0]]];
    assert WriteAll(files, cfg, keys, paths) == WriteAll(files1, cfg, keys[1..], paths[1..]);
    if k == 0 {
      forall i | 0 <= i < |paths[1..]| ensures paths[0] != paths[1..][i] {
        assert paths[1..][i] == paths[i + 1];
      }
      WriteAllUntouched(files1, cfg, keys[1..], paths[1..], paths[0]);
    } else {
      forall i, j | 0 <= i < j < |paths[1..]| ensures paths[1..][i] != paths[1..][j] {
        assert paths[1..][i] == paths[i + 1] && paths[1..][j] == paths[j + 1];
      }
      assert paths[1..][k - 1] == paths[k] && keys[1..][k - 1] == keys[k];
      WriteAllWritten(files1, cfg, keys[1..], paths[1..], k - 1);
    }
  }

  /** The file part of `rotate_certificate` once the bundle is downloaded:
      back up the five files, then install the bundle's values. */
  function InstallBundle(files: map<string, Json>, cfg: Json): FilesResult
  {
    var b := RenameAll(files, CredentialPaths);
    if !b.ok then b else WriteAll(b.files, cfg, ConfigKeys, CredentialPaths)
  }

  lemma {:induction false} CredentialPathsRenamable()
    ensures Renamable(CredentialPaths)
    ensures forall i, j :: 0 <= i < 5 && 0 <= j < 5 ==> Backup(CredentialPaths[i]) != CredentialPaths[j]
  {
    forall i, j | 0 <= i < 5 && 0 <= j < 5
      ensures Backup(CredentialPaths[i]) != CredentialPaths[j]
    {
      var b := Backup(CredentialPaths[i]);
      assert b[|b| - 4..] == ".bkp";
      assert CredentialPaths[j][|CredentialPaths[j]| - 4..] != ".bkp";
    }
  }

  /** Installing a bundle succeeds exactly when all five files exist and the bundle
      has all five keys. */
  lemma {:induction false} InstallBundleOk(files: map<string, Json>, cfg: Json)
    ensures InstallBundle(files, cfg).ok <==>
      && (forall i :: 0 <= i < 5 ==> CredentialPaths[i] in files)
      && cfg.JObj? && (forall i :: 0 <= i < 5 ==> ConfigKeys[i] in cfg.fields)
  {
    CredentialPathsRenamable();
    RenameAllOk(files, CredentialPaths);
    WriteAllOk(RenameAll(files, CredentialPaths).files, cfg, ConfigKeys, CredentialPaths);
  }

  /** After a successful install each file holds the bundle's value and its backup
      holds the previous content. */
  lemma {:induction false} InstallBundleContents(files: map<string, Json>, cfg: Json, k: nat)
    requires k < 5 && InstallBundle(files, cfg).ok
    ensures InstallBundle(files, cfg).files[CredentialPaths[k]] == cfg.fields[ConfigKeys[k]]
    ensures InstallBundle(files, cfg).files[Backup(CredentialPaths[k])] == files[CredentialPaths[k]]
  {
    CredentialPathsRenamable();
    var b := RenameAll(files, CredentialPaths);
    RenameAllMoved(files, CredentialPaths, k);
    WriteAllWritten(b.files, cfg, ConfigKeys, CredentialPaths, k);
    WriteAllUntouched(b.files, cfg, ConfigKeys, CredentialPaths, Backup(CredentialPaths[k]));
  }

  /** The two ways a callback can end: it returns, or it raises (a lookup on the
      message fails) and the rest of its body is skipped. */
  datatype Outcome = Handled | Raised

  /** The temperature payload the device publishes. */
  const TelemetryPayload: Json := JObj(map["temp" := JInt(30)])

  /** `update_firmware` succeeds when the document names a firmware URL and the
      download of that URL succeeds (`download` is what the download gave). */
  predicate FirmwareInstalls(jobDoc: Json, download: Option<Json>)
  {
    Index(jobDoc, "firmware_file_url").Some? && download.Some?
  }

  /** `rotate_certificate` succeeds when the document names a configuration URL,
      its download parses, and the files can be backed up and rewritten. */
  predicate CertificateRotates(jobDoc: Json, download: Option<Json>, files: map<string, Json>)
  {
    Index(jobDoc, "config_file_url").Some? && download.Some? && InstallBundle(files, download.value).ok
  }

  /** The downloads a job action asks for before it reports. */
  function ActionDownloads(action: JobAction, jobDoc: Json): (r: seq<Effect>)
    ensures |r| <= 1
    ensures r != [] <==>
      || (action == RotateCert && Index(jobDoc, "config_file_url").Some?)
      || (action == UpdateFirmware && Index(jobDoc, "firmware_file_url").Some?)
  {
    match action
    case RotateCert =>
      if Index(jobDoc, "config_file_url").Some? then [Download(jobDoc.fields["config_file_url"])] else []
    case UpdateFirmware =>
      if Index(jobDoc, "firmware_file_url").Some? then [Download(jobDoc.fields["firmware_file_url"])] else []
    case _ => []
  }

  /** Whether the logging lookups `"state" in payload`, `"desired" in
      payload["state"]` and `payload["state"]["desired"]` raise once the shadow
      has been stored. */
  predicate DesiredLookupRaises(payload: Json)
  {
    match In("state", payload)
    case None => true
    case Some(present) =>
      present && (match Index(payload, "state")
                  case None => true
                  case Some(state) =>
                    match In("desired", state)
                    case None => true
                    case Some(hasDesired) => hasDesired && Index(state, "desired").None?)
  }

  /** The lookups succeed on a document whose `state` is an object; a `state`
      that is a list or a string containing "desired" passes the `in` test and
      then raises on the subscription. */
  lemma {:induction false} DesiredLookupOnState(state: Json)
    ensures state.JObj? ==> !DesiredLookupRaises(JObj(map["state" := state]))
    ensures (state.JArr? || state.JStr?) && In("desired", state) == Some(true) ==>
      DesiredLookupRaises(JObj(map["state" := state]))
    ensures !(state.JObj? || state.JArr? || state.JStr?) ==> DesiredLookupRaises(JObj(map["state" := state]))
  {
    var payload := JObj(map["state" := state]);
    assert In("state", payload) == Some(true);
    assert Index(payload, "state") == Some(state);
  }

  /** A `VirtualDevice`: the fields its methods update, the files it reads and
      writes, and the trace of what it asked of the MQTT client and the network. */
  class Device {
    const name: string
    const telemetryTopic: string
    const payload: Json
    var samplingDelay: int
    var nextMessageTime: int
    var stop: bool
    var forceReconnect: bool
    var cleanDisconnect: bool
    var shadow: Json
    var unit: Json
    var lwtTopic: Json
    var lwtMessage: Json
    var files: map<string, Json>
    var trace: seq<Effect>

    /** A new device; `loadTime` is the clock reading the class attribute
        `_next_message_time` took, and `files` the file system it starts with. */
    constructor (name: string, loadTime: int, files: map<string, Json>)
      ensures this.name == name && telemetryTopic == DefaultTelemetryTopic(name)
      ensures payload == TelemetryPayload
      ensures samplingDelay == DefaultSamplingDelay && nextMessageTime == loadTime
      ensures !stop && !forceReconnect && cleanDisconnect
      ensures shadow == JObj(map[]) && unit == JStr("metric")
      ensures lwtTopic == JNull && lwtMessage == JNull
      ensures this.files == files && trace == []
    {
      this.name := name;
      telemetryTopic := DefaultTelemetryTopic(name);
      payload := TelemetryPayload;
      samplingDelay := DefaultSamplingDelay;
      nextMessageTime := loadTime;
      stop := false;
      forceReconnect := false;
      cleanDisconnect := true;
      shadow := JObj(map[]);
      unit := JStr("metric");
      lwtTopic := JNull;
      lwtMessage := JNull;
      this.files := files;
      trace := [];
    }

    /** `set_sampling_delay`: the new delay, and a deadline of now so that the
        next tick publishes. */
    method SetSamplingDelay(delay: int, now: int)
      modifies this`samplingDelay, this`nextMessageTime
      ensures samplingDelay == delay && nextMessageTime == now
    {
      samplingDelay := delay;
      nextMessageTime := now;
    }

    method ForceReconnect()
      modifies this`forceReconnect
      ensures forceReconnect
    {
      forceReconnect := true;
    }

    method SetCleanDisconnect(clean: bool)
      modifies this`cleanDisconnect
      ensures cleanDisconnect == clean
    {
      cleanDisconnect := clean;
    }

    method Stop()
      modifies this`stop
      ensures stop
    {
      stop := true;
    }

    /** `register_last_will_and_testament`: remembers the will for `setup`. */
    method RegisterLastWill(topic: Json, message: Json) returns (r: string)
      modifies this`lwtTopic, this`lwtMessage
      ensures lwtTopic == topic && lwtMessage == message && r == ""
    {
      lwtTopic := topic;
      lwtMessage := message;
      r := "";
    }

    /** `get_shadow`: asks for the shadow of `thing` and returns the last one received. */
    method GetShadow(thing: string) returns (r: Json)
      modifies this`trace
      ensures trace == old(trace) + [Publish(ShadowGetTopic(thing), Empty)]
      ensures r == shadow
    {
      trace := trace + [Publish(ShadowGetTopic(thing), Empty)];
      r := shadow;
    }

    method GetJobs(thing: string)
      modifies this`trace
      ensures trace == old(trace) + [Publish(JobsGetTopic(thing), Empty)]
    {
      trace := trace + [Publish(JobsGetTopic(thing), Empty)];
    }

    method StartNextQueuedJob()
      modifies this`trace
      ensures trace == old(trace) + [Publish(StartNextTopic(name), Document(StartNextRequest()))]
    {
      trace := trace + [Publish(StartNextTopic(name), Document(StartNextRequest()))];
    }

    /** `handle_jobs_get_callback`: starts the next job when `queuedJobs` is truthy;
        `payload.get` raises on anything but an object. */
    method HandleJobsGetCallback(message: Json) returns (outcome: Outcome)
      modifies this`trace
      ensures outcome == Raised <==> !message.JObj?
      ensures message.JObj? && Truthy(Get(message.fields, "queuedJobs", JNull)) ==>
        trace == old(trace) + [Publish(StartNextTopic(name), Document(StartNextRequest()))]
      ensures !(message.JObj? && Truthy(Get(message.fields, "queuedJobs", JNull))) ==>
        trace == old(trace)
    {
      if !message.JObj? {
        return Raised;
      }
      var queuedJobs := Get(message.fields, "queuedJobs", JNull);
      if Truthy(queuedJobs) {
        StartNextQueuedJob();
      }
      outcome := Handled;
    }

    /** `handle_jobs_notify_next_callback`: starts the next job when the message
        has an `execution`. */
    method HandleJobsNotifyNextCallback(message: Json) returns (outcome: Outcome)
      modifies this`trace
      ensures outcome == Raised <==> In("execution", message).None?
      ensures In("execution", message) == Some(true) ==>
        trace == old(trace) + [Publish(StartNextTopic(name), Document(StartNextRequest()))]
      ensures In("execution", message) != Some(true) ==> trace == old(trace)
    {
      match In("execution", message) {
        case None => return Raised;
        case Some(present) =>
          if present {
            StartNextQueuedJob();
          }
          outcome := Handled;
      }
    }

    /** `change_unit`: takes the document's `unit` when it has one. It returns
        `None`, so its job is reported as failed. */
    method ChangeUnit(jobDoc: Json)
      requires jobDoc.JObj?
      modifies this`unit
      ensures "unit" in jobDoc.fields ==> unit == jobDoc.fields["unit"]
      ensures "unit" !in jobDoc.fields ==> unit == old(unit)
    {
      if "unit" in jobDoc.fields {
        unit := jobDoc.fields["unit"];
      }
    }

    /** `update_firmware`: downloads the firmware when the document names it;
        every failure, raised or not, gives false. */
    method UpdateFirmware(jobDoc: Json, download: Option<Json>) returns (success: bool)
      modifies this`trace
      ensures success <==> FirmwareInstalls(jobDoc, download)
      ensures trace == old(trace) + ActionDownloads(JobAction.UpdateFirmware, jobDoc)
    {
      match Index(jobDoc, "firmware_file_url") {
        case None =>
          success := false;
        case Some(url) =>
          trace := trace + [Download(url)];
          success := download.Some?;
      }
    }

    /** `rotate_certificate`: downloads the new configuration, backs up the five
        credential files, writes the new ones and asks for a reconnect. Any
        failure gives false; files already renamed or written stay so. */
    method RotateCertificate(jobDoc: Json, download: Option<Json>) returns (success: bool)
      modifies this`files, this`forceReconnect, this`trace
      ensures success <==> CertificateRotates(jobDoc, download, old(files))
      ensures trace == old(trace) + ActionDownloads(JobAction.RotateCert, jobDoc)
      ensures Index(jobDoc, "config_file_url").None? || download.None? ==>
        files == old(files) && forceReconnect == old(forceReconnect)
      ensures Index(jobDoc, "config_file_url").Some? && download.Some? ==>
        files == InstallBundle(old(files), download.value).files
      ensures forceReconnect == (old(forceReconnect) || success)
    {
      match Index(jobDoc, "config_file_url") {
        case None =>
          success := false;
        case Some(url) =>
          trace := trace + [Download(url)];
          match download {
            case None =>
              success := false;
            case Some(cfg) =>
              var installed := InstallBundle(files, cfg);
              files := installed.files;
              if installed.ok {
                ForceReconnect();
              }
              success := installed.ok;
          }
      }
    }

    /** `handle_jobs_start_next_callback`: reads the execution, runs the action
        the job document names and reports the outcome on the job's update topic.
        A message without an execution, a document without a string `action`,
        raise before anything is done or reported. */
    method HandleJobsStartNextCallback(message: Json, download: Option<Json>) returns (outcome: Outcome, report: Json)
      modifies this`unit, this`files, this`forceReconnect, this`trace
      ensures outcome == Raised <==>
        ParseStartNext(message).None? || ActionOf(ParseStartNext(message).value.jobDoc).None?
      ensures outcome == Raised ==>
        trace == old(trace) && files == old(files) && unit == old(unit) && forceReconnect == old(forceReconnect)
      ensures outcome == Handled ==>
        var e := ParseStartNext(message).value;
        var action := ActionOf(e.jobDoc).value;
        && report.JObj? && report.fields.Keys == {"status", "expectedVersion", "stepTimeoutInMinutes"}
        && (report.fields["status"] == JStr(Succeeded.Name()) <==>
              || (action.RotateCert? && CertificateRotates(e.jobDoc, download, old(files)))
              || (action.UpdateFirmware? && FirmwareInstalls(e.jobDoc, download)))
        && (report.fields["status"] != JStr(Succeeded.Name()) ==> report.fields["status"] == JStr(Failed.Name()))
        && report.fields["expectedVersion"] == e.version
        && report.fields["stepTimeoutInMinutes"] == JInt(1)
        && trace == old(trace) + ActionDownloads(action, e.jobDoc) + [Publish(JobUpdateTopic(name, e.jobId), Document(report))]
        && unit == (if action.ChangeUnit? && "unit" in e.jobDoc.fields then e.jobDoc.fields["unit"] else old(unit))
        && (!action.RotateCert? ==> files == old(files) && forceReconnect == old(forceReconnect))
        && (action.RotateCert? ==> forceReconnect == (old(forceReconnect) || CertificateRotates(e.jobDoc, download, old(files))))
        && (action.RotateCert? ==>
              files == if Index(e.jobDoc, "config_file_url").Some? && download.Some?
                       then InstallBundle(old(files), download.value).files
                       else old(files))
    {
      report := JNull;
      var parsed := ParseStartNext(message);
      if parsed.None? {
        return Raised, report;
      }
      var e := parsed.value;
      var action := ActionOf(e.jobDoc);
      if action.None? {
        return Raised, report;
      }
      var response: Json;
      match action.value {
        case RotateCert =>
          var ok := RotateCertificate(e.jobDoc, download);
          response := JBool(ok);
        case ChangeUnit =>
          ChangeUnit(e.jobDoc);
          response := JNull;
        case UpdateFirmware =>
          var ok := UpdateFirmware(e.jobDoc, download);
          response := JBool(ok);
        case UnknownAction(_) =>
          response := JBool(false);
      }
      report := GenerateJobStartResponseDoc(response, e.version, JInt(1));
      trace := trace + [Publish(JobUpdateTopic(name, e.jobId), Document(report))];
      outcome := Handled;
    }

    /** `handle_shadow_update_callback`: the accepted document becomes the shadow
        and is saved; the logging lookups that follow may raise. */
    method HandleShadowUpdateCallback(message: Json) returns (outcome: Outcome)
      modifies this`shadow, this`files
      ensures shadow == message && files == old(files)[ShadowFile := message]
      ensures outcome == Raised <==> DesiredLookupRaises(message)
    {
      shadow := message;
      files := files[ShadowFile := message];
      outcome := if DesiredLookupRaises(message) then Raised else Handled;
    }

    /** `handle_shadow_get_callback`: like an update, except that a message on a
        topic containing "rejected" changes nothing. */
    method HandleShadowGetCallback(topic: string, message: Json) returns (outcome: Outcome)
      modifies this`shadow, this`files
      ensures Contains(topic, "rejected") ==>
        shadow == old(shadow) && files == old(files) && outcome == Handled
      ensures !Contains(topic, "rejected") ==>
        && shadow == message && files == old(files)[ShadowFile := message]
        && (outcome == Raised <==> DesiredLookupRaises(message))
    {
      if Contains(topic, "rejected") {
        outcome := Handled;
      } else {
        outcome := HandleShadowUpdateCallback(message);
      }
    }

    /** `handle_cmd_reply_callback`: a request with a `type` gets one reply on its
        `response-topic`. */
    method HandleCmdReplyCallback(message: Json) returns (outcome: Outcome)
      modifies this`trace
      ensures outcome == Raised <==>
        In("type", message).None? || (In("type", message) == Some(true) && !CmdRequest(message))
      ensures CmdRequest(message) ==>
        && outcome == Handled
        && trace == old(trace) + [Publish(message.fields["response-topic"].s, Document(CmdReply(message.fields["session-id"])))]
      ensures !CmdRequest(message) ==> trace == old(trace)
    {
      match In("type", message) {
        case None =>
          return Raised;
        case Some(present) =>
          if !present {
            return Handled;
          }
          if !CmdRequest(message) {
            return Raised;
          }
          var reply := CmdReply(message.fields["session-id"]);
          trace := trace + [Publish(message.fields["response-topic"].s, Document(reply))];
          outcome := Handled;
      }
    }

    /** The part of `start` before its loop. */
    method Begin(now: int)
      modifies this`trace, this`nextMessageTime
      ensures trace == old(trace) + [Publish(JobsGetTopic(name), Empty), Publish(ShadowGetTopic(name), Empty)]
      ensures nextMessageTime == now
    {
      GetJobs(name);
      var _ := GetShadow(name);
      nextMessageTime := now;
    }

    /** One iteration of the loop in `start` at clock reading `now`: telemetry when
        due, then the stop check, then a pending reconnect, which runs `connect`
        over `attempts`. `running` is false when the loop ends. */
    method Tick(now: int, attempts: seq<Attempt>) returns (running: bool)
      modifies this`nextMessageTime, this`forceReconnect, this`trace
      ensures running <==> !stop
      ensures old(nextMessageTime) <= now ==> nextMessageTime == now + samplingDelay
      ensures now < old(nextMessageTime) ==> nextMessageTime == old(nextMessageTime)
      ensures
        var telemetry := if old(nextMessageTime) <= now then [Publish(telemetryTopic, Document(payload))] else [];
        && (stop ==>
              trace == old(trace) + telemetry + (if cleanDisconnect then [Disconnect] else [])
              && forceReconnect == old(forceReconnect))
        && (!stop && old(forceReconnect) ==>
              trace == old(trace) + telemetry + [ConfigureCredentials, ConnectCall(ConnectSpec(attempts))])
        && (!stop && !old(forceReconnect) ==> trace == old(trace) + telemetry)
        && (!stop ==> !forceReconnect)
    {
      if nextMessageTime <= now {
        trace := trace + [Publish(telemetryTopic, Document(payload))];
        nextMessageTime := now + samplingDelay;
      }
      if stop {
        if cleanDisconnect {
          trace := trace + [Disconnect];
        }
        return false;
      }
      if forceReconnect {
        var result := Connect(attempts);
        trace := trace + [ConfigureCredentials, ConnectCall(result)];
        forceReconnect := false;
      }
      running := true;
    }
  }

  /** A command request the device answers: an object with a `type`, a
      `session-id` and a string `response-topic`. */
  predicate CmdRequest(message: Json)
  {
    && message.JObj?
    && "type" in message.fields
    && "session-id" in message.fields
    && "response-topic" in message.fields
    && message.fields["response-topic"].JStr?
  }

  /** The reply to a command request. */
  function CmdReply(sessionId: Json): (r: Json)
    ensures r.JObj? && r.fields.Keys == {"session-id", "status"}
    ensures r.fields["session-id"] == sessionId && r.fields["status"] == JStr("OK")
  {
    JObj(map["session-id" := sessionId, "status" := JStr("OK")])
  }

  /** `VirtualSwitch`: a device that sets the desired state of another thing. */
  class VirtualSwitch {
    const device: Device
    var targetDevice: string

    constructor (device: Device)
      ensures this.device == device && targetDevice == "dev-NANN"
    {
      this.device := device;
      targetDevice := "dev-NANN";
    }

    method SetTargetDevice(target: string)
      modifies this`targetDevice
      ensures targetDevice == target
    {
      targetDevice := target;
    }

    /** `press_on` / `press_off`: one desired-state document on the target's
        shadow update topic. */
    method Press(on: bool)
      modifies device`trace
      ensures device.trace == old(device.trace) + [Publish(ShadowUpdateTopic(targetDevice), Document(SwitchDesired(on)))]
    {
      device.trace := device.trace + [Publish(ShadowUpdateTopic(targetDevice), Document(SwitchDesired(on)))];
    }
  }
}
