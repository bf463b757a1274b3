/**
 * The first-generation container operations (src/docker.rs): servers of the
 * fixed image "ghcr.io/mayo-dayo/app:0.2" whose settings (name, certificate
 * and key paths, port) are kept in plain labels; their creation, listing,
 * status, removal, logs and update; and the invite store inside a server,
 * reached by running a script in the container.
 *
 * As in the rest of the model, every engine response is an input and every
 * request is recorded in a trace of `Call`s. Errors from the engine pass
 * through unchanged (`?` on the engine client's error) unless the source adds
 * a context message.
 */
module Legacy {
  import opened Wrappers
  import opened Text
  import opened Seqs
  import opened Engine
  import opened Progress

  const IMAGE := "ghcr.io/mayo-dayo/app"
  const VERSION := "0.2"
  const DATA_STORAGE_FOLDER_PATH := "/mayo/.data"

  /** The image every server of this generation runs. */
  const IMAGE_REFERENCE := IMAGE + ":" + VERSION

  /** A server container as listed: its id and the settings read back from its labels. */
  datatype ServerContainer = ServerContainer(id: string, name: string, crtPath: string, keyPath: string, port: u16)

  /** The settings a server container is created with. */
  datatype ServerContainerParameters = ServerContainerParameters(crtPath: string, keyPath: string, port: u16)

  function ParametersOf(container: ServerContainer): ServerContainerParameters
  {
    ServerContainerParameters(container.crtPath, container.keyPath, container.port)
  }

  /** The outcome of reading a stream to its end: the first error read, unchanged, if there is one. */
  function StreamOutcome<T>(s: seq<Result<T, EngineError>>): (o: Outcome<Error>)
    ensures o.Fail? <==> FirstFailure(s).Some?
    ensures o.Fail? ==> o.error == Engine(s[FirstFailure(s).value].error)
  {
    match FirstFailure(s)
    case None => Pass
    case Some(i) => Fail(Engine(s[i].error))
  }

  // ---------------------------------------------------------------------------
  // Listing
  // ---------------------------------------------------------------------------

  /** The engine-side filters of the listing: containers of the image, carrying the version and name labels. */
  const LIST_FILTERS: map<string, seq<string>> := map["ancestor" := [IMAGE_REFERENCE], "label" := ["version=" + VERSION, "name"]]

  /**
   * One summary of the listing: kept when it has an id and labels holding a
   * name, both paths and a port that parses as a 16-bit unsigned number.
   */
  function ContainerOfSummary(summary: ContainerSummary): (r: Option<ServerContainer>)
    ensures r.Some? <==> (summary.id.Some? && summary.labels.Some?
                          && "name" in summary.labels.value && "crt_path" in summary.labels.value
                          && "key_path" in summary.labels.value && "port" in summary.labels.value
                          && ParseU16(summary.labels.value["port"]).Some?)
    ensures r.Some? ==> (r.value.id == summary.id.value && r.value.name == summary.labels.value["name"]
                         && r.value.crtPath == summary.labels.value["crt_path"] && r.value.keyPath == summary.labels.value["key_path"]
                         && Some(r.value.port as nat) == ParseU16(summary.labels.value["port"]))
  {
    match (summary.id, summary.labels)
    case (Some(id), Some(labels)) =>
      if "name" in labels && "crt_path" in labels && "key_path" in labels && "port" in labels then
        match ParseU16(labels["port"])
        case Some(port) => Some(ServerContainer(id, labels["name"], labels["crt_path"], labels["key_path"], port))
        case None => None
      else None
    case _ => None
  }

  /** The server containers of a listing, in order. */
  function ContainersOf(summaries: seq<ContainerSummary>): (cs: seq<ServerContainer>)
    ensures |cs| <= |summaries|
  {
    FilterMap(summaries, ContainerOfSummary)
  }

  /** A container is listed exactly when some summary yields it. */
  lemma ContainersOfMembers(summaries: seq<ContainerSummary>, c: ServerContainer)
    ensures c in ContainersOf(summaries) <==> exists i :: 0 <= i < |summaries| && ContainerOfSummary(summaries[i]) == Some(c)
  {
    FilterMapMembers(summaries, ContainerOfSummary, c);
  }

  /**
   * `find_existing_server_containers`: lists all containers matching the
   * filters and pushes, in order, one server container for each summary that
   * yields one.
   */
  method FindExistingServerContainers(response: Result<seq<ContainerSummary>, EngineError>)
    returns (r: Result<seq<ServerContainer>, Error>, calls: seq<Call>)
    ensures calls == [ListContainers(true, LIST_FILTERS)]
    ensures response.Failure? ==> r == Failure(Engine(response.error))
    ensures response.Success? ==> r == Success(ContainersOf(response.value))
  {
    calls := [ListContainers(true, LIST_FILTERS)];
    if response.Failure? {
      r := Failure(Engine(response.error));
      return;
    }
    var summaries := response.value;
    var containers := [];
    for i := 0 to |summaries|
      invariant containers == FilterMap(summaries[..i], ContainerOfSummary)
    {
      assert summaries[..i + 1][..i] == summaries[..i];
      match ContainerOfSummary(summaries[i]) {
        case Some(c) => containers := containers + [c];
        case None =>
      }
    }
    assert summaries[..|summaries|] == summaries;
    r := Success(containers);
  }

  // ---------------------------------------------------------------------------
  // Pulling the image
  // ---------------------------------------------------------------------------

  /** Reading one more message of a pull applies its step to the layers kept so far. */
  lemma PullStep(stream: seq<Result<CreateImageInfo, EngineError>>, i: nat)
    requires i < |stream| && forall j :: 0 <= j <= i ==> stream[j].Success?
    requires AllAdmissible(Legacy, Values(stream[..i]))
    ensures AllAdmissible(Legacy, Values(stream[..i + 1]))
    ensures Apply(Legacy, map[], Values(stream[..i + 1])) == Step(Legacy, Apply(Legacy, map[], Values(stream[..i])), stream[i].value)
  {
    assert stream[..i + 1] == stream[..i] + [Success(stream[i].value)];
    ValuesSnoc(stream[..i], stream[i].value);
  }

  /**
   * `pull_server_image`: requests the image and reads the message stream to
   * its end, keeping one bar per layer by the rule of this file; the first
   * error read ends the pull with that error.
   */
  method PullServerImage(stream: seq<Result<CreateImageInfo, EngineError>>)
    returns (outcome: Outcome<Error>, layers: map<string, Bar>, calls: seq<Call>)
    ensures calls == [CreateImage(IMAGE_REFERENCE)]
    ensures outcome == StreamOutcome(stream)
    ensures layers == Apply(Legacy, map[], ValuesBeforeFailure(stream))
  {
    calls := [CreateImage(IMAGE_REFERENCE)];
    layers := map[];
    var i := 0;
    while i < |stream|
      invariant 0 <= i <= |stream|
      invariant forall j :: 0 <= j < i ==> stream[j].Success?
      invariant AllAdmissible(Legacy, Values(stream[..i]))
      invariant layers == Apply(Legacy, map[], Values(stream[..i]))
    {
      if stream[i].Failure? {
        FirstFailureAt(stream, i);
        outcome := Fail(Engine(stream[i].error));
        return;
      }
      PullStep(stream, i);
      layers := Step(Legacy, layers, stream[i].value);
      i := i + 1;
    }
    assert stream[..i] == stream;
    NoFailure(stream);
    outcome := Pass;
  }

  // ---------------------------------------------------------------------------
  // Creating a server container
  // ---------------------------------------------------------------------------

  /** The labels of a new server container: its name, the image version, both paths and the port in decimal. */
  function ServerContainerLabels(name: string, parameters: ServerContainerParameters): LabelMap
  {
    map["name" := name, "version" := VERSION, "crt_path" := parameters.crtPath,
        "key_path" := parameters.keyPath, "port" := NatToDecimal(parameters.port)]
  }

  /** The volume holding a server's data. */
  function DataVolume(name: string): string { "mayo-" + name }

  /** The new container's configuration: the fixed image, four environment entries, the labels, three mounts, host network. */
  function ServerContainerConfig(name: string, parameters: ServerContainerParameters): (config: ContainerConfig)
    ensures config.image == IMAGE_REFERENCE && config.labels == ServerContainerLabels(name, parameters)
    ensures config.env == ["BUN_PORT=" + NatToDecimal(parameters.port), "MAYO_DATA_PATH=" + DATA_STORAGE_FOLDER_PATH,
                           "TLS_CRT_PATH=" + DATA_STORAGE_FOLDER_PATH + "/crt.pem", "TLS_KEY_PATH=" + DATA_STORAGE_FOLDER_PATH + "/key.pem"]
    ensures config.hostConfig == HostConfig(
      [Mount(DATA_STORAGE_FOLDER_PATH + "/crt.pem", parameters.crtPath, Bind, true),
       Mount(DATA_STORAGE_FOLDER_PATH + "/key.pem", parameters.keyPath, Bind, true),
       Mount(DATA_STORAGE_FOLDER_PATH, DataVolume(name), Volume, false)],
      "host", UnlessStopped)
  {
    var env := ["BUN_PORT=" + NatToDecimal(parameters.port), "MAYO_DATA_PATH=" + DATA_STORAGE_FOLDER_PATH,
                "TLS_CRT_PATH=" + DATA_STORAGE_FOLDER_PATH + "/crt.pem", "TLS_KEY_PATH=" + DATA_STORAGE_FOLDER_PATH + "/key.pem"];
    var mounts := [Mount(DATA_STORAGE_FOLDER_PATH + "/crt.pem", parameters.crtPath, Bind, true),
                   Mount(DATA_STORAGE_FOLDER_PATH + "/key.pem", parameters.keyPath, Bind, true),
                   Mount(DATA_STORAGE_FOLDER_PATH, DataVolume(name), Volume, false)];
    ContainerConfig(IMAGE_REFERENCE, env, ServerContainerLabels(name, parameters), HostConfig(mounts, "host", UnlessStopped))
  }

  /** The labels written at creation read back, in a listing, as the container that was created. */
  lemma LabelsRoundTrip(id: string, name: string, parameters: ServerContainerParameters, imageId: Option<string>, state: Option<string>)
    ensures ContainerOfSummary(ContainerSummary(Some(id), imageId, state, Some(ServerContainerLabels(name, parameters))))
            == Some(ServerContainer(id, name, parameters.crtPath, parameters.keyPath, parameters.port))
  {
    ParseUnsignedOfDecimal(parameters.port, U16_LIMIT);
  }

  /**
   * `create_server_container`: the given name, or else a generated one
   * (`generated`); creates "mayo-<name>" with the configuration, starts it,
   * and returns the server container with the created id. The new container
   * carries the labels the listing filters on, and reads back as the
   * returned value.
   */
  method CreateServerContainer(
    parameters: ServerContainerParameters,
    name: Option<string>,
    generated: string,
    created: Result<string, EngineError>,
    started: Outcome<EngineError>)
    returns (r: Result<ServerContainer, Error>, calls: seq<Call>)
    ensures var chosen := if name.Some? then name.value else generated;
      |calls| >= 1 && calls[0] == CreateContainer("mayo-" + chosen, ServerContainerConfig(chosen, parameters))
      && (created.Failure? ==> r == Failure(Engine(created.error)) && |calls| == 1)
      && (created.Success? ==> calls == [calls[0], Call.StartContainer(created.value)])
      && (created.Success? && started.Fail? ==> r == Failure(Engine(started.error)))
      && (created.Success? && started.Pass? ==>
            r == Success(ServerContainer(created.value, chosen, parameters.crtPath, parameters.keyPath, parameters.port)))
    ensures r.Success? ==> calls[0].config.labels["version"] == VERSION && "name" in calls[0].config.labels
    ensures r.Success? ==> ContainerOfSummary(ContainerSummary(Some(r.value.id), None, None, Some(calls[0].config.labels))) == Some(r.value)
  {
    var chosen := if name.Some? then name.value else generated;
    var config := ServerContainerConfig(chosen, parameters);
    calls := [CreateContainer("mayo-" + chosen, config)];
    if created.Failure? {
      r := Failure(Engine(created.error));
      return;
    }
    calls := calls + [Call.StartContainer(created.value)];
    if started.Fail? {
      r := Failure(Engine(started.error));
      return;
    }
    LabelsRoundTrip(created.value, chosen, parameters, None, None);
    r := Success(ServerContainer(created.value, chosen, parameters.crtPath, parameters.keyPath, parameters.port));
  }

  // ---------------------------------------------------------------------------
  // Status and lifecycle
  // ---------------------------------------------------------------------------

  /** `get_container_status`: the state's status, or "unknown" when the engine reports none. */
  method GetContainerStatus(containerId: string, response: Result<ContainerInspect, EngineError>)
    returns (r: Result<string, Error>, calls: seq<Call>)
    ensures calls == [InspectContainer(containerId)]
    ensures response.Failure? ==> r == Failure(Context("failed to inspect the container", Engine(response.error)))
    ensures response.Success? ==> r.Success?
    ensures response.Success? && response.value.state.Some? && response.value.state.value.status.Some? ==>
      r.value == response.value.state.value.status.value
    ensures response.Success? && (response.value.state.None? || response.value.state.value.status.None?) ==>
      r.value == "unknown"
  {
    calls := [InspectContainer(containerId)];
    if response.Failure? {
      r := Failure(Context("failed to inspect the container", Engine(response.error)));
      return;
    }
    var status := "unknown";
    match response.value.state {
      case Some(state) =>
        if state.status.Some? {
          status := state.status.value;
        }
      case None =>
    }
    r := Success(status);
  }

  /** The outcome of a request whose only effect is the request itself: its error, unchanged. */
  function Forward(response: Outcome<EngineError>): (o: Outcome<Error>)
    ensures o.Fail? <==> response.Fail?
    ensures o.Fail? ==> o.error == Engine(response.error)
  {
    if response.Fail? then Fail(Engine(response.error)) else Pass
  }

  /** `restart_container`. */
  method RestartContainer(containerId: string, response: Outcome<EngineError>) returns (r: Outcome<Error>, calls: seq<Call>)
    ensures calls == [Call.RestartContainer(containerId)]
    ensures r.Fail? <==> response.Fail?
    ensures r.Fail? ==> r.error == Engine(response.error)
  {
    calls := [Call.RestartContainer(containerId)];
    r := Forward(response);
  }

  /** `stop_container`. */
  method StopContainer(containerId: string, response: Outcome<EngineError>) returns (r: Outcome<Error>, calls: seq<Call>)
    ensures calls == [Call.StopContainer(containerId)]
    ensures r.Fail? <==> response.Fail?
    ensures r.Fail? ==> r.error == Engine(response.error)
  {
    calls := [Call.StopContainer(containerId)];
    r := Forward(response);
  }

  /** `start_container`. */
  method StartContainer(containerId: string, response: Outcome<EngineError>) returns (r: Outcome<Error>, calls: seq<Call>)
    ensures calls == [Call.StartContainer(containerId)]
    ensures r.Fail? <==> response.Fail?
    ensures r.Fail? ==> r.error == Engine(response.error)
  {
    calls := [Call.StartContainer(containerId)];
    r := Forward(response);
  }

  /** `remove_container`: removal is forced. */
  method RemoveContainer(containerId: string, response: Outcome<EngineError>) returns (r: Outcome<Error>, calls: seq<Call>)
    ensures calls == [Call.RemoveContainer(containerId, true)]
    ensures r.Fail? <==> response.Fail?
    ensures r.Fail? ==> r.error == Engine(response.error)
  {
    calls := [Call.RemoveContainer(containerId, true)];
    r := Forward(response);
  }

  /**
   * `remove_server_container`: removes the container, then the data volume
   * it was created with; the volume is left alone when the container could
   * not be removed.
   */
  method RemoveServerContainer(container: ServerContainer, removed: Outcome<EngineError>, volumeRemoved: Outcome<EngineError>)
    returns (r: Outcome<Error>, calls: seq<Call>)
    ensures |calls| >= 1 && calls[0] == Call.RemoveContainer(container.id, true)
    ensures removed.Fail? ==> r == Fail(Context("failed to remove the container", Engine(removed.error))) && |calls| == 1
    ensures removed.Pass? ==> calls == [calls[0], RemoveVolume(DataVolume(container.name), true)]
    ensures removed.Pass? && volumeRemoved.Fail? ==> r == Fail(Context("failed to remove the volume", Engine(volumeRemoved.error)))
    ensures removed.Pass? && volumeRemoved.Pass? ==> r == Pass
    ensures removed.Pass? ==>
      calls[1].volumeName == ServerContainerConfig(container.name, ParametersOf(container)).hostConfig.mounts[2].source
  {
    var outcome;
    outcome, calls := RemoveContainer(container.id, removed);
    if outcome.Fail? {
      r := Fail(Context("failed to remove the container", outcome.error));
      return;
    }
    calls := calls + [RemoveVolume(DataVolume(container.name), true)];
    if volumeRemoved.Fail? {
      r := Fail(Context("failed to remove the volume", Engine(volumeRemoved.error)));
      return;
    }
    r := Pass;
  }

  // ---------------------------------------------------------------------------
  // Logs
  // ---------------------------------------------------------------------------

  /** Each payload decoded on its own, one after the other. */
  function DecodeEach(lossy: seq<byte> -> string, payloads: seq<seq<byte>>): (texts: seq<string>)
    ensures |texts| == |payloads| && forall i :: 0 <= i < |payloads| ==> texts[i] == lossy(payloads[i])
  {
    if payloads == [] then [] else DecodeEach(lossy, payloads[..|payloads| - 1]) + [lossy(payloads[|payloads| - 1])]
  }

  /**
   * The logs a log stream yields: the first error read, or the standard
   * output and standard error chunks, each decoded with `lossy`, joined.
   */
  function LogsOf(lossy: seq<byte> -> string, stream: seq<Result<LogOutput, EngineError>>): Result<string, Error>
  {
    match FirstFailure(stream)
    case Some(i) => Failure(Engine(stream[i].error))
    case None => Success(Concat(DecodeEach(lossy, Payloads(Values(stream)))))
  }

  /** The decoded texts of two runs of payloads, one after the other. */
  lemma {:induction false} DecodeEachAppend(lossy: seq<byte> -> string, a: seq<seq<byte>>, b: seq<seq<byte>>)
    ensures DecodeEach(lossy, a + b) == DecodeEach(lossy, a) + DecodeEach(lossy, b)
  {
  }

  /**
   * The logs of two error-free runs of chunks read one after the other are
   * the logs of each: every chunk is decoded on its own, so where the engine
   * splits the output into chunks decides where decoding restarts, and
   * nothing else.
   */
  lemma LogsOfAppend(lossy: seq<byte> -> string, a: seq<Result<LogOutput, EngineError>>, b: seq<Result<LogOutput, EngineError>>)
    requires forall j :: 0 <= j < |a| ==> a[j].Success?
    requires forall j :: 0 <= j < |b| ==> b[j].Success?
    ensures LogsOf(lossy, a + b) == Success(LogsOf(lossy, a).value + LogsOf(lossy, b).value)
  {
    NoFailure(a);
    NoFailure(b);
    NoFailure(a + b);
    ValuesAppend(a, b);
    PayloadsAppend(Values(a), Values(b));
    DecodeEachAppend(lossy, Payloads(Values(a)), Payloads(Values(b)));
    ConcatAppend(DecodeEach(lossy, Payloads(Values(a))), DecodeEach(lossy, Payloads(Values(b))));
  }

  /** The text of one more chunk read: its decoded payload, or nothing. */
  lemma ChunkText(lossy: seq<byte> -> string, chunk: LogOutput)
    ensures Concat(DecodeEach(lossy, Payloads([chunk]))) == if IsPayload(chunk) then lossy(chunk.message) else []
  {
    PayloadsSingle(chunk);
  }

  /** One more chunk read by the log loop. */
  lemma LogsStep(lossy: seq<byte> -> string, stream: seq<Result<LogOutput, EngineError>>, i: nat)
    requires i < |stream| && forall j :: 0 <= j <= i ==> stream[j].Success?
    ensures Concat(DecodeEach(lossy, Payloads(Values(stream[..i + 1])))) ==
      Concat(DecodeEach(lossy, Payloads(Values(stream[..i])))) + (if IsPayload(stream[i].value) then lossy(stream[i].value.message) else [])
  {
    var chunk := stream[i].value;
    assert stream[..i + 1] == stream[..i] + [Success(chunk)];
    LogsOfAppend(lossy, stream[..i], [Success(chunk)]);
    ChunkText(lossy, chunk);
    assert Values([Success(chunk)]) == [chunk];
    NoFailure(stream[..i]);
    NoFailure(stream[..i + 1]);
  }

  /**
   * `get_container_logs`: requests the whole log, both output streams,
   * without following or timestamps, and appends each payload chunk decoded
   * on its own.
   */
  method GetContainerLogs(containerId: string, stream: seq<Result<LogOutput, EngineError>>, lossy: seq<byte> -> string)
    returns (r: Result<string, Error>, calls: seq<Call>)
    ensures calls == [Logs(containerId, true, true, false, false, "all")]
    ensures r == LogsOf(lossy, stream)
  {
    calls := [Logs(containerId, true, true, false, false, "all")];
    var logs := "";
    var i := 0;
    while i < |stream|
      invariant 0 <= i <= |stream|
      invariant forall j :: 0 <= j < i ==> stream[j].Success?
      invariant logs == Concat(DecodeEach(lossy, Payloads(Values(stream[..i]))))
    {
      if stream[i].Failure? {
        FirstFailureAt(stream, i);
        r := Failure(Engine(stream[i].error));
        return;
      }
      LogsStep(lossy, stream, i);
      var chunk := stream[i].value;
      if IsPayload(chunk) {
        logs := logs + lossy(chunk.message);
      }
      i := i + 1;
    }
    assert stream[..i] == stream;
    NoFailure(stream);
    r := Success(logs);
  }

  // ---------------------------------------------------------------------------
  // Scripts run inside a server: the invite store
  // ---------------------------------------------------------------------------

  /** The bytes an exec stream yields: the first error read, or the payload chunks' bytes joined. */
  function ExecOutput(stream: seq<Result<LogOutput, EngineError>>): Result<seq<byte>, Error>
  {
    match FirstFailure(stream)
    case Some(i) => Failure(Engine(stream[i].error))
    case None => Success(Concat(Payloads(Values(stream))))
  }

  /**
   * The output of two error-free runs of chunks read one after the other is
   * the output of each: the bytes are joined before anything decodes them.
   */
  lemma ExecOutputAppend(a: seq<Result<LogOutput, EngineError>>, b: seq<Result<LogOutput, EngineError>>)
    requires forall j :: 0 <= j < |a| ==> a[j].Success?
    requires forall j :: 0 <= j < |b| ==> b[j].Success?
    ensures ExecOutput(a + b) == Success(ExecOutput(a).value + ExecOutput(b).value)
  {
    NoFailure(a);
    NoFailure(b);
    NoFailure(a + b);
    ValuesAppend(a, b);
    PayloadsAppend(Values(a), Values(b));
    ConcatAppend(Payloads(Values(a)), Payloads(Values(b)));
  }

  /** One more chunk read by the output loop. */
  lemma OutputStep(stream: seq<Result<LogOutput, EngineError>>, i: nat)
    requires i < |stream| && forall j :: 0 <= j <= i ==> stream[j].Success?
    ensures Concat(Payloads(Values(stream[..i + 1]))) ==
      Concat(Payloads(Values(stream[..i]))) + (if IsPayload(stream[i].value) then stream[i].value.message else [])
  {
    var chunk := stream[i].value;
    assert stream[..i + 1] == stream[..i] + [Success(chunk)];
    ExecOutputAppend(stream[..i], [Success(chunk)]);
    assert Values([Success(chunk)]) == [chunk];
    PayloadsSingle(chunk);
    NoFailure(stream[..i]);
    NoFailure(stream[..i + 1]);
  }

  /** Reads an attached exec stream to its end, collecting the payload bytes; the first error ends it. */
  method DrainOutput(stream: seq<Result<LogOutput, EngineError>>) returns (r: Result<seq<byte>, Error>)
    ensures r == ExecOutput(stream)
  {
    var output := [];
    var i := 0;
    while i < |stream|
      invariant 0 <= i <= |stream|
      invariant forall j :: 0 <= j < i ==> stream[j].Success?
      invariant output == Concat(Payloads(Values(stream[..i])))
    {
      if stream[i].Failure? {
        FirstFailureAt(stream, i);
        r := Failure(Engine(stream[i].error));
        return;
      }
      OutputStep(stream, i);
      var chunk := stream[i].value;
      if IsPayload(chunk) {
        output := output + chunk.message;
      }
      i := i + 1;
    }
    assert stream[..i] == stream;
    NoFailure(stream);
    r := Success(output);
  }

  /** The error of an exec that started detached, with no output to read. */
  const DETACHED := Message("exec process detached")

  /** The bytes a script run yields, from the engine's responses to creating and starting the exec. */
  function ScriptOutput(exec: Result<string, EngineError>, start: Result<ExecStart, EngineError>): Result<seq<byte>, Error>
  {
    if exec.Failure? then Failure(Engine(exec.error))
    else if start.Failure? then Failure(Engine(start.error))
    else match start.value
      case Detached => Failure(DETACHED)
      case Attached(output) => ExecOutput(output)
  }

  /**
   * Runs `bun -e <script>` in the container with both output streams
   * attached, starts it, and reads its output: the part the three invite
   * operations share.
   */
  method RunScript(containerId: string, script: string, exec: Result<string, EngineError>, start: Result<ExecStart, EngineError>)
    returns (r: Result<seq<byte>, Error>, calls: seq<Call>)
    ensures |calls| >= 1 && calls[0] == CreateExec(containerId, ["bun", "-e", script], true, true)
    ensures exec.Failure? ==> |calls| == 1
    ensures exec.Success? ==> calls == [calls[0], StartExec(exec.value)]
    ensures r == ScriptOutput(exec, start)
  {
    calls := [CreateExec(containerId, ["bun", "-e", script], true, true)];
    if exec.Failure? {
      r := Failure(Engine(exec.error));
      return;
    }
    calls := calls + [StartExec(exec.value)];
    if start.Failure? {
      r := Failure(Engine(start.error));
      return;
    }
    match start.value {
      case Detached => r := Failure(DETACHED);
      case Attached(output) => r := DrainOutput(output);
    }
  }

  /** `uses` as the script's literal: the number in decimal, or `null` for unlimited. */
  function RenderUses(uses: Option<u32>): (s: string)
    ensures ',' !in s
    ensures uses.Some? ==> ParseDecimal(s) == Some(uses.value as nat)
    ensures uses.None? ==> s == "null" && ParseDecimal(s).None?
  {
    match uses
    case None => "null"
    case Some(n) =>
      ParseDecimalOfDecimal(n);
      NatToDecimal(n)
  }

  /** Different `uses` values render differently. */
  lemma RenderUsesInjective(a: Option<u32>, b: Option<u32>)
    requires RenderUses(a) == RenderUses(b)
    ensures a == b
  {
  }

  /** The text of the invite-creation script before the `uses` value. */
  const CREATE_INVITE_SCRIPT_HEAD: string
  /** The text of the invite-creation script after the `perms` value and its line break. */
  const CREATE_INVITE_SCRIPT_TAIL: string

  /** The text between the `uses` and `perms` arguments: a comma, then a comment line and the indentation of the next argument. */
  const CREATE_INVITE_SCRIPT_MIDDLE := ",\n    //\n    "

  /** The invite-creation script: `uses` and `perms` are its second and third insert arguments. */
  function CreateInviteScript(uses: Option<u32>, perms: u32): string
  {
    CREATE_INVITE_SCRIPT_HEAD + (RenderUses(uses) + CREATE_INVITE_SCRIPT_MIDDLE + (NatToDecimal(perms) + ['\n'] + CREATE_INVITE_SCRIPT_TAIL))
  }

  lemma PrefixCancel(h: string, a: string, b: string)
    requires h + a == h + b
    ensures a == b
  {
    assert a == (h + a)[|h|..];
    assert b == (h + b)[|h|..];
  }

  lemma SeparatorCancel(a1: string, b1: string, a2: string, b2: string, c: char)
    requires c !in a1 && c !in a2 && a1 + [c] + b1 == a2 + [c] + b2
    ensures a1 == a2 && b1 == b2
  {
    SplitOnceOfJoin(a1, c, b1);
    SplitOnceOfJoin(a2, c, b2);
  }

  /** A script spliced from the same pieces around separator-free arguments determines both arguments. */
  lemma SpliceCancel(h: string, m: string, t: string, a1: string, b1: string, a2: string, b2: string)
    requires |m| > 0 && m[0] !in a1 && m[0] !in a2 && '\n' !in b1 && '\n' !in b2
    requires h + (a1 + m + (b1 + ['\n'] + t)) == h + (a2 + m + (b2 + ['\n'] + t))
    ensures a1 == a2 && b1 == b2
  {
    var rest1 := b1 + ['\n'] + t;
    var rest2 := b2 + ['\n'] + t;
    PrefixCancel(h, a1 + m + rest1, a2 + m + rest2);
    assert a1 + m + rest1 == a1 + [m[0]] + (m[1..] + rest1);
    assert a2 + m + rest2 == a2 + [m[0]] + (m[1..] + rest2);
    SeparatorCancel(a1, m[1..] + rest1, a2, m[1..] + rest2, m[0]);
    PrefixCancel(m[1..], rest1, rest2);
    SeparatorCancel(b1, t, b2, t, '\n');
  }

  /** The script determines the invite it creates: no two choices of `uses` and `perms` give the same script. */
  lemma CreateInviteScriptInjective(u1: Option<u32>, p1: u32, u2: Option<u32>, p2: u32)
    requires CreateInviteScript(u1, p1) == CreateInviteScript(u2, p2)
    ensures u1 == u2 && p1 == p2
  {
    var d1, d2 := NatToDecimal(p1), NatToDecimal(p2);
    assert '\n' !in d1 && '\n' !in d2;
    assert CREATE_INVITE_SCRIPT_MIDDLE[0] == ',';
    SpliceCancel(CREATE_INVITE_SCRIPT_HEAD, CREATE_INVITE_SCRIPT_MIDDLE, CREATE_INVITE_SCRIPT_TAIL, RenderUses(u1), d1, RenderUses(u2), d2);
    RenderUsesInjective(u1, u2);
    NatToDecimalInjective(p1, p2);
  }

  /**
   * `create_invite`: runs the invite-creation script and returns what it
   * prints, the new invite's id, decoded as a whole with `lossy` and
   * trimmed.
   */
  method CreateInvite(
    containerId: string, uses: Option<u32>, perms: u32,
    exec: Result<string, EngineError>, start: Result<ExecStart, EngineError>, lossy: seq<byte> -> string)
    returns (r: Result<string, Error>, calls: seq<Call>)
    ensures |calls| >= 1 && calls[0] == CreateExec(containerId, ["bun", "-e", CreateInviteScript(uses, perms)], true, true)
    ensures ScriptOutput(exec, start).Failure? ==> r == Failure(ScriptOutput(exec, start).error)
    ensures ScriptOutput(exec, start).Success? ==> r == Success(Trim(lossy(ScriptOutput(exec, start).value)))
  {
    var output;
    output, calls := RunScript(containerId, CreateInviteScript(uses, perms), exec, start);
    if output.Failure? {
      r := Failure(output.error);
      return;
    }
    r := Success(Trim(lossy(output.value)));
  }

  /** An invite as stored in a server: its id, the uses left (none for unlimited) and its permission bits. */
  datatype Invite = Invite(id: string, uses: Option<u32>, perms: u32)

  /** The invite-listing script, which prints every invite as JSON. */
  const GET_INVITES_SCRIPT: string

  /**
   * `get_invites`: runs the listing script and decodes what it prints,
   * decoded as a whole with `lossy`, with `decode` (the JSON reader); output
   * that does not decode is an error.
   */
  method GetInvites(
    containerId: string, exec: Result<string, EngineError>, start: Result<ExecStart, EngineError>,
    lossy: seq<byte> -> string, decode: string -> Option<seq<Invite>>)
    returns (r: Result<seq<Invite>, Error>, calls: seq<Call>)
    ensures |calls| >= 1 && calls[0] == CreateExec(containerId, ["bun", "-e", GET_INVITES_SCRIPT], true, true)
    ensures ScriptOutput(exec, start).Failure? ==> r == Failure(ScriptOutput(exec, start).error)
    ensures ScriptOutput(exec, start).Success? ==>
      var decoded := decode(lossy(ScriptOutput(exec, start).value));
      (decoded.None? ==> r == Failure(Context("failed to parse invites", Decode)))
      && (decoded.Some? ==> r == Success(decoded.value))
  {
    var output;
    output, calls := RunScript(containerId, GET_INVITES_SCRIPT, exec, start);
    if output.Failure? {
      r := Failure(output.error);
      return;
    }
    match decode(lossy(output.value)) {
      case None => r := Failure(Context("failed to parse invites", Decode));
      case Some(invites) => r := Success(invites);
    }
  }

  /** The text of the invite-deletion script before and after the quoted invite id. */
  const DELETE_INVITE_SCRIPT_HEAD: string
  const DELETE_INVITE_SCRIPT_TAIL: string

  function DeleteInviteScript(inviteId: string): string
  {
    DELETE_INVITE_SCRIPT_HEAD + inviteId + DELETE_INVITE_SCRIPT_TAIL
  }

  /** `delete_invite`: runs the deletion script and reads its output to the end, discarding it. */
  method DeleteInvite(
    containerId: string, inviteId: string, exec: Result<string, EngineError>, start: Result<ExecStart, EngineError>)
    returns (r: Outcome<Error>, calls: seq<Call>)
    ensures |calls| >= 1 && calls[0] == CreateExec(containerId, ["bun", "-e", DeleteInviteScript(inviteId)], true, true)
    ensures r.Fail? <==> ScriptOutput(exec, start).Failure?
    ensures r.Fail? ==> r.error == ScriptOutput(exec, start).error
  {
    var output;
    output, calls := RunScript(containerId, DeleteInviteScript(inviteId), exec, start);
    if output.Failure? {
      r := Fail(output.error);
      return;
    }
    r := Pass;
  }

  // ---------------------------------------------------------------------------
  // Updating a server
  // ---------------------------------------------------------------------------

  /**
   * `update_container`: removes the container (keeping its data volume),
   * pulls the image again, and creates and starts a container with the same
   * name, paths and port, so that the new container mounts the same data
   * volume.
   */
  method UpdateContainer(
    container: ServerContainer,
    removed: Outcome<EngineError>,
    pull: seq<Result<CreateImageInfo, EngineError>>,
    created: Result<string, EngineError>,
    started: Outcome<EngineError>)
    returns (r: Result<ServerContainer, Error>, calls: seq<Call>)
    ensures |calls| >= 1 && calls[0] == Call.RemoveContainer(container.id, true)
    ensures removed.Fail? ==> r == Failure(Engine(removed.error)) && |calls| == 1
    ensures removed.Pass? ==> |calls| >= 2 && calls[1] == CreateImage(IMAGE_REFERENCE)
    ensures removed.Pass? && StreamOutcome(pull).Fail? ==> r == Failure(StreamOutcome(pull).error) && |calls| == 2
    ensures removed.Pass? && StreamOutcome(pull).Pass? ==>
      |calls| >= 3 && calls[2] == CreateContainer("mayo-" + container.name, ServerContainerConfig(container.name, ParametersOf(container)))
      && (created.Failure? ==> r == Failure(Engine(created.error)) && |calls| == 3)
      && (created.Success? ==> calls[3..] == [Call.StartContainer(created.value)])
      && (created.Success? && started.Fail? ==> r == Failure(Engine(started.error)))
      && (created.Success? && started.Pass? ==> r == Success(container.(id := created.value)))
    ensures forall j :: 0 <= j < |calls| ==> !calls[j].RemoveVolume?
  {
    var outcome;
    outcome, calls := RemoveContainer(container.id, removed);
    if outcome.Fail? {
      r := Failure(outcome.error);
      return;
    }
    var pulled, _, pullCalls := PullServerImage(pull);
    calls := calls + pullCalls;
    if pulled.Fail? {
      r := Failure(pulled.error);
      return;
    }
    var createCalls;
    r, createCalls := CreateServerContainer(ParametersOf(container), Some(container.name), container.name, created, started);
    calls := calls + createCalls;
  }
}
