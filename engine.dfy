/**
 * The container engine as the core sees it: the records it receives from the
 * engine (container and image summaries, image inspection, image-pull
 * progress events, log and exec output chunks), the configuration it sends,
 * the requests it issues (recorded as a trace of `Call`s), and the error
 * values it reports. The engine's own behaviour is not modelled: every
 * response enters an operation as an input.
 */
module Engine {
  import opened Wrappers

  type LabelMap = map<string, string>

  /** An error reported by the engine client. */
  datatype EngineError = EngineError(message: string)

  /** An error reported by the registry client (src/registry.rs is not part of this model). */
  datatype RegistryError = RegistryUnavailable

  /**
   * An error value of the core (an `anyhow::Error`): an engine error, a
   * registry error, a decoding failure, an error created from a message, or
   * one of those with a context message wrapped around it.
   */
  datatype Error =
    | Engine(cause: EngineError)
    | Registry(registryCause: RegistryError)
    | Decode
    | Message(text: string)
    | Context(context: string, inner: Error)

  datatype ContainerSummary = ContainerSummary(
    id: Option<string>,
    imageId: Option<string>,
    state: Option<string>,
    labels: Option<LabelMap>)

  datatype ImageSummary = ImageSummary(id: string)

  datatype ImageInspect = ImageInspect(repoTags: Option<seq<string>>)

  datatype ContainerState = ContainerState(status: Option<string>)

  datatype ContainerInspect = ContainerInspect(state: Option<ContainerState>)

  datatype ProgressDetail = ProgressDetail(current: Option<int>, total: Option<int>)

  /** One message of an image pull. */
  datatype CreateImageInfo = CreateImageInfo(id: Option<string>, status: Option<string>, progressDetail: Option<ProgressDetail>)

  newtype byte = x: int | 0 <= x < 256

  /** One chunk of container log or exec output. */
  datatype LogOutput =
    | StdErr(message: seq<byte>)
    | StdOut(message: seq<byte>)
    | StdIn(message: seq<byte>)
    | Console(message: seq<byte>)

  /** The result of starting an exec: its output stream, or detached. */
  datatype ExecStart = Attached(output: seq<Result<LogOutput, EngineError>>) | Detached

  datatype MountType = Bind | Volume

  datatype Mount = Mount(target: string, source: string, typ: MountType, readOnly: bool)

  datatype RestartPolicy = UnlessStopped

  datatype HostConfig = HostConfig(mounts: seq<Mount>, networkMode: string, restartPolicy: RestartPolicy)

  datatype ContainerConfig = ContainerConfig(image: string, env: seq<string>, labels: LabelMap, hostConfig: HostConfig)

  /** A request issued to the engine. */
  datatype Call =
    | ListContainers(all: bool, filters: map<string, seq<string>>)
    | ListImages(reference: string)
    | InspectImage(imageId: string)
    | CreateImage(fromImage: string)
    | CreateContainer(name: string, config: ContainerConfig)
    | StartContainer(containerId: string)
    | RestartContainer(containerId: string)
    | StopContainer(containerId: string)
    | InspectContainer(containerId: string)
    | RemoveContainer(containerId: string, force: bool)
    | RemoveVolume(volumeName: string, force: bool)
    | Logs(containerId: string, stdout: bool, stderr: bool, follow: bool, timestamps: bool, tail: string)
    | CreateExec(containerId: string, cmd: seq<string>, attachStdout: bool, attachStderr: bool)
    | StartExec(execId: string)

  // ---------------------------------------------------------------------------
  // Streams: a stream of results is read until it ends or yields an error
  // ---------------------------------------------------------------------------

  /** The position of the first error in a stream, if there is one. */
  function FirstFailure<T>(s: seq<Result<T, EngineError>>): (r: Option<nat>)
    ensures r.Some? ==> r.value < |s| && s[r.value].Failure? && forall j :: 0 <= j < r.value ==> s[j].Success?
    ensures r.None? ==> forall j :: 0 <= j < |s| ==> s[j].Success?
  {
    if s == [] then None
    else if s[0].Failure? then Some(0)
    else match FirstFailure(s[1..])
      case None => None
      case Some(i) => Some(i + 1)
  }

  /** A stream whose first error is at `i` reports `i`. */
  lemma {:induction false} FirstFailureAt<T>(s: seq<Result<T, EngineError>>, i: nat)
    requires i < |s| && s[i].Failure? && forall j :: 0 <= j < i ==> s[j].Success?
    ensures FirstFailure(s) == Some(i)
  {
    if i > 0 {
      FirstFailureAt(s[1..], i - 1);
    }
  }

  /** The items of a stream in which no error occurs. */
  function Values<T>(s: seq<Result<T, EngineError>>): (vs: seq<T>)
    requires forall j :: 0 <= j < |s| ==> s[j].Success?
    ensures |vs| == |s| && forall j :: 0 <= j < |s| ==> vs[j] == s[j].value
  {
    if s == [] then [] else Values(s[..|s| - 1]) + [s[|s| - 1].value]
  }

  /** The items read from a stream before its first error (all of them if it has none). */
  function ValuesBeforeFailure<T>(s: seq<Result<T, EngineError>>): (vs: seq<T>)
    ensures FirstFailure(s).Some? ==> |vs| == FirstFailure(s).value
    ensures FirstFailure(s).None? ==> |vs| == |s|
    ensures forall j :: 0 <= j < |vs| ==> s[j] == Success(vs[j])
  {
    match FirstFailure(s)
    case None => Values(s)
    case Some(i) => Values(s[..i])
  }

  // ---------------------------------------------------------------------------
  // Output chunks
  // ---------------------------------------------------------------------------

  /** Standard output and standard error carry payload; the other chunk kinds are ignored. */
  predicate IsPayload(o: LogOutput) { o.StdOut? || o.StdErr? }

  /** The payloads of a sequence of chunks, in order. */
  function Payloads(os: seq<LogOutput>): (ps: seq<seq<byte>>)
    ensures |ps| <= |os|
  {
    if os == [] then []
    else Payloads(os[..|os| - 1]) + (if IsPayload(os[|os| - 1]) then [os[|os| - 1].message] else [])
  }

  /** The payloads of two runs of chunks are the payloads of each, one after the other. */
  lemma {:induction false} PayloadsAppend(a: seq<LogOutput>, b: seq<LogOutput>)
    ensures Payloads(a + b) == Payloads(a) + Payloads(b)
    decreases |b|
  {
    if b != [] {
      var n := |b| - 1;
      assert (a + b)[..|a + b| - 1] == a + b[..n];
      assert (a + b)[|a + b| - 1] == b[n];
      PayloadsAppend(a, b[..n]);
    } else {
      assert a + b == a;
    }
  }

  /** A single chunk contributes its message when it is a payload and nothing otherwise. */
  lemma PayloadsSingle(o: LogOutput)
    ensures Payloads([o]) == if IsPayload(o) then [o.message] else []
  {
    assert [o][..0] == [];
  }

  /** A stream read without error up to its end holds no error. */
  lemma NoFailure<T>(s: seq<Result<T, EngineError>>)
    requires forall j :: 0 <= j < |s| ==> s[j].Success?
    ensures FirstFailure(s).None?
  {
  }

  /** Reading one more item appends it to the items read. */
  lemma ValuesSnoc<T>(s: seq<Result<T, EngineError>>, x: T)
    requires forall j :: 0 <= j < |s| ==> s[j].Success?
    ensures Values(s + [Success(x)]) == Values(s) + [x]
  {
    assert (s + [Success(x)])[..|s|] == s;
  }

  /** The items of two error-free streams read one after the other. */
  lemma {:induction false} ValuesAppend<T>(a: seq<Result<T, EngineError>>, b: seq<Result<T, EngineError>>)
    requires forall j :: 0 <= j < |a| ==> a[j].Success?
    requires forall j :: 0 <= j < |b| ==> b[j].Success?
    ensures Values(a + b) == Values(a) + Values(b)
    decreases |b|
  {
    if b == [] {
      assert a + b == a;
    } else {
      var n := |b| - 1;
      assert a + b == (a + b[..n]) + [b[n]];
      ValuesAppend(a, b[..n]);
      ValuesSnoc(a + b[..n], b[n].value);
      ValuesSnoc(b[..n], b[n].value);
      assert b[..n] + [b[n]] == b;
    }
  }

  /** The pieces joined, in order. */
  function Concat<T>(pieces: seq<seq<T>>): (r: seq<T>)
    ensures |pieces| == 1 ==> r == pieces[0]
  {
    if pieces == [] then [] else Concat(pieces[..|pieces| - 1]) + pieces[|pieces| - 1]
  }

  /** Joining two runs of pieces joins their joins. */
  lemma {:induction false} ConcatAppend<T>(a: seq<seq<T>>, b: seq<seq<T>>)
    ensures Concat(a + b) == Concat(a) + Concat(b)
    decreases |b|
  {
    if b == [] {
      assert a + b == a;
    } else {
      var n := |b| - 1;
      assert (a + b)[..|a + b| - 1] == a + b[..n];
      assert (a + b)[|a + b| - 1] == b[n];
      ConcatAppend(a, b[..n]);
    }
  }
}
