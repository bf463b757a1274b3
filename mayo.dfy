/**
 * The engine bridge of the current tool (src/mayo.rs): resolving an app
 * version to a local image (looking it up, pulling it when missing), pulling
 * with a per-layer progress record, deriving a new server's container
 * configuration, and listing the managed servers with the two-phase
 * compatibility filter.
 *
 * Engine responses are inputs: a list-images response per lookup, a stream of
 * pull messages per pull, and image inspection as a function of the image id.
 * Every operation returns the trace of requests it issued.
 */
module Mayo {
  import opened Wrappers
  import opened Text
  import opened Seqs
  import opened Labels
  import opened Versioning
  import opened Engine
  import opened Progress
  import opened Params
  import opened Servers

  // ---------------------------------------------------------------------------
  // Image references
  // ---------------------------------------------------------------------------

  /** src/registry.rs's registry, user name and repository. */
  const REGISTRY := "ghcr.io"
  const USERNAME := "mayo-dayo"
  const REPOSITORY := "app"

  /** The image of an app version: "<registry>/<user>/<repository>:<version>". */
  function ImageReference(v: Version): string
  {
    REGISTRY + "/" + USERNAME + "/" + REPOSITORY + ":" + Render(v)
  }

  /** The tag of a repo tag: the text after its first ':' (none when there is no ':'). */
  function RepoTagToTag(repoTag: string): Option<string>
  {
    match SplitOnce(repoTag, ':')
    case None => None
    case Some((_, tag)) => Some(tag)
  }

  function RepoTagsToTags(repoTags: seq<string>): (tags: seq<string>)
    ensures |tags| <= |repoTags|
  {
    if repoTags == [] then []
    else (match RepoTagToTag(repoTags[0]) case None => [] case Some(t) => [t]) + RepoTagsToTags(repoTags[1..])
  }

  /** The reference of a version carries that version as its tag, so an image pulled by it is recognised as that version. */
  lemma ImageReferenceTag(v: Version)
    requires WellFormed(v)
    ensures RepoTagToTag(ImageReference(v)) == Some(Render(v))
    ensures Parse(RepoTagToTag(ImageReference(v)).value) == Some(v)
  {
    var head := REGISTRY + "/" + USERNAME + "/" + REPOSITORY;
    assert ':' !in head;
    assert ImageReference(v) == head + [':'] + Render(v);
    SplitOnceOfJoin(head, ':', Render(v));
    ParseRender(v);
  }

  /** An image tagged with the reference of a `^0.3` version is an image with a compatible tag. */
  lemma ImageOfCompatibleVersionIsCompatible(v: Version)
    requires WellFormed(v) && IsCompatibleAppVersion(v)
    ensures TagsToCompatibleAppVersions(RepoTagsToTags([ImageReference(v)])) == [v]
  {
    ImageReferenceTag(v);
    assert RepoTagsToTags([ImageReference(v)]) == [Render(v)];
    assert [Render(v)][1..] == [];
  }

  // ---------------------------------------------------------------------------
  // Finding and pulling an image
  // ---------------------------------------------------------------------------

  /**
   * `find_existing_image_by_reference`: the id of the last image the engine
   * lists for the reference, none when it lists none.
   */
  function FindExistingImageByReference(response: Result<seq<ImageSummary>, EngineError>): (r: Result<Option<string>, Error>)
    ensures response.Failure? ==> r == Failure(Context("failed to list images", Engine(response.error)))
    ensures response.Success? ==> r.Success? && (r.value.None? <==> response.value == [])
    ensures response.Success? && response.value != [] ==> r.value == Some(response.value[|response.value| - 1].id)
  {
    match response
    case Failure(e) => Failure(Context("failed to list images", Engine(e)))
    case Success(images) => if images == [] then Success(None) else Success(Some(images[|images| - 1].id))
  }

  /** The outcome of reading a pull stream: the first error read, if any. */
  function PullOutcome(stream: seq<Result<CreateImageInfo, EngineError>>): (o: Outcome<Error>)
    ensures o.Fail? <==> FirstFailure(stream).Some?
  {
    match FirstFailure(stream)
    case None => Pass
    case Some(i) => Fail(Context("failed to read a message", Engine(stream[i].error)))
  }

  /** The messages `pull_image` reads, those before the first error, meet the rule's precondition. */
  predicate PullStreamAdmissible(stream: seq<Result<CreateImageInfo, EngineError>>)
  {
    AllAdmissible(Mayo, ValuesBeforeFailure(stream))
  }

  lemma ValuesAdmissible(flavour: Flavour, stream: seq<Result<CreateImageInfo, EngineError>>, i: nat)
    requires i <= |stream| && forall j :: 0 <= j < i ==> stream[j].Success?
    requires flavour == Mayo ==> PullStreamAdmissible(stream)
    ensures AllAdmissible(flavour, Values(stream[..i]))
  {
    var vs := Values(stream[..i]);
    var before := ValuesBeforeFailure(stream);
    assert i <= |before| by {
      if FirstFailure(stream).Some? {
        assert stream[FirstFailure(stream).value].Failure?;
      }
    }
    forall j | 0 <= j < |vs| ensures Admissible(flavour, vs[j]) {
      assert stream[..i][j] == stream[j];
      assert vs[j] == before[j];
    }
  }

  /**
   * `pull_image`: requests the image and reads the message stream to its
   * end, keeping one bar per layer id; the first error read ends the pull
   * with that error. The returned map is the layer record after the messages
   * read.
   */
  method PullImage(reference: string, stream: seq<Result<CreateImageInfo, EngineError>>)
    returns (outcome: Outcome<Error>, layers: map<string, Bar>, calls: seq<Call>)
    requires PullStreamAdmissible(stream)
    ensures calls == [CreateImage(reference)]
    ensures outcome == PullOutcome(stream)
    ensures AllAdmissible(Mayo, ValuesBeforeFailure(stream))
    ensures layers == Apply(Mayo, map[], ValuesBeforeFailure(stream))
  {
    calls := [CreateImage(reference)];
    layers := map[];
    var i := 0;
    ValuesAdmissible(Mayo, stream, 0);
    while i < |stream|
      invariant 0 <= i <= |stream|
      invariant forall j :: 0 <= j < i ==> stream[j].Success?
      invariant AllAdmissible(Mayo, Values(stream[..i]))
      invariant layers == Apply(Mayo, map[], Values(stream[..i]))
    {
      if stream[i].Failure? {
        assert FirstFailure(stream) == Some(i) by { FirstFailureAt(stream, i); }
        outcome := Fail(Context("failed to read a message", Engine(stream[i].error)));
        return;
      }
      var info := stream[i].value;
      assert stream[..i + 1][..i] == stream[..i];
      ValuesAdmissible(Mayo, stream, i + 1);
      layers := Step(Mayo, layers, info);
      i := i + 1;
    }
    assert stream[..i] == stream;
    outcome := Pass;
  }

  /** The error of a failed resolution that ran out of engine responses (see README). */
  const OUT_OF_RESPONSES := Message("no further engine response")

  predicate PullsAdmissible(pulls: seq<seq<Result<CreateImageInfo, EngineError>>>)
  {
    forall k :: 0 <= k < |pulls| ==> PullStreamAdmissible(pulls[k])
  }

  /**
   * The result of `version_to_image` from lookup `k` on: a lookup error
   * fails, a hit returns the id found, a miss pulls and looks again; a failed
   * pull fails.
   */
  function ResolveImage(lookups: seq<Result<seq<ImageSummary>, EngineError>>, pulls: seq<seq<Result<CreateImageInfo, EngineError>>>, k: nat): Result<string, Error>
    decreases |lookups| - k
  {
    if k >= |lookups| then Failure(OUT_OF_RESPONSES)
    else match FindExistingImageByReference(lookups[k])
      case Failure(e) => Failure(Context("failed to look for an existing image", e))
      case Success(Some(id)) => Success(id)
      case Success(None) =>
        if k >= |pulls| then Failure(OUT_OF_RESPONSES)
        else match PullOutcome(pulls[k])
          case Fail(e) => Failure(Context("failed to pull the image", e))
          case Pass => ResolveImage(lookups, pulls, k + 1)
  }

  /** Lookup `n` reported `id` as its last image, and every round from `k` up to it missed and pulled successfully. */
  predicate ReportedAt(lookups: seq<Result<seq<ImageSummary>, EngineError>>, pulls: seq<seq<Result<CreateImageInfo, EngineError>>>,
                       k: nat, n: nat, id: string)
  {
    k <= n < |lookups| && lookups[n].Success? && lookups[n].value != []
    && id == lookups[n].value[|lookups[n].value| - 1].id
    && (forall j :: k <= j < n ==> lookups[j] == Success([]) && j < |pulls| && PullOutcome(pulls[j]) == Pass)
  }

  /** The id a resolution returns is one a lookup reported, after misses only, each followed by a successful pull. */
  lemma {:induction false} ResolveImageReported(lookups: seq<Result<seq<ImageSummary>, EngineError>>, pulls: seq<seq<Result<CreateImageInfo, EngineError>>>, k: nat)
    requires ResolveImage(lookups, pulls, k).Success?
    ensures exists n :: ReportedAt(lookups, pulls, k, n, ResolveImage(lookups, pulls, k).value)
    decreases |lookups| - k
  {
    var id := ResolveImage(lookups, pulls, k).value;
    if lookups[k] != Success([]) {
      assert lookups[k].Success? && lookups[k].value != [];
      assert ReportedAt(lookups, pulls, k, k, id);
    } else {
      assert FindExistingImageByReference(lookups[k]) == Success(None);
      assert k < |pulls| && PullOutcome(pulls[k]) == Pass;
      assert ResolveImage(lookups, pulls, k) == ResolveImage(lookups, pulls, k + 1);
      ResolveImageReported(lookups, pulls, k + 1);
      var n :| ReportedAt(lookups, pulls, k + 1, n, id);
      assert ReportedAt(lookups, pulls, k, n, id);
    }
  }

  /** When the first lookup finds the image, nothing is pulled and its id is the result. */
  lemma ResolveImageFirstHit(lookups: seq<Result<seq<ImageSummary>, EngineError>>, pulls: seq<seq<Result<CreateImageInfo, EngineError>>>)
    requires |lookups| > 0 && lookups[0].Success? && lookups[0].value != []
    ensures ResolveImage(lookups, pulls, 0) == Success(lookups[0].value[|lookups[0].value| - 1].id)
  {
  }

  /** The calls of `n` rounds in which the image was missing: a lookup, then a pull, each time. */
  function MissRounds(reference: string, n: nat): (calls: seq<Call>)
    ensures |calls| == 2 * n
    ensures forall j :: 0 <= j < |calls| ==> calls[j] == ListImages(reference) || calls[j] == CreateImage(reference)
  {
    if n == 0 then [] else MissRounds(reference, n - 1) + [ListImages(reference), CreateImage(reference)]
  }

  /** Whole miss rounds, then possibly a last lookup, or a last lookup and its pull. */
  predicate EndsRounds(calls: seq<Call>, reference: string, misses: nat)
  {
    calls == MissRounds(reference, misses)
    || calls == MissRounds(reference, misses) + [ListImages(reference)]
    || calls == MissRounds(reference, misses) + [ListImages(reference), CreateImage(reference)]
  }

  /** How one round of `version_to_image` ends: the image was found, it was missing and has been pulled, or an error stops the loop. */
  datatype Round = Hit(id: string) | Miss | Stop(error: Error)

  /**
   * One round of the loop of `version_to_image`, with lookup `k`: look the
   * image up; when it is missing, pull it (with pull stream `k`).
   */
  method LookupRound(reference: string, lookups: seq<Result<seq<ImageSummary>, EngineError>>, pulls: seq<seq<Result<CreateImageInfo, EngineError>>>, k: nat)
    returns (round: Round, calls: seq<Call>)
    requires k < |lookups| && PullsAdmissible(pulls)
    ensures round.Hit? ==> calls == [ListImages(reference)] && ResolveImage(lookups, pulls, k) == Success(round.id)
                           && lookups[k].Success? && lookups[k].value != [] && round.id == lookups[k].value[|lookups[k].value| - 1].id
    ensures round.Miss? ==> calls == [ListImages(reference), CreateImage(reference)] && lookups[k] == Success([])
                            && ResolveImage(lookups, pulls, k) == ResolveImage(lookups, pulls, k + 1)
    ensures round.Stop? ==> (calls == [ListImages(reference)] || calls == [ListImages(reference), CreateImage(reference)])
                            && ResolveImage(lookups, pulls, k) == Failure(round.error)
  {
    calls := [ListImages(reference)];
    var found := FindExistingImageByReference(lookups[k]);
    if found.Failure? {
      round := Stop(Context("failed to look for an existing image", found.error));
      return;
    }
    if found.value.Some? {
      round := Hit(found.value.value);
      return;
    }
    if k >= |pulls| {
      round := Stop(OUT_OF_RESPONSES);
      return;
    }
    var outcome, _, pullCalls := PullImage(reference, pulls[k]);
    calls := calls + pullCalls;
    if outcome.Fail? {
      round := Stop(Context("failed to pull the image", outcome.error));
      return;
    }
    round := Miss;
  }

  /**
   * `version_to_image`: looks the version's image up, and while it is
   * missing pulls it and looks again. The calls are whole rounds of a lookup
   * that found nothing followed by a pull, then possibly a last lookup (and
   * its pull); a found id ends the loop after its lookup and is returned.
   */
  method VersionToImage(version: Version, lookups: seq<Result<seq<ImageSummary>, EngineError>>, pulls: seq<seq<Result<CreateImageInfo, EngineError>>>)
    returns (r: Result<string, Error>, calls: seq<Call>, ghost misses: nat)
    requires PullsAdmissible(pulls)
    ensures r == ResolveImage(lookups, pulls, 0)
    ensures misses <= |lookups| && forall j :: 0 <= j < misses ==> lookups[j] == Success([])
    ensures EndsRounds(calls, ImageReference(version), misses)
    ensures r.Success? ==> calls == MissRounds(ImageReference(version), misses) + [ListImages(ImageReference(version))]
    ensures r.Success? ==> misses < |lookups| && lookups[misses].Success? && lookups[misses].value != []
                           && r.value == lookups[misses].value[|lookups[misses].value| - 1].id
  {
    var reference := ImageReference(version);
    calls := [];
    var k := 0;
    while true
      invariant k <= |lookups|
      invariant calls == MissRounds(reference, k)
      invariant forall j :: 0 <= j < k ==> lookups[j] == Success([])
      invariant ResolveImage(lookups, pulls, k) == ResolveImage(lookups, pulls, 0)
      decreases |lookups| - k
    {
      misses := k;
      if k == |lookups| {
        r := Failure(OUT_OF_RESPONSES);
        return;
      }
      var round, roundCalls := LookupRound(reference, lookups, pulls, k);
      calls := calls + roundCalls;
      match round
      case Hit(id) =>
        r := Success(id);
        assert calls == MissRounds(reference, k) + [ListImages(reference)];
        return;
      case Stop(e) =>
        r := Failure(e);
        assert EndsRounds(calls, reference, k);
        return;
      case Miss =>
        assert calls == MissRounds(reference, k + 1);
        k := k + 1;
    }
  }

  // ---------------------------------------------------------------------------
  // Creating a server
  // ---------------------------------------------------------------------------

  const MAYO_DATA_PATH := "/mayo/.data"

  /**
   * The environment of a new server: the port and the data path, then the
   * certificate and key when TLS is configured, then the authentication flag
   * when authentication is required.
   */
  function ServerEnvironment(port: Port, authentication: Authentication, tls: Tls): (env: seq<string>)
    ensures |env| == 2 + (if tls.pair.Some? then 2 else 0) + (if authentication.IsRequired() then 1 else 0)
    ensures env[0] == "BUN_PORT=" + NatToDecimal(port.value) && env[1] == "MAYO_DATA_PATH=" + MAYO_DATA_PATH
    ensures tls.pair.Some? ==> env[2] == "MAYO_TLS_CRT=" + tls.pair.value.0 && env[3] == "MAYO_TLS_KEY=" + tls.pair.value.1
    ensures "MAYO_AUTHENTICATION=required" in env <==> authentication.IsRequired()
  {
    var base := ["BUN_PORT=" + NatToDecimal(port.value), "MAYO_DATA_PATH=" + MAYO_DATA_PATH];
    var withTls := base + (match tls.pair case Some((crt, key)) => ["MAYO_TLS_CRT=" + crt, "MAYO_TLS_KEY=" + key] case None => []);
    var env := withTls + (if authentication.IsRequired() then ["MAYO_AUTHENTICATION=required"] else []);
    assert "MAYO_AUTHENTICATION=required" !in withTls by {
      forall i | 0 <= i < |withTls| ensures withTls[i] != "MAYO_AUTHENTICATION=required" {
        assert withTls[i][0] == 'B' || withTls[i][5] == 'D' || withTls[i][5] == 'T';
      }
    }
    env
  }

  /** The new container's labels: this build's tool version and the encoded parameters. */
  function ServerLabels(parameters: Parameters): LabelMap
  {
    map[LABEL_KEY_CLI_VERSION := Render(CurrentCliVersion())][LABEL_KEY_PARAMETERS := EncodeForLabel(parameters)]
  }

  function ContainerName(name: Name): string { "mayo-" + name.value }

  function VolumeName(name: Name): string { "mayo-" + name.value + "-volume" }

  /** The new container's configuration: its image, environment, labels, one data volume, host network, restart unless stopped. */
  function ServerConfig(parameters: Parameters, imageId: string): (config: ContainerConfig)
    ensures config.image == imageId
    ensures config.env == ServerEnvironment(parameters.port, parameters.authentication, parameters.tls)
    ensures config.labels == ServerLabels(parameters)
    ensures config.hostConfig.mounts == [Mount(MAYO_DATA_PATH, VolumeName(parameters.name), Volume, false)]
    ensures config.hostConfig.networkMode == "host" && config.hostConfig.restartPolicy == UnlessStopped
  {
    ContainerConfig(
      imageId,
      ServerEnvironment(parameters.port, parameters.authentication, parameters.tls),
      ServerLabels(parameters),
      HostConfig([Mount(MAYO_DATA_PATH, VolumeName(parameters.name), Volume, false)], "host", UnlessStopped))
  }

  /**
   * The environment, built as `create_server` builds it: the two fixed
   * entries, extended with the TLS pair, pushed with the authentication flag.
   */
  method BuildEnvironment(port: Port, authentication: Authentication, tls: Tls) returns (env: seq<string>)
    ensures env == ServerEnvironment(port, authentication, tls)
  {
    env := ["BUN_PORT=" + NatToDecimal(port.value), "MAYO_DATA_PATH=" + MAYO_DATA_PATH];
    match tls.IntoInner() {
      case Some((crt, key)) =>
        env := env + ["MAYO_TLS_CRT=" + crt, "MAYO_TLS_KEY=" + key];
      case None =>
    }
    if authentication.IsRequired() {
      env := env + ["MAYO_AUTHENTICATION=required"];
    }
  }

  /**
   * `create_server`: resolves the version's image, then creates the
   * container "mayo-<name>" with the derived configuration, then starts it,
   * and returns the new container's id. A failure at one step skips the
   * later steps.
   */
  method CreateServer(
    parameters: Parameters,
    lookups: seq<Result<seq<ImageSummary>, EngineError>>,
    pulls: seq<seq<Result<CreateImageInfo, EngineError>>>,
    created: Result<string, EngineError>,
    started: Outcome<EngineError>)
    returns (r: Result<string, Error>, calls: seq<Call>)
    requires PullsAdmissible(pulls)
    ensures ResolveImage(lookups, pulls, 0).Failure? ==>
      r == Failure(Context("failed to get the image", ResolveImage(lookups, pulls, 0).error))
      && forall j :: 0 <= j < |calls| ==> calls[j].ListImages? || calls[j].CreateImage?
    ensures ResolveImage(lookups, pulls, 0).Success? ==>
      var create := CreateContainer(ContainerName(parameters.name), ServerConfig(parameters, ResolveImage(lookups, pulls, 0).value));
      |calls| >= 1
      && (created.Failure? ==> calls[|calls| - 1] == create && r == Failure(Context("failed to create a container", Engine(created.error))))
      && (created.Success? ==> |calls| >= 2 && calls[|calls| - 2] == create && calls[|calls| - 1] == StartContainer(created.value))
      && (created.Success? && started.Fail? ==> r == Failure(Context("failed to start the container", Engine(started.error))))
      && (created.Success? && started.Pass? ==> r == Success(created.value))
  {
    var image;
    ghost var misses;
    image, calls, misses := VersionToImage(parameters.version, lookups, pulls);
    if image.Failure? {
      r := Failure(Context("failed to get the image", image.error));
      return;
    }
    var labels := map[];
    labels := labels[LABEL_KEY_CLI_VERSION := Render(CurrentCliVersion())];
    labels := labels[LABEL_KEY_PARAMETERS := EncodeForLabel(parameters)];
    var env := BuildEnvironment(parameters.port, parameters.authentication, parameters.tls);
    var mounts := [Mount(MAYO_DATA_PATH, VolumeName(parameters.name), Volume, false)];
    var config := ContainerConfig(image.value, env, labels, HostConfig(mounts, "host", UnlessStopped));
    calls := calls + [CreateContainer(ContainerName(parameters.name), config)];
    if created.Failure? {
      r := Failure(Context("failed to create a container", Engine(created.error)));
      return;
    }
    calls := calls + [StartContainer(created.value)];
    if started.Fail? {
      r := Failure(Context("failed to start the container", Engine(started.error)));
      return;
    }
    r := Success(created.value);
  }

  // ---------------------------------------------------------------------------
  // Listing servers
  // ---------------------------------------------------------------------------

  /** The tool-version label of a summary parses to a version this build is compatible with. */
  predicate IsCliCompatible(summary: ContainerSummary)
  {
    summary.labels.Some? && LABEL_KEY_CLI_VERSION in summary.labels.value
    && Parse(summary.labels.value[LABEL_KEY_CLI_VERSION]).Some?
    && IsCompatibleCliVersion(Parse(summary.labels.value[LABEL_KEY_CLI_VERSION]).value)
  }

  /** First phase: keep, in order, the summaries whose tool-version label is compatible. */
  function RetainCliCompatible(summaries: seq<ContainerSummary>): (r: seq<ContainerSummary>)
    ensures forall i :: 0 <= i < |r| ==> IsCliCompatible(r[i])
    ensures forall x :: multiset(r)[x] == if IsCliCompatible(x) then multiset(summaries)[x] else 0
  {
    FilterCountAll(summaries, IsCliCompatible);
    Filter(summaries, IsCliCompatible)
  }

  lemma FilterCountAll<T>(s: seq<T>, p: T -> bool)
    ensures forall x :: multiset(Filter(s, p))[x] == if p(x) then multiset(s)[x] else 0
  {
    forall x { FilterCount(s, p, x); }
  }

  /**
   * `has_compatible_version` of src/mayo.rs: some repo tag's tag (the text
   * after its first ':') is a `^0.3` version.
   */
  function HasCompatibleVersion(repoTags: seq<string>): bool
  {
    TagsToCompatibleAppVersions(RepoTagsToTags(repoTags)) != []
  }

  /**
   * The image of this id is inspectable, has repo tags, and those pass the
   * tag test `accepts` (`HasCompatibleVersion` in `list_servers`; the second
   * phase is stated for any tag test).
   */
  predicate ImageIdCompatible(inspect: string -> Result<ImageInspect, EngineError>, accepts: seq<string> -> bool, id: string)
  {
    inspect(id).Success? && inspect(id).value.repoTags.Some?
    && accepts(inspect(id).value.repoTags.value)
  }

  predicate ImageCompatible(inspect: string -> Result<ImageInspect, EngineError>, accepts: seq<string> -> bool, summary: ContainerSummary)
  {
    summary.imageId.Some? && ImageIdCompatible(inspect, accepts, summary.imageId.value)
  }

  /** Inspecting the summary's image fails. */
  predicate InspectFails(inspect: string -> Result<ImageInspect, EngineError>, summary: ContainerSummary)
  {
    summary.imageId.Some? && inspect(summary.imageId.value).Failure?
  }

  /** The call inspects the image of one of the summaries. */
  predicate InspectsListedImage(call: Call, summaries: seq<ContainerSummary>)
  {
    call.InspectImage? && exists i :: 0 <= i < |summaries| && summaries[i].imageId == Some(call.imageId)
  }

  /**
   * The second phase's invariant on the working list: it is part of the
   * first phase's list and still holds every occurrence of each container
   * that is compatible or whose image inspection fails.
   */
  ghost predicate Tracks(inspect: string -> Result<ImageInspect, EngineError>, accepts: seq<string> -> bool, summaries: seq<ContainerSummary>, phase1: seq<ContainerSummary>)
  {
    multiset(summaries) <= multiset(phase1)
    && forall x :: ImageCompatible(inspect, accepts, x) || InspectFails(inspect, x) ==> multiset(summaries)[x] == multiset(phase1)[x]
  }

  /** The memo records only true facts: an image id maps to whether that image is compatible. */
  predicate MemoSound(inspect: string -> Result<ImageInspect, EngineError>, accepts: seq<string> -> bool, memo: map<string, bool>)
  {
    forall id :: id in memo ==> memo[id] == ImageIdCompatible(inspect, accepts, id)
  }

  /** Every call inspects a listed image, and a compatible image was inspected at most once and is then memoised. */
  ghost predicate InspectionsSound(inspect: string -> Result<ImageInspect, EngineError>, accepts: seq<string> -> bool, calls: seq<Call>, phase1: seq<ContainerSummary>, memo: map<string, bool>)
  {
    (forall j :: 0 <= j < |calls| ==> InspectsListedImage(calls[j], phase1))
    && forall id :: ImageIdCompatible(inspect, accepts, id) ==> multiset(calls)[InspectImage(id)] <= 1 && (InspectImage(id) in calls ==> id in memo)
  }

  /** Removing a container that is neither compatible nor failing keeps the working list's invariant. */
  lemma RemovalTracks(inspect: string -> Result<ImageInspect, EngineError>, accepts: seq<string> -> bool, summaries: seq<ContainerSummary>, phase1: seq<ContainerSummary>, index: nat)
    requires index < |summaries| && Tracks(inspect, accepts, summaries, phase1)
    requires !ImageCompatible(inspect, accepts, summaries[index]) && !InspectFails(inspect, summaries[index])
    ensures Tracks(inspect, accepts, SwapRemove(summaries, index), phase1)
  {
    var r := SwapRemove(summaries, index);
    forall x | ImageCompatible(inspect, accepts, x) || InspectFails(inspect, x)
      ensures multiset(r)[x] == multiset(phase1)[x]
    {
      assert x != summaries[index];
    }
  }

  /** Inspecting an image that is not memoised as compatible keeps the inspection record sound. */
  lemma InspectionRecorded(inspect: string -> Result<ImageInspect, EngineError>, accepts: seq<string> -> bool, calls: seq<Call>, phase1: seq<ContainerSummary>,
                           memo: map<string, bool>, summary: ContainerSummary)
    requires InspectionsSound(inspect, accepts, calls, phase1, memo) && MemoSound(inspect, accepts, memo)
    requires summary in phase1 && summary.imageId.Some? && inspect(summary.imageId.value).Success?
    requires !(summary.imageId.value in memo && memo[summary.imageId.value])
    ensures var id := summary.imageId.value;
      var memo' := if inspect(id).value.repoTags.Some? then memo[id := ImageIdCompatible(inspect, accepts, id)] else memo;
      InspectionsSound(inspect, accepts, calls + [InspectImage(id)], phase1, memo') && MemoSound(inspect, accepts, memo')
  {
    var id := summary.imageId.value;
    var calls' := calls + [InspectImage(id)];
    var memo' := if inspect(id).value.repoTags.Some? then memo[id := ImageIdCompatible(inspect, accepts, id)] else memo;
    var i :| 0 <= i < |phase1| && phase1[i] == summary;
    assert InspectsListedImage(InspectImage(id), phase1);
    forall j | 0 <= j < |calls'| ensures InspectsListedImage(calls'[j], phase1) {
      if j < |calls| {
        assert calls'[j] == calls[j];
      }
    }
    forall id2 | ImageIdCompatible(inspect, accepts, id2)
      ensures multiset(calls')[InspectImage(id2)] <= 1 && (InspectImage(id2) in calls' ==> id2 in memo')
    {
      if id2 == id {
        assert InspectImage(id) !in calls;
      }
    }
  }

  /** An inspection that fails still inspects a listed image. */
  lemma FailedInspectionRecorded(inspect: string -> Result<ImageInspect, EngineError>, accepts: seq<string> -> bool, calls: seq<Call>, phase1: seq<ContainerSummary>,
                                 memo: map<string, bool>, summary: ContainerSummary)
    requires InspectionsSound(inspect, accepts, calls, phase1, memo)
    requires summary in phase1 && summary.imageId.Some? && inspect(summary.imageId.value).Failure?
    ensures forall j :: 0 <= j < |calls| + 1 ==> InspectsListedImage((calls + [InspectImage(summary.imageId.value)])[j], phase1)
    ensures forall id :: ImageIdCompatible(inspect, accepts, id) ==> multiset(calls + [InspectImage(summary.imageId.value)])[InspectImage(id)] <= 1
  {
    var i :| 0 <= i < |phase1| && phase1[i] == summary;
    assert InspectsListedImage(InspectImage(summary.imageId.value), phase1);
  }

  /**
   * When the walk reaches the end of a tracked list whose members are all
   * compatible, the list is the compatible part of the first phase's list
   * (up to order), and no container of that list has an image whose
   * inspection fails.
   */
  lemma WalkComplete(inspect: string -> Result<ImageInspect, EngineError>, accepts: seq<string> -> bool, summaries: seq<ContainerSummary>, phase1: seq<ContainerSummary>)
    requires Tracks(inspect, accepts, summaries, phase1)
    requires forall i :: 0 <= i < |summaries| ==> ImageCompatible(inspect, accepts, summaries[i])
    ensures multiset(summaries) == multiset(Filter(phase1, s => ImageCompatible(inspect, accepts, s)))
    ensures forall i :: 0 <= i < |phase1| ==> !InspectFails(inspect, phase1[i])
  {
    var phase2 := Filter(phase1, s => ImageCompatible(inspect, accepts, s));
    FilterCountAll(phase1, s => ImageCompatible(inspect, accepts, s));
    forall x ensures multiset(summaries)[x] == multiset(phase2)[x] {
      if !ImageCompatible(inspect, accepts, x) {
        assert x !in summaries;
      }
    }
    assert multiset(summaries) == multiset(phase2);
    forall i | 0 <= i < |phase1| ensures !InspectFails(inspect, phase1[i]) {
      var x := phase1[i];
      assert x in multiset(phase1);
      if x in summaries {
        var k :| 0 <= k < |summaries| && summaries[k] == x;
      }
    }
  }

  /**
   * What the second phase promises: it fails exactly when the inspection of
   * some listed container's image fails, and then with that error in context;
   * otherwise it keeps exactly the containers whose image passes, each as
   * often as it was listed; it inspects only images of listed containers, and
   * a passing image at most once.
   */
  ghost predicate SecondPhase(phase1: seq<ContainerSummary>, inspect: string -> Result<ImageInspect, EngineError>, accepts: seq<string> -> bool,
                        r: Result<seq<ContainerSummary>, Error>, calls: seq<Call>)
  {
    (r.Failure? <==> exists i :: 0 <= i < |phase1| && InspectFails(inspect, phase1[i]))
    && (r.Failure? ==> exists i :: (0 <= i < |phase1| && InspectFails(inspect, phase1[i])
                        && r.error == Context("failed to inspect an image", Engine(inspect(phase1[i].imageId.value).error))))
    && (r.Success? ==> multiset(r.value) == multiset(Filter(phase1, s => ImageCompatible(inspect, accepts, s))))
    && (r.Success? ==> forall i :: 0 <= i < |r.value| ==> ImageCompatible(inspect, accepts, r.value[i]))
    && (forall j :: 0 <= j < |calls| ==> InspectsListedImage(calls[j], phase1))
    && (forall id :: ImageIdCompatible(inspect, accepts, id) ==> multiset(calls)[InspectImage(id)] <= 1)
  }

  /**
   * The second phase of `list_servers`: walks the list with an index and a
   * memo of the images found compatible; an image memoised as compatible is
   * not inspected again; a container without an image id, whose image has no
   * repo tags, or whose tags hold no `^0.3` version is swap-removed; an
   * inspection error ends the walk with that error.
   */
  method RetainImageCompatible(phase1: seq<ContainerSummary>, inspect: string -> Result<ImageInspect, EngineError>, accepts: seq<string> -> bool)
    returns (r: Result<seq<ContainerSummary>, Error>, calls: seq<Call>)
    ensures SecondPhase(phase1, inspect, accepts, r, calls)
  {
    calls := [];
    var summaries := phase1;
    var memo: map<string, bool> := map[];
    var index := 0;
    while index < |summaries|
      invariant 0 <= index <= |summaries|
      invariant Tracks(inspect, accepts, summaries, phase1)
      invariant forall i :: 0 <= i < index ==> ImageCompatible(inspect, accepts, summaries[i])
      invariant MemoSound(inspect, accepts, memo)
      invariant InspectionsSound(inspect, accepts, calls, phase1, memo)
      decreases |summaries| - index
    {
      var summary := summaries[index];
      assert summary in multiset(phase1);
      if summary.imageId.Some? {
        var id := summary.imageId.value;
        if id in memo && memo[id] {
          index := index + 1;
          continue;
        }
        var inspected := inspect(id);
        if inspected.Failure? {
          FailedInspectionRecorded(inspect, accepts, calls, phase1, memo, summary);
          calls := calls + [InspectImage(id)];
          r := Failure(Context("failed to inspect an image", Engine(inspected.error)));
          return;
        }
        InspectionRecorded(inspect, accepts, calls, phase1, memo, summary);
        calls := calls + [InspectImage(id)];
        if inspected.value.repoTags.Some? {
          var compatible := accepts(inspected.value.repoTags.value);
          memo := memo[id := compatible];
          if compatible {
            index := index + 1;
            continue;
          }
        }
      }
      RemovalTracks(inspect, accepts, summaries, phase1, index);
      summaries := SwapRemove(summaries, index);
    }
    WalkComplete(inspect, accepts, summaries, phase1);
    r := Success(summaries);
  }

  const LIST_FILTERS: map<string, seq<string>> := map["label" := [LABEL_KEY_CLI_VERSION]]

  /**
   * `list_servers`: lists the containers carrying the tool-version label,
   * keeps those whose tool version is compatible (first phase), keeps those
   * whose image has a compatible tag (second phase), and turns the survivors
   * into servers, dropping those whose summary does not decode.
   *
   * `kept` is the container list after the second phase, in its final order.
   */
  method ListServers(response: Result<seq<ContainerSummary>, EngineError>, inspect: string -> Result<ImageInspect, EngineError>)
    returns (r: Result<seq<Server>, Error>, calls: seq<Call>, ghost kept: seq<ContainerSummary>)
    ensures |calls| >= 1 && calls[0] == ListContainers(true, LIST_FILTERS)
    ensures response.Failure? ==> r == Failure(Context("failed to list containers", Engine(response.error))) && |calls| == 1
    ensures response.Success? ==>
      (r.Failure? ==> SecondPhase(RetainCliCompatible(response.value), inspect, HasCompatibleVersion, Failure(r.error), calls[1..]))
      && (r.Success? ==> SecondPhase(RetainCliCompatible(response.value), inspect, HasCompatibleVersion, Success(kept), calls[1..])
                         && r.value == ServersOf(kept))
    ensures r.Success? ==> forall i :: 0 <= i < |kept| ==> IsCliCompatible(kept[i])
  {
    calls := [ListContainers(true, LIST_FILTERS)];
    kept := [];
    if response.Failure? {
      r := Failure(Context("failed to list containers", Engine(response.error)));
      return;
    }
    var phase1 := RetainCliCompatible(response.value);
    var phase2, inspections := RetainImageCompatible(phase1, inspect, HasCompatibleVersion);
    calls := calls + inspections;
    assert calls[1..] == inspections;
    if phase2.Failure? {
      r := Failure(phase2.error);
      return;
    }
    kept := phase2.value;
    KeptPassBothPhases(response.value, inspect, HasCompatibleVersion, kept);
    r := Success(ServersOf(phase2.value));
  }

  /** Every container the second phase keeps also passed the first. */
  lemma KeptPassBothPhases(listed: seq<ContainerSummary>, inspect: string -> Result<ImageInspect, EngineError>, accepts: seq<string> -> bool,
                           kept: seq<ContainerSummary>)
    requires multiset(kept) == multiset(Filter(RetainCliCompatible(listed), s => ImageCompatible(inspect, accepts, s)))
    ensures forall i :: 0 <= i < |kept| ==> IsCliCompatible(kept[i])
  {
    forall i | 0 <= i < |kept| ensures IsCliCompatible(kept[i]) {
      assert kept[i] in multiset(kept);
      FilterMembers(RetainCliCompatible(listed), s => ImageCompatible(inspect, accepts, s), kept[i]);
    }
  }

  /**
   * A container created by `create_server` passes the first phase's label
   * check, and is listed with the parameters it was created with, whatever
   * order the second phase leaves it in.
   */
  lemma CreatedServerIsCliCompatible(parameters: Parameters, summary: ContainerSummary)
    requires DistinctKeys()
    requires summary.labels == Some(ServerLabels(parameters))
    ensures IsCliCompatible(summary)
  {
    CurrentCliVersionLabelRoundTrip();
  }

  lemma CreatedServerIsListed(parameters: Parameters, id: string, state: string, imageId: string)
    requires DistinctKeys() && WellFormed(parameters.version)
    ensures TryFromSummary(ContainerSummary(Some(id), Some(imageId), Some(state), Some(ServerLabels(parameters))))
            == Success(Server(id, state, parameters))
  {
    var summary := ContainerSummary(Some(id), Some(imageId), Some(state), Some(ServerLabels(parameters)));
    assert ParametersLabel(summary) == Some(EncodeForLabel(parameters));
    DecodeEncodeForLabel(parameters);
  }
}
