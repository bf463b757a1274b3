# manage — a Dafny model of the server-management core

`manage` is a command-line tool for running "mayo" audio-streaming servers as
Docker containers. This project models its core:

- version handling (`src/versioning.rs`): which image tags are compatible
  (`^0.3`), which tool version this is (`0.1.1`), which tool versions are
  compatible (`^0.1`), and how the newest compatible version is picked;
- server parameters (`src/parameters.rs`): the name, port, authentication
  and TLS settings, and how they are stored in, and read back from, a
  container label;
- the server record (`src/server.rs`): how a container summary becomes a
  server, and the server's equality and order;
- the current engine layer (`src/mayo.rs`): image pull with progress bars,
  image lookup, resolving a version to an image id, creating a server
  container, and the two-phase listing of servers;
- the first-generation engine layer (`src/docker.rs`), modelled as module
  `Legacy`: listing, pulling, creating, inspecting, restarting, stopping,
  starting, removing and updating server containers, reading their logs, and
  managing invites through scripts run inside the container;
- the first-generation menus (`src/inquire.rs`), modelled as module `Menus`:
  the option lists the prompts show, how an answer maps back to a choice, and
  how the invite `uses` answer is validated and parsed.

The container engine is not modelled as a system. Every response an
operation reads is an input: a `Result`, or a sequence of results for a
stream. Every request an operation issues is recorded in a returned trace of
`Engine.Call` values. So a contract can state both what an operation asks the
engine for and what it makes of the answers. The error values of the tool
(`anyhow::Error`) are the datatype `Engine.Error`: an engine error, a decoding
failure, a message, or one of these with a context message around it.

Modules, one per file:

- `wrappers.dfy`: `Option`, `Result` and `Outcome`.
- `text.dfy`: decimal rendering and the standard library's unsigned parse.
  It also holds trimming, `split_once` and splitting.
- `ordering.dfy`: `Ordering` and the byte-wise order of strings.
- `labels.dfy`: the two label keys of the current layer.
- `versioning.dfy`: semantic versions, with their order, grammar, rendering and caret matching, plus the tag rules of `src/versioning.rs`.
- `params.dfy`: `Parameters` and its label encoding.
- `engine.dfy`: the engine records, calls, errors, streams and output chunks.
- `server.dfy`: `Server`.
- `seqs.dfy`: `filter`, `filter_map` and `swap_remove`.
- `progress.dfy`: the progress bars of both pull loops.
- `mayo.dfy`, `docker.dfy`, `inquire.dfy`: the three layers.

Two remarks on the source:

- `current_cli_version` carries the comment `0.1.0`, but builds `0.1.1`. The model follows the value.
- `Server` compares equal by container id but orders by server name (`src/server.rs:24-40`). So two servers can be unequal while ordering as equal, and the reverse. `Servers.EqualityIgnoresOrdering` exhibits both cases. The model keeps the two relations apart, as the source does.

## Model

| member | source | states |
|---|---|---|
| Text.NatToDecimal | src/docker.rs:319-321 | the decimal rendering of a number is non-empty, all digits, and has no leading zero |
| Text.NatToDecimalValue | src/docker.rs:319-321 | the rendered digits denote the number rendered |
| Text.NatToDecimalInjective | src/docker.rs:319-321 | distinct numbers render to distinct strings |
| Text.ParseUnsigned | src/docker.rs:108 | an accepted string starts with a digit or '+' and denotes a value below the type's limit |
| Text.ParseUnsignedOfDecimal | src/docker.rs:108 | parsing the rendering of any in-range number gives that number back |
| Text.ParseUnsignedDigits | src/docker.rs:108 | a parsed string that starts with a digit is all digits, and the result is its value |
| Text.ParseDecimal | src/versioning.rs:13 | a decimal string is accepted iff it is non-empty and all digits, and then yields its value |
| Text.ParseDecimalOfDecimal | src/versioning.rs:13 | parsing a rendered number gives the number |
| Text.Trim | src/docker.rs:750-754 | the trimmed string neither starts nor ends with whitespace |
| Text.TrimStart | src/docker.rs:750-754 | only leading whitespace is dropped, and the rest is left as a suffix of the input |
| Text.TrimEnd | src/docker.rs:750-754 | only trailing whitespace is dropped, and the rest is left as a prefix of the input |
| Text.TrimUntouched | src/docker.rs:750-754 | a string without surrounding whitespace is unchanged by trimming |
| Text.NatToDecimalTrimmed | src/docker.rs:750-754 | a rendered number survives trimming |
| Text.TrimEmptyIffBlank | src/inquire.rs:255-281 | the trimmed answer is empty iff the answer is all whitespace |
| Text.IndexOf | src/mayo.rs:446 | the result is the first occurrence of the character, or none when it does not occur |
| Text.SplitOnce | src/mayo.rs:446 | splitting fails iff the separator is absent; otherwise the input is head, separator and tail, and the head has no separator |
| Text.IndexOfJoin | src/mayo.rs:446 | the first separator of a joined string is the one placed after a separator-free head |
| Text.SplitOnceOfJoin | src/mayo.rs:446 | `split_once` inverts joining a separator-free head to a tail |
| Text.Split | src/parameters.rs:96-98 | splitting yields at least one piece |
| Text.SplitWithout | src/parameters.rs:96-98 | a string without the separator splits into itself |
| Text.SplitAfterPiece | src/parameters.rs:96-98 | splitting after a separator-free first piece yields that piece, then the split of the rest |
| Text.SplitJoin | src/parameters.rs:96-98 | splitting inverts joining separator-free pieces |
| Orderings.CompareStringsEqual | src/parameters.rs:114-118 | string comparison says equal iff the strings are equal |
| Orderings.CompareStringsAntisymmetric | src/parameters.rs:114-118 | swapping the operands reverses the comparison |
| Orderings.CompareStringsTransitive | src/parameters.rs:114-118 | string "less" is transitive |
| Orderings.StringLeTotalOrder | src/parameters.rs:114-118 | the string order is reflexive, antisymmetric, transitive and total |
| Versioning.CompareNats | src/versioning.rs:58 | number comparison says equal iff equal and less iff less |
| Versioning.CompareIdentifiersProperties | src/versioning.rs:58 | pre-release identifier comparison is equal iff equal, and antisymmetric |
| Versioning.CompareIdentifiersTransitive | src/versioning.rs:58 | identifier "less" is transitive |
| Versioning.CompareIdentifierListsProperties | src/versioning.rs:58 | identifier-list comparison is equal iff equal, and antisymmetric |
| Versioning.CompareIdentifierListsTransitive | src/versioning.rs:58 | identifier-list "less" is transitive |
| Versioning.ComparePrereleasesProperties | src/versioning.rs:58 | pre-release comparison, where release ranks above pre-release, is equal iff equal, antisymmetric and transitive |
| Versioning.VersionLeTotalOrder | src/versioning.rs:58 | the version order that `sort_unstable` uses is a total order |
| Versioning.ParseNumber | src/versioning.rs:13 | an accepted numeric field is all digits and yields its value |
| Versioning.ParseIdentifiers | src/versioning.rs:13 | every pre-release field parses, one identifier per field |
| Versioning.RenderIdentifiers | src/mayo.rs:219-221 | each identifier is rendered in its place |
| Versioning.ParseNumberOfDecimal | src/versioning.rs:13 | a rendered number is read back as a numeric field |
| Versioning.ParseIdentifierOfRender | src/versioning.rs:13 | a well-formed identifier is read back from its rendering |
| Versioning.ParseIdentifiersOfRender | src/versioning.rs:13 | a list of well-formed identifiers is read back from its rendering |
| Versioning.ParseCoreOfRender | src/versioning.rs:13 | the `major.minor.patch` core is read back from its rendering |
| Versioning.RenderCoreHasNoHyphen | src/versioning.rs:13 | the rendered core holds a dot and no hyphen, so the pre-release split is unambiguous |
| Versioning.ParseRender | src/versioning.rs:7-14 | parsing the rendering of any well-formed version gives the version back |
| Versioning.ParseIdentifiersWellFormed | src/versioning.rs:13 | parsed identifiers are well-formed |
| Versioning.ParseWellFormed | src/versioning.rs:7-14 | every parsed version is well-formed |
| Versioning.IsCompatibleAppVersion | src/versioning.rs:16-31 | `^0.3` admits exactly the release versions `0.3.x` |
| Versioning.IsCompatibleCliVersion | src/versioning.rs:84-99 | `^0.1` admits exactly the release versions `0.1.x` |
| Versioning.CaretMajorZero | src/versioning.rs:16-31 | a caret `^0.m` comparator without pre-release matches exactly the release versions `0.m.x` |
| Versioning.CurrentCliVersion | src/versioning.rs:69-82 | the tool version renders as `0.1.1`, is well-formed, and is compatible with itself |
| Versioning.CurrentCliVersionLabelRoundTrip | src/versioning.rs:69-99 | the tool version written to a label is read back as itself and accepted as compatible |
| Versioning.CompatibleVersionOfTag | src/versioning.rs:7-31 | a tag contributes at most one version |
| Versioning.TagsToCompatibleAppVersions | src/versioning.rs:33-47 | the result has at most one version per tag, and each is `^0.3`-compatible |
| Versioning.TagsToCompatibleAppVersionsAppend | src/versioning.rs:33-47 | the filter works tag by tag: the versions of two tag lists are the versions of each, in order |
| Versioning.TagsToCompatibleAppVersionsMembers | src/versioning.rs:33-47 | a version is produced iff some tag parses to it and it is compatible |
| Versioning.CompatibleOfCons | src/versioning.rs:33-47 | the first tag's version, if any, comes first |
| Versioning.CompatibleVersionOfRenderedTag | src/versioning.rs:7-31 | the rendering of a well-formed version yields that version iff it is compatible |
| Versioning.Maximum | src/versioning.rs:56-64 | the maximum of a non-empty list is in the list and no element exceeds it |
| Versioning.GetLatestCompatibleAppVersion | src/versioning.rs:49-66 | a registry error is reported in the context `failed to get registry tags`; otherwise the result is a compatible version among the tags, and no compatible tag is newer |
| Versioning.LastOfSortedIsMaximum | src/versioning.rs:56-64 | the last element of any ascending permutation is the maximum, so sort-then-pop picks the maximum |
| Versioning.RenderSingleDigits | src/versioning.rs:13 | single-digit versions render as `a.b.c` |
| Versioning.CompatibleOfFourTags | src/versioning.rs:33-47 | tags that contribute nothing are skipped, and the others keep their order |
| Versioning.CompatibleOfRenderedTags | src/versioning.rs:33-47 | of `0.2.9, 0.3.0, 0.3.1, 1.0.0` exactly `0.3.0, 0.3.1` are compatible |
| Versioning.LatestOfTwo | src/versioning.rs:49-66 | with compatible versions `0.3.0, 0.3.1` the latest is `0.3.1` |
| Versioning.LatestOfRenderedTags | src/versioning.rs:49-66 | for the rendered tags `0.2.9, 0.3.0, 0.3.1, 1.0.0` the latest compatible version is `0.3.1` |
| Versioning.LatestExample | src/versioning.rs:49-66 | for the literal tags `0.2.9, 0.3.0, 0.3.1, 1.0.0` the latest compatible version is `0.3.1` |
| Params.NameOrderTotal | src/parameters.rs:104-124 | names compare equal iff equal, antisymmetrically and transitively |
| Params.Authentication.ToString | src/parameters.rs:174-182 | authentication displays as `required` iff required, otherwise as `optional` |
| Params.AuthenticationFromDisableAnswer | src/parameters.rs:185-201 | answering "disable" to the prompt makes authentication optional, and answering "keep" makes it required |
| Params.Tls.ToString | src/parameters.rs:211-219 | TLS displays as `enabled` iff a certificate pair is set, otherwise as `disabled` |
| Params.DecodeEncodeTokens | src/parameters.rs:96-98 | the token encoding decodes back to exactly the tokens encoded |
| Params.ParametersTokens | src/parameters.rs:96-98 | parameters encode as 4 tokens, or 6 with TLS |
| Params.ParametersOfParametersTokens | src/parameters.rs:27-52 | the tokens of well-formed parameters read back as the same parameters |
| Params.DecodeEncodeForLabel | src/parameters.rs:39-52 | a label written by `encode_for_label` decodes back to the same parameters |
| Params.DecodedVersionWellFormed | src/parameters.rs:39-52 | the version decoded from a label is well-formed |
| Params.TryFromLabels | src/parameters.rs:39-52 | decoding fails iff the parameters label is missing or undecodable; otherwise it is the decoded label |
| Params.TryFromEncodedLabels | src/parameters.rs:39-52 | labels holding encoded parameters yield those parameters, whatever other labels they hold |
| Servers.ServerOrderTotalPreorder | src/server.rs:30-40 | servers are ordered by name: reflexive, antisymmetric, transitive, equal iff same name |
| Servers.EqualityIgnoresOrdering | src/server.rs:24-40 | equality by id and order by name disagree in both directions |
| Servers.TryFromSummary | src/server.rs:42-86 | a summary becomes a server iff it has an id, a state and a decodable parameters label, and the server keeps them |
| Servers.TryFromSummaryAgreesWithLabels | src/server.rs:42-86 | the parameters of a server are the parameters the labels decode to |
| Servers.ServersOf | src/mayo.rs:476-482 | at most one server per summary |
| Servers.ServersOfMembers | src/mayo.rs:476-482 | a server is listed iff some summary converts to it |
| Seqs.Filter | src/mayo.rs:366-402 | the kept elements all pass |
| Seqs.FilterCount | src/mayo.rs:366-402 | every passing element is kept as often as it occurs, and no failing one is kept |
| Seqs.FilterMembers | src/mayo.rs:366-402 | an element is kept iff it occurs and passes |
| Seqs.SwapRemove | src/mayo.rs:474 | `swap_remove` shortens by one, leaves the earlier elements in place, and removes exactly one occurrence |
| Seqs.FilterMapMembers | src/mayo.rs:476-482 | `filter_map` yields a value iff some element maps to it |
| Engine.FirstFailure | src/mayo.rs:72-82 | the reported position is the first error of the stream, or none when there is no error |
| Engine.FirstFailureAt | src/mayo.rs:72-82 | a stream whose first error sits at `i` reports `i` |
| Engine.Values | src/docker.rs:611-631 | the items of an error-free stream, in order |
| Engine.ValuesBeforeFailure | src/mayo.rs:72-82 | the items read are exactly those before the first error |
| Engine.ValuesAppend | src/docker.rs:611-631 | reading two error-free streams in turn reads the items of each |
| Engine.PayloadsAppend | src/docker.rs:611-631 | the payload of two runs of chunks is the payload of each, in order |
| Engine.ConcatAppend | src/docker.rs:733-748 | appending two runs of output pieces appends their outputs |
| Progress.NewBar | src/mayo.rs:84-104 | a new bar shows the layer id at position 0, with length 0; its style is a byte bar in the current layer and a spinner in the legacy one; it is not finished |
| Progress.ApplyStatus | src/mayo.rs:107-115 | a status sets the message to `id: status` and finishes the bar iff the status is terminal; nothing else changes |
| Progress.ApplyDetailMayo | src/mayo.rs:117-125 | a detail sets the length from `total` and the position from `current` where present, and leaves everything else |
| Progress.ApplyDetailLegacy | src/docker.rs:187-227 | a detail changes the bar only if both values are present and the total is positive; it then sets the length and the byte-bar style if needed, and the position if `current` is non-negative |
| Progress.Step | src/mayo.rs:84-125 | a message with a layer id adds that layer, if new, and touches no other layer; a message without one changes nothing |
| Progress.ApplyKeys | src/mayo.rs:84-105 | after a pull there is a bar for exactly the layer ids that occurred |
| Progress.ApplyFinished | src/mayo.rs:107-115 | a bar is finished iff some message for its layer carried a terminal status |
| Progress.LastStatusIsMessage | src/mayo.rs:107-115 | a layer's bar shows `<id>: <status>` for the last message of that layer carrying a status, whatever messages of other layers or status-less messages of that layer follow it |
| Mayo.RepoTagsToTags | src/mayo.rs:441-449 | at most one tag per repo tag |
| Mayo.ImageReferenceTag | src/mayo.rs:440-449 | the tag of the reference built for a version parses back to that version |
| Mayo.ImageOfCompatibleVersionIsCompatible | src/mayo.rs:450-454 | an image pulled for a compatible version passes the second listing phase |
| Mayo.FindExistingImageByReference | src/mayo.rs:138-168 | a list error is reported in context; else none iff no image is listed, otherwise the last listed image's id |
| Mayo.PullOutcome | src/mayo.rs:72-82 | the pull fails iff the stream yields an error |
| Mayo.ValuesAdmissible | src/mayo.rs:80-125 | the messages read before an error satisfy the pull-loop's conversion precondition, which the loop needs only of messages with a layer id that come before the stream's first error |
| Mayo.PullImage | src/mayo.rs:47-136 | issues one create-image call; fails iff the stream yields an error; its bars are the progress fold of the messages read |
| Mayo.ResolveImageReported | src/mayo.rs:170-204 | a resolved image id is the last id of some lookup that found images, all earlier lookups found none, and every pull between them succeeded |
| Mayo.ResolveImageFirstHit | src/mayo.rs:170-204 | when the first lookup finds images, the id is the last listed |
| Mayo.MissRounds | src/mayo.rs:170-204 | `n` missed rounds issue only list-images and create-image calls, two per round |
| Mayo.LookupRound | src/mayo.rs:172-202 | one round of the loop: a hit returns the id after one list call, a miss lists then pulls, and a stop reports the error of the lookup or the pull |
| Mayo.VersionToImage | src/mayo.rs:170-204 | equals the resolution of the responses; a success comes after only missed rounds and one final list call |
| Mayo.ServerEnvironment | src/mayo.rs:243-263 | port and data path are always set; the TLS pair is set iff TLS is on, and the authentication flag iff required |
| Mayo.BuildEnvironment | src/mayo.rs:243-263 | the environment built by pushes is the environment specified |
| Mayo.ServerConfig | src/mayo.rs:215-289 | the container uses the resolved image, the environment, both labels, one data volume, host networking and unless-stopped restart |
| Mayo.CreateServer | src/mayo.rs:206-334 | resolves the image, then creates the container `mayo-<name>` with that config and starts it; each failure is reported in its own context and skips the later steps |
| Mayo.RetainCliCompatible | src/mayo.rs:366-402 | exactly the summaries with a compatible tool-version label pass the first phase, each as often as listed |
| Mayo.FilterCountAll | src/mayo.rs:366-402 | the multiplicity fact of the filter, for all elements at once |
| Mayo.RemovalTracks | src/mayo.rs:474 | swap-removing an incompatible container keeps the working list a permutation of the kept ones |
| Mayo.InspectionRecorded | src/mayo.rs:426-470 | inspecting an image not memoised as compatible keeps inspections within listed images and at most once per compatible image |
| Mayo.FailedInspectionRecorded | src/mayo.rs:426-437 | the failing inspection still targets a listed container's image |
| Mayo.WalkComplete | src/mayo.rs:404-474 | at the end of the walk the list is a permutation of the compatible containers, and no inspection failed |
| Mayo.RetainImageCompatible | src/mayo.rs:404-474 | the second phase fails iff some inspection fails, with that error; otherwise it keeps exactly the image-compatible containers; it inspects only listed images, and each compatible one at most once |
| Mayo.ListServers | src/mayo.rs:336-485 | lists once with the tool-version filter; a list error is in context; otherwise the result is the second phase over the first, then conversion; every kept container passed both phases |
| Mayo.KeptPassBothPhases | src/mayo.rs:366-474 | every container kept by the second phase also passed the first |
| Mayo.CreatedServerIsCliCompatible | src/mayo.rs:215-229 | a container carrying the labels that creation writes passes the first listing phase |
| Mayo.CreatedServerIsListed | src/mayo.rs:215-229 | a server created with well-formed parameters converts back to a server with the same parameters |
| Legacy.StreamOutcome | src/docker.rs:128-252 | a stream ends in failure iff it yields an error, and then with its first error |
| Legacy.ContainerOfSummary | src/docker.rs:68-123 | a summary is kept iff it has an id and labels with name, crt_path, key_path, and a port that parses as a 16-bit number; the container copies them |
| Legacy.ContainersOf | src/docker.rs:68-123 | at most one container per summary |
| Legacy.ContainersOfMembers | src/docker.rs:68-123 | a container is found iff some summary converts to it |
| Legacy.FindExistingServerContainers | src/docker.rs:32-126 | lists once with the image and version filters; passes an engine error on; otherwise yields the converted summaries in order |
| Legacy.PullStep | src/docker.rs:150-246 | reading one more pull message applies the legacy step for it to the layers kept so far |
| Legacy.PullServerImage | src/docker.rs:128-252 | pulls the fixed image reference; fails iff the stream yields an error; its bars are the legacy progress fold of the messages read |
| Legacy.ServerContainerConfig | src/docker.rs:287-401 | the container uses the fixed image, the five labels, the four environment entries, TLS and data mounts, host networking and unless-stopped restart |
| Legacy.LabelsRoundTrip | src/docker.rs:287-322 | the labels written at creation are read back as the same container by the listing rule |
| Legacy.CreateServerContainer | src/docker.rs:263-438 | creates `mayo-<name>`, with the given or generated name, then starts it; passes errors on; a created container is found by the listing rule as itself |
| Legacy.GetContainerStatus | src/docker.rs:440-472 | inspects once; an error is in context; otherwise the reported status, or `unknown` when there is none |
| Legacy.Forward | src/docker.rs:474-539 | an engine outcome is passed on unchanged |
| Legacy.RestartContainer | src/docker.rs:474-487 | issues one restart call and passes its outcome on |
| Legacy.StopContainer | src/docker.rs:489-502 | issues one stop call and passes its outcome on |
| Legacy.StartContainer | src/docker.rs:504-517 | issues one start call and passes its outcome on |
| Legacy.RemoveContainer | src/docker.rs:519-539 | issues one forced remove call and passes its outcome on |
| Legacy.RemoveServerContainer | src/docker.rs:541-581 | removes the container, then its data volume, which is the volume mounted at creation; each failure is in its own context and a container failure skips the volume |
| Legacy.DecodeEach | src/docker.rs:611-631 | each payload is decoded on its own |
| Legacy.DecodeEachAppend | src/docker.rs:611-631 | decoding works chunk by chunk |
| Legacy.LogsOfAppend | src/docker.rs:611-631 | the logs of two error-free streams read in turn are the logs of each |
| Legacy.ChunkText | src/docker.rs:611-631 | a standard output or error chunk adds its decoded text, and any other chunk adds nothing |
| Legacy.LogsStep | src/docker.rs:611-631 | one more chunk appends its text to the logs read so far |
| Legacy.GetContainerLogs | src/docker.rs:583-632 | issues one logs call (stdout and stderr, all lines, no follow); the result is the logs of the stream, or its first error |
| Legacy.ExecOutputAppend | src/docker.rs:733-748 | the output of two error-free streams read in turn is the output of each |
| Legacy.OutputStep | src/docker.rs:733-748 | one more chunk appends its payload to the output read so far |
| Legacy.DrainOutput | src/docker.rs:733-748 | the bytes collected are the exec output of the stream, or its first error |
| Legacy.RunScript | src/docker.rs:700-759 | creates an exec of `bun -e <script>` attached to both outputs, starts it if created, and yields its output; a detached start is an error |
| Legacy.RenderUses | src/docker.rs:643-647 | a limit renders as a decimal that parses back to it; unlimited renders as `null`, which is not a decimal; no rendering holds a comma |
| Legacy.RenderUsesInjective | src/docker.rs:643-647 | distinct limits render differently |
| Legacy.PrefixCancel | src/docker.rs:649-700 | equal scripts with the same head have equal tails |
| Legacy.SeparatorCancel | src/docker.rs:649-700 | equal scripts split at the first separator have equal parts |
| Legacy.SpliceCancel | src/docker.rs:649-700 | a script spliced from fixed pieces around separator-free arguments determines both arguments |
| Legacy.CreateInviteScriptInjective | src/docker.rs:649-700 | the invite script, with `uses` and `perms` spliced in at their places (a comma, a comment line and indentation between them, a line break after), determines the uses and permissions it was built from |
| Legacy.CreateInvite | src/docker.rs:633-761 | runs the invite script; the invite id is the trimmed decoded output, or the run's error |
| Legacy.GetInvites | src/docker.rs:779-864 | runs the listing script; the invites are the decoded output, a decoding failure is in context, or the run's error |
| Legacy.DeleteInvite | src/docker.rs:866-941 | runs the deletion script for the id and fails iff the run fails |
| Legacy.UpdateContainer | src/docker.rs:943-985 | removes the container, pulls the image and recreates the container with its old name and parameters, then starts the new container; each step runs only if the previous one succeeded; the data volume is never removed |
| Menus.GetServerContainerActions | src/inquire.rs:161-190 | Update and View logs first, Delete last; Manage invites, Restart and Stop iff running; Start iff startable; no option twice |
| Menus.SelectServerContainerAction | src/inquire.rs:326-349 | the actions, then Go back once at the end; the answer is the prompt's |
| Menus.FindByName | src/inquire.rs:139-158 | none iff no container has the name; otherwise the first container so named |
| Menus.ChoiceOfName | src/inquire.rs:139-158 | answering a container's name selects the first container of that name, unless the name is one of the two fixed answers, which win |
| Menus.SelectedIsListed | src/inquire.rs:139-158 | a selected container is listed, carries the answered name, and is not named like a fixed answer |
| Menus.SelectServerContainer | src/inquire.rs:110-159 | the options are the names in order, then Create a new server, then Exit; the choice is the answer's meaning, none if skipped |
| Menus.InviteIds | src/inquire.rs:229-233 | the ids of the invites, in order |
| Menus.SelectInviteToDelete | src/inquire.rs:217-246 | no invites: nothing shown and nothing chosen; otherwise the ids are shown and the answer returned |
| Menus.UsesValidator | src/inquire.rs:255-281 | blank or a nonzero 32-bit number is valid; zero gives "Cannot be zero"; anything else "Please enter a valid number or leave blank" |
| Menus.ParseUses | src/inquire.rs:284-301 | a validated answer yields unlimited iff blank, otherwise its nonzero number |
| Menus.UsesAnswerRoundTrip | src/inquire.rs:255-301 | the rendering of any positive 32-bit limit is accepted and parsed back to it, and a blank answer means unlimited |

## Left out

- `src/registry.rs` (the registry client), `src/app.rs`, `src/command/*.rs`, `src/cli.rs` and `src/bin/*.rs` are not part of this model. They are the registry's HTTP access and the command-line front ends that sequence prompts and calls.
- The container engine, the network, the terminal and the file system are not modelled. Responses are inputs, and requests are the returned `Call` traces.
- The prompts are not modelled. A prompt is a `select` parameter, from the options shown to the answer given; prompt errors and interrupts are not modelled. `select_invites_action` and `confirm_delete_server_container` only prompt, and are left out.
- `server_container_parameters`, `Parameters::inquire` and the TLS prompts read files and ask questions. They are left out; so is the PEM check of `file_path_validator`.
- `Name::generate` draws random words. Each creation takes the generated name as an input (`generated`).
- Params.EncodeForLabel: JSON (`serde_json`) is replaced by a length-prefixed token encoding with the same round-trip property. The label text itself differs from the JSON the source writes.
- Versioning.Parse: the semantic-version grammar is simplified. Build metadata is not accepted, and numbers are unbounded rather than 64-bit. Numeric fields and numeric identifiers reject leading zeros, as the crate does. The order and caret matching follow SemVer 2.0.0 precedence.
- Versioning.GetLatestCompatibleAppVersion: requires that some tag is compatible. The source panics otherwise. The registry call is an input.
- Mayo.VersionToImage: the source loop runs until a lookup finds an image. The model reads a finite script of responses, and running out of them is the error `OUT_OF_RESPONSES`.
- Mayo.PullImage: requires that the progress values of messages with a layer id read before the first error are non-negative. The source converts exactly those with a panicking conversion (src/mayo.rs:117-125); messages without a layer id and messages after the first error are unconstrained.
- Mayo.RetainImageCompatible: image inspection is a function `inspect`, so the engine is assumed to give the same answer each time one id is inspected; the source re-inspects an id memoised as incompatible once per container using it (src/mayo.rs:417-437), and those answers could differ.
- Mayo.RetainImageCompatible: proved for any image-tag test `accepts`. `ListServers` instantiates it with the `^0.3` test of `src/versioning.rs`.
- Mayo.ListServers: the engine-side label filter is recorded in the call but not applied. The listed containers are whatever the response holds.
- Legacy.FindExistingServerContainers: the engine-side ancestor and label filters are recorded in the call but not applied.
- Legacy.GetContainerLogs: lossy UTF-8 decoding is a parameter `lossy`, applied per chunk as the source does. For exec output, `lossy` is applied once to the whole buffer.
- Legacy.GetInvites: JSON decoding of the invite list is a parameter `decode`.
- The JavaScript text of the invite scripts before the first spliced argument and after the last is opaque constants. The text between the `uses` and `perms` arguments is written out, and so is how the arguments are spliced in.
- The two label keys of the current layer are opaque constants, assumed distinct where a lemma needs it (`DistinctKeys`).
- The clearing of the progress display and its error, the drawing of bars, and the effect of `finish` on a bar's position are not modelled.
- `Parameters::try_from(&str)`, used by `src/server.rs`, is modelled as the same label decoding as the map form.
- Multi-threading and async scheduling are not modelled. Every operation runs its steps in order.
