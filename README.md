# proxy: a verified model of the Docker-to-Nginx reconciler

`proxy` watches the Docker daemon and turns container labels into Nginx
configuration.

- Labels such as `proxy.tcp.ports`, `proxy.udp.ports` and `proxy.http.host`
  become stream (TCP/UDP) and HTTP server records.
- The configuration files are rewritten only when their content changes.
- Nginx is reloaded with a throttle, and a debounced event loop re-runs the
  whole pass when containers start or stop.

This project models the core of that program in Dafny and proves properties
of the model:

- **docker_client.dfy** (module `Docker`, from `docker/client.go`):
  - `parsePortMappings`: the comma/colon port-label parser.
  - The label and address half of `parseContainer`.
  - The skip-on-error filter loop of `ScanContainers`.
  - Listing a container and inspecting it are inputs. A listed container
    carries its names, ID, labels, and either an inspection failure or a
    primary IP plus a sequence of network IPs.
- **gostrings.dfy** (module `GoStrings`): the parts of Go's `strings` and
  `strconv` packages the parser uses. These are `TrimSpace`, `TrimPrefix`,
  `Split`, `ToLower` and `Atoi`, with lemmas relating `Split`, `Join` and
  `TrimSpace`.
- **nginx_generator.dfy** (module `Generator`, from `nginx/generator.go`):
  - `hostnameToUpstream`.
  - `buildTemplateData`: the flattening of containers into stream entries and
    HTTP server records.
  - `validateConflicts`: the three first-claim-wins conflict checks.
- **nginx_writer.dfy** (module `ConfigWriter`, from `nginx/generator.go`):
  - The file system is a class holding a `path -> bytes` map. A set of fault
    inputs says which reads, writes, renames and removals fail.
  - On top of it: `atomicWrite`, `writeIfChanged`, the two config-writing
    steps and `Generate`.
  - Template rendering is an abstract input function of the template data.
  - The SHA-256 checksum comparison is modelled as byte equality.
- **nginx_reloader.dfy** (module `Reload`, from `nginx/reloader.go`):
  - `Reloader` is a class with its `lastReload` field.
  - `Reload` takes the current time in milliseconds and the outcome of the
    reload command as inputs.
- **watch.dfy** (module `Watch`, from `cmd/watch.go`):
  - `generateAndReload` is a fail-fast pipeline over the classes above.
  - The `select` loop of the watch command is a state machine. Its state is
    the `pendingReload` flag and the timer deadline.
  - The loop model is driven by a trace of inputs: `Event`, `TimerFired`,
    `StreamError` and `Signal`.
  - The Nginx validator is a boolean input of each pass.

Each imperative operation of the source is a method proved equal to a
specification function of its inputs and old state, for example:

- `ParsePortMappings` ensures `r == PortMappingsOf(s)`.
- `Generate` ensures `(fs.files, r) == GenerateOf(fs.faults, old(fs.files), g, cs)`.

The properties the program promises are lemmas about those functions.

Three behaviours a reader may not expect are modelled as the code has them:

- Empty hostname pieces such as the middle of `"a,,b"` are kept as `""`
  (docker/client.go:203-206).
- `hostnameToUpstream` replaces only `.` and `-`. So `a.b` and `a-b` share an
  upstream name (nginx/generator.go:308).
- A port or hostname claimed twice by the same container is a conflict
  (nginx/generator.go:180-187).

## Model

| member | source | states |
|---|---|---|
| GoStrings.Split | docker/client.go:261 | `strings.Split` always yields at least one part |
| GoStrings.SplitParts | docker/client.go:261 | no part of a split contains the separator |
| GoStrings.JoinSplit | docker/client.go:261 | joining the parts of a split with the separator gives back the string |
| GoStrings.SplitCount | docker/client.go:261 | a split has one more part than the string has separators |
| GoStrings.SplitAround | docker/client.go:261 | splitting `a + sep + b` is the split of `a` followed by the split of `b` |
| GoStrings.TrimSpacePadded | docker/client.go:265 | `TrimSpace` removes exactly the white space padding around a trimmed core |
| GoStrings.TrimSpaceEmptyIff | docker/client.go:265-268 | a piece trims to empty iff it is all white space |
| GoStrings.Atoi | docker/client.go:292-295 | a numeral is read only when its value fits Go's 64-bit int; a longer one is an error like any syntax error |
| GoStrings.AtoiDecimal | docker/client.go:280-296 | `Atoi` reads back the decimal spelling of every natural number up to the int64 maximum and rejects the spelling of any larger one |
| GoStrings.ToLowerFolds | docker/client.go:225 | lower-casing leaves no ASCII upper-case letter, keeps every other character, shifts each upper-case letter to its lower-case form, and is idempotent |
| Docker.CheckRange | docker/client.go:299-304 | a mapping is accepted iff both ports lie in [1, 65535]; an out-of-range proxy port is reported first, naming it, and otherwise an out-of-range container port, naming it |
| Docker.ParseSpec | docker/client.go:272-304 | every mapping a single piece yields is TCP-tagged with both ports in range |
| Docker.ParsePiece | docker/client.go:270-309 | the body of the per-piece loop computes `ParseSpec` of the piece |
| Docker.ParsePortMappings | docker/client.go:260-313 | the loop over the comma pieces equals `PortMappingsOf`, stopping at the first bad piece |
| Docker.ParseTokens | docker/client.go:264-310 | a successful parse has at most one mapping per piece, all of them in range |
| Docker.ParseTokensOkIff | docker/client.go:264-310 | a label parses iff every non-blank piece parses |
| Docker.ParseTokensValues | docker/client.go:264-310 | the k-th mapping is the parse of the k-th non-blank piece, in order, one per piece |
| Docker.ParseTokensFirstError | docker/client.go:264-310 | a failed parse reports the error of the first bad non-blank piece; every piece before it parses |
| Docker.ParseTokensErrorAt | docker/client.go:264-304 | a bad piece after good ones fails the whole label with that piece's error |
| Docker.PrefixError | docker/client.go:264-304 | once a prefix of the pieces fails, later pieces do not change the error |
| Docker.ParseTokensConcat | docker/client.go:264-312 | parsing two lists of pieces is parsing each, failing at the first error |
| Docker.PortMappingsJoin | docker/client.go:260-313 | the label `a,b` parses as `a` then `b` |
| Docker.OnePiece | docker/client.go:261-268 | a comma-free label is its one trimmed piece; a blank one yields no mapping |
| Docker.BlankLabel | docker/client.go:266-268 | an all-white-space label yields an empty list and no error |
| Docker.BareSpec | docker/client.go:289-297 | a bare port `p` is checked as `{p, p}`; past the int64 range it is an invalid port |
| Docker.BareToken | docker/client.go:265-297 | a bare in-range port padded with white space yields `[{p, p}]` |
| Docker.PairSpec | docker/client.go:272-288 | `a:b`, with white space around the colon, is checked as `{a, b}`; a side past the int64 range is an invalid proxy or container port |
| Docker.PairToken | docker/client.go:265-288 | `a:b` padded with white space around the piece and the colon yields `[{a, b}]` |
| Docker.PairShape | docker/client.go:272-288 | the colon branch: the proxy side is read first, then the container side, then the ranges |
| Docker.TooManyColons | docker/client.go:274-277 | a piece with two or more colons is a format error |
| Docker.BarePortOutOfRange | docker/client.go:289-301 | a bare out-of-range port is rejected as a proxy port naming the port, or as an invalid port past the int64 range |
| Docker.ContainerPortRejected | docker/client.go:283-304 | `a:b` with `a` in range and `b` not is rejected naming the container port, or as an invalid container port past the int64 range |
| Docker.PairThenBare | docker/client.go:260-313 | `"a:b, c"` yields `{a, b}` then `{c, c}`, in label order |
| Docker.ZeroPortLabel | docker/client.go:299-301 | `"0:8080"` is rejected: port 0 is out of range |
| Docker.FirstNonEmpty | docker/client.go:121-126 | the fallback address is the first non-empty network IP, or empty iff there is none |
| Docker.FirstNonEmptyAt | docker/client.go:121-126 | the first non-empty network IP is the one picked |
| Docker.LookupIP | docker/client.go:118-127 | the lookup loop computes the primary IP, else the first non-empty network IP |
| Docker.TaggedAlgebra | docker/client.go:169-174 | tagging sets only the protocol, distributes over concatenation, and retagging keeps only the last tag |
| Docker.AppendTagged | docker/client.go:169-193 | the tagging loop appends the tagged mappings to what was there |
| Docker.HTTPPortOf | docker/client.go:208-220 | an accepted HTTP port is in [1, 65535] |
| Docker.HTTPPortErrors | docker/client.go:210-219 | a non-integer HTTP port label and an out-of-range one are the two port errors |
| Docker.SplitHostnames | docker/client.go:203-206 | the in-place trimming loop yields the trimmed comma pieces of the host label |
| Docker.PiecesJoin | docker/client.go:203-206 | the pieces of `a,b` are those of `a` then those of `b`; there is one more piece than commas |
| Docker.HostnamesKeepBlanks | docker/client.go:203-206 | an empty hostname between two commas is kept as `""` |
| Docker.HTTPSOfIff | docker/client.go:222-226 | the HTTPS flag is on iff the trimmed, lower-cased label reads `"true"`; an absent label is off |
| Docker.HTTPSExamples | docker/client.go:222-226 | examples: `"TRUE"` and `" True "` turn HTTPS on; `"yes"`, `"1"` and `""` do not |
| Docker.ParseMappings | docker/client.go:155-195 | TCP mappings, then UDP mappings, each tagged; the first bad label is the error |
| Docker.ParseHTTP | docker/client.go:197-236 | the HTTP block computes the HTTP mapping of the labels, or its port error |
| Docker.ParseContainer | docker/client.go:108-254 | the label and address half of `parseContainer` equals `Resolve` |
| Docker.ResolveSkips | docker/client.go:118-153 | a container is skipped without error iff it has no address, or all three of its proxy labels are empty |
| Docker.ResolvedMappings | docker/client.go:108-254 | a resolved container has the trimmed name, 12-character ID and its address; all TCP mappings precede all UDP mappings, each tagged, in label order and in range |
| Docker.TaggedJoin | docker/client.go:155-195 | the TCP list followed by the UDP-tagged UDP list keeps positions, tags and ranges |
| Docker.ResolvePortErrors | docker/client.go:160-195 | a bad TCP label fails the container; a bad UDP label does too once TCP is fine |
| Docker.ResolvedHTTP | docker/client.go:198-232 | the HTTP mapping exists iff the host label is non-empty; its hostnames, default-80 port and HTTPS flag follow the labels |
| Docker.ScanContainers | docker/client.go:80-105 | the scan loop equals `Scan`: a list failure is the only error, and kept infos are in list order |
| Docker.KeptIndices | docker/client.go:92-101 | the kept positions are increasing, each keeps an info, and every kept position is listed |
| Docker.KeptExactly | docker/client.go:92-101 | the k-th result is the info of the k-th container that parsed to a non-nil info |
| Docker.KeptConcat | docker/client.go:92-101 | the filter distributes over concatenation |
| Docker.ScanConcat | docker/client.go:92-101 | scanning two lists is scanning each, results in order |
| Docker.KeptNothing | docker/client.go:93-97 | containers that only fail or are skipped contribute nothing |
| Docker.ScanSwallowsErrors | docker/client.go:93-97 | a listed scan never fails; per-container errors are dropped |
| Generator.HostnameToUpstream | nginx/generator.go:306-311 | the upstream name starts with `http_`, is five longer than the hostname, has no `.` or `-`, and keeps every other non-upper-case character |
| Generator.UpstreamEqualIff | nginx/generator.go:306-311 | two hostnames share an upstream iff they agree character by character once `.`/`-` become `_` and letters are lower-cased |
| Generator.Part | nginx/generator.go:139-150 | the mappings of one protocol, in order, each carry the container IP |
| Generator.Partition | nginx/generator.go:139-151 | the partition loop splits the mappings into TCP and UDP by protocol |
| Generator.PartitionCount | nginx/generator.go:139-151 | every mapping goes to exactly one of the two lists |
| Generator.PartConcat | nginx/generator.go:139-151 | the partition distributes over concatenation |
| Generator.PartOfTagged | nginx/generator.go:146-150 | mappings tagged with one protocol land only in that protocol's list |
| Generator.StreamOfResolved | nginx/generator.go:139-151 | a resolved container's TCP list is its TCP label's mappings, and its UDP list its UDP label's, in order |
| Generator.StreamContainers | nginx/generator.go:129-154 | there are at most as many stream entries as containers |
| Generator.StreamEntryIff | nginx/generator.go:131-154 | a container contributes a stream entry iff it has a mapping; no containers give no entries and no servers |
| Generator.StreamEntriesFromContainers | nginx/generator.go:129-154 | every stream entry is the entry of some container with mappings |
| Generator.StreamContainersConcat | nginx/generator.go:129-154 | stream entries of two lists are those of each, in order |
| Generator.ServersOf | nginx/generator.go:157-169 | a container has one server record per hostname, none without an HTTP mapping |
| Generator.ServerRecords | nginx/generator.go:157-169 | the hostname loop builds the container's server records |
| Generator.ServersFromHostnames | nginx/generator.go:157-169 | every server record is for a hostname of some container and carries its upstream name, name, ID, IP, port and HTTPS flag |
| Generator.ServerCount | nginx/generator.go:157-169 | there are as many server records as hostnames |
| Generator.HTTPServersConcat | nginx/generator.go:157-169 | server records of two lists are those of each, in order |
| Generator.BuildTemplateData | nginx/generator.go:118-174 | the nested loops compute the stream entries and server records of the containers |
| Generator.CollisionKept | nginx/generator.go:182-185 | once a collision is found, later claims do not change it |
| Generator.ClaimStep | nginx/generator.go:182-186 | a claim either collides with the holder of its key or becomes that key's holder |
| Generator.ClaimPorts | nginx/generator.go:181-187 | the inner loop over one container's mappings finds the first collision and keeps the holder map |
| Generator.CheckPorts | nginx/generator.go:179-200 | the port check for one protocol returns the first collision of its claims |
| Generator.CheckHostnames | nginx/generator.go:203-210 | the hostname check returns the first collision of the hostname claims |
| Generator.ValidateConflicts | nginx/generator.go:177-216 | TCP is checked, then UDP, then hostnames, and the first conflict found is the result |
| Generator.HoldersCovers | nginx/generator.go:179-210 | every claimed key has a holder |
| Generator.HoldersFirst | nginx/generator.go:182-186 | the holder of a key is its first claimant |
| Generator.NoCollisionIff | nginx/generator.go:182-186 | no collision is found iff all claimed keys are pairwise distinct |
| Generator.CollisionWitness | nginx/generator.go:182-185 | a collision names the first claimant as existing and the first repeat as claimant; the keys before the repeat are distinct |
| Generator.ConflictsNoneIff | nginx/generator.go:177-216 | validation passes iff the proxy ports each mapping claims for its container (TCP, then UDP) and the hostnames each server claims are each pairwise distinct, duplicates inside one container included |
| Generator.ConflictOrder | nginx/generator.go:177-210 | a UDP conflict is reported only when TCP is clean, and a hostname conflict only when both port spaces are |
| Generator.ConflictExamples | nginx/generator.go:177-210 | one port on TCP and UDP is no conflict; a port twice in one container and one port in two containers are |
| ConfigWriter.FileSystem.ReadFile | nginx/generator.go:254 | reading a path fails on an unreadable path, reports a missing file exactly when the path is absent and readable, and otherwise returns the file's content |
| ConfigWriter.FileSystem.WriteFile | nginx/generator.go:287 | a write either fails leaving the files unchanged or replaces that path's bytes |
| ConfigWriter.FileSystem.Rename | nginx/generator.go:292 | a rename moves the source's bytes to the target and removes the source |
| ConfigWriter.FileSystem.Remove | nginx/generator.go:294 | a removal deletes the path |
| ConfigWriter.AtomicWrite | nginx/generator.go:282-302 | temp write, then rename, then cleanup on failure, as `AtomicWriteOf` |
| ConfigWriter.TempPathDiffers | nginx/generator.go:283 | the temp path is never the target |
| ConfigWriter.AtomicWriteSuccess | nginx/generator.go:282-302 | a write succeeds iff the temp write and rename do; then the target holds the data, the temp file is gone and other paths are untouched |
| ConfigWriter.AtomicWriteTempFails | nginx/generator.go:287-289 | a failed temp write leaves every file as it was |
| ConfigWriter.AtomicWriteRenameFails | nginx/generator.go:292-299 | a failed rename leaves the target as it was; the temp file is removed unless removal fails, and the error says which |
| ConfigWriter.WriteIfChanged | nginx/generator.go:249-273 | read, compare, then write atomically, as `WriteIfChangedOf` |
| ConfigWriter.WriteIfChangedUnchanged | nginx/generator.go:254-264 | on a readable path, the call is a no-op reporting false iff the content (missing = empty) equals the new content |
| ConfigWriter.EmptyToMissing | nginx/generator.go:254-264 | empty content is never written to a missing path |
| ConfigWriter.WriteIfChangedReadError | nginx/generator.go:255-257 | a read error other than a missing file fails with no write |
| ConfigWriter.WriteIfChangedWritten | nginx/generator.go:261-272 | a true result means the content differed and the path now holds exactly the new content; other paths are untouched |
| ConfigWriter.WriteIfChangedIdempotent | nginx/generator.go:261-264 | after any successful call, the same call again reports false and changes nothing |
| ConfigWriter.WriteTwice | nginx/generator.go:249-273 | writing new content twice returns true, then false with no change |
| ConfigWriter.ConfigStepRun | nginx/generator.go:218-246 | rendering a template and writing it if changed, as `ConfigStep` |
| ConfigWriter.ConfigStepFrame | nginx/generator.go:218-246 | a config step touches only its own path and its temp file |
| ConfigWriter.ConfigStepChanged | nginx/generator.go:218-246 | a successful step leaves the path holding the rendered bytes; true means they differed, false means no file changed |
| ConfigWriter.Generate | nginx/generator.go:88-115 | build, validate, write the stream config, then the HTTP config, as `GenerateOf` |
| ConfigWriter.ConflictWritesNothing | nginx/generator.go:95-97 | a conflict fails before either file is touched |
| ConfigWriter.StreamBeforeHTTP | nginx/generator.go:99-103 | when the stream step fails, the HTTP file is untouched |
| ConfigWriter.GenerateChanged | nginx/generator.go:99-114 | a successful result is true iff either file's content changed; both files then hold their rendered bytes |
| ConfigWriter.GenerateIdempotent | nginx/generator.go:88-115 | after a successful run, generating again from the same containers writes nothing and reports no change |
| Reload.Reloader.constructor | nginx/reloader.go:19-24 | a new reloader has the zero last-reload time |
| Reload.Reloader.Reload | nginx/reloader.go:28-49 | the reload sleeps the throttle delay; success records the completion time and failure keeps the old time |
| Reload.DelayIff | nginx/reloader.go:30-33 | the call sleeps one second iff less than a second has passed since the last reload, and a fresh reloader never sleeps |
| Reload.ReloadOutcome | nginx/reloader.go:37-45 | on success the last reload time is the completion time; on failure the error carries the output and the time is kept |
| Reload.ReloadSpacing | nginx/reloader.go:30-33 | with a clock that never runs backwards, a command never starts within a second of the last successful reload |
| Reload.FixedSleep | nginx/reloader.go:32 | the sleep is a whole second even one millisecond short of the spacing |
| Reload.ReloadMonotone | nginx/reloader.go:40-45 | the last reload time only moves forward and, once set, stays set |
| Watch.GenerateAndReload | cmd/watch.go:122-155 | scan, generate, validate and reload with early returns, as `PassOf`: files, last reload time and error |
| Watch.FailFast | cmd/watch.go:125-151 | a pass runs a prefix of scan, generate, validate and reload, and a failure is the last stage run |
| Watch.ReloadOnlyAtEnd | cmd/watch.go:138-151 | reload runs iff the scan succeeds, generation reports a change and validation passes; without it the last reload time is unchanged |
| Watch.UnchangedSkipsReload | cmd/watch.go:138-141 | when nothing changed, neither validate nor reload runs and the pass succeeds |
| Watch.ScanFailureChangesNothing | cmd/watch.go:125-128 | a failed scan runs nothing else and changes nothing |
| Watch.HandleInput | cmd/watch.go:87-116 | one `select` case, as `TurnOf` |
| Watch.RunWatch | cmd/watch.go:65-117 | initial pass, then the debounce loop over the inputs, as `WatchOf` |
| Watch.InitialFailureEnds | cmd/watch.go:65-69 | the initial pass runs first, and its failure ends the command before any input is handled |
| Watch.EventRearms | cmd/watch.go:88-93 | every event sets the pending flag and re-arms the timer to two seconds later |
| Watch.TimerFiring | cmd/watch.go:95-105 | a firing while pending runs exactly one pass and clears the flag, whatever the pass's outcome; a firing while idle does nothing |
| Watch.ExitInputs | cmd/watch.go:107-115 | a stream error ends the loop with an error and a signal ends it without one, with no further pass |
| Watch.Burst | cmd/watch.go:88-93 | any burst of events leaves the loop pending with the deadline set by the last event |
| Watch.BurstThenFire | cmd/watch.go:88-105 | a burst then one firing runs exactly one pass and keeps watching |
| Watch.PassesBounded | cmd/watch.go:86-117 | the loop runs no more passes than timer firings, nor more than events plus one already pending |

## Left out

- Docker API calls (`NewClient`, `ContainerList`, `ContainerInspect`, `Close`, `WatchEvents`, `EnsureNetwork`) are foreign I/O. Their results are inputs: a `Listing`, and an `Inspection` per container.
- The order of the `Networks` map is Go map order, so the network IPs are a given sequence.
- The event goroutine, its channels and context cancellation are concurrency. The controller consumes a finite trace of inputs instead.
- The template text and the RFC 3339 timestamps are not modelled. Rendering is an abstract function from template data to bytes, or to a template failure.
- SHA-256 is not modelled: two contents have the same checksum iff they are equal.
- `nginx/validator.go` (`nginx -t`) is an abstract pass/fail input of each pass.
- The command line and environment layer (`cmd/root.go`, `cmd/generate.go`, `cmd/validate.go`, `config/config.go`, `main.go`) is not part of this model.
- Log lines and the text of error messages are not modelled. Errors are datatypes that carry the values the messages print.
- Real sleeping and wall-clock time are not modelled. Time is an integer of milliseconds passed in, and the command's duration is part of its outcome.
- Watch.Step: a `TimerFired` input is taken whenever it appears and runs the pass whenever a reload is pending; its time is never compared with the deadline. So `Timer.Reset` without a stop and drain (cmd/watch.go:92) is allowed its stale firing: an event followed by an old firing runs the pass less than 2 s after that event, and the model permits it rather than excluding it.
- Docker.Resolve: requires an ID of at least 12 characters and at least one name, because `ctr.ID[:12]` and `ctr.Names[0]` would panic otherwise.
- GoStrings.ToLower: ASCII only; Unicode case mapping is not modelled.
- GoStrings.Atoi: Go's 64-bit `int` is assumed; on a 32-bit platform Go's range would be narrower.
- ConfigWriter.FileSystem.WriteFile: a failed write leaves the files unchanged. A partly written temp file is not modelled.
- Go's zero `time.Time` for a fresh reloader is `None`. `time.Since` of it is never under a second, so the first reload never sleeps.
