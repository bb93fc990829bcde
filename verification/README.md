# Verification model of envoy-perf

This project models the parts of envoy-perf that carry logic over unbounded data, and proves
what they are for.

* **Sandbox manager** (`salvo-remote/sandboxes`). A request is validated and printed as
  Terraform variables, Terraform deploys what the variables name, and its six outputs are
  parsed and joined with the request. `Decimal`, `TfVars`, `BuildIPs`, `Instances`, `Sandboxes`.
* **Benchmark sessions** (`BenchmarkEnvController`, `BenchmarkRunner.execute`). Sessions run one
  after the other over one shared environment; each is bracketed by a controller, and a
  dockerized one has a container bracket inside it. `BenchmarkEnv`, `Docker`, `Runner`.
* **A/B planner** (`SourceTree`, `SourceManager`, the image builder, `BenchmarkRunner`). A control
  document becomes a set of hashes, then images that are pulled or built, then one job per hash
  with its own output directory and link. `GitHistory`, `Control`, `Sources`, `EnvoyImages`,
  `FileSystem`, `Planner`, `BazelOptions`.
* **Planning and running together**: `AbBenchmark`.

`Wrappers`, `Collections` and `Strings` are shared helpers.

## How the outside world is modelled

* Iterating a Go map, a Python set or a protobuf map may visit the elements in any order:
  `Collections.AnyOf` returns some element about which nothing else is known. A contract that
  fixes the outcome therefore fixes it for every order.
* Terraform, git, the Docker registry, bazel and the benchmarked containers are parameters
  (`World`, `Git`, `Registry`, `BuildWorld`, `ContainerScript`) whose answers are unconstrained.
  A failed `terraform apply` may leave any set of sandboxes behind.
* `net.ParseIP` is an arbitrary partial function. JSON, YAML and protobuf start decoded.
* Errors keep their kind where callers tell kinds apart; their text is dropped.
* A protobuf source record is a heap object (`SourceRepository`), because three objects share it.

## Where the code and its documentation differ

The model follows the code.

* `salvo-remote/sandboxes/README.md:71` shows the variable `default_sandbox_build_ids` with quoted
  ids; the code prints `default_sandbox_x64_build_ids` with bare numbers.
* `salvo/src/lib/source_tree.py:284` speaks of a number of commits behind the current one. The
  revision list includes the current commit if it passes the filter, so the result is the nearest
  older passing commit only under the condition of `Sources.PairWithNearestOlderIff`;
  `Sources.PairSkipsExample` is a history for which it is not.
* `salvo/src/lib/benchmark/base_benchmark.py:242` promises to restore saved variables. A session
  that fails to start never gets to its exit (`Runner.SpecialVarLostIffStartFailed`,
  `Runner.SpecialVarLost`).
* `salvo/src/lib/docker_management/docker_image_builder.py:13` builds an image for a hash or tag.
  The image always gets a development name, so a release tag that has to be built stays
  unavailable (`EnvoyImages.CommitsAvailableTagsNot`, `EnvoyImages.TagThatHasToBeBuilt`); and
  without an Envoy source in the document nothing is checked out and the tag is empty
  (`EnvoyImages.BuildsAgreeIffNamed`, `EnvoyImages.BuildWithoutNamedSource`).
* `salvo/src/lib/run_benchmark.py:277` calls the identifier unique. It is within one plan; across
  plans, with other branches, exactly the hashes of `Planner.HashesCollideIff` share one.

## Model

| member | source | states |
|---|---|---|
| Decimal.ParseFormatInt | salvo-remote/sandboxes/sandboxes.go:178 | every int64, down to the smallest and up to 2^63-1, is read back by ParseInt from its own `%d` text |
| Decimal.FormatIntDigits | salvo-remote/sandboxes/sandboxes.go:178 | the printed text is decimal text, digit by digit |
| Decimal.Int64Range | salvo-remote/sandboxes/json.go:20 | the range of the ids that are read, in decimal |
| Decimal.ParseIntSpellings | salvo-remote/sandboxes/json.go:20-27 | exactly which key texts denote a positive id: an optional plus sign and leading zeros before the canonical text, and no others |
| TfVars.ListToTfVar | salvo-remote/sandboxes/sandboxes.go:161-182 | a list is accepted if and only if its type is known and it is nonempty, free of duplicates and all at least 1; the printed text is that of the list |
| TfVars.SbxsToTfVars | salvo-remote/sandboxes/sandboxes.go:154-185 | acceptance is exactly: some type given and every list acceptable; the one variable of an accepted request is its name written out, and the ids in decimal between brackets, separated by commas |
| TfVars.AcceptedExactly | salvo-remote/sandboxes/sandboxes.go:155-177 | a request is accepted if and only if it asks for the default type only, for at least one id, and all its ids are different and at least 1 |
| TfVars.ParsePrintedVar | salvo-remote/sandboxes/sandboxes.go:180 | reading a printed `name=[a,b,...]` back gives the same type and the same ids in the same order, for every accepted list |
| TfVars.PrintedVarsDiffer | salvo-remote/sandboxes/sandboxes.go:180 | two accepted lists with the same text are the same type and list |
| TfVars.ParsePrintedRequest | salvo-remote/sandboxes/sandboxes.go:159-184 | whatever order the map was printed in, the variables together mean exactly the request |
| BuildIPs.UnmarshalBuildIPMap | salvo-remote/sandboxes/json.go:12-41 | success does not depend on the visiting order: every key is a number of at least 1 and lists at least one IP, all of which parse; the value is what some visiting order gathers |
| BuildIPs.AppendIPs | salvo-remote/sandboxes/json.go:32-38 | succeeds if and only if every IP of the key parses, and appends all of them, in order, to those of the id |
| BuildIPs.GatherOrderFree | salvo-remote/sandboxes/json.go:19-39 | two visiting orders gather, for every id, the same IPs up to reordering, even when keys alias |
| BuildIPs.SingleIPIffSole | salvo-remote/sandboxes/instances.go:135-142 | in every visiting order, the id is present with one IP exactly when one key only spells it and that key lists one IP, and then the IP is that one; aliased ids always gather at least two |
| Instances.AnswerIsSingleIP | salvo-remote/sandboxes/instances.go:135-143 | the parser's presence and length tests find Terraform's answer, or its absence, independently of map order |
| Instances.ReadAnswer | salvo-remote/sandboxes/instances.go:125-142 | succeeds if and only if the output answers the id, and then returns that answer |
| Instances.FillFields | salvo-remote/sandboxes/instances.go:114-144 | writing through pairwise different field pointers puts each answer into its own field; fails if and only if some answer is missing |
| Instances.NewFilledInstance | salvo-remote/sandboxes/instances.go:111-144 | a new instance whose three VMs are its own carries all six answers, each in the field that belongs to its output |
| Instances.ParseDefaultSandboxX64 | salvo-remote/sandboxes/instances.go:108-147 | succeeds if and only if every id is answered six times; the keys are exactly the ids, and every instance shows the answers of its own id |
| Instances.InstanceMap.Combine | salvo-remote/sandboxes/instances.go:101-105 | updates the first map in place to the union in which the second one wins, in any visiting order |
| Instances.ParseType | salvo-remote/sandboxes/instances.go:81-96 | a type parses if and only if it is the supported one, has instances, and all of them are answered |
| Instances.ParseInstances | salvo-remote/sandboxes/instances.go:74-98 | success (the default type only, some ids, all of them answered) and value are functions of the request and the decoded outputs alone, although both maps and every output are visited in arbitrary orders |
| Sandboxes.Terraform.Apply | salvo-remote/sandboxes/README.md:74-76 | the deployed ids become exactly the ids named in the variables; with no variables, none |
| Sandboxes.Manager.Start | salvo-remote/sandboxes/sandboxes.go:107-137 | the deployment and the result are those of the request itself, although it crosses the printer, Terraform and the parsers; a call that does not start or is rejected deploys nothing new; on success the keys are the requested and the deployed ids |
| Sandboxes.Manager.StopAll | salvo-remote/sandboxes/sandboxes.go:140-151 | a successful call deploys nothing; it succeeds if and only if Terraform starts and applies |
| Sandboxes.StartWithFaithfulTerraform | salvo-remote/sandboxes/sandboxes.go:105-137 | end-to-end fidelity: for every accepted request and every Terraform that answers each output with one parseable IP per id, Start succeeds and each of the six fields of each id holds the IP reported for it |
| Sandboxes.FaithfulAddresses | salvo-remote/sandboxes/instances.go:110-145 | outputs keyed by canonical ids answer every requested id, and the six expected addresses are those reported under the matching outputs |
| Sandboxes.RunOfIdleCalls | salvo-remote/sandboxes/sandboxes.go:107-116 | over any run, calls whose Terraform does not start or whose request is rejected leave the deployment as it was |
| Sandboxes.RunIsLastApply | salvo-remote/sandboxes/sandboxes.go:107-151 | after any run the deployment is what the last call that reached apply made of it |
| Sandboxes.RunIsLastSuccess | salvo-remote/sandboxes/sandboxes.go:107-151 | if failed applies change nothing, the deployed ids are those of the last successful call, and none if that was StopAll |
| BenchmarkEnv.BenchmarkEnvController.PreserveAndClearSpecialVars | salvo/src/lib/benchmark/base_benchmark.py:234-239 | exactly the special variables move from the environment into the saved ones |
| BenchmarkEnv.BenchmarkEnvController.ClearEnvironmentVars | salvo/src/lib/benchmark/base_benchmark.py:246-260 | exactly the controlled variables disappear, in any visiting order |
| BenchmarkEnv.BenchmarkEnvController.SetEnvironmentVars | salvo/src/lib/benchmark/base_benchmark.py:204-232 | raises if and only if no IP version is given, after clearing; otherwise, name by name: the document's own variables, its IP version as v4only or v6only, its Envoy path if there is one, and for the rest what was there |
| BenchmarkEnv.BenchmarkEnvController.RestoreSpecialVars | salvo/src/lib/benchmark/base_benchmark.py:241-244 | every saved binding is back and wins, in any visiting order |
| BenchmarkEnv.BenchmarkEnvController.Enter | salvo/src/lib/benchmark/base_benchmark.py:262-265 | on success the environment is, name by name, exactly what the session is to see; on failure the special and controlled variables are gone |
| BenchmarkEnv.BenchmarkEnvController.Exit | salvo/src/lib/benchmark/base_benchmark.py:267-270 | the controlled variables are gone and the saved ones are back |
| Runner.Session | salvo/src/lib/benchmark/fully_dockerized_benchmark.py:101-102 | both brackets together, on normal and on raising exit: the environment loses only controlled, non-special variables, and a dockerized session keeps running only what ran at its entry and still runs at its end |
| Runner.AddMissing | salvo/src/lib/benchmark/scavenging_benchmark.py:102-105 | defaults are added in any order without overriding what the document sets |
| Runner.ExecuteBenchmark | salvo/src/lib/benchmark/scavenging_benchmark.py:78-118 | when one benchmark raises, whether its session was entered, what it saw and what it left |
| Runner.Execute | salvo/src/lib/run_benchmark.py:380-388 | a run completes if and only if it is local, every benchmark is prepared, has an IP version and goes well; otherwise it stops at the first that does not; how many sessions are entered, what each of them sees, and the exact final environment and containers are given for every way a run can end |
| Runner.EnteredExactly | salvo/src/lib/run_benchmark.py:384-388 | sessions are entered one after the other until one cannot be (preparation raises, or no IP version) or has not gone well (the command or the look at its output raises) |
| Runner.SeenExactly | salvo/src/lib/benchmark/scavenging_benchmark.py:96-107 | what session k of a run sees, name by name: what its own document and kind provide, its IP version and Envoy path, no runfiles manifest, and for the rest what was there before the run and no earlier session touched |
| Runner.FinalExactly | salvo/src/lib/benchmark/base_benchmark.py:246-270 | what a run leaves, name by name: what was there before, unless an entered session touched it (a runfiles manifest is put back) or a last session that failed to start took it away |
| Runner.SessionUndone | salvo/src/lib/benchmark/base_benchmark.py:262-270 | entering and leaving amounts to dropping the controlled, non-special variables of the environment |
| Runner.ResidualExactly | salvo/src/lib/benchmark/base_benchmark.py:234-270 | exact final state: an initial variable survives any number of sessions, with its value, if and only if it is special or no document controls it; nothing else remains |
| Runner.RunLeavesOnlyInitialBindings | salvo/src/lib/benchmark/base_benchmark.py:246-270 | however a run ends, its final environment is a sub-map of the initial one |
| Runner.SpecialVarLostIffStartFailed | salvo/src/lib/benchmark/base_benchmark.py:219-220 | a special variable is back at its value exactly when the first benchmark that raises, if any, does not do so by specifying no IP version after a successful preparation |
| Runner.SpecialVarLost | salvo/src/lib/benchmark/base_benchmark.py:219-220 | a concrete run that loses a special variable |
| Runner.ResidualOrderFree | salvo/src/lib/benchmark/base_benchmark.py:246-270 | permuting completed sessions does not change the final environment |
| Runner.NoLeakBetweenSessions | salvo/src/lib/run_benchmark.py:372-388 | whole-run non-interference: a binding seen in session k comes from its own document, or was there initially with that value and has been controlled by no session so far |
| Runner.SessionSeesAsIfFirst | salvo/src/lib/run_benchmark.py:372-388 | session k sees what it would see if it ran first, if and only if every initial variable an earlier session took away is special or controlled by session k too |
| Runner.CopiesSeeAsIfFirst | salvo/src/lib/run_benchmark.py:256-259 | sessions of documents that control the same names all see what they would see if they ran first |
| Runner.SessionWritesToOwnOutputDir | salvo/src/lib/benchmark/binary_benchmark.py:157-168 | inside its session a benchmark's TMPDIR is its own output directory unless its document chooses one |
| Runner.SessionsWriteApart | salvo/src/lib/benchmark/binary_benchmark.py:157-168 | sessions with different output directories have different TMPDIRs |
| Runner.DockerizedRunsStopTheirContainers | salvo/src/lib/docker_management/docker_image.py:142-162 | a run of dockerized benchmarks leaves running exactly the containers that ran before it and at the end of every session |
| Runner.RunningSinceHost | salvo/src/lib/docker_management/docker_image.py:150-162 | after a run with a session on the host, exactly the containers run that ran at the end of the last such session and of all later ones |
| Docker.DockerImage.ListImages | salvo/src/lib/docker_management/docker_image.py:73-86 | the cache grows by exactly the tags the daemon has now, and is what is returned; over any series of calls it is the concatenation of all listings |
| Docker.LocalExactly | salvo/src/lib/docker_management/docker_image.py:83-86 | a tag is local if and only if some image of the listing has it |
| Docker.GrowingDaemonKeepsCacheExact | salvo/src/lib/docker_management/docker_image.py:83-86 | after any number of listings of a daemon that only gains tags, a tag is cached if and only if the newest listing has it, and the cache is current if and only if the daemon still has all of that |
| Docker.DockerImage.PullImage | salvo/src/lib/docker_management/docker_image.py:56-71 | the registry is contacted exactly for names neither cached nor local; a stale entry makes the daemon's own error escape |
| Docker.DockerImage.TryPull | salvo/src/lib/run_benchmark.py:226-230 | while the cache is current no error escapes, and the image is found if and only if it is local or the registry has it |
| Docker.DockerImage.RunImage | salvo/src/lib/docker_management/docker_image.py:113-117 | whatever happens while the container runs, and whether or not it raises, what runs afterwards is what ran at entry and still ran at the end |
| Docker.DockerImageController.Exit | salvo/src/lib/docker_management/docker_image.py:150-162 | stopping one by one, in any order, what was not running at entry stops nothing older |
| GitHistory.IsTagIffInLanguage | salvo/src/lib/source_tree.py:19-42 | the greedy match accepts exactly the language of the release-tag expression, anything being allowed after it |
| GitHistory.ListTagsOfLines | salvo/src/lib/source_tree.py:388-395 | reading git's listing gives the listed tags back, blank lines apart |
| GitHistory.GetPreviousTag | salvo/src/lib/source_tree.py:418-437 | for every list and every revision count, negative and zero ones included, the walk returns the tag that many places below the last occurrence of the current one, or '' |
| GitHistory.TagBeforeRank | salvo/src/lib/source_tree.py:397-437 | on ascending tags the result has exactly revisions-1 tags between it and the current one, and is '' exactly when the current tag is absent or has too few below it |
| GitHistory.TagBeforeEdge | salvo/src/lib/source_tree.py:418-437 | zero revisions give the newest tag, a negative number none |
| GitHistory.TagBeforeIsGreatestSmaller | salvo/src/lib/source_tree.py:397-401 | by default the result is the greatest smaller tag |
| GitHistory.ScanBackwards | salvo/src/lib/source_tree.py:321-327 | the scan from the last line up finds the last line that is not blank, if there is one |
| GitHistory.ScanOfListing | salvo/src/lib/source_tree.py:321-327 | scanning a printed listing, with any number of trailing blank lines, finds its last entry |
| GitHistory.ScannedHashIsNearestOlderIff | salvo/src/lib/source_tree.py:311-327 | the hash found is that of the nearest older passing commit if and only if the current commit passes the filter or nothing that passes is older still |
| GitHistory.ScannedHashWithoutOlder | salvo/src/lib/source_tree.py:311-329 | with no older passing commit a passing commit is returned as its own predecessor, and otherwise nothing is found |
| Sources.SourceTree.GetPreviousCommitHash | salvo/src/lib/source_tree.py:283-329 | the outcome for every source, git and commit, and that the lookup is the only one made |
| Sources.LatestIsHead | salvo/src/lib/source_tree.py:308-309 | the version called latest is looked up as the head commit that git reports |
| Sources.PreviousFails | salvo/src/lib/source_tree.py:297-309 | nothing is found without a commit, without a source, or if git fails |
| Sources.RevListRead | salvo/src/lib/source_tree.py:311-329 | a listing that git does not understand is an error; otherwise the hash read is a line of it that is not blank |
| Sources.SourceTree.CheckoutCommitHash | salvo/src/lib/source_tree.py:238-266 | the outcome for every source and git, including whether git reported the expected HEAD; what is checked out is the hash of the tree's own record, nothing if it has none |
| Sources.CheckoutExactly | salvo/src/lib/source_tree.py:244-266 | a checkout needs a source, a clone if it has no path, and git to know the commit, if any; it is reported to be as expected if git shows the first eight characters |
| Sources.FindSource | salvo/src/lib/source_manager.py:246-278 | the first record of the document with the identity, a new record on every call for a known source that is not named, and an error otherwise |
| Sources.SourceManager.constructor | salvo/src/lib/source_manager.py:44-54 | the tree made for Envoy holds the record that stands for Envoy in the document |
| Sources.SourceManager.GetImageHashesFromDiskSource | salvo/src/lib/source_manager.py:219-244 | the commit and its predecessor, or the predecessor's failure with a tree error turned into a manager error |
| Sources.SourceManager.DetermineEnvoyHashesFromSource | salvo/src/lib/source_manager.py:56-102 | succeeds if and only if the source can be pulled or copied and the image's tag, or the head commit if there is no image, has a predecessor; which lookup is made, even on failure |
| Sources.SourceManager.FindAllImagesFromSpecifiedTags | salvo/src/lib/source_manager.py:104-155 | the image side's hashes, exactly when it fails, and exactly which lookup is made, failing or not; none if extras are given or the flag is set |
| Sources.SourceManager.FindAllImagesFromSpecifiedSources | salvo/src/lib/source_manager.py:157-193 | the source side's hashes, exactly when it fails, and exactly which lookup is made, failing or not; none if extras are given or the flag is set |
| Sources.SourceManager.GetEnvoyHashesForBenchmark | salvo/src/lib/source_manager.py:195-217 | the selected hashes are, element by element, the tags of the Envoy image and of all additional ones, the commit and all additional hashes, and what precedes a lone unflagged version on either side, and nothing else; exactly when selection fails; and the lookups made, failing or not |
| Sources.LooksUpExactly | salvo/src/lib/source_manager.py:117-217 | exactly which lookups selection makes: none on a side with extras or its flag, and none on the source side once the image side has failed |
| Sources.TagFollowsLastColon | salvo/src/lib/source_manager.py:20-30 | the tag of an image name is what follows its last colon |
| Sources.SourceManager.HaveBuildOptions | salvo/src/lib/source_manager.py:336-353 | true if and only if the record that stands for Envoy has bazel options |
| Sources.PairWithNearestOlderIff | salvo/src/lib/source_manager.py:235-244 | through git's text, the benchmark pair holds the nearest older passing commit if and only if the current one passes or nothing that passes is older still; that pair has two elements |
| Sources.PairSkipsNearestOlder | salvo/src/lib/source_manager.py:235-244 | when the condition fails, the pair holds the second nearest older passing commit instead |
| Sources.PairSkipsExample | salvo/src/lib/source_manager.py:235-244 | a concrete history of three commits for which it fails |
| Sources.PairWithoutOlder | salvo/src/lib/source_manager.py:235-244 | without an older passing commit a passing commit is paired with itself, and the search raises for one that does not pass |
| Sources.PredecessorOfTag | salvo/src/lib/source_manager.py:235-244 | a release tag is paired with the greatest smaller listed tag, and raises exactly when it is not listed or has none below it |
| EnvoyImages.ImageNamesApart | salvo/src/lib/docker_management/docker_image_builder.py:86-112 | image names tell all hashes apart, and a development name is the wanted name only of the same hash that is no release tag |
| EnvoyImages.ImageNameText | salvo/src/lib/docker_management/docker_image_builder.py:86-112 | image names, letter by letter |
| EnvoyImages.OneNamePerHash | salvo/src/lib/run_benchmark.py:217-238 | the set of image names has as many elements as the set of hashes |
| EnvoyImages.EnvoyBuilder.BuildEnvoyImageFromSource | salvo/src/lib/builder/envoy_builder.py:112-129 | succeeds if and only if the checkout, the compilation and the image build do; the checkout uses the tree's record and the tag the builder's; on an error no image appears |
| EnvoyImages.BuildSucceedsExactly | salvo/src/lib/builder/envoy_builder.py:62-129 | a build succeeds if and only if the source can be had, its commit, if any, can be checked out, and bazel and docker do their part |
| EnvoyImages.WriteCommitHash | salvo/src/lib/docker_management/docker_image_builder.py:27-28 | the one write reaches the tree's record if and only if the document names an Envoy source |
| EnvoyImages.BuilderFor | salvo/src/lib/docker_management/docker_image_builder.py:26-28 | once the hash is written, the record of the tree and that of the builder agree, and hold the requested hash if and only if the document names an Envoy source (otherwise none) |
| EnvoyImages.BuildEnvoyDockerImage | salvo/src/lib/docker_management/docker_image_builder.py:12-29 | exactly when it succeeds; with a named source the hash checked out, the hash in the tag and the requested hash are one, and it stays in the shared record; without it nothing is checked out and the tag is empty |
| EnvoyImages.BuildMissingEnvoyDockerImage | salvo/src/lib/docker_management/docker_image_builder.py:32-63 | builds if and only if there are build options or the wanted image is not local, and succeeds if and only if that build, if any, does |
| EnvoyImages.PullOrBuildOne | salvo/src/lib/run_benchmark.py:222-236 | one turn of the loop: the registry is asked exactly for an absent image, a build happens exactly with build options or a fruitless pull, and the turn returns exactly if that build, if any, succeeds |
| EnvoyImages.PullOrBuildEnvoyImages | salvo/src/lib/run_benchmark.py:204-238 | returns if and only if every build that is needed at the start succeeds; one name per hash; all wanted images are local afterwards if and only if each hash was obtainable (local, pullable, or a commit hash of a named source); the registry is asked for exactly those that were not local, the builds are, each once, those of all hashes if there are build options and else of the hashes that are neither local nor pullable, and the checkouts and tags are those of the builds, in order; the shared source record is otherwise unchanged and keeps the hash of the last build |
| EnvoyImages.NeededBuildsExactly | salvo/src/lib/run_benchmark.py:232 | the builds on which the loop's success depends, written out |
| EnvoyImages.CommitsAvailableTagsNot | salvo/src/lib/builder/envoy_builder.py:186-188 | with a named source commit hashes always end up available; a release tag that has to be built never does |
| EnvoyImages.TagThatHasToBeBuilt | salvo/src/lib/builder/envoy_builder.py:186-188 | any release tag that is neither local nor pullable: everything succeeds, and its image is still not there |
| EnvoyImages.BuildsAgreeIffNamed | salvo/src/lib/docker_management/docker_image_builder.py:26-29 | over any series of builds, checkout, tag and request agree in each build that was requested for some commit if and only if the document names an Envoy source; a build for the empty hash checks out nothing and tags with it |
| EnvoyImages.BuildWithoutNamedSource | salvo/src/lib/docker_management/docker_image_builder.py:26-29 | any hash of a document that names no source: the build succeeds, checks out nothing and gives the empty tag |
| FileSystem.Files.CreateSymlinkForTestArtifacts | salvo/src/lib/run_benchmark.py:340-363 | exactly when it succeeds, and the exact file system after it does; a right link is left alone; even on failure nothing existing changes, and only the link and directories on the way to its target are new |
| FileSystem.LinkLeadsToDir | salvo/src/lib/run_benchmark.py:359-363 | a link that has just been made leads to a directory |
| FileSystem.NotLinkable | salvo/src/lib/run_benchmark.py:359-363 | planning fails where something else has the link's name, or a file is in the way of the link or of its directory |
| FileSystem.PathJoinInjective | salvo/src/lib/run_benchmark.py:254 | joining one base with relative names tells the names apart, for every base |
| FileSystem.PathJoinText | salvo/src/lib/run_benchmark.py:254 | a relative name goes behind the base, after a slash unless there is one; an absolute name replaces it |
| FileSystem.PlannableKept | salvo/src/lib/run_benchmark.py:356-363 | in a plannable file system every planned link can be looked after, and doing so keeps the rest plannable, for any base directory and any names |
| FileSystem.PlannableIff | salvo/src/lib/run_benchmark.py:333-336 | the planned links can be looked after in every order if and only if each one is right, or can be made and is not turned into a directory by making the artifact directory of another one |
| FileSystem.AbsoluteBaseIsPlannable | salvo/src/lib/run_benchmark.py:356-363 | under an absolute base, names without slashes whose links are absent or right, and whose directories are there or can be made, are plannable |
| Planner.CreateNewJobControl | salvo/src/lib/run_benchmark.py:240-263 | exactly when it succeeds; the job is a copy of the control document with new records, differing only in the image and the output directory; its link has been looked after |
| Planner.ImageJobExactly | salvo/src/lib/run_benchmark.py:253-259 | field by field, only the Envoy image and the output directory differ from the control document |
| Planner.CreateJobControlForImages | salvo/src/lib/run_benchmark.py:311-338 | fewer than two images are an error; otherwise one job per image in some order, succeeding if and only if the links can be looked after in that order, so always from a plannable file system; every link to its own directory, all other nodes untouched, and nothing changed if all links were right |
| Planner.ObtainEnvoyImages | salvo/src/lib/run_benchmark.py:94-100 | selection and availability composed, and exactly when both succeed: the images are those of the selected hashes; the lookups made on every outcome; and the control document afterwards, whose Envoy record has changed in its commit only, to that of the last build |
| Planner.GenerateJobControlForEnvoyImages | salvo/src/lib/run_benchmark.py:87-107 | a plan is returned only if the images were obtained, there are two or more hashes and the NightHawk images are named and available, and always if in addition the links are plannable; it has one job per selected hash, copied from the given document with the Envoy record as the builds left it; images, registry requests, builds, lookups and, even on failure, the files are accounted for; every job's link points to the directory that the job writes to |
| Planner.ImageTagOfName | salvo/src/lib/run_benchmark.py:253 | the tag cut out of an image name is what follows the last colon of the hash it was made from, so the hash itself if it has none |
| Planner.ImagePlanCoversHashes | salvo/src/lib/run_benchmark.py:240-263 | n plain hashes give exactly n jobs, each hash has a job pinned to its image that writes under its name, and every job belongs to a hash |
| Planner.ImageJobsApart | salvo/src/lib/run_benchmark.py:253-259 | no two jobs of an image plan share a hash, an image or an output directory |
| Planner.CreateNewSourceJobControl | salvo/src/lib/run_benchmark.py:265-309 | the job has just the NightHawk source and the Envoy source, in new records, the latter pinned to the hash and without extra hashes; its identifier names the directory and the link |
| Planner.BinaryJobExactly | salvo/src/lib/run_benchmark.py:291-305 | field by field: two sources, the Envoy one pinned and without extras, and the output directory of the identifier |
| Planner.IdentifierText | salvo/src/lib/run_benchmark.py:277-289 | identifiers, letter by letter |
| Planner.FindLoneNighthawk | salvo/src/lib/run_benchmark.py:119-132 | succeeds if and only if the document has exactly one NightHawk source and it has a location |
| Planner.NoLoneNighthawk | salvo/src/lib/run_benchmark.py:119-129 | there is no plan without a NightHawk source, with two of them, or with one that has no location |
| Planner.SelectForBinaries | salvo/src/lib/run_benchmark.py:118-136 | succeeds if and only if there is such a NightHawk source and selection succeeds; the sources and hashes are those the document stands for; which lookups are made, failing or not |
| Planner.PlanBinaries | salvo/src/lib/run_benchmark.py:138-146 | one job per hash in some order, succeeding if and only if the links can be looked after in that order, so always from a plannable file system; every link to its own directory, all other nodes untouched |
| Planner.GenerateJobControlForBinaries | salvo/src/lib/run_benchmark.py:109-146 | a plan is returned only if that holds, and always if in addition the links are plannable; it covers exactly the selected hashes; lookups and files are accounted for even on failure; every job's link points to the directory that the job writes to |
| Planner.IdentifierTellsHashesApart | salvo/src/lib/run_benchmark.py:277-289 | within one plan the identifier tells all hashes apart, the empty one included |
| Planner.IdentifierCollision | salvo/src/lib/run_benchmark.py:284-289 | across plans, a hash without a branch and the same name as a branch without a hash collide |
| Planner.IdentifierDecodes | salvo/src/lib/run_benchmark.py:277-289 | across plans, identifiers determine the kind of location, and the branch once the hash is known, for all hashes and branches |
| Planner.HashesCollideIff | salvo/src/lib/run_benchmark.py:277-289 | two different hashes get one identifier for some locations and branches if and only if one is empty, or one is what remains of the other when it is cut before an underscore that ends it or stands before another one |
| Planner.TellsApartIffSeparable | salvo/src/lib/run_benchmark.py:277-289 | a hash is told apart from all other separable ones, for all locations and branches, if and only if it is separable: not empty, and not to be cut in that way |
| Planner.BinaryPlanIsolates | salvo/src/lib/run_benchmark.py:138-146 | one job per hash, pinned to it, and pairwise different output directories, for any set of hashes and any base |
| AbBenchmark.CreateTests | salvo/src/lib/run_benchmark.py:59-82 | one benchmark of the given kind for each job of the list, in order, with the variables that this kind adds |
| AbBenchmark.ExtraVarsExactly | salvo/src/lib/benchmark/scavenging_benchmark.py:95-99 | the variables that a scavenging or binary benchmark adds, name by name |
| AbBenchmark.CopiesRunAsIfFirst | salvo/src/lib/run_benchmark.py:372-388 | benchmarks of jobs copied from one document, dockerized ones included, see in each session what they would see if they ran first |
| AbBenchmark.BinaryBenchmarkIsolated | salvo/src/lib/run_benchmark.py:138-146 | of a binary plan that is run, every session sees the initial environment as if first, no two benchmarks share an output directory, and each session writes into its own |
| AbBenchmark.ImageDirsApartIff | salvo/src/lib/run_benchmark.py:253-259 | the benchmarks of a scavenging or dockerized plan have pairwise different output directories if and only if their hashes, cut after the last colon and joined with the base directory, do |
| AbBenchmark.PlainHashesApart | salvo/src/lib/run_benchmark.py:253-259 | hashes without a colon or a leading slash do |
| AbBenchmark.ImageBenchmarkIsolated | salvo/src/lib/run_benchmark.py:59-73 | of a scavenging or dockerized plan that is run, every session sees the initial environment as if first, and each session on the host writes into its own output directory |
| AbBenchmark.PlanBinaryTests | salvo/src/lib/run_benchmark.py:75-85 | exactly when a binary benchmark is planned under plannable links; one benchmark for the job of each selected hash, made from the lone NightHawk source, the Envoy source and the document; the links of all jobs |
| AbBenchmark.PlanImageTests | salvo/src/lib/run_benchmark.py:59-73 | the same for the images of a scavenging or dockerized benchmark, which are obtained on the way |
| AbBenchmark.RunBinaryBenchmark | salvo/src/lib/run_benchmark.py:75-85 | from the control document to the last session: which hash has which job, benchmark and link, every link pointing to the directory its benchmark writes to, the exact final environment and containers, and isolation of the recorded sessions and output directories |
| AbBenchmark.RunImageBenchmark | salvo/src/lib/run_benchmark.py:59-73 | the same for a scavenging or dockerized benchmark, with which images are local, which were asked for and built, and what the builds left in the document |
| BazelOptions.GenerateBazelOptions | salvo/src/lib/builder/base_builder.py:87-102 | the loop computes the first occurrences, in order, plus the default mode when no parameter sets one |
| BazelOptions.DedupKeepsOrder | salvo/src/lib/builder/base_builder.py:93-95 | every parameter is kept once, in the order of first occurrences |
| BazelOptions.OptionsExactly | salvo/src/lib/builder/base_builder.py:93-100 | the parameters come first, each once; -c opt follows if and only if none of them starts with -c |
| BazelOptions.OptionsStable | salvo/src/lib/builder/base_builder.py:96-100 | no option twice; regenerating from the result returns it unchanged |

## Left out

- Running git, Docker, bazel, Terraform and shells, HTTP, temporary directories and file copies: only their answers appear.
- JSON, YAML and protobuf decoding, and reads of protobuf maps that insert defaults.
- Error texts and logging.
- The `HOME`, `CC` and `CXX` writes of the builders, and environment names or values that the operating system refuses.
- `cloudperf/`, `siege/`, CI pipelines, Packer and Bazel files, and the format tools: text scraping and one-line arithmetic.
- Choosing the benchmark class and pulling or building the two NightHawk images: whether they are available is a parameter.
- `get_origin` and the regular expressions over `git status` and `git remote`: their results are part of what git answers.
- Terraform outputs other than the six that are read; the names of the six are constructors of `Instances.OutputVar`.
- Resolving links in the middle of a path, `..`, and repeated slashes: a path is looked up as it is written.
- GitHistory.IsTagIffInLanguage: digits are the ASCII ones; Python's `\d` also accepts other decimal digits.
- GitHistory.ListTagsOfLines: stripping knows the blank, tab, newline and carriage return only, and listed tags contain none of them.
- GitHistory.ScannedHashIsNearestOlderIff: the history is linear; merges can be filtered out but do not fork it.
- Sources.SourceTree.GetPreviousCommitHash: a newline after the head hash, which the shell splitting drops, does not appear.
- Docker.DockerImageController.Exit: a container that is gone between listing and stopping, whose lookup raises and ends the loop early, does not appear.
- Planner.GenerateJobControlForEnvoyImages: does not say which error is raised, or what a failed run leaves half done.
- EnvoyImages.PullOrBuildEnvoyImages: does not say what a run that raises leaves half done; without a named source, the empty hash may or may not be asked for or built for itself, because every other build gives its image.
- Instances.InstanceMap.Combine: the second map is a value, so passing the same map twice is not expressed.
