/** Planning and running together: one job per version becomes one benchmark, and the benchmarks
    of one plan do not disturb each other. */
module AbBenchmark {
  import opened Wrappers
  import opened Collections
  import opened Control
  import opened BenchmarkEnv
  import opened FileSystem
  import opened Docker
  import opened Runner
  import opened Sources
  import opened EnvoyImages
  import opened Planner

  /** What the outside world makes of one benchmark, the path of the Envoy binary included. */
  datatype Fate = Fate(prepareRaises: bool, script: ContainerScript, verdictRaises: bool, envoyBinary: string)

  /** The variables other than TMPDIR that a benchmark of this kind adds to its document. */
  function ExtraVars(kind: Kind, images: DockerImages, fate: Fate): Env {
    match kind
    case Scavenging => map[Other("NH_DOCKER_IMAGE") := images.nighthawkBinaryImage,
                           Other("ENVOY_DOCKER_IMAGE_TO_TEST") := images.envoyImage]
    case FullyDockerized => map[]
    case Binary => if fate.envoyBinary != "" then map[EnvoyPath := fate.envoyBinary] else map[]
  }

  /** Kind by kind, and name by name. */
  lemma ExtraVarsExactly(images: DockerImages, fate: Fate, key: Name)
    ensures Holds(ExtraVars(Scavenging, images, fate), key,
              if key == Other("NH_DOCKER_IMAGE") then Some(images.nighthawkBinaryImage)
              else if key == Other("ENVOY_DOCKER_IMAGE_TO_TEST") then Some(images.envoyImage)
              else None)
    ensures Holds(ExtraVars(Binary, images, fate), key,
              if key == EnvoyPath && fate.envoyBinary != "" then Some(fate.envoyBinary) else None)
  {
    assert "NH_DOCKER_IMAGE"[0] != "ENVOY_DOCKER_IMAGE_TO_TEST"[0];
  }

  /** The benchmark that runs one job. */
  function TestOf(kind: Kind, images: DockerImages, environment: EnvironmentVars, fate: Fate): Test {
    Test(kind, environment, ExtraVars(kind, images, fate), fate.prepareRaises, fate.script, fate.verdictRaises)
  }

  ghost predicate TestsOf(kind: Kind, tests: seq<Test>, jobs: seq<JobSpec>, fates: nat -> Fate) {
    && |tests| == |jobs|
    && forall k :: 0 <= k < |tests| ==> tests[k] == TestOf(kind, jobs[k].images, jobs[k].environment, fates(k))
  }

  /** One benchmark for each job of the list. */
  method CreateTests(kind: Kind, jobs: seq<JobControl>, fates: nat -> Fate,
                     ghost specs: seq<JobSpec>, ghost owned: set<SourceRepository>)
    returns (tests: seq<Test>)
    requires SayAll(jobs, specs, owned)
    ensures TestsOf(kind, tests, specs, fates)
  {
    tests := [];
    for k := 0 to |jobs|
      invariant |tests| == k
      invariant forall j :: 0 <= j < k ==> tests[j] == TestOf(kind, specs[j].images, specs[j].environment, fates(j))
    {
      assert Says(jobs[k], specs[k]);
      tests := tests + [TestOf(kind, jobs[k].images, jobs[k].environment, fates(k))];
    }
  }

  /** Every recorded session saw what it would have seen had it run first. */
  ghost predicate SawAsIfFirst(visible: seq<Env>, init: Env, tests: seq<Test>) {
    |visible| <= |tests| && forall k :: 0 <= k < |visible| ==> visible[k] == Visible(init, Doc(tests[k]))
  }

  ghost predicate DirsApart(tests: seq<Test>) {
    forall j, k :: 0 <= j < k < |tests| ==> tests[j].control.outputDir != tests[k].control.outputDir
  }

  /** Every recorded session on the host wrote into the output directory of its own benchmark
      unless its document chose a TMPDIR itself. */
  ghost predicate WroteToOwn(visible: seq<Env>, tests: seq<Test>) {
    && |visible| <= |tests|
    && forall k :: 0 <= k < |visible| && !tests[k].kind.FullyDockerized? && TmpDir !in tests[k].control.variables ==>
         TmpDir in visible[k] && visible[k][TmpDir] == tests[k].control.outputDir
  }

  /** Jobs whose environments are copies of one document up to the output directory see, each
      in its session, what they would have seen had they run first. */
  lemma CopiesRunAsIfFirst(kind: Kind, tests: seq<Test>, jobs: seq<JobSpec>, fates: nat -> Fate,
                           variables: Env, init: Env, visible: seq<Env>)
    requires TestsOf(kind, tests, jobs, fates) && SawSessions(visible, init, Docs(tests))
    requires forall i :: 0 <= i < |jobs| ==> jobs[i].environment.variables == variables
    ensures SawAsIfFirst(visible, init, tests)
  {
    forall k | 0 <= k < |visible| ensures visible[k] == Visible(init, Doc(tests[k])) {
      forall j | 0 <= j < k ensures Controlled(Docs(tests)[j]) == Controlled(Docs(tests)[k]) {
        SameControlled(kind, jobs[j], fates(j), jobs[k], fates(k));
      }
      CopiesSeeAsIfFirst(init, Docs(tests), k);
    }
  }

  /** Benchmarks of one kind and one document control the same variables. */
  lemma SameControlled(kind: Kind, a: JobSpec, fate: Fate, b: JobSpec, fate': Fate)
    requires a.environment.variables == b.environment.variables
    ensures Controlled(Doc(TestOf(kind, a.images, a.environment, fate)))
         == Controlled(Doc(TestOf(kind, b.images, b.environment, fate')))
  {
  }

  lemma SessionsOnTheHost(tests: seq<Test>, init: Env, visible: seq<Env>)
    requires SawSessions(visible, init, Docs(tests))
    ensures WroteToOwn(visible, tests)
  {
    forall k | 0 <= k < |visible| && !tests[k].kind.FullyDockerized? && TmpDir !in tests[k].control.variables
      ensures TmpDir in visible[k] && visible[k][TmpDir] == tests[k].control.outputDir
    {
      SessionWritesToOwnOutputDir(Residual(init, Docs(tests)[..k]), tests[k]);
    }
  }

  // ---- Binary benchmarks -------------------------------------------------------------------

  /** The benchmarks of a binary plan: one for the job of each hash, in some order, with the links
      looked after in that order. */
  ghost predicate BinaryTests(tests: seq<Test>, fates: nat -> Fate, spec: JobSpec, nighthawk: SourceRecord,
                              envoy: SourceRecord, hashes: set<string>, order: seq<string>, before: Nodes, nodes: Nodes) {
    && Enumerates(order, hashes)
    && TestsOf(Binary, tests, BinaryJobs(spec, nighthawk, envoy, order), fates)
    && LinkTurns(before, nodes, spec.environment.outputDir, IdentifierSet(envoy, hashes), Identifiers(envoy, order))
  }

  /** Each benchmark's link, named by the identifier of its commit, points to the directory that the
      benchmark writes to. */
  ghost predicate BinaryTestsLinked(tests: seq<Test>, envoy: SourceRecord, order: seq<string>, nodes: Nodes) {
    && |tests| == |order|
    && forall k :: 0 <= k < |tests| ==>
         Linked(nodes, Identifier(envoy.location, envoy.branch, order[k]), tests[k].control.outputDir)
  }

  lemma BinaryTestLinks(tests: seq<Test>, fates: nat -> Fate, spec: JobSpec, nighthawk: SourceRecord,
                        envoy: SourceRecord, hashes: set<string>, order: seq<string>, before: Nodes, nodes: Nodes)
    requires BinaryTests(tests, fates, spec, nighthawk, envoy, hashes, order, before, nodes)
    ensures BinaryTestsLinked(tests, envoy, order, nodes)
  {
    BinaryJobsAt(spec, nighthawk, envoy, order);
    forall k | 0 <= k < |tests|
      ensures Linked(nodes, Identifier(envoy.location, envoy.branch, order[k]), tests[k].control.outputDir)
    {
      BinaryLinks(spec, nighthawk, envoy, order, before, nodes, IdentifierSet(envoy, hashes), k);
    }
  }

  /** A binary A/B benchmark, planned and run. */
  lemma BinaryBenchmarkIsolated(tests: seq<Test>, fates: nat -> Fate, spec: JobSpec, nighthawk: SourceRecord,
                                envoy: SourceRecord, hashes: set<string>, order: seq<string>,
                                before: Nodes, nodes: Nodes, init: Env, visible: seq<Env>)
    requires BinaryTests(tests, fates, spec, nighthawk, envoy, hashes, order, before, nodes)
    requires SawSessions(visible, init, Docs(tests))
    ensures |tests| == |hashes| && DirsApart(tests)
    ensures SawAsIfFirst(visible, init, tests) && WroteToOwn(visible, tests)
  {
    var jobs := BinaryJobs(spec, nighthawk, envoy, order);
    EnumerationLength(order, hashes);
    BinaryJobsAt(spec, nighthawk, envoy, order);
    CopiesRunAsIfFirst(Binary, tests, jobs, fates, spec.environment.variables, init, visible);
    forall j, k | 0 <= j < k < |tests| ensures tests[j].control.outputDir != tests[k].control.outputDir {
      BinaryPlanIsolates(spec, nighthawk, envoy, hashes, order, j, k);
    }
    SessionsOnTheHost(tests, init, visible);
  }

  /** The binary part of the constructor of BenchmarkRunner. */
  method PlanBinaryTests(manager: SourceManager, files: Files, fates: nat -> Fate)
    returns (planned: bool, tests: seq<Test>, ghost spec: JobSpec, ghost envoy: SourceRecord, ghost nighthawk: SourceRecord,
             ghost hashes: set<string>, ghost order: seq<string>)
    requires manager.Valid()
    modifies manager.envoyTree`queries, files
    ensures spec == old(SpecOf(manager.control)) && envoy == old(manager.envoyTree.repo.rec)
    ensures hashes == SelectedHashes(manager.control.images, envoy, manager.envoyTree.git)
    ensures manager.envoyTree.queries == old(manager.envoyTree.queries)
              + if old(HasLoneNighthawk(manager.control.source)) then old(LookedUp(manager)) else []
    ensures Extends(old(files.nodes), files.nodes, spec.environment.outputDir, IdentifierSet(envoy, hashes))
    ensures planned ==> old(BinariesSelected(manager)) && hashes != {}
    ensures old(BinariesSelected(manager)) && hashes != {}
            && Plannable(old(files.nodes), spec.environment.outputDir, IdentifierSet(envoy, hashes)) ==>
              planned
    ensures planned ==>
              && old(LoneNighthawk(manager.control.source, nighthawk))
              && BinaryTests(tests, fates, spec, nighthawk, envoy, hashes, order, old(files.nodes), files.nodes)
  {
    tests, planned := [], false;
    ghost var owned;
    var jobs;
    jobs, spec, envoy, nighthawk, hashes, order, owned := GenerateJobControlForBinaries(manager, files);
    if jobs.Return? {
      tests := CreateTests(Binary, jobs.value, fates, BinaryJobs(spec, nighthawk, envoy, order), owned);
      OneTestPerHash(tests, fates, spec, nighthawk, envoy, hashes, order);
      planned := tests != [];
    }
  }

  lemma OneTestPerHash(tests: seq<Test>, fates: nat -> Fate, spec: JobSpec, nighthawk: SourceRecord,
                       envoy: SourceRecord, hashes: set<string>, order: seq<string>)
    requires Enumerates(order, hashes) && TestsOf(Binary, tests, BinaryJobs(spec, nighthawk, envoy, order), fates)
    ensures |tests| == |hashes| && (tests == [] <==> hashes == {})
  {
    EnumerationLength(order, hashes);
    BinaryJobsAt(spec, nighthawk, envoy, order);
  }

  /** What a local run of `tests` recorded, and what it left of the environment and of the running
      containers; a remote run raises before its first session. */
  ghost predicate Ran(visible: seq<Env>, completed: bool, init: Env, env: Env,
                      running: set<string>, running': set<string>, tests: seq<Test>, remote: bool) {
    if remote then visible == [] && !completed && env == init && running' == running
    else
      && |visible| == Entered(tests) && env == Final(init, tests)
      && running' == Survivors(running, tests[..Entered(tests)])
      && (completed <==> forall test :: test in tests ==> GetsGoing(test) && GoesWell(test))
  }

  /** A binary A/B benchmark from the control document to the last session. It is planned
      exactly if selection and linking succeed and there is a version to test. */
  method RunBinaryBenchmark(manager: SourceManager, files: Files, fates: nat -> Fate, os: Environ, daemon: Daemon,
                            remote: bool)
    returns (planned: bool, tests: seq<Test>, visible: seq<Env>, completed: bool, ghost spec: JobSpec,
             ghost envoy: SourceRecord, ghost nighthawk: SourceRecord, ghost hashes: set<string>, ghost order: seq<string>)
    requires manager.Valid()
    modifies manager.envoyTree`queries, files, os, daemon`running
    ensures spec == old(SpecOf(manager.control)) && envoy == old(manager.envoyTree.repo.rec)
    ensures hashes == SelectedHashes(manager.control.images, envoy, manager.envoyTree.git)
    ensures manager.envoyTree.queries == old(manager.envoyTree.queries)
              + if old(HasLoneNighthawk(manager.control.source)) then old(LookedUp(manager)) else []
    ensures Extends(old(files.nodes), files.nodes, spec.environment.outputDir, IdentifierSet(envoy, hashes))
    ensures planned ==> old(BinariesSelected(manager)) && hashes != {}
    ensures old(BinariesSelected(manager)) && hashes != {}
            && Plannable(old(files.nodes), spec.environment.outputDir, IdentifierSet(envoy, hashes)) ==>
              planned
    ensures !planned ==> visible == [] && os.vars == old(os.vars) && daemon.running == old(daemon.running)
    ensures planned ==>
              && old(LoneNighthawk(manager.control.source, nighthawk))
              && BinaryTests(tests, fates, spec, nighthawk, envoy, hashes, order, old(files.nodes), files.nodes)
              && |tests| == |hashes| && DirsApart(tests) && BinaryTestsLinked(tests, envoy, order, files.nodes)
    ensures planned ==>
              && Ran(visible, completed, old(os.vars), os.vars, old(daemon.running), daemon.running, tests, remote)
              && SawAsIfFirst(visible, old(os.vars), tests) && WroteToOwn(visible, tests)
  {
    visible, completed := [], false;
    planned, tests, spec, envoy, nighthawk, hashes, order := PlanBinaryTests(manager, files, fates);
    if planned {
      visible, completed := Execute(tests, os, daemon, remote);
      BinaryBenchmarkIsolated(tests, fates, spec, nighthawk, envoy, hashes, order, old(files.nodes), files.nodes,
                              old(os.vars), visible);
      BinaryTestLinks(tests, fates, spec, nighthawk, envoy, hashes, order, old(files.nodes), files.nodes);
    }
  }

  // ---- Scavenging and dockerized benchmarks ------------------------------------------------

  /** The benchmarks of an image plan, likewise. */
  ghost predicate ImageTests(kind: Kind, tests: seq<Test>, fates: nat -> Fate, spec: JobSpec,
                             hashes: set<string>, order: seq<string>, before: Nodes, nodes: Nodes) {
    && Enumerates(order, ImageNames(hashes))
    && TestsOf(kind, tests, ImageJobs(spec, order), fates)
    && LinkTurns(before, nodes, spec.environment.outputDir, ImageTagsOf(ImageNames(hashes)), ImageTagSeq(order))
  }

  /** The output directory of the job of a hash: only what follows the last colon counts. */
  function HashDir(base: string, hash: string): string {
    PathJoin(base, ImageTag(hash))
  }

  /** Different hashes have different output directories. */
  ghost predicate HashDirsApart(base: string, hashes: set<string>) {
    forall a, b :: a in hashes && b in hashes && a != b ==> HashDir(base, a) != HashDir(base, b)
  }

  /** Plain hashes do, for instance. */
  lemma PlainHashesApart(base: string, hashes: set<string>)
    requires forall hash :: hash in hashes ==> PlainHash(hash)
    ensures HashDirsApart(base, hashes)
  {
    forall a, b | a in hashes && b in hashes && a != b ensures HashDir(base, a) != HashDir(base, b) {
      ImageTagOfName(a);
      ImageTagOfName(b);
      if PathJoin(base, a) == PathJoin(base, b) {
        PathJoinInjective(base, a, b);
      }
    }
  }

  lemma ImageTestDir(kind: Kind, tests: seq<Test>, fates: nat -> Fate, spec: JobSpec, order: seq<string>,
                     k: nat, hash: string)
    requires TestsOf(kind, tests, ImageJobs(spec, order), fates)
    requires k < |order| && order[k] == ImageName(hash)
    ensures |tests| == |order| && tests[k].control.outputDir == HashDir(spec.environment.outputDir, hash)
  {
    ImageJobsAt(spec, order);
    ImageTagOfName(hash);
  }

  lemma HashesApart(kind: Kind, tests: seq<Test>, fates: nat -> Fate, spec: JobSpec,
                    hashes: set<string>, order: seq<string>, a: string, b: string)
    requires Enumerates(order, ImageNames(hashes)) && TestsOf(kind, tests, ImageJobs(spec, order), fates)
    requires DirsApart(tests) && a in hashes && b in hashes && a != b
    ensures HashDir(spec.environment.outputDir, a) != HashDir(spec.environment.outputDir, b)
  {
    hide ImageName, ImageTag, ImageJobs;
    ImageNamesApart(a, b);
    var j := PositionOf(order, ImageNames(hashes), ImageName(a));
    var k := PositionOf(order, ImageNames(hashes), ImageName(b));
    ImageTestDir(kind, tests, fates, spec, order, j, a);
    ImageTestDir(kind, tests, fates, spec, order, k, b);
  }

  lemma TestsApart(kind: Kind, tests: seq<Test>, fates: nat -> Fate, spec: JobSpec,
                   hashes: set<string>, order: seq<string>, j: nat, k: nat)
    requires Enumerates(order, ImageNames(hashes)) && TestsOf(kind, tests, ImageJobs(spec, order), fates)
    requires HashDirsApart(spec.environment.outputDir, hashes) && j < k < |order|
    ensures |tests| == |order| && tests[j].control.outputDir != tests[k].control.outputDir
  {
    assert order[j] in ImageNames(hashes) && order[k] in ImageNames(hashes);
    var a :| a in hashes && order[j] == ImageName(a);
    var b :| b in hashes && order[k] == ImageName(b);
    ImageTestDir(kind, tests, fates, spec, order, j, a);
    ImageTestDir(kind, tests, fates, spec, order, k, b);
  }

  /** The benchmarks of an image plan do not share an output directory exactly if their hashes do
      not. */
  lemma ImageDirsApartIff(kind: Kind, tests: seq<Test>, fates: nat -> Fate, spec: JobSpec,
                          hashes: set<string>, order: seq<string>, before: Nodes, nodes: Nodes)
    requires ImageTests(kind, tests, fates, spec, hashes, order, before, nodes)
    ensures |tests| == |hashes|
    ensures DirsApart(tests) <==> HashDirsApart(spec.environment.outputDir, hashes)
  {
    var base := spec.environment.outputDir;
    EnumerationLength(order, ImageNames(hashes));
    OneNamePerHash(hashes);
    ImageJobsAt(spec, order);
    if DirsApart(tests) {
      forall a, b | a in hashes && b in hashes && a != b ensures HashDir(base, a) != HashDir(base, b) {
        HashesApart(kind, tests, fates, spec, hashes, order, a, b);
      }
    }
    if HashDirsApart(base, hashes) {
      forall j, k | 0 <= j < k < |tests| ensures tests[j].control.outputDir != tests[k].control.outputDir {
        TestsApart(kind, tests, fates, spec, hashes, order, j, k);
      }
    }
  }

  lemma ImageBenchmarkIsolated(kind: Kind, tests: seq<Test>, fates: nat -> Fate, spec: JobSpec,
                               hashes: set<string>, order: seq<string>, before: Nodes, nodes: Nodes,
                               init: Env, visible: seq<Env>)
    requires ImageTests(kind, tests, fates, spec, hashes, order, before, nodes)
    requires SawSessions(visible, init, Docs(tests))
    ensures SawAsIfFirst(visible, init, tests) && WroteToOwn(visible, tests)
  {
    ImageJobsAt(spec, order);
    CopiesRunAsIfFirst(kind, tests, ImageJobs(spec, order), fates, spec.environment.variables, init, visible);
    SessionsOnTheHost(tests, init, visible);
  }

  /** The scavenging and dockerized parts of the constructor of BenchmarkRunner. */
  method PlanImageTests(kind: Kind, manager: SourceManager, registry: Registry, world: BuildWorld,
                        nighthawkAvailable: bool, daemon: Daemon, files: Files, fates: nat -> Fate)
    returns (planned: bool, tests: seq<Test>, ghost s: ImageState, ghost s': ImageState, ghost named: bool,
             ghost hashes: set<string>, ghost order: seq<string>, ghost builds: seq<string>, ghost asked: seq<string>,
             ghost spec: JobSpec)
    requires manager.Valid()
    modifies manager.envoyTree, manager.envoyTree.repo, daemon`images, daemon`built, daemon`contacts, files
    ensures s == old(StateOf(manager, daemon)) && s' == StateOf(manager, daemon)
    ensures named == old(Names(manager.control.source, SrcEnvoy))
    ensures hashes == SelectedHashes(manager.control.images, s.rec, manager.envoyTree.git)
    ensures spec == SpecAfter(old(SpecOf(manager.control)), manager.control.source, manager.envoyTree.repo, s'.rec.commitHash)
    ensures Selected(s, s', manager.control.images, manager.envoyTree.git)
    ensures Extends(old(files.nodes), files.nodes, spec.environment.outputDir, ImageTagsOf(ImageNames(hashes)))
    ensures planned ==>
              ImagesPlanned(s, named, manager.control.images, manager.envoyTree.git, registry, world, nighthawkAvailable)
    ensures ImagesPlanned(s, named, manager.control.images, manager.envoyTree.git, registry, world, nighthawkAvailable)
            && Plannable(old(files.nodes), spec.environment.outputDir, ImageTagsOf(ImageNames(hashes))) ==>
              planned
    ensures planned ==>
              && Obtained(s, s', named, hashes, registry, builds, asked)
              && ImageTests(kind, tests, fates, spec, hashes, order, old(files.nodes), files.nodes)
  {
    tests := [];
    ghost var owned;
    var jobs;
    jobs, s, s', named, hashes, order, owned, builds, asked, spec :=
      GenerateJobControlForEnvoyImages(manager, registry, world, nighthawkAvailable, daemon, files);
    planned := jobs.Return?;
    if planned {
      tests := CreateTests(kind, jobs.value, fates, ImageJobs(spec, order), owned);
    }
  }

  /** Each benchmark's link, named by the tag of its image, points to the directory that the benchmark
      writes to. */
  ghost predicate ImageTestsLinked(tests: seq<Test>, order: seq<string>, nodes: Nodes) {
    && |tests| == |order|
    && forall k :: 0 <= k < |tests| ==> Linked(nodes, ImageTag(order[k]), tests[k].control.outputDir)
  }

  lemma ImageTestLinks(kind: Kind, tests: seq<Test>, fates: nat -> Fate, spec: JobSpec,
                       hashes: set<string>, order: seq<string>, before: Nodes, nodes: Nodes)
    requires ImageTests(kind, tests, fates, spec, hashes, order, before, nodes)
    ensures ImageTestsLinked(tests, order, nodes)
  {
    ImageJobsAt(spec, order);
    forall k | 0 <= k < |tests| ensures Linked(nodes, ImageTag(order[k]), tests[k].control.outputDir) {
      ImageLinks(spec, order, before, nodes, ImageTagsOf(ImageNames(hashes)), k);
    }
  }

  /** The benchmarks of an image plan, executed. */
  method RunImageTests(kind: Kind, tests: seq<Test>, os: Environ, daemon: Daemon, remote: bool, ghost fates: nat -> Fate,
                       ghost spec: JobSpec, ghost hashes: set<string>, ghost order: seq<string>,
                       ghost before: Nodes, ghost nodes: Nodes)
    returns (visible: seq<Env>, completed: bool)
    requires ImageTests(kind, tests, fates, spec, hashes, order, before, nodes)
    modifies os, daemon`running
    ensures |tests| == |hashes| && (DirsApart(tests) <==> HashDirsApart(spec.environment.outputDir, hashes))
    ensures ImageTestsLinked(tests, order, nodes)
    ensures Ran(visible, completed, old(os.vars), os.vars, old(daemon.running), daemon.running, tests, remote)
    ensures SawAsIfFirst(visible, old(os.vars), tests) && WroteToOwn(visible, tests)
  {
    visible, completed := Execute(tests, os, daemon, remote);
    ImageDirsApartIff(kind, tests, fates, spec, hashes, order, before, nodes);
    ImageTestLinks(kind, tests, fates, spec, hashes, order, before, nodes);
    ImageBenchmarkIsolated(kind, tests, fates, spec, hashes, order, before, nodes, old(os.vars), visible);
  }

  /** A scavenging or dockerized benchmark from the control document to the last session, its
      images included. */
  method RunImageBenchmark(kind: Kind, manager: SourceManager, registry: Registry, world: BuildWorld,
                           nighthawkAvailable: bool, files: Files, fates: nat -> Fate, os: Environ, daemon: Daemon,
                           remote: bool)
    returns (planned: bool, tests: seq<Test>, visible: seq<Env>, completed: bool,
             ghost s: ImageState, ghost s': ImageState, ghost named: bool, ghost hashes: set<string>,
             ghost order: seq<string>, ghost builds: seq<string>, ghost asked: seq<string>, ghost spec: JobSpec)
    requires manager.Valid() && kind != Binary
    modifies manager.envoyTree, manager.envoyTree.repo, files, os
    modifies daemon`images, daemon`built, daemon`contacts, daemon`running
    ensures s == old(StateOf(manager, daemon)) && s' == StateOf(manager, daemon)
    ensures named == old(Names(manager.control.source, SrcEnvoy))
    ensures hashes == SelectedHashes(manager.control.images, s.rec, manager.envoyTree.git)
    ensures spec == SpecAfter(old(SpecOf(manager.control)), manager.control.source, manager.envoyTree.repo, s'.rec.commitHash)
    ensures Selected(s, s', manager.control.images, manager.envoyTree.git)
    ensures Extends(old(files.nodes), files.nodes, spec.environment.outputDir, ImageTagsOf(ImageNames(hashes)))
    ensures planned ==>
              ImagesPlanned(s, named, manager.control.images, manager.envoyTree.git, registry, world, nighthawkAvailable)
    ensures ImagesPlanned(s, named, manager.control.images, manager.envoyTree.git, registry, world, nighthawkAvailable)
            && Plannable(old(files.nodes), spec.environment.outputDir, ImageTagsOf(ImageNames(hashes))) ==>
              planned
    ensures !planned ==> visible == [] && os.vars == old(os.vars) && daemon.running == old(daemon.running)
    ensures planned ==>
              && Obtained(s, s', named, hashes, registry, builds, asked)
              && ImageTests(kind, tests, fates, spec, hashes, order, old(files.nodes), files.nodes)
              && |tests| == |hashes| && (DirsApart(tests) <==> HashDirsApart(spec.environment.outputDir, hashes))
              && ImageTestsLinked(tests, order, files.nodes)
    ensures planned ==>
              && Ran(visible, completed, old(os.vars), os.vars, old(daemon.running), daemon.running, tests, remote)
              && SawAsIfFirst(visible, old(os.vars), tests) && WroteToOwn(visible, tests)
  {
    hide Obtained, ImageTests, ImagesPlanned, Plannable, Extends, Selected, ImageTestsLinked;
    visible, completed := [], false;
    planned, tests, s, s', named, hashes, order, builds, asked, spec :=
      PlanImageTests(kind, manager, registry, world, nighthawkAvailable, daemon, files, fates);
    if planned {
      visible, completed :=
        RunImageTests(kind, tests, os, daemon, remote, fates, spec, hashes, order, old(files.nodes), files.nodes);
    }
  }
}
