/** Planning an A/B benchmark: one job per Envoy version, each a copy of the control document
    pinned to its version, with its own output directory and link. */
module Planner {
  import opened Wrappers
  import opened Collections
  import opened Strings
  import opened Control
  import opened BenchmarkEnv
  import opened GitHistory
  import opened FileSystem
  import opened Docker
  import opened Sources
  import opened EnvoyImages

  /** A protobuf copy: new records with the same contents. */
  method CopyRecords(source: seq<SourceRepository>) returns (copies: seq<SourceRepository>)
    ensures |copies| == |source| && fresh(copies)
    ensures forall i :: 0 <= i < |source| ==> copies[i].rec == source[i].rec
  {
    copies := [];
    for i := 0 to |source|
      invariant |copies| == i && fresh(copies)
      invariant forall j :: 0 <= j < i ==> copies[j].rec == source[j].rec
    {
      var copy := new SourceRepository(source[i].rec);
      copies := copies + [copy];
    }
  }

  ghost function Records(source: seq<SourceRepository>): seq<SourceRecord>
    reads source
  {
    seq(|source|, i requires 0 <= i < |source| reads source => source[i].rec)
  }

  /** What one job says: its images, its environment and the contents of its sources. */
  datatype JobSpec = JobSpec(images: DockerImages, environment: EnvironmentVars, source: seq<SourceRecord>)

  ghost predicate Says(job: JobControl, spec: JobSpec)
    reads job.source
  {
    && job.images == spec.images && job.environment == spec.environment
    && |job.source| == |spec.source|
    && forall i :: 0 <= i < |job.source| ==> job.source[i].rec == spec.source[i]
  }

  ghost function SpecOf(job: JobControl): JobSpec
    reads job.source
  {
    JobSpec(job.images, job.environment, Records(job.source))
  }

  function OutputDir(environment: EnvironmentVars, name: string): string {
    PathJoin(environment.outputDir, name)
  }

  // ---- Image mode --------------------------------------------------------------------------

  /** The job of one image: the control document, pinned to that image and its own directory. */
  function ImageJob(control: JobSpec, image: string): JobSpec {
    control.(images := control.images.(envoyImage := image),
             environment := control.environment.(
               outputDir := OutputDir(control.environment, ImageTag(image))))
  }

  /** Field by field: only the Envoy image and the output directory differ. */
  lemma ImageJobExactly(control: JobSpec, image: string)
    ensures var job := ImageJob(control, image);
            && job.images.envoyImage == image
            && job.images.nighthawkBenchmarkImage == control.images.nighthawkBenchmarkImage
            && job.images.nighthawkBinaryImage == control.images.nighthawkBinaryImage
            && job.images.additionalEnvoyImages == control.images.additionalEnvoyImages
            && job.images.testSingleImage == control.images.testSingleImage
            && job.environment.outputDir == PathJoin(control.environment.outputDir, ImageTag(image))
            && job.environment.testVersion == control.environment.testVersion
            && job.environment.envoyPath == control.environment.envoyPath
            && job.environment.variables == control.environment.variables
            && job.source == control.source
  {
  }

  /** Each job's link, named by the tag of its image, points to the directory it writes to. */
  ghost predicate ImageJobsLinked(jobs: seq<JobControl>, order: seq<string>, nodes: Nodes) {
    && |jobs| == |order|
    && forall k :: 0 <= k < |jobs| ==> Linked(nodes, ImageTag(order[k]), jobs[k].environment.outputDir)
  }

  lemma ImageLinks(spec: JobSpec, order: seq<string>, before: Nodes, nodes: Nodes, names: set<string>, k: nat)
    requires LinkTurns(before, nodes, spec.environment.outputDir, names, ImageTagSeq(order)) && k < |order|
    ensures |ImageJobs(spec, order)| == |order|
    ensures Linked(nodes, ImageTag(order[k]), ImageJobs(spec, order)[k].environment.outputDir)
  {
    ImageJobsAt(spec, order);
    MappedAt(ImageTag, order);
    assert HasLink(nodes, spec.environment.outputDir, ImageTagSeq(order)[k]);
  }

  lemma ImagePlanLinks(jobs: seq<JobControl>, owned: set<SourceRepository>, before: Nodes, nodes: Nodes,
                       spec: JobSpec, images: set<string>, order: seq<string>)
    requires PlanningImages(jobs, owned, before, nodes, spec, images, order)
    ensures ImageJobsLinked(jobs, order, nodes)
  {
    ImageJobsAt(spec, order);
    forall k | 0 <= k < |order| ensures Linked(nodes, ImageTag(order[k]), jobs[k].environment.outputDir) {
      ImageLinks(spec, order, before, nodes, ImageTagsOf(images), k);
      assert Says(jobs[k], ImageJobs(spec, order)[k]);
    }
  }

  method CreateNewJobControl(control: JobControl, envoyImage: string, files: Files)
    returns (r: Outcome<JobControl>)
    modifies files
    ensures var name := ImageTag(envoyImage);
            var outputDir := OutputDir(control.environment, name);
            && (r.Return? <==> Linkable(old(files.nodes), outputDir, name))
            && (r.Return? ==> files.nodes == WithLink(old(files.nodes), outputDir, name))
            && OnlyAdds(old(files.nodes), files.nodes, outputDir, name)
            && (Linked(old(files.nodes), name, outputDir) ==> files.nodes == old(files.nodes))
    ensures r.Return? ==>
              && fresh(r.value) && fresh(r.value.source)
              && Says(r.value, ImageJob(SpecOf(control), envoyImage))
  {
    hide Linkable, Linked, WithLink, OnlyAdds, ImageTag, PathJoin;
    var imageHash := ImageTag(envoyImage);
    var outputDir := PathJoin(control.environment.outputDir, imageHash);
    var copies := CopyRecords(control.source);
    var job := new JobControl(copies, control.images.(envoyImage := envoyImage),
                              control.environment.(outputDir := outputDir));
    var linked := files.CreateSymlinkForTestArtifacts(outputDir, imageHash);
    if !linked {
      return Raise(FileError);
    }
    return Return(job);
  }

  function ImageTagsOf(images: set<string>): set<string> {
    set image | image in images :: ImageTag(image)
  }

  function ImageTagSeq(order: seq<string>): seq<string> {
    Mapped(ImageTag, order)
  }

  /** What every turn of a planning loop does to the links: those of `done` have been looked
      after, one after the other. If all links were right to begin with, nothing has changed. */
  ghost predicate LinkTurns(before: Nodes, nodes: Nodes, base: string, names: set<string>, done: seq<string>) {
    && LinkAll(before, base, done) == Some(nodes)
    && LinksDone(before, nodes, base, names, done) && (forall name :: name in done ==> name in names)
    && ((forall name :: name in names ==> HasLink(before, base, name)) ==> nodes == before)
  }

  lemma LinkTurn(before: Nodes, nodes: Nodes, nodes': Nodes, base: string, names: set<string>,
                 done: seq<string>, name: string)
    requires LinkTurns(before, nodes, base, names, done) && name in names
    requires OnlyAdds(nodes, nodes', PathJoin(base, name), name)
    requires Linkable(nodes, PathJoin(base, name), name) ==> nodes' == WithLink(nodes, PathJoin(base, name), name)
    ensures Extends(before, nodes', base, names)
    ensures if Linkable(nodes, PathJoin(base, name), name) then LinkTurns(before, nodes', base, names, done + [name])
            else LinkAll(before, base, done + [name]) == None
    ensures Linkable(nodes, PathJoin(base, name), name) <==> LinkAll(before, base, done + [name]).Some?
  {
    ExtendsStep(before, nodes, nodes', base, names, name);
    LinkAllStep(before, base, done, name);
    if Linkable(nodes, PathJoin(base, name), name) {
      LinksStep(before, nodes, nodes', base, names, done, name);
    }
  }

  function RecordSet(job: JobControl): set<SourceRepository> {
    set s | s in job.source
  }

  /** The jobs say what `specs` say, and hold no records but those in `owned`. */
  ghost predicate SayAll(jobs: seq<JobControl>, specs: seq<JobSpec>, owned: set<SourceRepository>)
    reads owned
  {
    |jobs| == |specs| && forall k :: 0 <= k < |jobs| ==> RecordSet(jobs[k]) <= owned && Says(jobs[k], specs[k])
  }

  lemma SayAllStep(jobs: seq<JobControl>, specs: seq<JobSpec>, owned: set<SourceRepository>, job: JobControl, spec: JobSpec)
    requires SayAll(jobs, specs, owned) && Says(job, spec)
    ensures SayAll(jobs + [job], specs + [spec], owned + RecordSet(job))
  {
  }

  /** What a planning loop keeps: the jobs made so far say what `specs` say, and the links
      named in `done` have had their turns. */
  ghost predicate Planning(jobs: seq<JobControl>, specs: seq<JobSpec>, owned: set<SourceRepository>,
                           before: Nodes, nodes: Nodes, base: string, names: set<string>, done: seq<string>)
    reads owned
  {
    SayAll(jobs, specs, owned) && LinkTurns(before, nodes, base, names, done)
  }

  /** One more job, whose link has just been looked after. */
  lemma PlanningStep(jobs: seq<JobControl>, specs: seq<JobSpec>, owned: set<SourceRepository>,
                     before: Nodes, nodes: Nodes, nodes': Nodes, base: string, names: set<string>, done: seq<string>,
                     job: JobControl, spec: JobSpec, name: string)
    requires Planning(jobs, specs, owned, before, nodes, base, names, done)
    requires Says(job, spec) && name in names
    requires OnlyAdds(nodes, nodes', PathJoin(base, name), name)
    requires Linkable(nodes, PathJoin(base, name), name) && nodes' == WithLink(nodes, PathJoin(base, name), name)
    ensures Planning(jobs + [job], specs + [spec], owned + RecordSet(job), before, nodes', base, names, done + [name])
  {
    SayAllStep(jobs, specs, owned, job, spec);
    LinkTurn(before, nodes, nodes', base, names, done, name);
  }

  function ImageJobs(spec: JobSpec, order: seq<string>): seq<JobSpec> {
    Mapped((image: string) => ImageJob(spec, image), order)
  }

  lemma OrderStep(spec: JobSpec, order: seq<string>, image: string)
    ensures ImageJobs(spec, order + [image]) == ImageJobs(spec, order) + [ImageJob(spec, image)]
    ensures ImageTagSeq(order + [image]) == ImageTagSeq(order) + [ImageTag(image)]
  {
  }

  /** The state of the image loop after the images in `order`. */
  ghost predicate PlanningImages(jobs: seq<JobControl>, owned: set<SourceRepository>, before: Nodes, nodes: Nodes,
                                 spec: JobSpec, images: set<string>, order: seq<string>)
    reads owned
  {
    Planning(jobs, ImageJobs(spec, order), owned, before, nodes,
             spec.environment.outputDir, ImageTagsOf(images), ImageTagSeq(order))
  }

  lemma ImagePlanStarts(nodes: Nodes, spec: JobSpec, images: set<string>)
    ensures PlanningImages([], {}, nodes, nodes, spec, images, [])
    ensures Extends(nodes, nodes, spec.environment.outputDir, ImageTagsOf(images))
  {
  }

  lemma ImagePlanMade(jobs: seq<JobControl>, owned: set<SourceRepository>, before: Nodes, nodes: Nodes,
                      spec: JobSpec, images: set<string>, order: seq<string>)
    requires PlanningImages(jobs, owned, before, nodes, spec, images, order)
    ensures LinkAll(before, spec.environment.outputDir, ImageTagSeq(order)).Some?
    ensures Extends(before, nodes, spec.environment.outputDir, ImageTagsOf(images))
  {
  }

  /** One turn of the image loop. */
  method ImageTurn(control: JobControl, image: string, files: Files, jobs: seq<JobControl>,
                   ghost owned: set<SourceRepository>, ghost before: Nodes, ghost images: set<string>,
                   ghost order: seq<string>)
    returns (r: Outcome<JobControl>)
    requires PlanningImages(jobs, owned, before, files.nodes, SpecOf(control), images, order) && image in images
    modifies files
    ensures r.Return? ==> fresh(r.value) && fresh(RecordSet(r.value))
    ensures r.Return? ==>
              PlanningImages(jobs + [r.value], owned + RecordSet(r.value), before, files.nodes,
                                SpecOf(control), images, order + [image])
    ensures r.Return? <==> LinkAll(before, control.environment.outputDir, ImageTagSeq(order + [image])).Some?
    ensures Extends(before, files.nodes, control.environment.outputDir, ImageTagsOf(images))
  {
    hide ImageJob, ImageTag, LinkTurns, SayAll, Linkable, WithLink, OnlyAdds, Extends;
    ghost var nodes, base, names, name := files.nodes, control.environment.outputDir, ImageTagsOf(images), ImageTag(image);
    r := CreateNewJobControl(control, image, files);
    LinkTurn(before, nodes, files.nodes, base, names, ImageTagSeq(order), name);
    OrderStep(SpecOf(control), order, image);
    if r.Return? {
      ghost var spec := SpecOf(control);
      PlanningStep(jobs, ImageJobs(spec, order), owned, before, nodes, files.nodes, base, names, ImageTagSeq(order),
                   r.value, ImageJob(spec, image), name);
    }
  }

  lemma ImagesPlannable(nodes: Nodes, base: string, images: set<string>, order: seq<string>)
    requires Plannable(nodes, base, ImageTagsOf(images)) && forall image :: image in order ==> image in images
    ensures LinkAll(nodes, base, ImageTagSeq(order)).Some?
  {
    MappedAt(ImageTag, order);
    PlannableLinksAll(nodes, base, ImageTagsOf(images), ImageTagSeq(order));
  }

  /** _create_job_control_for_images, over the image names in any order. Planning succeeds from
      any plannable file system, and replanning changes no link. */
  method CreateJobControlForImages(control: JobControl, envoyImages: set<string>, files: Files)
    returns (r: Outcome<seq<JobControl>>, ghost order: seq<string>, ghost owned: set<SourceRepository>)
    modifies files
    ensures r.Return? ==> fresh(r.value) && fresh(owned)
    ensures |envoyImages| < 2 ==> r == Raise(PlanError) && files.nodes == old(files.nodes)
    ensures |envoyImages| >= 2 && Plannable(old(files.nodes), control.environment.outputDir, ImageTagsOf(envoyImages)) ==>
              r.Return?
    ensures |envoyImages| >= 2 ==>
              (r.Return? <==> LinkAll(old(files.nodes), control.environment.outputDir, ImageTagSeq(order)).Some?)
    ensures NoDuplicates(order) && forall image :: image in order ==> image in envoyImages
    ensures r.Return? ==>
              && Enumerates(order, envoyImages)
              && PlanningImages(r.value, owned, old(files.nodes), files.nodes, SpecOf(control), envoyImages, order)
    ensures Extends(old(files.nodes), files.nodes, control.environment.outputDir, ImageTagsOf(envoyImages))
  {
    hide PlanningImages, Plannable, Extends, ImageJob, ImageTag;
    ImagePlanStarts(files.nodes, SpecOf(control), envoyImages);
    var jobs: seq<JobControl> := [];
    order, owned := [], {};
    if |envoyImages| < 2 {
      return Raise(PlanError), order, owned;
    }
    var pending := envoyImages;
    while pending != {}
      invariant fresh(jobs) && fresh(owned)
      invariant pending <= envoyImages && Enumerates(order, envoyImages - pending)
      invariant PlanningImages(jobs, owned, old(files.nodes), files.nodes, SpecOf(control), envoyImages, order)
      decreases pending
    {
      var imageName := AnyOf(pending);
      EnumeratesStep(order, envoyImages, pending, imageName);
      var job := ImageTurn(control, imageName, files, jobs, owned, old(files.nodes), envoyImages, order);
      if job.Raise? {
        order := order + [imageName];
        if Plannable(old(files.nodes), control.environment.outputDir, ImageTagsOf(envoyImages)) {
          ImagesPlannable(old(files.nodes), control.environment.outputDir, envoyImages, order);
        }
        return Raise(job.error), order, owned;
      }
      jobs, order, owned := jobs + [job.value], order + [imageName], owned + RecordSet(job.value);
      pending := pending - {imageName};
    }
    ImagePlanMade(jobs, owned, old(files.nodes), files.nodes, SpecOf(control), envoyImages, order);
    return Return(jobs), order, owned;
  }

  /** What there is to say before and after the images are obtained: the images of the daemon, the
      registry contacts, the builds, the checkouts, the lookups, and the Envoy record. */
  datatype ImageState = ImageState(images: seq<seq<string>>, contacts: seq<string>, built: seq<string>,
                                   checkouts: seq<string>, queries: seq<string>, rec: SourceRecord)
  {
    ghost function Local(): set<string> {
      Docker.Local(images)
    }
  }

  ghost function StateOf(manager: SourceManager, daemon: Daemon): ImageState
    reads manager.envoyTree, manager.envoyTree.repo, daemon`images, daemon`contacts, daemon`built
  {
    ImageState(daemon.images, daemon.contacts, daemon.built,
               manager.envoyTree.checkouts, manager.envoyTree.queries, manager.envoyTree.repo.rec)
  }

  /** Selection succeeds, and so do the builds that the selected hashes need. */
  ghost predicate ImagesObtained(s: ImageState, named: bool, images: DockerImages, git: Git,
                                 registry: Registry, world: BuildWorld) {
    && Selectable(images, s.rec, git)
    && NeededBuildsSucceed(s.Local(), SelectedHashes(images, s.rec, git), registry, git, s.rec, named, world)
  }

  /** What is so afterwards, whether or not the images were obtained: the lookups of selection were
      made, and the Envoy record is the same apart from its commit. */
  ghost predicate Selected(s: ImageState, s': ImageState, images: DockerImages, git: Git) {
    && s'.queries == s.queries + Queries(images, s.rec, git)
    && s'.rec.(commitHash := "") == s.rec.(commitHash := "")
  }

  /** What obtaining the images of `hashes` does. The last build leaves its hash in the record. */
  ghost predicate Obtained(s: ImageState, s': ImageState, named: bool, hashes: set<string>, registry: Registry,
                           builds: seq<string>, asked: seq<string>) {
    && Progress(s.Local(), s'.Local(), hashes, builds, registry, named, s.rec.bazelOptions != [])
    && (ImageNames(hashes) <= s'.Local() <==> AllObtainable(s.Local(), hashes, registry, named))
    && Asked(s.Local(), hashes, asked, named) && s'.contacts == s.contacts + asked
    && Built(s.built, s'.built, s.checkouts, s'.checkouts, named, builds)
    && s'.rec == s.rec.(commitHash := CommitAfter(named, s.rec.commitHash, builds))
  }

  /** The control document once its Envoy record holds this commit. */
  ghost function SpecAfter(spec: JobSpec, source: seq<SourceRepository>, repo: SourceRepository, commit: string): JobSpec
    requires |spec.source| == |source|
  {
    spec.(source := seq(|source|, i requires 0 <= i < |source| =>
            if source[i] == repo then spec.source[i].(commitHash := commit) else spec.source[i]))
  }

  lemma SpecAfterIs(control: JobControl, before: JobSpec, repo: SourceRepository, commit: string)
    requires before.images == control.images && before.environment == control.environment
    requires |before.source| == |control.source|
    requires forall i :: 0 <= i < |control.source| ==>
               control.source[i].rec == if control.source[i] == repo then before.source[i].(commitHash := commit)
                                        else before.source[i]
    ensures SpecOf(control) == SpecAfter(before, control.source, repo, commit)
  {
    assert Records(control.source) == SpecAfter(before, control.source, repo, commit).source;
  }

  /** The first two steps of _generate_job_control_for_envoy_images. */
  method SelectAndObtain(manager: SourceManager, registry: Registry, world: BuildWorld, daemon: Daemon)
    returns (r: Outcome<set<string>>, ghost s: ImageState, ghost s': ImageState, ghost named: bool,
             ghost hashes: set<string>, ghost builds: seq<string>, ghost asked: seq<string>)
    requires manager.Valid()
    modifies manager.envoyTree, manager.envoyTree.repo, daemon`images, daemon`built, daemon`contacts
    ensures manager.Valid() && s == old(StateOf(manager, daemon)) && s' == StateOf(manager, daemon)
    ensures named == old(Names(manager.control.source, SrcEnvoy)) == Names(manager.control.source, SrcEnvoy)
    ensures hashes == SelectedHashes(manager.control.images, s.rec, manager.envoyTree.git)
    ensures Selected(s, s', manager.control.images, manager.envoyTree.git)
    ensures r.Return? <==> ImagesObtained(s, named, manager.control.images, manager.envoyTree.git, registry, world)
    ensures r.Return? ==>
              && r.value == ImageNames(hashes) && |r.value| == |hashes|
              && Obtained(s, s', named, hashes, registry, builds, asked)
  {
    s, named := StateOf(manager, daemon), Names(manager.control.source, SrcEnvoy);
    hashes, builds, asked := SelectedHashes(manager.control.images, s.rec, manager.envoyTree.git), [], [];
    var imageHashes := manager.GetEnvoyHashesForBenchmark();
    if imageHashes.Raise? {
      r, s' := Raise(imageHashes.error), StateOf(manager, daemon);
      return;
    }
    r, builds, asked := PullOrBuildEnvoyImages(manager, imageHashes.value, registry, world, daemon);
    s' := StateOf(manager, daemon);
  }

  /** The hashes of an image benchmark, and their images, pulled or built; and what
      the builds leave of the document. */
  method ObtainEnvoyImages(manager: SourceManager, registry: Registry, world: BuildWorld, daemon: Daemon)
    returns (r: Outcome<set<string>>, ghost s: ImageState, ghost s': ImageState, ghost named: bool,
             ghost hashes: set<string>, ghost builds: seq<string>, ghost asked: seq<string>)
    requires manager.Valid()
    modifies manager.envoyTree, manager.envoyTree.repo, daemon`images, daemon`built, daemon`contacts
    ensures manager.Valid() && s == old(StateOf(manager, daemon)) && s' == StateOf(manager, daemon)
    ensures named == old(Names(manager.control.source, SrcEnvoy)) == Names(manager.control.source, SrcEnvoy)
    ensures hashes == SelectedHashes(manager.control.images, s.rec, manager.envoyTree.git)
    ensures Selected(s, s', manager.control.images, manager.envoyTree.git)
    ensures r.Return? <==> ImagesObtained(s, named, manager.control.images, manager.envoyTree.git, registry, world)
    ensures SpecOf(manager.control)
         == SpecAfter(old(SpecOf(manager.control)), manager.control.source, manager.envoyTree.repo, s'.rec.commitHash)
    ensures r.Return? ==>
              && r.value == ImageNames(hashes) && |r.value| == |hashes|
              && Obtained(s, s', named, hashes, registry, builds, asked)
  {
    ghost var before := SpecOf(manager.control);
    r, s, s', named, hashes, builds, asked := SelectAndObtain(manager, registry, world, daemon);
    SpecAfterIs(manager.control, before, manager.envoyTree.repo, s'.rec.commitHash);
  }

  /** What it takes to come as far as making jobs. */
  ghost predicate ImagesPlanned(s: ImageState, named: bool, images: DockerImages, git: Git,
                                registry: Registry, world: BuildWorld, nighthawkAvailable: bool) {
    && ImagesObtained(s, named, images, git, registry, world) && |SelectedHashes(images, s.rec, git)| >= 2
    && NighthawkReady(images, nighthawkAvailable)
  }

  /** The rest of _generate_job_control_for_envoy_images, once the Envoy images are there. */
  method PlanObtainedImages(control: JobControl, envoyImages: set<string>, nighthawkAvailable: bool, files: Files)
    returns (r: Outcome<seq<JobControl>>, ghost order: seq<string>, ghost owned: set<SourceRepository>,
             ghost spec: JobSpec)
    modifies files
    ensures spec == old(SpecOf(control))
    ensures r.Return? ==> |envoyImages| >= 2 && NighthawkReady(control.images, nighthawkAvailable)
    ensures |envoyImages| >= 2 && NighthawkReady(control.images, nighthawkAvailable)
            && Plannable(old(files.nodes), control.environment.outputDir, ImageTagsOf(envoyImages)) ==>
              r.Return?
    ensures r.Return? ==>
              && Enumerates(order, envoyImages) && fresh(r.value) && fresh(owned)
              && PlanningImages(r.value, owned, old(files.nodes), files.nodes, spec, envoyImages, order)
              && ImageJobsLinked(r.value, order, files.nodes)
    ensures Extends(old(files.nodes), files.nodes, control.environment.outputDir, ImageTagsOf(envoyImages))
  {
    order, owned, spec := [], {}, SpecOf(control);
    if envoyImages == {} {
      return Raise(PlanError), order, owned, spec;
    }
    var images := control.images;
    if images.nighthawkBenchmarkImage == "" || images.nighthawkBinaryImage == "" || !nighthawkAvailable {
      return Raise(PlanError), order, owned, spec;
    }
    r, order, owned := CreateJobControlForImages(control, envoyImages, files);
    if r.Return? {
      ImagePlanLinks(r.value, owned, old(files.nodes), files.nodes, spec, envoyImages, order);
    }
  }

  predicate NighthawkReady(images: DockerImages, available: bool) {
    images.nighthawkBenchmarkImage != "" && images.nighthawkBinaryImage != "" && available
  }

  /** _generate_job_control_for_envoy_images. Whether the two NightHawk images can be pulled or
      built is left to the caller; that they must be named is not. */
  method GenerateJobControlForEnvoyImages(manager: SourceManager, registry: Registry, world: BuildWorld,
                                          nighthawkAvailable: bool, daemon: Daemon, files: Files)
    returns (r: Outcome<seq<JobControl>>, ghost s: ImageState, ghost s': ImageState, ghost named: bool,
             ghost hashes: set<string>, ghost order: seq<string>, ghost owned: set<SourceRepository>,
             ghost builds: seq<string>, ghost asked: seq<string>, ghost spec: JobSpec)
    requires manager.Valid()
    modifies manager.envoyTree, manager.envoyTree.repo, daemon`images, daemon`built, daemon`contacts, files
    ensures r.Return? ==> fresh(r.value) && fresh(owned)
    ensures s == old(StateOf(manager, daemon)) && s' == StateOf(manager, daemon)
    ensures named == old(Names(manager.control.source, SrcEnvoy))
    ensures hashes == SelectedHashes(manager.control.images, s.rec, manager.envoyTree.git)
    ensures spec == SpecAfter(old(SpecOf(manager.control)), manager.control.source, manager.envoyTree.repo, s'.rec.commitHash)
    ensures Selected(s, s', manager.control.images, manager.envoyTree.git)
    ensures Extends(old(files.nodes), files.nodes, manager.control.environment.outputDir, ImageTagsOf(ImageNames(hashes)))
    ensures r.Return? ==>
              ImagesPlanned(s, named, manager.control.images, manager.envoyTree.git, registry, world, nighthawkAvailable)
    ensures ImagesPlanned(s, named, manager.control.images, manager.envoyTree.git, registry, world, nighthawkAvailable)
            && Plannable(old(files.nodes), manager.control.environment.outputDir, ImageTagsOf(ImageNames(hashes))) ==>
              r.Return?
    ensures r.Return? ==>
              && Enumerates(order, ImageNames(hashes))
              && PlanningImages(r.value, owned, old(files.nodes), files.nodes, spec, ImageNames(hashes), order)
              && ImageJobsLinked(r.value, order, files.nodes)
              && |hashes| >= 2 && manager.control.images.nighthawkBenchmarkImage != ""
              && manager.control.images.nighthawkBinaryImage != "" && nighthawkAvailable
              && Obtained(s, s', named, hashes, registry, builds, asked)
  {
    hide Obtained, Selected, Extends, ImagesObtained, Plannable, PlanningImages, ImageJobsLinked, SpecAfter;
    order, owned := [], {};
    var envoyImages;
    envoyImages, s, s', named, hashes, builds, asked := ObtainEnvoyImages(manager, registry, world, daemon);
    spec := SpecOf(manager.control);
    if envoyImages.Raise? {
      NothingAdded(files.nodes, manager.control.environment.outputDir, ImageTagsOf(ImageNames(hashes)));
      r := Raise(envoyImages.error);
      return;
    }
    r, order, owned, spec := PlanObtainedImages(manager.control, envoyImages.value, nighthawkAvailable, files);
  }

  lemma TagAfterPrefix(prefix: string, hash: string)
    requires ':' !in prefix
    ensures ImageTag(prefix + [':'] + hash) == ImageTag(hash)
  {
    SplitAfterPiece(prefix, ':', hash);
  }

  /** The tag cut out of an image name is what follows the last colon of the hash. */
  lemma ImageTagOfName(hash: string)
    ensures ImageTag(ImageName(hash)) == ImageTag(hash)
    ensures ':' !in hash ==> ImageTag(hash) == hash
  {
    TagAfterPrefix(if IsTag(hash) then RELEASE_PREFIX else RELEASE_PREFIX + "-dev", hash);
  }

  lemma ImageJobsAt(spec: JobSpec, order: seq<string>)
    ensures |ImageJobs(spec, order)| == |order|
    ensures forall k :: 0 <= k < |order| ==> ImageJobs(spec, order)[k] == ImageJob(spec, order[k])
  {
    MappedAt((image: string) => ImageJob(spec, image), order);
  }

  predicate PlainHash(hash: string) {
    ':' !in hash && (hash == "" || hash[0] != '/')
  }

  /** Job `k` is the one of `hash`: pinned to its image, and writing under its name. */
  ghost predicate IsJobOf(spec: JobSpec, order: seq<string>, k: nat, hash: string) {
    && k < |ImageJobs(spec, order)| == |order| && order[k] == ImageName(hash)
    && ImageJobs(spec, order)[k].images.envoyImage == ImageName(hash)
    && ImageJobs(spec, order)[k].environment.outputDir == PathJoin(spec.environment.outputDir, hash)
  }

  ghost predicate IsJobOfSome(spec: JobSpec, order: seq<string>, k: nat, hashes: set<string>) {
    exists hash :: hash in hashes && IsJobOf(spec, order, k, hash)
  }

  lemma ImageJobOf(spec: JobSpec, order: seq<string>, k: nat, hash: string)
    requires k < |order| && order[k] == ImageName(hash) && PlainHash(hash)
    ensures IsJobOf(spec, order, k, hash)
  {
    ImageJobsAt(spec, order);
    ImageTagOfName(hash);
  }

  /** Plan isolation, image mode: n hashes give exactly n jobs, and each hash has its job. */
  lemma ImagePlanCoversHashes(spec: JobSpec, hashes: set<string>, order: seq<string>)
    requires Enumerates(order, ImageNames(hashes)) && forall hash :: hash in hashes ==> PlainHash(hash)
    ensures |order| == |hashes|
    ensures forall hash :: hash in hashes ==> exists k :: IsJobOf(spec, order, k, hash)
    ensures forall k :: 0 <= k < |order| ==> IsJobOfSome(spec, order, k, hashes)
  {
    EnumerationLength(order, ImageNames(hashes));
    OneNamePerHash(hashes);
    forall hash | hash in hashes ensures exists k :: IsJobOf(spec, order, k, hash) {
      assert ImageName(hash) in ImageNames(hashes);
      var k :| 0 <= k < |order| && order[k] == ImageName(hash);
      ImageJobOf(spec, order, k, hash);
    }
    forall k | 0 <= k < |order| ensures IsJobOfSome(spec, order, k, hashes) {
      assert order[k] in ImageNames(hashes);
      var hash :| hash in hashes && order[k] == ImageName(hash);
      ImageJobOf(spec, order, k, hash);
    }
  }

  /** No two jobs of an image plan share a hash, an image or an output directory. */
  lemma ImageJobsApart(spec: JobSpec, order: seq<string>, j: nat, k: nat, a: string, b: string)
    requires NoDuplicates(order) && j != k && PlainHash(a) && PlainHash(b)
    requires IsJobOf(spec, order, j, a) && IsJobOf(spec, order, k, b)
    ensures a != b && ImageJobs(spec, order)[j].images != ImageJobs(spec, order)[k].images
    ensures ImageJobs(spec, order)[j].environment.outputDir != ImageJobs(spec, order)[k].environment.outputDir
  {
    assert order[j] != order[k];
    if PathJoin(spec.environment.outputDir, a) == PathJoin(spec.environment.outputDir, b) {
      PathJoinInjective(spec.environment.outputDir, a, b);
    }
  }

  // ---- Binary mode -------------------------------------------------------------------------

  /** `str(source.WhichOneof('source_location'))` */
  function LocationKind(location: Location): string {
    match location
    case SourcePath(_) => "source_path"
    case SourceUrl(_) => "source_url"
    case NoLocation => "None"
  }

  function Suffix(part: string): string {
    if part == "" then "" else ['_', '_'] + part
  }

  /** `location__hash__branch`, each part after the first only if it is not empty. */
  function Identifier(location: Location, branch: string, hash: string): string {
    LocationKind(location) + Suffix(hash) + Suffix(branch)
  }

  /** Identifiers, letter by letter. */
  lemma IdentifierText(location: Location, branch: string, hash: string)
    ensures Identifier(location, branch, hash)
         == (match location case SourcePath(_) => "source_path" case SourceUrl(_) => "source_url" case NoLocation => "None")
            + (if hash == "" then "" else "__" + hash) + (if branch == "" then "" else "__" + branch)
  {
  }

  /** Within one plan, location and branch are fixed, and the identifier tells all hashes apart,
      the empty one included. */
  lemma IdentifierTellsHashesApart(location: Location, branch: string, a: string, b: string)
    requires Identifier(location, branch, a) == Identifier(location, branch, b)
    ensures a == b
  {
    var n, m := |LocationKind(location)|, |Suffix(branch)|;
    var s, t := Identifier(location, branch, a), Identifier(location, branch, b);
    assert s[n..|s| - m] == Suffix(a) && t[n..|t| - m] == Suffix(b);
    assert a != "" ==> Suffix(a)[2..] == a;
    assert b != "" ==> Suffix(b)[2..] == b;
  }

  lemma IdentifierIsRelative(location: Location, branch: string, hash: string)
    ensures var id := Identifier(location, branch, hash); id != "" && id[0] != '/'
  {
  }

  /** Some location kinds and branches give two hashes one identifier. */
  ghost predicate Collide(h: string, h': string) {
    exists l, b, l', b' :: Identifier(l, b, h) == Identifier(l', b', h')
  }

  /** At `i`, behind the first character, an underscore follows that is the last character or
      stands before another one: read on from there, it may be where a branch begins. */
  predicate CutAt(h: string, i: nat) {
    1 <= i < |h| && h[i] == '_' && (i + 1 == |h| || h[i + 1] == '_')
  }

  ghost predicate CutOf(h: string, h': string) {
    exists i: nat :: CutAt(h', i) && h == h'[..i]
  }

  /** Not empty, and no underscore that may be mistaken for the start of a branch. */
  predicate Separable(h: string) {
    h != "" && forall i: nat :: i < |h| ==> !CutAt(h, i)
  }

  /** Across plans, identifiers determine the kind of location; and given the hash, the branch. */
  lemma IdentifierDecodes(l: Location, b: string, h: string, l': Location, b': string, h': string)
    requires Identifier(l, b, h) == Identifier(l', b', h')
    ensures LocationKind(l) == LocationKind(l')
    ensures Suffix(h) + Suffix(b) == Suffix(h') + Suffix(b')
    ensures h == h' ==> b == b'
  {
    KindOfIdentifier(l, b, h);
    KindOfIdentifier(l', b', h');
    AppendAssociative(LocationKind(l), Suffix(h), Suffix(b));
    AppendAssociative(LocationKind(l), Suffix(h'), Suffix(b'));
    AppendCancel(LocationKind(l), Suffix(h) + Suffix(b), Suffix(h') + Suffix(b'));
    if h == h' {
      AppendCancel(Suffix(h), Suffix(b), Suffix(b'));
      if b != "" {
        AppendCancel(['_', '_'], b, b');
      }
    }
  }

  lemma KindOfIdentifier(l: Location, b: string, h: string)
    ensures var s := Identifier(l, b, h);
            LocationKind(l) == if s[0] == 'N' then "None" else if s[7] == 'p' then "source_path" else "source_url"
  {
  }

  /** Exactly which different hashes get one identifier for some branches: the empty hash and
      any other, and a hash and what remains of it when it is cut. */
  lemma HashesCollideIff(h: string, h': string)
    requires h != h'
    ensures Collide(h, h') <==> h == "" || h' == "" || CutOf(h, h') || CutOf(h', h)
  {
    if Collide(h, h') && h != "" && h' != "" {
      var l, b, l', b' :| Identifier(l, b, h) == Identifier(l', b', h');
      IdentifierDecodes(l, b, h, l', b', h');
      AppendAssociative(['_', '_'], h, Suffix(b));
      AppendAssociative(['_', '_'], h', Suffix(b'));
      AppendCancel(['_', '_'], h + Suffix(b), h' + Suffix(b'));
      HashAndBranch(h, b, h', b');
    }
    if h == "" {
      IdentifierCollision(NoLocation, h');
    } else if h' == "" {
      IdentifierCollision(NoLocation, h);
    } else if CutOf(h, h') {
      CutCollides(h, h');
    } else if CutOf(h', h) {
      CutCollides(h', h);
    }
  }

  /** An absent hash makes the identifier ambiguous: a hash without a branch and the same name
      as a branch without a hash collide. */
  lemma IdentifierCollision(location: Location, name: string)
    ensures Identifier(location, "", name) == Identifier(location, name, "")
  {
    assert LocationKind(location) + Suffix(name) + "" == LocationKind(location) + "" + Suffix(name);
  }

  lemma HashAndBranch(h: string, b: string, h': string, b': string)
    requires h != "" && h' != "" && h + Suffix(b) == h' + Suffix(b')
    ensures h == h' || CutOf(h, h') || CutOf(h', h)
  {
    if |h| < |h'| {
      CutIsPrefix(h, b, h', b');
    } else if |h'| < |h| {
      CutIsPrefix(h', b', h, b);
    } else {
      assert h == (h + Suffix(b))[..|h|] == h';
    }
  }

  lemma CutIsPrefix(h: string, b: string, h': string, b': string)
    requires 0 < |h| < |h'| && h + Suffix(b) == h' + Suffix(b')
    ensures CutOf(h, h')
  {
    var s, i := h + Suffix(b), |h|;
    assert s[i] == '_' && s[i + 1] == '_';
    assert h' == s[..|h'|] && h == s[..i];
    assert h'[..i] == h && CutAt(h', i);
  }

  lemma CutCollides(h: string, h': string)
    requires h != "" && CutOf(h, h')
    ensures Collide(h, h') && Collide(h', h)
  {
    var b := CutBranch(h, h');
    SameIdentifier(NoLocation, h, b, h', "z");
    assert Identifier(NoLocation, b, h) == Identifier(NoLocation, "z", h');
  }

  /** The branch that makes up for what was cut off. */
  lemma CutBranch(h: string, h': string) returns (b: string)
    requires CutOf(h, h')
    ensures h + Suffix(b) == h' + Suffix("z")
  {
    var i: nat :| CutAt(h', i) && h == h'[..i];
    var s := h' + Suffix("z");
    b := s[i + 2..];
    assert s[..i] == h;
    assert s[i] == h'[i] == '_';
    assert s[i + 1] == if i + 1 < |h'| then h'[i + 1] else '_';
    assert s[i..i + 2] == ['_', '_'];
    assert s[i..] == ['_', '_'] + b == Suffix(b);
    assert s == s[..i] + s[i..];
  }

  lemma SameIdentifier(l: Location, h: string, b: string, h': string, b': string)
    requires h != "" && h' != "" && h + Suffix(b) == h' + Suffix(b')
    ensures Identifier(l, b, h) == Identifier(l, b', h')
  {
    AppendAssociative(LocationKind(l) + ['_', '_'], h, Suffix(b));
    AppendAssociative(LocationKind(l) + ['_', '_'], h', Suffix(b'));
    AppendAssociative(LocationKind(l), ['_', '_'], h);
    AppendAssociative(LocationKind(l), ['_', '_'], h');
  }

  /** A hash is told apart from all other separable ones, whatever the locations and branches,
      exactly when it is separable itself. */
  lemma TellsApartIffSeparable(h: string)
    ensures Separable(h) <==> h != "" && forall h' :: Separable(h') && h' != h ==> !Collide(h, h')
  {
    if Separable(h) {
      forall h' | Separable(h') && h' != h ensures !Collide(h, h') {
        HashesCollideIff(h, h');
      }
    } else if h != "" {
      var i: nat :| i < |h| && CutAt(h, i);
      var k := FirstCut(h, i);
      assert CutOf(h[..k], h);
      HashesCollideIff(h, h[..k]);
    }
  }

  lemma {:induction false} FirstCut(h: string, i: nat) returns (k: nat)
    requires CutAt(h, i)
    ensures CutAt(h, k) && Separable(h[..k])
    decreases i
  {
    if j: nat :| j < i && CutAt(h, j) {
      k := FirstCut(h, j);
    } else {
      k := i;
      assert forall j: nat :: CutAt(h[..i], j) ==> CutAt(h, j);
    }
  }

  /** The job of one commit: the control document with just two sources, the NightHawk one and
      the Envoy one pinned to the commit and without its extra hashes, and its own directory. */
  function BinaryJob(control: JobSpec, nighthawk: SourceRecord, envoy: SourceRecord, hash: string): JobSpec {
    control.(source := [nighthawk, envoy.(commitHash := hash, additionalHashes := [])],
             environment := control.environment.(
               outputDir := OutputDir(control.environment, Identifier(envoy.location, envoy.branch, hash))))
  }

  /** Field by field: two sources, the Envoy one pinned and without extras, and the output directory
      of the identifier. */
  lemma BinaryJobExactly(control: JobSpec, nighthawk: SourceRecord, envoy: SourceRecord, hash: string)
    ensures var job := BinaryJob(control, nighthawk, envoy, hash);
            && job.images == control.images
            && job.environment.outputDir
               == PathJoin(control.environment.outputDir, Identifier(envoy.location, envoy.branch, hash))
            && job.environment.testVersion == control.environment.testVersion
            && job.environment.envoyPath == control.environment.envoyPath
            && job.environment.variables == control.environment.variables
            && |job.source| == 2 && job.source[0] == nighthawk
            && job.source[1].commitHash == hash && job.source[1].additionalHashes == []
            && job.source[1].identity == envoy.identity && job.source[1].location == envoy.location
            && job.source[1].branch == envoy.branch && job.source[1].bazelOptions == envoy.bazelOptions
            && job.source[1].testSingleCommit == envoy.testSingleCommit
  {
  }

  /** Each job's link, named by the identifier of its commit, points to the directory it writes to. */
  ghost predicate BinaryJobsLinked(jobs: seq<JobControl>, envoy: SourceRecord, order: seq<string>, nodes: Nodes) {
    && |jobs| == |order|
    && forall k :: 0 <= k < |jobs| ==>
         Linked(nodes, Identifier(envoy.location, envoy.branch, order[k]), jobs[k].environment.outputDir)
  }

  lemma BinaryLinks(spec: JobSpec, nighthawk: SourceRecord, envoy: SourceRecord, order: seq<string>,
                    before: Nodes, nodes: Nodes, names: set<string>, k: nat)
    requires LinkTurns(before, nodes, spec.environment.outputDir, names, Identifiers(envoy, order)) && k < |order|
    ensures |BinaryJobs(spec, nighthawk, envoy, order)| == |order|
    ensures Linked(nodes, Identifier(envoy.location, envoy.branch, order[k]),
                   BinaryJobs(spec, nighthawk, envoy, order)[k].environment.outputDir)
  {
    BinaryJobsAt(spec, nighthawk, envoy, order);
    MappedAt((hash: string) => Identifier(envoy.location, envoy.branch, hash), order);
    assert HasLink(nodes, spec.environment.outputDir, Identifiers(envoy, order)[k]);
  }

  lemma BinaryPlanLinks(jobs: seq<JobControl>, owned: set<SourceRepository>, before: Nodes, nodes: Nodes, spec: JobSpec,
                        nighthawk: SourceRecord, envoy: SourceRecord, hashes: set<string>, order: seq<string>)
    requires PlanningBinaries(jobs, owned, before, nodes, spec, nighthawk, envoy, hashes, order)
    ensures BinaryJobsLinked(jobs, envoy, order, nodes)
  {
    BinaryJobsAt(spec, nighthawk, envoy, order);
    forall k | 0 <= k < |order|
      ensures Linked(nodes, Identifier(envoy.location, envoy.branch, order[k]), jobs[k].environment.outputDir)
    {
      BinaryLinks(spec, nighthawk, envoy, order, before, nodes, IdentifierSet(envoy, hashes), k);
      assert Says(jobs[k], BinaryJobs(spec, nighthawk, envoy, order)[k]);
    }
  }

  method IdentifierOf(envoy: SourceRecord, hash: string) returns (identifier: string)
    ensures identifier == Identifier(envoy.location, envoy.branch, hash)
  {
    identifier := LocationKind(envoy.location);
    if hash != "" {
      identifier := identifier + ['_', '_'];
      identifier := identifier + hash;
    }
    if envoy.branch != "" {
      identifier := identifier + ['_', '_'];
      identifier := identifier + envoy.branch;
    }
    IdentifierParts(envoy.location, envoy.branch, hash);
  }

  method CreateNewSourceJobControl(control: JobControl, nighthawk: SourceRecord, envoy: SourceRecord,
                                   envoyHash: string, files: Files)
    returns (r: Outcome<JobControl>)
    modifies files
    ensures var name := Identifier(envoy.location, envoy.branch, envoyHash);
            var outputDir := OutputDir(control.environment, name);
            && (r.Return? <==> Linkable(old(files.nodes), outputDir, name))
            && (r.Return? ==> files.nodes == WithLink(old(files.nodes), outputDir, name))
            && OnlyAdds(old(files.nodes), files.nodes, outputDir, name)
            && (Linked(old(files.nodes), name, outputDir) ==> files.nodes == old(files.nodes))
    ensures r.Return? ==>
              && fresh(r.value) && fresh(RecordSet(r.value))
              && Says(r.value, BinaryJob(SpecOf(control), nighthawk, envoy, envoyHash))
  {
    hide Linkable, Linked, WithLink, OnlyAdds, Identifier, PathJoin;
    var identifier := IdentifierOf(envoy, envoyHash);
    var nighthawkSource := new SourceRepository(nighthawk);
    var envoySource := new SourceRepository(envoy);
    envoySource.rec := envoySource.rec.(commitHash := envoyHash);
    envoySource.rec := envoySource.rec.(additionalHashes := []);
    var outputDir := PathJoin(control.environment.outputDir, identifier);
    var job := new JobControl([nighthawkSource, envoySource], control.images,
                              control.environment.(outputDir := outputDir));
    assert RecordSet(job) == {nighthawkSource, envoySource};
    var linked := files.CreateSymlinkForTestArtifacts(outputDir, identifier);
    if !linked {
      return Raise(FileError);
    }
    return Return(job);
  }

  lemma IdentifierParts(location: Location, branch: string, hash: string)
    ensures var start := LocationKind(location);
            var middle := if hash != "" then start + ['_', '_'] + hash else start;
            Identifier(location, branch, hash) == if branch != "" then middle + ['_', '_'] + branch else middle
  {
  }

  function BinaryJobs(spec: JobSpec, nighthawk: SourceRecord, envoy: SourceRecord, order: seq<string>): seq<JobSpec> {
    Mapped((hash: string) => BinaryJob(spec, nighthawk, envoy, hash), order)
  }

  function Identifiers(envoy: SourceRecord, order: seq<string>): seq<string> {
    Mapped((hash: string) => Identifier(envoy.location, envoy.branch, hash), order)
  }

  function IdentifierSet(envoy: SourceRecord, hashes: set<string>): set<string> {
    set hash | hash in hashes :: Identifier(envoy.location, envoy.branch, hash)
  }

  lemma BinaryOrderStep(spec: JobSpec, nighthawk: SourceRecord, envoy: SourceRecord, order: seq<string>, hash: string)
    ensures BinaryJobs(spec, nighthawk, envoy, order + [hash])
         == BinaryJobs(spec, nighthawk, envoy, order) + [BinaryJob(spec, nighthawk, envoy, hash)]
    ensures Identifiers(envoy, order + [hash])
         == Identifiers(envoy, order) + [Identifier(envoy.location, envoy.branch, hash)]
  {
  }

  /** The state of the binary loop after the hashes in `order`. */
  ghost predicate PlanningBinaries(jobs: seq<JobControl>, owned: set<SourceRepository>, before: Nodes, nodes: Nodes,
                                   spec: JobSpec, nighthawk: SourceRecord, envoy: SourceRecord,
                                   hashes: set<string>, order: seq<string>)
    reads owned
  {
    Planning(jobs, BinaryJobs(spec, nighthawk, envoy, order), owned, before, nodes,
             spec.environment.outputDir, IdentifierSet(envoy, hashes), Identifiers(envoy, order))
  }

  lemma BinaryPlanStarts(nodes: Nodes, spec: JobSpec, nighthawk: SourceRecord, envoy: SourceRecord, hashes: set<string>)
    ensures PlanningBinaries([], {}, nodes, nodes, spec, nighthawk, envoy, hashes, [])
    ensures Extends(nodes, nodes, spec.environment.outputDir, IdentifierSet(envoy, hashes))
  {
  }

  lemma BinaryPlanMade(jobs: seq<JobControl>, owned: set<SourceRepository>, before: Nodes, nodes: Nodes, spec: JobSpec,
                       nighthawk: SourceRecord, envoy: SourceRecord, hashes: set<string>, order: seq<string>)
    requires PlanningBinaries(jobs, owned, before, nodes, spec, nighthawk, envoy, hashes, order)
    ensures LinkAll(before, spec.environment.outputDir, Identifiers(envoy, order)).Some?
    ensures Extends(before, nodes, spec.environment.outputDir, IdentifierSet(envoy, hashes))
  {
  }

  /** One turn of the binary loop. */
  method BinaryTurn(control: JobControl, nighthawk: SourceRecord, envoy: SourceRecord, hash: string, files: Files,
                    jobs: seq<JobControl>, ghost owned: set<SourceRepository>, ghost before: Nodes,
                    ghost hashes: set<string>, ghost order: seq<string>)
    returns (r: Outcome<JobControl>)
    requires PlanningBinaries(jobs, owned, before, files.nodes, SpecOf(control), nighthawk, envoy, hashes, order)
    requires hash in hashes
    modifies files
    ensures r.Return? ==> fresh(r.value) && fresh(RecordSet(r.value))
    ensures r.Return? ==>
              PlanningBinaries(jobs + [r.value], owned + RecordSet(r.value), before, files.nodes,
                                  SpecOf(control), nighthawk, envoy, hashes, order + [hash])
    ensures r.Return? <==> LinkAll(before, control.environment.outputDir, Identifiers(envoy, order + [hash])).Some?
    ensures Extends(before, files.nodes, control.environment.outputDir, IdentifierSet(envoy, hashes))
  {
    hide BinaryJob, Identifier, LinkTurns, SayAll, Linkable, WithLink, OnlyAdds, Extends;
    ghost var nodes, base, names := files.nodes, control.environment.outputDir, IdentifierSet(envoy, hashes);
    ghost var name := Identifier(envoy.location, envoy.branch, hash);
    r := CreateNewSourceJobControl(control, nighthawk, envoy, hash, files);
    LinkTurn(before, nodes, files.nodes, base, names, Identifiers(envoy, order), name);
    BinaryOrderStep(SpecOf(control), nighthawk, envoy, order, hash);
    if r.Return? {
      ghost var spec := SpecOf(control);
      PlanningStep(jobs, BinaryJobs(spec, nighthawk, envoy, order), owned, before, nodes, files.nodes, base, names,
                   Identifiers(envoy, order), r.value, BinaryJob(spec, nighthawk, envoy, hash), name);
    }
  }

  /** `nighthawk` is the only NightHawk source of the document, and its location is given. */
  ghost predicate LoneNighthawk(source: seq<SourceRepository>, nighthawk: SourceRecord)
    reads source
  {
    exists i :: 0 <= i < |source| && source[i].rec == nighthawk
                && nighthawk.identity == SrcNighthawk && !nighthawk.location.NoLocation?
                && forall j :: 0 <= j < |source| && j != i ==> source[j].rec.identity != SrcNighthawk
  }

  ghost predicate HasLoneNighthawk(source: seq<SourceRepository>)
    reads source
  {
    exists rec :: LoneNighthawk(source, rec)
  }

  /** There is none if the document has no NightHawk source, or two, or one without a location. */
  lemma NoLoneNighthawk(source: seq<SourceRepository>, i: nat, j: nat)
    requires i < |source| && j < |source|
    ensures HasLoneNighthawk(source) ==> exists k :: 0 <= k < |source| && source[k].rec.identity == SrcNighthawk
    ensures i != j && source[i].rec.identity == source[j].rec.identity == SrcNighthawk ==> !HasLoneNighthawk(source)
    ensures source[i].rec.identity == SrcNighthawk && source[i].rec.location == NoLocation ==> !HasLoneNighthawk(source)
  {
  }

  method FindLoneNighthawk(source: seq<SourceRepository>) returns (r: Outcome<SourceRecord>)
    ensures r.Return? ==> LoneNighthawk(source, r.value)
    ensures r.Return? <==> HasLoneNighthawk(source)
  {
    var found := -1;
    for i := 0 to |source|
      invariant -1 <= found < i
      invariant found == -1 ==> forall j :: 0 <= j < i ==> source[j].rec.identity != SrcNighthawk
      invariant found >= 0 ==> source[found].rec.identity == SrcNighthawk
      invariant found >= 0 ==> forall j :: 0 <= j < i && j != found ==> source[j].rec.identity != SrcNighthawk
    {
      if source[i].rec.identity.SrcNighthawk? {
        if found >= 0 {
          return Raise(PlanError);
        }
        found := i;
      }
    }
    if found < 0 || source[found].rec.location.NoLocation? {
      return Raise(PlanError);
    }
    return Return(source[found].rec);
  }

  ghost function Hashes(manager: SourceManager): set<string>
    reads manager.envoyTree.repo
  {
    SelectedHashes(manager.control.images, manager.envoyTree.repo.rec, manager.envoyTree.git)
  }

  /** The lookups of selection. */
  ghost function LookedUp(manager: SourceManager): seq<string>
    reads manager.envoyTree.repo
  {
    Queries(manager.control.images, manager.envoyTree.repo.rec, manager.envoyTree.git)
  }

  /** What it takes to come as far as making binary jobs. */
  ghost predicate BinariesSelected(manager: SourceManager)
    reads manager.control.source, manager.envoyTree.repo
  {
    && HasLoneNighthawk(manager.control.source)
    && Selectable(manager.control.images, manager.envoyTree.repo.rec, manager.envoyTree.git)
  }

  /** The NightHawk source, the Envoy source and the hashes of a binary benchmark. */
  method SelectForBinaries(manager: SourceManager) returns (r: Outcome<(SourceRecord, SourceRecord, set<string>)>)
    requires manager.Valid()
    modifies manager.envoyTree`queries
    ensures r.Return? <==> BinariesSelected(manager)
    ensures manager.envoyTree.queries == old(manager.envoyTree.queries)
              + if HasLoneNighthawk(manager.control.source) then LookedUp(manager) else []
    ensures r.Return? ==>
              && LoneNighthawk(manager.control.source, r.value.0)
              && r.value.1 == manager.envoyTree.repo.rec
              && r.value.2 == Hashes(manager)
  {
    var lone := FindLoneNighthawk(manager.control.source);
    if lone.Raise? {
      return Raise(lone.error);
    }
    var base := FindSource(manager.control.source, SrcEnvoy);
    SameRecord(manager.control.source, SrcEnvoy, base.value, manager.envoyTree.repo);
    var envoy := base.value.rec;
    var envoyHashes := manager.GetEnvoyHashesForBenchmark();
    if envoyHashes.Raise? {
      return Raise(envoyHashes.error);
    }
    return Return((lone.value, envoy, envoyHashes.value));
  }

  /** _generate_job_control_for_binaries */
  method GenerateJobControlForBinaries(manager: SourceManager, files: Files)
    returns (r: Outcome<seq<JobControl>>, ghost spec: JobSpec, ghost envoy: SourceRecord, ghost nighthawk: SourceRecord,
             ghost hashes: set<string>, ghost order: seq<string>, ghost owned: set<SourceRepository>)
    requires manager.Valid()
    modifies manager.envoyTree`queries, files
    ensures r.Return? ==> fresh(r.value) && fresh(owned)
    ensures spec == old(SpecOf(manager.control)) && envoy == old(manager.envoyTree.repo.rec)
    ensures hashes == SelectedHashes(manager.control.images, envoy, manager.envoyTree.git)
    ensures manager.envoyTree.queries == old(manager.envoyTree.queries)
              + if old(HasLoneNighthawk(manager.control.source)) then old(LookedUp(manager)) else []
    ensures Extends(old(files.nodes), files.nodes, spec.environment.outputDir, IdentifierSet(envoy, hashes))
    ensures r.Return? ==> old(BinariesSelected(manager))
    ensures old(BinariesSelected(manager))
            && Plannable(old(files.nodes), spec.environment.outputDir, IdentifierSet(envoy, hashes)) ==>
              r.Return?
    ensures r.Return? ==>
              && old(LoneNighthawk(manager.control.source, nighthawk)) && Enumerates(order, hashes)
              && PlanningBinaries(r.value, owned, old(files.nodes), files.nodes, spec, nighthawk, envoy, hashes, order)
    ensures r.Return? ==> BinaryJobsLinked(r.value, envoy, order, files.nodes)
  {
    spec, envoy := SpecOf(manager.control), manager.envoyTree.repo.rec;
    hashes := SelectedHashes(manager.control.images, envoy, manager.envoyTree.git);
    var selected := SelectForBinaries(manager);
    if selected.Raise? {
      order, owned, nighthawk := [], {}, envoy;
      r := Raise(selected.error);
      return;
    }
    nighthawk := selected.value.0;
    r, order, owned := PlanBinaries(manager.control, selected.value.0, selected.value.1, selected.value.2, files);
    if r.Return? {
      BinaryPlanLinks(r.value, owned, old(files.nodes), files.nodes, spec, nighthawk, envoy, hashes, order);
    }
  }

  lemma BinariesPlannable(nodes: Nodes, base: string, envoy: SourceRecord, hashes: set<string>, order: seq<string>)
    requires Plannable(nodes, base, IdentifierSet(envoy, hashes)) && forall hash :: hash in order ==> hash in hashes
    ensures LinkAll(nodes, base, Identifiers(envoy, order)).Some?
  {
    MappedAt((hash: string) => Identifier(envoy.location, envoy.branch, hash), order);
    PlannableLinksAll(nodes, base, IdentifierSet(envoy, hashes), Identifiers(envoy, order));
  }

  /** The loop of _generate_job_control_for_binaries. */
  method PlanBinaries(control: JobControl, nighthawk: SourceRecord, envoy: SourceRecord, hashes: set<string>, files: Files)
    returns (r: Outcome<seq<JobControl>>, ghost order: seq<string>, ghost owned: set<SourceRepository>)
    modifies files
    ensures r.Return? ==> fresh(r.value) && fresh(owned)
    ensures Plannable(old(files.nodes), control.environment.outputDir, IdentifierSet(envoy, hashes)) ==>
              r.Return?
    ensures r.Return? <==> LinkAll(old(files.nodes), control.environment.outputDir, Identifiers(envoy, order)).Some?
    ensures NoDuplicates(order) && forall hash :: hash in order ==> hash in hashes
    ensures r.Return? ==>
              && Enumerates(order, hashes)
              && PlanningBinaries(r.value, owned, old(files.nodes), files.nodes, SpecOf(control),
                                  nighthawk, envoy, hashes, order)
    ensures Extends(old(files.nodes), files.nodes, control.environment.outputDir, IdentifierSet(envoy, hashes))
  {
    hide PlanningBinaries, Plannable, Extends, BinaryJob, Identifier;
    BinaryPlanStarts(files.nodes, SpecOf(control), nighthawk, envoy, hashes);
    var jobs: seq<JobControl> := [];
    order, owned := [], {};
    var pending := hashes;
    while pending != {}
      invariant fresh(jobs) && fresh(owned)
      invariant pending <= hashes && Enumerates(order, hashes - pending)
      invariant PlanningBinaries(jobs, owned, old(files.nodes), files.nodes, SpecOf(control),
                                 nighthawk, envoy, hashes, order)
      decreases pending
    {
      var hash := AnyOf(pending);
      EnumeratesStep(order, hashes, pending, hash);
      var job := BinaryTurn(control, nighthawk, envoy, hash, files, jobs, owned, old(files.nodes), hashes, order);
      if job.Raise? {
        order := order + [hash];
        if Plannable(old(files.nodes), control.environment.outputDir, IdentifierSet(envoy, hashes)) {
          BinariesPlannable(old(files.nodes), control.environment.outputDir, envoy, hashes, order);
        }
        return Raise(job.error), order, owned;
      }
      jobs, order, owned := jobs + [job.value], order + [hash], owned + RecordSet(job.value);
      pending := pending - {hash};
    }
    BinaryPlanMade(jobs, owned, old(files.nodes), files.nodes, SpecOf(control), nighthawk, envoy, hashes, order);
    return Return(jobs), order, owned;
  }

  lemma BinaryJobsAt(spec: JobSpec, nighthawk: SourceRecord, envoy: SourceRecord, order: seq<string>)
    ensures |BinaryJobs(spec, nighthawk, envoy, order)| == |order|
    ensures forall k :: 0 <= k < |order| ==>
              BinaryJobs(spec, nighthawk, envoy, order)[k] == BinaryJob(spec, nighthawk, envoy, order[k])
  {
    MappedAt((hash: string) => BinaryJob(spec, nighthawk, envoy, hash), order);
  }

  /** Plan isolation, binary mode: one job per selected hash, pinned to it, whatever the hashes
      are; and no two jobs share an output directory. */
  lemma BinaryPlanIsolates(spec: JobSpec, nighthawk: SourceRecord, envoy: SourceRecord,
                           hashes: set<string>, order: seq<string>, j: nat, k: nat)
    requires Enumerates(order, hashes) && j < k < |order|
    ensures var jobs := BinaryJobs(spec, nighthawk, envoy, order);
            && |jobs| == |order| == |hashes|
            && jobs[k].source == [nighthawk, envoy.(commitHash := order[k], additionalHashes := [])]
            && order[k] in hashes
            && jobs[j].environment.outputDir != jobs[k].environment.outputDir
  {
    EnumerationLength(order, hashes);
    BinaryJobsAt(spec, nighthawk, envoy, order);
    var base, a, b := spec.environment.outputDir, Identifier(envoy.location, envoy.branch, order[j]),
                      Identifier(envoy.location, envoy.branch, order[k]);
    IdentifierIsRelative(envoy.location, envoy.branch, order[j]);
    IdentifierIsRelative(envoy.location, envoy.branch, order[k]);
    if PathJoin(base, a) == PathJoin(base, b) {
      PathJoinInjective(base, a, b);
      IdentifierTellsHashesApart(envoy.location, envoy.branch, order[j], order[k]);
    }
  }
}
