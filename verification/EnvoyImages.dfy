/** Making the Envoy images of a benchmark available: pulled if possible, otherwise built from
    a source record that three objects share by reference. */
module EnvoyImages {
  import opened Wrappers
  import opened Collections
  import opened BenchmarkEnv
  import opened Control
  import opened GitHistory
  import opened Docker
  import opened Sources

  const RELEASE_PREFIX: string := "envoyproxy/envoy"

  /** `envoyproxy/envoy-dev:{hash}`, the only kind of name that a build ever gives. */
  function DevImageName(hash: string): string {
    RELEASE_PREFIX + "-dev" + [':'] + hash
  }

  /** A release tag has the plain prefix, anything else the development one. */
  function ImageName(hash: string): string {
    if IsTag(hash) then RELEASE_PREFIX + [':'] + hash else DevImageName(hash)
  }

  /** The names come apart right after the common prefix. */
  lemma ImageNamesApart(a: string, b: string)
    ensures ImageName(a) == ImageName(b) ==> a == b
    ensures DevImageName(a) == ImageName(b) ==> a == b && !IsTag(b)
  {
    var n := |RELEASE_PREFIX|;
    assert (RELEASE_PREFIX + [':'] + a)[n] == ':' && (RELEASE_PREFIX + [':'] + a)[n + 1..] == a;
    assert (RELEASE_PREFIX + [':'] + b)[n] == ':' && (RELEASE_PREFIX + [':'] + b)[n + 1..] == b;
    assert DevImageName(a)[n] == '-' && DevImageName(a)[n + 5..] == a;
    assert DevImageName(b)[n] == '-' && DevImageName(b)[n + 5..] == b;
  }

  function ImageNames(hashes: set<string>): set<string> {
    set hash | hash in hashes :: ImageName(hash)
  }

  lemma ImageNamesStep(hashes: set<string>, hash: string)
    ensures ImageNames(hashes + {hash}) == ImageNames(hashes) + {ImageName(hash)}
  {
  }

  lemma {:induction false} OneNamePerHash(hashes: set<string>)
    ensures |ImageNames(hashes)| == |hashes|
  {
    if hashes != {} {
      var h :| h in hashes;
      var rest := hashes - {h};
      OneNamePerHash(rest);
      ImageNamesStep(rest, h);
      forall hash | hash in rest ensures ImageName(hash) != ImageName(h) {
        ImageNamesApart(hash, h);
      }
      assert rest + {h} == hashes;
    }
  }

  /** Whether bazel compiles a commit and docker builds an image under a tag. */
  datatype BuildWorld = BuildWorld(compiles: string -> bool, imageBuilds: string -> bool)

  /** Image names, letter by letter. */
  lemma ImageNameText(hash: string)
    ensures ImageName(hash) == (if IsTag(hash) then "envoyproxy/envoy:" else "envoyproxy/envoy-dev:") + hash
  {
    assert RELEASE_PREFIX + [':'] == "envoyproxy/envoy:";
    assert RELEASE_PREFIX + "-dev" + [':'] == "envoyproxy/envoy-dev:";
  }

  /** What a build that was requested for `hash` really builds: without a named source, the
      commit of a record that has none. */
  function Effective(named: bool, hash: string): string {
    if named then hash else ""
  }

  /** Whether building the commit `hash` of this source succeeds. */
  predicate BuildSucceeds(git: Git, rec: SourceRecord, hash: string, world: BuildWorld) {
    && Checkout(git, rec.(commitHash := hash)).Return?
    && world.compiles(hash) && world.imageBuilds(DevImageName(hash))
  }

  /** A build succeeds exactly if the source can be had, its commit, if any, can be checked out, and
      bazel and docker do their part. */
  lemma BuildSucceedsExactly(git: Git, rec: SourceRecord, hash: string, world: BuildWorld)
    ensures BuildSucceeds(git, rec, hash, world) <==>
              && (rec.Path() != "" || (rec.Url() != "" && !git.pull.PullFailed?))
              && (hash != "" ==> git.checkout(hash).Output?)
              && world.compiles(hash) && world.imageBuilds(DevImageName(hash))
  {
  }

  class EnvoyBuilder {
    const sourceTree: SourceTree
    const sourceRepo: SourceRepository

    /** Captures the tree, which holds a record, and looks the record up once more. */
    constructor (manager: SourceManager)
      requires manager.Valid()
      ensures sourceTree == manager.envoyTree && StandsFor(manager.control.source, SrcEnvoy, sourceRepo)
      ensures !Names(manager.control.source, SrcEnvoy) ==> fresh(sourceRepo)
    {
      var found := FindSource(manager.control.source, SrcEnvoy);
      sourceTree, sourceRepo := manager.envoyTree, found.value;
    }

    /** The checkout reads the tree's record; the tag reads the builder's. */
    method BuildEnvoyImageFromSource(world: BuildWorld, daemon: Daemon) returns (r: Outcome<()>)
      modifies sourceTree`checkouts, daemon`images, daemon`built
      ensures r.Return? <==>
                && sourceRepo.rec.identity.SrcEnvoy? && Checkout(sourceTree.git, sourceTree.repo.rec).Return?
                && world.compiles(sourceTree.repo.rec.commitHash)
                && world.imageBuilds(DevImageName(sourceRepo.rec.commitHash))
      ensures r.Return? ==>
                && sourceTree.checkouts == old(sourceTree.checkouts) + NonBlank([sourceTree.repo.rec.commitHash])
                && daemon.images == old(daemon.images) + [[DevImageName(sourceRepo.rec.commitHash)]]
                && daemon.built == old(daemon.built) + [DevImageName(sourceRepo.rec.commitHash)]
      ensures r.Raise? ==> daemon.images == old(daemon.images) && daemon.built == old(daemon.built)
    {
      if !sourceRepo.rec.identity.SrcEnvoy? {
        return Raise(BuilderError);
      }
      var copied := sourceTree.CopySourceDirectory();
      if copied.Raise? {
        return Raise(copied.error);
      }
      var checkedOut := sourceTree.CheckoutCommitHash();
      if checkedOut.Raise? {
        return Raise(checkedOut.error);
      }
      if !world.compiles(sourceTree.repo.rec.commitHash) {
        return Raise(CommandError);
      }
      var tag := DevImageName(sourceRepo.rec.commitHash);
      if !world.imageBuilds(tag) {
        return Raise(CommandError);
      }
      daemon.Build(tag);
      return Return(());
    }
  }

  /** Looks the record up a third time and writes the requested hash into it. */
  method WriteCommitHash(manager: SourceManager, hash: string)
    requires manager.Valid()
    modifies manager.envoyTree.repo
    ensures manager.Valid()
    ensures Names(manager.control.source, SrcEnvoy) == old(Names(manager.control.source, SrcEnvoy))
    ensures manager.envoyTree.repo.rec ==
              if Names(manager.control.source, SrcEnvoy) then old(manager.envoyTree.repo.rec).(commitHash := hash)
              else old(manager.envoyTree.repo.rec)
  {
    var found := FindSource(manager.control.source, SrcEnvoy);
    SameRecord(manager.control.source, SrcEnvoy, found.value, manager.envoyTree.repo);
    found.value.rec := found.value.rec.(commitHash := hash);
  }

  /** The first three lines of build_envoy_docker_image: two objects hold the source record by
      then, and the requested hash is written into what a third lookup gives. */
  method BuilderFor(manager: SourceManager, hash: string) returns (builder: EnvoyBuilder)
    requires manager.Valid()
    modifies manager.envoyTree.repo
    ensures manager.Valid() && builder.sourceTree == manager.envoyTree
    ensures Names(manager.control.source, SrcEnvoy) == old(Names(manager.control.source, SrcEnvoy))
    ensures manager.envoyTree.repo.rec
         == old(manager.envoyTree.repo.rec).(commitHash := Effective(Names(manager.control.source, SrcEnvoy), hash))
    ensures builder.sourceRepo.rec == manager.envoyTree.repo.rec && builder.sourceRepo.rec.identity == SrcEnvoy
  {
    builder := new EnvoyBuilder(manager);
    SameRecord(manager.control.source, SrcEnvoy, builder.sourceRepo, manager.envoyTree.repo);
    WriteCommitHash(manager, hash);
  }

  /** build_envoy_docker_image. If the document names an Envoy source, the requested hash is
      written once and read by the tree and by the builder: the commit checked out, the image
      tag and the request agree. If it does not, the hash is written into a record that nobody
      reads: nothing is checked out and the tag is empty. */
  method BuildEnvoyDockerImage(manager: SourceManager, hash: string, world: BuildWorld, daemon: Daemon)
    returns (r: Outcome<()>)
    requires manager.Valid()
    modifies manager.envoyTree`checkouts, manager.envoyTree.repo, daemon`images, daemon`built
    ensures manager.Valid()
    ensures SameSources(manager, old(Names(manager.control.source, SrcEnvoy)), old(manager.envoyTree.repo.rec))
    ensures r.Return? <==> BuildSucceeds(manager.envoyTree.git, old(manager.envoyTree.repo.rec),
                                         Effective(Names(manager.control.source, SrcEnvoy), hash), world)
    ensures r.Return? ==>
              && manager.envoyTree.checkouts == old(manager.envoyTree.checkouts) + CheckedOut(manager, hash)
              && daemon.built == old(daemon.built) + [BuiltName(manager, hash)]
              && daemon.images == old(daemon.images) + [[BuiltName(manager, hash)]]
              && manager.envoyTree.repo.rec.commitHash == Effective(Names(manager.control.source, SrcEnvoy), hash)
    ensures r.Raise? ==> daemon.built == old(daemon.built) && daemon.images == old(daemon.images)
  {
    // The builder's constructor asks the tree for its directory, which validates the source.
    if !Located(manager.envoyTree.repo.rec) {
      return Raise(SourceTreeError);
    }
    var builder := BuilderFor(manager, hash);
    assert NonBlank([""]) == [];
    r := builder.BuildEnvoyImageFromSource(world, daemon);
  }

  /** build_missing_envoy_docker_image: with build options there is always a build, without
      them only when the daemon lacks the image. */
  method BuildMissingEnvoyDockerImage(manager: SourceManager, hash: string, world: BuildWorld, daemon: Daemon)
    returns (r: Outcome<()>)
    requires manager.Valid()
    modifies manager.envoyTree`checkouts, manager.envoyTree.repo, daemon`images, daemon`built
    ensures manager.Valid()
    ensures SameSources(manager, old(Names(manager.control.source, SrcEnvoy)), old(manager.envoyTree.repo.rec))
    ensures r.Return? <==>
              (old(manager.envoyTree.repo.rec.bazelOptions) != [] || ImageName(hash) !in old(Local(daemon.images)) ==>
                 BuildSucceeds(manager.envoyTree.git, old(manager.envoyTree.repo.rec),
                               Effective(Names(manager.control.source, SrcEnvoy), hash), world))
    ensures r.Return?
            && (old(manager.envoyTree.repo.rec.bazelOptions) != [] || ImageName(hash) !in old(Local(daemon.images))) ==>
              && Local(daemon.images) == old(Local(daemon.images)) + {BuiltName(manager, hash)}
              && daemon.built == old(daemon.built) + [BuiltName(manager, hash)]
              && manager.envoyTree.checkouts == old(manager.envoyTree.checkouts) + CheckedOut(manager, hash)
              && manager.envoyTree.repo.rec.commitHash == Effective(Names(manager.control.source, SrcEnvoy), hash)
    ensures r.Raise? ==> daemon.images == old(daemon.images)
    ensures !(old(manager.envoyTree.repo.rec.bazelOptions) != [] || ImageName(hash) !in old(Local(daemon.images))) ==>
              && daemon.images == old(daemon.images) && daemon.built == old(daemon.built)
              && manager.envoyTree.checkouts == old(manager.envoyTree.checkouts)
              && manager.envoyTree.repo.rec == old(manager.envoyTree.repo.rec)
  {
    var haveBuildOptions := manager.HaveBuildOptions();
    var existing: seq<string> := [];
    if !haveBuildOptions {
      var image := new DockerImage(daemon);
      existing := image.ListImages();
    }
    if ImageName(hash) in existing {
      return Return(());
    }
    r := BuildEnvoyDockerImage(manager, hash, world, daemon);
    LocalStep(old(daemon.images), BuiltName(manager, hash));
  }

  /** Still the same named sources, and the same record apart from its commit. */
  ghost predicate SameSources(manager: SourceManager, named: bool, rec: SourceRecord)
    reads manager.control.source, manager.envoyTree.repo
  {
    && Names(manager.control.source, SrcEnvoy) == named
    && manager.envoyTree.repo.rec.(commitHash := "") == rec.(commitHash := "")
  }

  /** The tag that a build requested for `hash` gives. */
  ghost function BuiltName(manager: SourceManager, hash: string): string
    reads manager.control.source
  {
    DevImageName(Effective(Names(manager.control.source, SrcEnvoy), hash))
  }

  /** What a build requested for `hash` checks out. */
  ghost function CheckedOut(manager: SourceManager, hash: string): seq<string>
    reads manager.control.source
  {
    if Names(manager.control.source, SrcEnvoy) then NonBlank([hash]) else []
  }

  predicate Builds(local: set<string>, hash: string, haveBuildOptions: bool, registry: Registry) {
    haveBuildOptions || (ImageName(hash) !in local && !registry(ImageName(hash)).Pulled?)
  }

  /** The builds that the turn of one hash takes. */
  function BuildsFor(local: set<string>, hash: string, haveBuildOptions: bool, registry: Registry): seq<string> {
    if Builds(local, hash, haveBuildOptions, registry) then [hash] else []
  }

  /** The local images after the turn of one more hash. */
  function LocalAfter(local: set<string>, hash: string, registry: Registry, named: bool, haveBuildOptions: bool)
    : set<string>
  {
    local + (if registry(ImageName(hash)).Pulled? then {ImageName(hash)} else {})
          + (if Builds(local, hash, haveBuildOptions, registry) then {DevImageName(Effective(named, hash))} else {})
  }

  /** The tags that a series of requested builds gives, and the hashes it checks out. */
  function BuiltNames(named: bool, builds: seq<string>): seq<string> {
    Mapped((h: string) => DevImageName(Effective(named, h)), builds)
  }

  function CheckedOutBy(named: bool, builds: seq<string>): seq<string> {
    if named then NonBlank(builds) else []
  }

  /** The commit that the record holds after these builds: that of the last one, which stays. */
  function CommitAfter(named: bool, commit: string, builds: seq<string>): string {
    if builds == [] then commit else Effective(named, Last(builds))
  }

  lemma CommitAfterMore(named: bool, commit: string, builds: seq<string>, more: seq<string>)
    ensures CommitAfter(named, commit, builds + more) == CommitAfter(named, CommitAfter(named, commit, builds), more)
  {
    if more == [] {
      assert builds + more == builds;
    }
  }

  /** Between two states, the given tags and the checkouts grew by those of `builds`. */
  ghost predicate Built(tags: seq<string>, tags': seq<string>, checkouts: seq<string>, checkouts': seq<string>,
                        named: bool, builds: seq<string>) {
    && tags' == tags + BuiltNames(named, builds)
    && checkouts' == checkouts + CheckedOutBy(named, builds)
  }

  lemma BuiltOne(tags: seq<string>, checkouts: seq<string>, named: bool, hash: string)
    ensures Built(tags, tags, checkouts, checkouts, named, [])
    ensures Built(tags, tags + [DevImageName(Effective(named, hash))], checkouts,
                  checkouts + (if named then NonBlank([hash]) else []), named, [hash])
  {
    MappedAt((h: string) => DevImageName(Effective(named, h)), [hash]);
    assert BuiltNames(named, [hash]) == [DevImageName(Effective(named, hash))];
  }

  lemma BuiltThen(tags: seq<string>, tags': seq<string>, tags'': seq<string>,
                  checkouts: seq<string>, checkouts': seq<string>, checkouts'': seq<string>,
                  named: bool, builds: seq<string>, more: seq<string>)
    requires Built(tags, tags', checkouts, checkouts', named, builds)
    requires Built(tags', tags'', checkouts', checkouts'', named, more)
    ensures Built(tags, tags'', checkouts, checkouts'', named, builds + more)
  {
    MappedConcat((h: string) => DevImageName(Effective(named, h)), builds, more);
    AppendAssociative(tags, BuiltNames(named, builds), BuiltNames(named, more));
    NonBlankConcat(builds, more);
    AppendAssociative(checkouts, CheckedOutBy(named, builds), CheckedOutBy(named, more));
  }

  /** One turn of the planner's loop: pull the image of `hash`, and build it if there are build
      options or the pull found nothing. */
  method PullOrBuildOne(manager: SourceManager, images: DockerImage, hash: string, haveBuildOptions: bool,
                        registry: Registry, world: BuildWorld)
    returns (r: Outcome<()>)
    requires manager.Valid() && images.CacheCurrent()
    requires haveBuildOptions == (manager.envoyTree.repo.rec.bazelOptions != [])
    modifies manager.envoyTree`checkouts, manager.envoyTree.repo, images
    modifies images.client`images, images.client`built, images.client`contacts
    ensures manager.Valid() && images.CacheCurrent()
    ensures SameSources(manager, old(Names(manager.control.source, SrcEnvoy)), old(manager.envoyTree.repo.rec))
    ensures r.Return? <==>
              (haveBuildOptions
               || (ImageName(hash) !in old(Local(images.client.images)) && !registry(ImageName(hash)).Pulled?) ==>
                 BuildSucceeds(manager.envoyTree.git, old(manager.envoyTree.repo.rec),
                               Effective(Names(manager.control.source, SrcEnvoy), hash), world))
    ensures images.client.contacts == old(images.client.contacts)
              + if ImageName(hash) in old(Local(images.client.images)) then [] else [ImageName(hash)]
    ensures r.Return? ==>
              Local(images.client.images)
              == LocalAfter(old(Local(images.client.images)), hash, registry,
                            Names(manager.control.source, SrcEnvoy), haveBuildOptions)
    ensures r.Return? ==>
              var built := haveBuildOptions
                           || (ImageName(hash) !in old(Local(images.client.images)) && !registry(ImageName(hash)).Pulled?);
              && images.client.built == old(images.client.built) + (if built then [BuiltName(manager, hash)] else [])
              && manager.envoyTree.checkouts
                 == old(manager.envoyTree.checkouts) + (if built then CheckedOut(manager, hash) else [])
              && manager.envoyTree.repo.rec.commitHash
                 == if built then Effective(Names(manager.control.source, SrcEnvoy), hash)
                    else old(manager.envoyTree.repo.rec.commitHash)
  {
    var found := images.TryPull(ImageName(hash), registry);
    if haveBuildOptions || !found {
      r := BuildMissingEnvoyDockerImage(manager, hash, world, images.client);
    } else {
      r := Return(());
    }
  }

  /** A hash whose image can be had: it is local, the registry has it, or a build gives the very
      name that the benchmark asks for. With a named source that takes a hash that is no release
      tag; without one every build gives the name of the empty hash. */
  predicate Obtainable(local: set<string>, hash: string, registry: Registry, named: bool) {
    || ImageName(hash) in local || registry(ImageName(hash)).Pulled?
    || (if named then !IsTag(hash) else hash == "")
  }

  /** The empty hash of a document that names no source: any build gives its image. */
  predicate BuiltByAny(named: bool, h: string) {
    !named && h == ""
  }

  /** After the turns of the hashes in `done`: exactly the obtainable ones of them are local, no
      other hash has gained its image unless any build gives it, and `builds` are exactly the
      builds that were needed, each once. */
  ghost predicate Progress(before: set<string>, local: set<string>, done: set<string>, builds: seq<string>,
                           registry: Registry, named: bool, haveBuildOptions: bool) {
    && before <= local
    && (forall h :: h in done ==> (ImageName(h) in local <==> Obtainable(before, h, registry, named)))
    && (forall h :: h !in done ==>
          (ImageName(h) in local <==> ImageName(h) in before || (BuiltByAny(named, h) && builds != [])))
    && NoDuplicates(builds)
    && (forall h :: h in builds ==> h in done && Builds(before, h, haveBuildOptions, registry))
    && (forall h :: h in done && Builds(before, h, haveBuildOptions, registry) ==>
          h in builds || (BuiltByAny(named, h) && builds != []))
  }

  /** `asked` are the images, each once, that the turns of `done` asked the registry for: those
      that were not local, unless a build for another hash had given it in the meantime. */
  ghost predicate Asked(before: set<string>, done: set<string>, asked: seq<string>, named: bool) {
    && NoDuplicates(asked)
    && (forall name :: name in asked ==> name in ImageNames(done) && name !in before)
    && (forall h :: h in done && ImageName(h) !in before ==> ImageName(h) in asked || BuiltByAny(named, h))
  }

  lemma LocalAfterOf(local: set<string>, hash: string, registry: Registry, named: bool, haveBuildOptions: bool, h: string)
    ensures ImageName(h) in LocalAfter(local, hash, registry, named, haveBuildOptions)
       <==> if h == hash then Obtainable(local, h, registry, named)
            else ImageName(h) in local || (BuiltByAny(named, h) && Builds(local, hash, haveBuildOptions, registry))
  {
    ImageNamesApart(hash, h);
    ImageNamesApart("", h);
    ImageNamesApart(hash, hash);
    if !IsTag(hash) {
      assert ImageName(hash) == DevImageName(hash);
    }
    assert ImageName("") == DevImageName("");
  }

  lemma ProgressStep(before: set<string>, local: set<string>, done: set<string>, builds: seq<string>,
                     registry: Registry, named: bool, haveBuildOptions: bool, hash: string)
    requires Progress(before, local, done, builds, registry, named, haveBuildOptions) && hash !in done
    ensures Progress(before, LocalAfter(local, hash, registry, named, haveBuildOptions), done + {hash},
                     builds + BuildsFor(local, hash, haveBuildOptions, registry),
                     registry, named, haveBuildOptions)
  {
    forall h
      ensures ImageName(h) in LocalAfter(local, hash, registry, named, haveBuildOptions)
         <==> if h == hash then Obtainable(local, h, registry, named)
              else ImageName(h) in local || (BuiltByAny(named, h) && Builds(local, hash, haveBuildOptions, registry))
    {
      LocalAfterOf(local, hash, registry, named, haveBuildOptions, h);
    }
  }

  lemma AskedStep(before: set<string>, local: set<string>, done: set<string>, asked: seq<string>, builds: seq<string>,
                  registry: Registry, named: bool, haveBuildOptions: bool, hash: string)
    requires Progress(before, local, done, builds, registry, named, haveBuildOptions) && hash !in done
    requires Asked(before, done, asked, named)
    ensures Asked(before, done + {hash}, asked + (if ImageName(hash) in local then [] else [ImageName(hash)]), named)
  {
    ImageNamesStep(done, hash);
    forall h | h in done ensures ImageName(h) != ImageName(hash) {
      ImageNamesApart(h, hash);
    }
  }

  /** Where the planner's loop started. */
  datatype Start = Start(local: set<string>, tags: seq<string>, checkouts: seq<string>, contacts: seq<string>,
                         named: bool, rec: SourceRecord)
  {
    predicate HaveBuildOptions() {
      rec.bazelOptions != []
    }
  }

  /** What the loop keeps: the turns of `done` have had exactly their effect. */
  ghost predicate InStep(manager: SourceManager, images: DockerImage, start: Start, registry: Registry,
                         done: set<string>, builds: seq<string>, asked: seq<string>)
    reads manager.control.source, manager.envoyTree, manager.envoyTree.repo
    reads images, images.client
  {
    && manager.Valid() && images.CacheCurrent()
    && SameSources(manager, start.named, start.rec)
    && manager.envoyTree.repo.rec.commitHash == CommitAfter(start.named, start.rec.commitHash, builds)
    && Progress(start.local, Local(images.client.images), done, builds, registry, start.named, start.HaveBuildOptions())
    && Built(start.tags, images.client.built, start.checkouts, manager.envoyTree.checkouts, start.named, builds)
    && Asked(start.local, done, asked, start.named) && images.client.contacts == start.contacts + asked
  }

  /** Every build that the hashes need succeeds. */
  ghost predicate NeededBuildsSucceed(local: set<string>, hashes: set<string>, registry: Registry, git: Git,
                                      rec: SourceRecord, named: bool, world: BuildWorld) {
    forall h :: h in hashes && Builds(local, h, rec.bazelOptions != [], registry) ==>
      BuildSucceeds(git, rec, Effective(named, h), world)
  }

  lemma NeededBuildsExactly(local: set<string>, hashes: set<string>, registry: Registry, git: Git,
                            rec: SourceRecord, named: bool, world: BuildWorld)
    ensures NeededBuildsSucceed(local, hashes, registry, git, rec, named, world) <==>
              forall h :: h in hashes ==>
                rec.bazelOptions != [] || (ImageName(h) !in local && !registry(ImageName(h)).Pulled?) ==>
                  BuildSucceeds(git, rec, if named then h else "", world)
  {
  }

  /** The turn of one more hash needs a build that fails exactly if the hash needed it at the
      start, unless the builds so far have shown that it succeeds. */
  lemma NeededBuildsStep(start: Start, local: set<string>, done: set<string>, builds: seq<string>, registry: Registry,
                         git: Git, world: BuildWorld, hash: string)
    requires Progress(start.local, local, done, builds, registry, start.named, start.HaveBuildOptions()) && hash !in done
    requires NeededBuildsSucceed(start.local, done, registry, git, start.rec, start.named, world)
    ensures NeededBuildsSucceed(start.local, done + {hash}, registry, git, start.rec, start.named, world)
       <==> (Builds(local, hash, start.HaveBuildOptions(), registry) ==>
               BuildSucceeds(git, start.rec, Effective(start.named, hash), world))
  {
    if Builds(start.local, hash, start.HaveBuildOptions(), registry)
       && !Builds(local, hash, start.HaveBuildOptions(), registry)
    {
      assert builds[0] in builds;
      assert BuildSucceeds(git, start.rec, Effective(start.named, builds[0]), world);
    }
  }

  method Turn(manager: SourceManager, images: DockerImage, hash: string, haveBuildOptions: bool,
              registry: Registry, world: BuildWorld,
              ghost start: Start, ghost done: set<string>, ghost builds: seq<string>, ghost asked: seq<string>)
    returns (r: Outcome<()>, ghost builds': seq<string>, ghost asked': seq<string>)
    requires InStep(manager, images, start, registry, done, builds, asked) && hash !in done
    requires haveBuildOptions == start.HaveBuildOptions()
    requires NeededBuildsSucceed(start.local, done, registry, manager.envoyTree.git, start.rec, start.named, world)
    modifies manager.envoyTree`checkouts, manager.envoyTree.repo, images
    modifies images.client`images, images.client`built, images.client`contacts
    ensures manager.Valid() && SameSources(manager, start.named, start.rec)
    ensures r.Return? ==> InStep(manager, images, start, registry, done + {hash}, builds', asked')
    ensures r.Return? <==> NeededBuildsSucceed(start.local, done + {hash}, registry, manager.envoyTree.git,
                                               start.rec, start.named, world)
  {
    ghost var local, tags, checkouts := Local(images.client.images), images.client.built, manager.envoyTree.checkouts;
    ghost var more := BuildsFor(local, hash, haveBuildOptions, registry);
    ProgressStep(start.local, local, done, builds, registry, start.named, haveBuildOptions, hash);
    AskedStep(start.local, local, done, asked, builds, registry, start.named, haveBuildOptions, hash);
    NeededBuildsStep(start, local, done, builds, registry, manager.envoyTree.git, world, hash);
    ghost var asks := if ImageName(hash) in local then [] else [ImageName(hash)];
    AppendAssociative(start.contacts, asked, asks);
    CommitAfterMore(start.named, start.rec.commitHash, builds, more);
    r := PullOrBuildOne(manager, images, hash, haveBuildOptions, registry, world);
    builds', asked' := builds + more, asked + asks;
    if r.Return? {
      BuiltOne(tags, checkouts, start.named, hash);
      BuiltThen(start.tags, tags, images.client.built, start.checkouts, checkouts, manager.envoyTree.checkouts,
                start.named, builds, more);
    }
  }

  /** The planner's loop, over the hashes in any order. */
  method PullOrBuildAll(manager: SourceManager, images: DockerImage, hashes: set<string>, haveBuildOptions: bool,
                        registry: Registry, world: BuildWorld, ghost start: Start)
    returns (r: Outcome<set<string>>, ghost builds: seq<string>, ghost asked: seq<string>)
    requires InStep(manager, images, start, registry, {}, [], [])
    requires haveBuildOptions == start.HaveBuildOptions()
    modifies manager.envoyTree`checkouts, manager.envoyTree.repo, images
    modifies images.client`images, images.client`built, images.client`contacts
    ensures manager.Valid() && SameSources(manager, start.named, start.rec)
    ensures r.Return? ==> InStep(manager, images, start, registry, hashes, builds, asked)
    ensures r.Return? ==> r.value == ImageNames(hashes)
    ensures r.Return? <==> NeededBuildsSucceed(start.local, hashes, registry, manager.envoyTree.git,
                                               start.rec, start.named, world)
  {
    hide Progress, Built, Asked;
    var envoyImages: set<string> := {};
    var pending := hashes;
    builds, asked := [], [];
    ghost var done: set<string> := {};
    while pending != {}
      invariant done <= hashes && pending == hashes - done
      invariant InStep(manager, images, start, registry, done, builds, asked)
      invariant envoyImages == ImageNames(done)
      invariant NeededBuildsSucceed(start.local, done, registry, manager.envoyTree.git, start.rec, start.named, world)
      decreases pending
    {
      var hash := AnyOf(pending);
      ImageNamesStep(done, hash);
      var one, builds', asked' :=
        Turn(manager, images, hash, haveBuildOptions, registry, world, start, done, builds, asked);
      if one.Raise? {
        return Raise(one.error), builds, asked;
      }
      envoyImages := envoyImages + {ImageName(hash)};
      pending, done, builds, asked := pending - {hash}, done + {hash}, builds', asked';
    }
    assert done == hashes;
    return Return(envoyImages), builds, asked;
  }

  /** _pull_or_build_envoy_images_for_benchmark. It returns exactly if the builds that are needed
      succeed. Then a wanted image is local exactly if it was obtainable, the registry was asked
      exactly for the missing ones, and every build checked out, and tagged, the hash that it
      was asked for (if the document names an Envoy source), the last one staying in the
      record that all share. */
  method PullOrBuildEnvoyImages(manager: SourceManager, hashes: set<string>, registry: Registry, world: BuildWorld,
                                daemon: Daemon)
    returns (r: Outcome<set<string>>, ghost builds: seq<string>, ghost asked: seq<string>)
    requires manager.Valid()
    modifies manager.envoyTree`checkouts, manager.envoyTree.repo, daemon`images, daemon`built, daemon`contacts
    ensures manager.Valid()
    ensures SameSources(manager, old(Names(manager.control.source, SrcEnvoy)), old(manager.envoyTree.repo.rec))
    ensures r.Return? ==>
              manager.envoyTree.repo.rec.commitHash
              == CommitAfter(old(Names(manager.control.source, SrcEnvoy)), old(manager.envoyTree.repo.rec.commitHash), builds)
    ensures r.Return? <==>
              NeededBuildsSucceed(old(Local(daemon.images)), hashes, registry, manager.envoyTree.git,
                                  old(manager.envoyTree.repo.rec), old(Names(manager.control.source, SrcEnvoy)), world)
    ensures r.Return? ==> r.value == ImageNames(hashes) && |r.value| == |hashes|
    ensures r.Return? ==>
              Progress(old(Local(daemon.images)), Local(daemon.images), hashes, builds, registry,
                       old(Names(manager.control.source, SrcEnvoy)),
                       old(manager.envoyTree.repo.rec.bazelOptions) != [])
    ensures r.Return? ==>
              && (forall h :: h in builds ==> h in hashes) && NoDuplicates(builds)
              && forall h :: h in hashes && (h != "" || old(Names(manager.control.source, SrcEnvoy))) ==>
                   (h in builds <==>
                      || old(manager.envoyTree.repo.rec.bazelOptions) != []
                      || (ImageName(h) !in old(Local(daemon.images)) && !registry(ImageName(h)).Pulled?))
    ensures r.Return? ==>
              (r.value <= Local(daemon.images)
               <==> AllObtainable(old(Local(daemon.images)), hashes, registry, old(Names(manager.control.source, SrcEnvoy))))
    ensures r.Return? ==>
              && daemon.contacts == old(daemon.contacts) + asked
              && Asked(old(Local(daemon.images)), hashes, asked, old(Names(manager.control.source, SrcEnvoy)))
    ensures r.Return? ==>
              Built(old(daemon.built), daemon.built, old(manager.envoyTree.checkouts), manager.envoyTree.checkouts,
                    old(Names(manager.control.source, SrcEnvoy)), builds)
  {
    var haveBuildOptions := manager.HaveBuildOptions();
    var imageManager := new DockerImage(daemon);
    ghost var start := Start(Local(daemon.images), daemon.built, manager.envoyTree.checkouts, daemon.contacts,
                             Names(manager.control.source, SrcEnvoy), manager.envoyTree.repo.rec);
    hide Progress, Asked, Built, Builds, ImageName;
    OneNamePerHash(hashes);
    NothingDone(start.local, start.tags, start.checkouts, registry, start.named, haveBuildOptions);
    assert start.contacts + [] == start.contacts;
    r, builds, asked := PullOrBuildAll(manager, imageManager, hashes, haveBuildOptions, registry, world, start);
    if r.Return? {
      ImagesAvailableIff(start.local, Local(daemon.images), hashes, builds, registry, start.named, haveBuildOptions);
      BuildsExactly(start.local, Local(daemon.images), hashes, builds, registry, start.named, haveBuildOptions);
    }
  }

  lemma NothingDone(before: set<string>, tags: seq<string>, checkouts: seq<string>,
                    registry: Registry, named: bool, haveBuildOptions: bool)
    ensures Progress(before, before, {}, [], registry, named, haveBuildOptions)
    ensures Asked(before, {}, [], named) && Built(tags, tags, checkouts, checkouts, named, [])
  {
  }

  /** The builds are, each once, those of the hashes that are neither local nor in the registry, or
      of all hashes if there are build options. */
  lemma BuildsExactly(before: set<string>, local: set<string>, hashes: set<string>, builds: seq<string>,
                      registry: Registry, named: bool, haveBuildOptions: bool)
    requires Progress(before, local, hashes, builds, registry, named, haveBuildOptions)
    ensures NoDuplicates(builds) && forall h :: h in builds ==> h in hashes
    ensures forall h :: h in hashes && (h != "" || named) ==>
              (h in builds <==> haveBuildOptions || (ImageName(h) !in before && !registry(ImageName(h)).Pulled?))
  {
  }

  ghost predicate AllObtainable(local: set<string>, hashes: set<string>, registry: Registry, named: bool) {
    forall h :: h in hashes ==> Obtainable(local, h, registry, named)
  }

  // ---- What the image loop guarantees ------------------------------------------------------

  /** Every wanted image is local afterwards exactly when each one was obtainable. */
  lemma ImagesAvailableIff(before: set<string>, local: set<string>, hashes: set<string>, builds: seq<string>,
                           registry: Registry, named: bool, haveBuildOptions: bool)
    requires Progress(before, local, hashes, builds, registry, named, haveBuildOptions)
    ensures ImageNames(hashes) <= local <==> AllObtainable(before, hashes, registry, named)
  {
  }

  /** With a named source, commit hashes always end up available; a release tag that is neither
      local nor pullable never does, because a build gives it a development name. */
  lemma CommitsAvailableTagsNot(before: set<string>, local: set<string>, hashes: set<string>, builds: seq<string>,
                                registry: Registry, haveBuildOptions: bool, hash: string)
    requires Progress(before, local, hashes, builds, registry, true, haveBuildOptions)
    requires hash in hashes
    ensures !IsTag(hash) ==> ImageName(hash) in local
    ensures IsTag(hash) && ImageName(hash) !in before && !registry(ImageName(hash)).Pulled? ==>
              ImageName(hash) !in local && hash in builds
  {
  }

  lemma {:induction false} NonBlankAt(entries: seq<string>, i: nat)
    requires i < |entries| && entries[i] != ""
    ensures var n := |NonBlank(entries[..i])|; n < |NonBlank(entries)| && NonBlank(entries)[n] == entries[i]
  {
    if i > 0 {
      assert entries[..i][1..] == entries[1..][..i - 1];
      NonBlankAt(entries[1..], i - 1);
    }
  }

  /** Source aliasing: in every build of a run that was requested for some commit, the hash
      checked out and the hash in the image tag are the requested one exactly when the document
      names an Envoy source. A build for the empty hash checks nothing out and says so. */
  lemma BuildsAgreeIffNamed(tags: seq<string>, tags': seq<string>, checkouts: seq<string>, checkouts': seq<string>,
                            named: bool, builds: seq<string>, i: nat)
    requires Built(tags, tags', checkouts, checkouts', named, builds) && i < |builds|
    ensures |tags'| == |tags| + |builds|
    ensures named ==> checkouts' == checkouts + NonBlank(builds)
    ensures builds[i] == "" ==> tags'[|tags| + i] == DevImageName("")
    ensures builds[i] != "" ==>
              (named <==>
                 var n := |checkouts| + |NonBlank(builds[..i])|;
                 n < |checkouts'| && checkouts'[n] == builds[i] && tags'[|tags| + i] == DevImageName(builds[i]))
  {
    MappedAt((h: string) => DevImageName(Effective(named, h)), builds);
    if builds[i] != "" {
      NonBlankAt(builds, i);
    }
  }

  // ---- Inputs for which it goes wrong ------------------------------------------------------

  function ObligingGit(): Git {
    Git(UpToDateOrCloned, CommandFailed, CommandFailed, (commit, max) => CommandFailed, hash => Output(HeadLine(hash)))
  }

  function ObligingBuild(): BuildWorld {
    BuildWorld(hash => true, tag => true)
  }

  lemma ObligingBuildSucceeds(rec: SourceRecord, hash: string)
    requires Located(rec)
    ensures BuildSucceeds(ObligingGit(), rec, hash, ObligingBuild())
  {
  }

  function EmptyRegistry(name: string): PullReply {
    NoSuchImage
  }

  lemma TagNeedsBuild(tag: string, local: set<string>, builds: seq<string>)
    requires IsTag(tag) && Progress({}, local, {tag}, builds, EmptyRegistry, true, false)
    ensures ImageNames({tag}) == {ImageName(tag)} && ImageName(tag) !in local
    ensures BuiltNames(true, builds) == [DevImageName(tag)]
  {
    assert tag in {tag} && Builds({}, tag, false, EmptyRegistry);
    EnumerationLength(builds, {tag});
    assert BuiltNames(true, builds[..0]) == [];
  }

  /** A document that names an Envoy source at a path. */
  method DocumentWithSource() returns (manager: SourceManager)
    ensures fresh(manager.envoyTree) && fresh(manager.envoyTree.repo) && manager.Valid()
    ensures Names(manager.control.source, SrcEnvoy) && manager.envoyTree.repo.rec.bazelOptions == []
    ensures Located(manager.envoyTree.repo.rec) && manager.envoyTree.git == ObligingGit()
  {
    var envoy := new SourceRepository(SourceRecord(SrcEnvoy, SourcePath("/envoy"), "", "", [], [], false));
    var control := new JobControl([envoy], DockerImages("", "", "", [], false), EnvironmentVars(V4Only, "", "/out", map[]));
    manager := new SourceManager(control, ObligingGit(), ObligingGit());
    assert control.source[0].rec.identity == SrcEnvoy;
  }

  /** A release tag of a named source that is neither local nor in the registry: all goes well,
      and yet the image that the benchmark is to use is not there. */
  method TagThatHasToBeBuilt(tag: string) returns (wanted: set<string>, images: seq<seq<string>>, built: seq<string>)
    requires IsTag(tag)
    ensures wanted == {RELEASE_PREFIX + [':'] + tag} && wanted !! Local(images)
    ensures built == [DevImageName(tag)]
  {
    var manager := DocumentWithSource();
    var daemon := new Daemon([], {});
    ObligingBuildSucceeds(manager.envoyTree.repo.rec, tag);
    assert Local([]) == {};
    ghost var builds, asked;
    var r;
    r, builds, asked := PullOrBuildEnvoyImages(manager, {tag}, EmptyRegistry, ObligingBuild(), daemon);
    TagNeedsBuild(tag, Local(daemon.images), builds);
    return r.value, daemon.images, daemon.built;
  }

  /** A build for a document that names no source: nothing is checked out, and the image is
      tagged with the empty hash instead of the requested one. */
  method BuildWithoutNamedSource(hash: string) returns (built: seq<string>, checkouts: seq<string>)
    ensures built == [DevImageName("")] && checkouts == []
  {
    var control := new JobControl([], DockerImages("", "", "", [], false), EnvironmentVars(V4Only, "", "/out", map[]));
    var manager := new SourceManager(control, ObligingGit(), ObligingGit());
    var daemon := new Daemon([], {});
    var r := BuildEnvoyDockerImage(manager, hash, ObligingBuild(), daemon);
    return daemon.built, manager.envoyTree.checkouts;
  }
}
