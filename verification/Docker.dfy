/** The Docker daemon as the benchmarks use it: a growing tag cache in front of the registry,
    and a bracket that stops the containers started inside it. */
module Docker {
  import opened Wrappers
  import opened Collections

  /** How the registry answers a pull. */
  datatype PullReply = Pulled | NoSuchImage | HttpError

  type Registry = string -> PullReply

  class Daemon {
    /** The tags of each local image, in listing order. */
    var images: seq<seq<string>>
    var running: set<string>
    /** The image names for which the registry was contacted. */
    var contacts: seq<string>
    /** The tags given by docker build, in order. */
    var built: seq<string>

    constructor (images: seq<seq<string>>, running: set<string>)
      ensures this.images == images && this.running == running && contacts == [] && built == []
    {
      this.images, this.running, contacts, built := images, running, [], [];
    }

    /** client.images.pull */
    method Pull(name: string, registry: Registry) returns (reply: PullReply)
      modifies this`images, this`contacts
      ensures reply == registry(name)
      ensures contacts == old(contacts) + [name]
      ensures images == if reply.Pulled? then old(images) + [[name]] else old(images)
    {
      reply := registry(name);
      contacts := contacts + [name];
      if reply.Pulled? {
        images := images + [[name]];
      }
    }

    /** docker build -t */
    method Build(tag: string)
      modifies this`images, this`built
      ensures images == old(images) + [[tag]] && built == old(built) + [tag]
    {
      images, built := images + [[tag]], built + [tag];
    }
  }

  /** The tags that the daemon has. */
  ghost function Local(images: seq<seq<string>>): set<string> {
    set tag | tag in Flatten(images)
  }

  lemma LocalStep(images: seq<seq<string>>, tag: string)
    ensures Local(images + [[tag]]) == Local(images) + {tag}
  {
  }

  /** A tag is there if some image has it. */
  lemma LocalExactly(images: seq<seq<string>>, tag: string)
    ensures tag in Local(images) <==> exists i :: 0 <= i < |images| && tag in images[i]
  {
    FlattenExactly(images, tag);
  }

  lemma {:induction false} FlattenExactly<T>(lists: seq<seq<T>>, x: T)
    ensures x in Flatten(lists) <==> exists i :: 0 <= i < |lists| && x in lists[i]
  {
    if lists != [] {
      var front := lists[..|lists| - 1];
      FlattenExactly(front, x);
      assert forall i :: 0 <= i < |front| ==> front[i] == lists[i];
      if i :| 0 <= i < |lists| && x in lists[i] {
        assert i < |front| ==> x in front[i];
      }
    }
  }

  function Flatten<T>(lists: seq<seq<T>>): seq<T> {
    if lists == [] then [] else Flatten(lists[..|lists| - 1]) + Last(lists)
  }

  lemma {:induction false} FlattenConcat<T>(a: seq<seq<T>>, b: seq<seq<T>>)
    ensures Flatten(a + b) == Flatten(a) + Flatten(b)
  {
    if b == [] {
      assert a + b == a;
    } else {
      var front := b[..|b| - 1];
      FlattenConcat(a, front);
      assert (a + b)[..|a + b| - 1] == a + front && Last(a + b) == Last(b);
      assert Flatten(a + b) == Flatten(a + front) + Last(b);
    }
  }

  /** pull_image returns an image, raises DockerImagePullError, or lets the daemon's own
      ImageNotFound escape when a cached tag is no longer there. */
  datatype PullResult = Image | PullError | GetError

  class DockerImage {
    const client: Daemon
    var existingTags: seq<string>
    /** What each listing so far has found. */
    ghost var snapshots: seq<seq<string>>

    constructor (client: Daemon)
      ensures this.client == client && existingTags == [] && snapshots == [] && Valid()
    {
      this.client, existingTags, snapshots := client, [], [];
    }

    /** However often the daemon was listed, the cache is the concatenation of all listings. */
    ghost predicate Valid()
      reads this
    {
      existingTags == Flatten(snapshots)
    }

    /** Everything cached is still there. */
    ghost predicate CacheCurrent()
      reads this, client
    {
      Valid() && forall tag :: tag in existingTags ==> tag in Local(client.images)
    }

    /** The cache only ever grows: each listing appends the tags the daemon has now. */
    method ListImages() returns (tags: seq<string>)
      requires Valid()
      modifies this
      ensures Valid() && snapshots == old(snapshots) + [Flatten(client.images)]
      ensures existingTags == old(existingTags) + Flatten(client.images)
      ensures tags == existingTags
    {
      var listed := client.images;
      for i := 0 to |listed|
        invariant existingTags == old(existingTags) + Flatten(listed[..i]) && snapshots == old(snapshots)
      {
        existingTags := existingTags + listed[i];
        FlattenConcat(listed[..i], [listed[i]]);
        PrefixStep(listed, i);
        assert Flatten([listed[i]]) == listed[i];
      }
      assert listed[..|listed|] == listed;
      snapshots := snapshots + [Flatten(listed)];
      assert snapshots[..|snapshots| - 1] == old(snapshots);
      return existingTags;
    }

    /** The registry is contacted exactly for a name that is neither cached nor local. */
    method PullImage(name: string, registry: Registry) returns (r: PullResult)
      requires Valid()
      modifies this, client`images, client`contacts
      ensures Valid() && snapshots == old(snapshots) + [Flatten(old(client.images))]
      ensures var local := name in old(Local(client.images)); var cached := name in old(existingTags) || local;
              && client.contacts == old(client.contacts) + (if cached then [] else [name])
              && client.images == (if !cached && registry(name).Pulled? then old(client.images) + [[name]]
                                   else old(client.images))
              && r == (if cached then if local then Image else GetError
                       else if registry(name).Pulled? then Image else PullError)
    {
      var existing := ListImages();
      if name !in existing {
        var reply := client.Pull(name, registry);
        if reply.NoSuchImage? || reply.HttpError? {
          return PullError;
        }
        return Image;
      } else {
        if name in Flatten(client.images) {
          return Image;
        }
        return GetError;
      }
    }

    /** While the cache is current, a pull never trips over a stale entry, and the registry is
        asked exactly for what the daemon lacks. `found` is false for DockerImagePullError. */
    method TryPull(name: string, registry: Registry) returns (found: bool)
      requires CacheCurrent()
      modifies this, client`images, client`contacts
      ensures CacheCurrent()
      ensures found <==> name in old(Local(client.images)) || registry(name).Pulled?
      ensures Local(client.images) == old(Local(client.images)) + if found then {name} else {}
      ensures client.contacts == old(client.contacts) + if name in old(Local(client.images)) then [] else [name]
    {
      var result := PullImage(name, registry);
      LocalStep(old(client.images), name);
      return result.Image?;
    }

    method ListProcesses() returns (names: set<string>)
      ensures names == client.running
    {
      names := client.running;
    }

    method StopImage(name: string)
      modifies client`running
      ensures client.running == old(client.running) - {name}
    {
      client.running := client.running - {name};
    }

    /** The bracket around one container run. While the container runs, and by the time it
        returns or fails, the set of running containers may have become any set at all. */
    method RunImage(script: ContainerScript) returns (raised: bool)
      modifies client`running
      ensures raised == script.raises
      ensures client.running == script.runningAtEnd * old(client.running)
    {
      var controller := new DockerImageController(this);
      controller.Enter();
      raised := controller.Run(script);
      controller.Exit();
    }
  }

  /** What happens while a container runs: what is running when it ends, and whether it ends by
      raising (a container error makes the process exit, which unwinds like any exception). */
  datatype ContainerScript = ContainerScript(runningAtEnd: set<string>, raises: bool)

  class DockerImageController {
    const image: DockerImage
    var runningProcs: set<string>

    constructor (image: DockerImage)
      ensures this.image == image && runningProcs == {}
    {
      this.image, runningProcs := image, {};
    }

    method Enter()
      modifies this
      ensures runningProcs == image.client.running
    {
      runningProcs := image.ListProcesses();
    }

    method Run(script: ContainerScript) returns (raised: bool)
      modifies image.client`running
      ensures raised == script.raises && image.client.running == script.runningAtEnd
    {
      image.client.running := script.runningAtEnd;
      return script.raises;
    }

    /** Stops, one by one, what runs now and did not run at entry. */
    method Exit()
      modifies image.client`running
      ensures image.client.running == old(image.client.running) * runningProcs
    {
      var listed := image.ListProcesses();
      var pending := listed;
      while pending != {}
        invariant pending <= listed
        invariant image.client.running == listed - ((listed - pending) - runningProcs)
        decreases pending
      {
        var name := AnyOf(pending);
        if name !in runningProcs {
          image.StopImage(name);
        }
        pending := pending - {name};
      }
    }
  }

  // ---- The tag cache over many listings ----------------------------------------------------

  ghost predicate Gains(before: seq<string>, after: seq<string>) {
    forall tag :: tag in before ==> tag in after
  }

  /** Each listing found everything that the one before it had found. */
  ghost predicate OnlyGains(snapshots: seq<seq<string>>) {
    forall k :: 0 < k < |snapshots| ==> Gains(snapshots[k - 1], snapshots[k])
  }

  lemma {:induction false} FlattenOfGrowing(snapshots: seq<seq<string>>)
    requires snapshots != [] && OnlyGains(snapshots)
    ensures forall tag :: tag in Flatten(snapshots) <==> tag in Last(snapshots)
  {
    var front := snapshots[..|snapshots| - 1];
    assert Flatten(snapshots) == Flatten(front) + Last(snapshots);
    if front != [] {
      var k := |snapshots| - 1;
      assert Gains(snapshots[k - 1], snapshots[k]);
      assert forall k :: 0 <= k < |front| ==> front[k] == snapshots[k];
      FlattenOfGrowing(front);
    }
  }

  /** The cache after any number of listings and pulls: if each listing found all that the one
      before it had found, a tag is cached exactly when the newest listing has it; and if the
      daemon still has all of that, the cache is current. */
  lemma GrowingDaemonKeepsCacheExact(image: DockerImage)
    requires image.Valid() && image.snapshots != [] && OnlyGains(image.snapshots)
    ensures forall tag :: tag in image.existingTags <==> tag in Last(image.snapshots)
    ensures image.CacheCurrent() <==> Gains(Last(image.snapshots), Flatten(image.client.images))
  {
    FlattenOfGrowing(image.snapshots);
  }
}
