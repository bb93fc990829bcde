/** The little of a file system that planning touches: directories made for artifacts, and the
    symbolic links in the working directory that point to them. */
module FileSystem {
  import opened Wrappers
  import opened Collections

  datatype Node = Dir | File | Link(target: string)

  type Nodes = map<string, Node>

  /** How many links the kernel follows before it gives up. */
  const MAX_HOPS: nat := 40

  /** os.path.isdir, which follows links. */
  predicate IsDir(nodes: Nodes, path: string, hops: nat := MAX_HOPS)
    decreases hops
  {
    path in nodes && match nodes[path]
      case Dir => true
      case File => false
      case Link(target) => hops > 0 && IsDir(nodes, target, hops - 1)
  }

  /** A directory is one, and so is a link to one. */
  lemma DirOrLinkToDir(nodes: Nodes, path: string, target: string)
    requires target in nodes && nodes[target] == Dir
    ensures IsDir(nodes, target)
    ensures path in nodes && nodes[path] == Link(target) ==> IsDir(nodes, path)
    ensures path !in nodes || nodes[path] == File ==> !IsDir(nodes, path)
  {
  }

  /** The directories on the way to `path`. */
  function Ancestors(path: string): set<string> {
    set i | 0 < i < |path| && path[i] == '/' :: path[..i]
  }

  /** os.path.join of two components. */
  function PathJoin(base: string, name: string): string {
    if name != "" && name[0] == '/' then name
    else if base == "" || Last(base) == '/' then base + name
    else base + ['/'] + name
  }

  /** A relative name goes behind the base, after a slash unless the base ends with one or is empty;
      an absolute name replaces the base. */
  lemma PathJoinText(base: string, name: string)
    ensures "/" <= name ==> PathJoin(base, name) == name
    ensures !("/" <= name) && (base == "" || Last(base) == '/') ==> PathJoin(base, name) == base + name
    ensures !("/" <= name) && base != "" && Last(base) != '/' ==> PathJoin(base, name) == base + "/" + name
  {
  }

  lemma PathJoinInjective(base: string, a: string, b: string)
    requires PathJoin(base, a) == PathJoin(base, b)
    requires a == "" || a[0] != '/'
    requires b == "" || b[0] != '/'
    ensures a == b
  {
    var n := |PathJoin(base, "")|;
    assert PathJoin(base, a)[n..] == a && PathJoin(base, b)[n..] == b;
  }

  class Files {
    var nodes: Nodes

    constructor (nodes: Nodes)
      ensures this.nodes == nodes
    {
      this.nodes := nodes;
    }

    /** os.makedirs: the directory must not exist, and what exists on the way must be one. */
    method MakeDirs(path: string) returns (ok: bool)
      modifies this
      ensures ok <==> CanMake(old(nodes), path)
      ensures nodes == if ok then WithDirs(old(nodes), path) else old(nodes)
    {
      if !CanMake(nodes, path) {
        return false;
      }
      nodes := WithDirs(nodes, path);
      return true;
    }

    /** os.symlink(target, name) */
    method SymLink(target: string, name: string) returns (ok: bool)
      modifies this
      ensures ok <==> CanLink(old(nodes), name)
      ensures nodes == if ok then old(nodes)[name := Link(target)] else old(nodes)
    {
      if !CanLink(nodes, name) {
        return false;
      }
      nodes := nodes[name := Link(target)];
      return true;
    }

    /** _create_symlink_for_test_artifacts: a link that is already right is left alone; anything
        else under that name makes the call fail. */
    method CreateSymlinkForTestArtifacts(outputDir: string, imageTag: string) returns (ok: bool)
      modifies this
      ensures ok <==> Linkable(old(nodes), outputDir, imageTag)
      ensures ok ==> nodes == WithLink(old(nodes), outputDir, imageTag)
      ensures Linked(old(nodes), imageTag, outputDir) ==> nodes == old(nodes)
      ensures OnlyAdds(old(nodes), nodes, outputDir, imageTag)
    {
      if imageTag in nodes && nodes[imageTag] == Link(outputDir) {
        return true;
      }
      if !IsDir(nodes, outputDir) {
        ok := MakeDirs(outputDir);
        if !ok {
          return false;
        }
      }
      ok := SymLink(outputDir, imageTag);
    }
  }

  predicate CanMake(nodes: Nodes, path: string) {
    path != "" && path !in nodes && forall a :: a in Ancestors(path) && a in nodes ==> IsDir(nodes, a)
  }

  function WithDirs(nodes: Nodes, path: string): Nodes {
    (map a | a in Ancestors(path) + {path} :: Dir) + nodes
  }

  predicate CanLink(nodes: Nodes, name: string) {
    name != "" && name !in nodes && forall a :: a in Ancestors(name) ==> IsDir(nodes, a)
  }

  predicate Linked(nodes: Nodes, name: string, target: string) {
    name in nodes && nodes[name] == Link(target)
  }

  /** The nodes once `path` is known to be a directory. */
  function WithOutputDir(nodes: Nodes, path: string): Nodes {
    if IsDir(nodes, path) then nodes else WithDirs(nodes, path)
  }

  predicate Linkable(nodes: Nodes, outputDir: string, imageTag: string) {
    || Linked(nodes, imageTag, outputDir)
    || ((IsDir(nodes, outputDir) || CanMake(nodes, outputDir))
        && CanLink(WithOutputDir(nodes, outputDir), imageTag))
  }

  /** The nodes once the link has been looked after. */
  function WithLink(nodes: Nodes, outputDir: string, imageTag: string): Nodes {
    if Linked(nodes, imageTag, outputDir) then nodes else WithOutputDir(nodes, outputDir)[imageTag := Link(outputDir)]
  }

  /** A link cannot be made where something else is or its directory is not one; nor an output
      directory where something else is or is on the way. */
  lemma NotLinkable(nodes: Nodes, outputDir: string, imageTag: string, path: string)
    requires !Linked(nodes, imageTag, outputDir)
    ensures imageTag in nodes ==> !Linkable(nodes, outputDir, imageTag)
    ensures outputDir in nodes && nodes[outputDir] == File ==> !Linkable(nodes, outputDir, imageTag)
    ensures outputDir !in nodes && path in Ancestors(outputDir) && path in nodes && nodes[path] == File ==>
              !Linkable(nodes, outputDir, imageTag)
    ensures path in Ancestors(imageTag) && path in nodes && nodes[path] == File ==>
              !Linkable(nodes, outputDir, imageTag)
  {
  }

  /** A link that has just been made leads to a directory. */
  lemma LinkLeadsToDir(nodes: Nodes, outputDir: string, imageTag: string)
    requires Linkable(nodes, outputDir, imageTag) && !Linked(nodes, imageTag, outputDir)
    ensures var nodes' := WithLink(nodes, outputDir, imageTag);
            nodes'[imageTag] == Link(outputDir) && IsDir(nodes', outputDir)
  {
    if IsDir(nodes, outputDir) {
      IsDirKept(nodes, WithLink(nodes, outputDir, imageTag), outputDir, MAX_HOPS);
    }
  }

  /** `path` is `dir` or on the way to it. */
  predicate OnTheWay(path: string, dir: string) {
    path == dir || path in Ancestors(dir)
  }

  /** Nothing that existed has changed. What is new is the link, or a directory on the way to
      the output directory. */
  ghost predicate OnlyAdds(before: Nodes, after: Nodes, outputDir: string, imageTag: string) {
    && (forall path :: path in before ==> path in after && after[path] == before[path])
    && (forall path :: path in after && path !in before ==>
          || (path == imageTag && after[path] == Link(outputDir))
          || (after[path] == Dir && OnTheWay(path, outputDir)))
  }

  // ---- Planning many links -----------------------------------------------------------------

  /** The link of a job: named `name`, it points to the directory `name` under `base`. */
  predicate HasLink(nodes: Nodes, base: string, name: string) {
    Linked(nodes, name, PathJoin(base, name))
  }

  /** Nothing that existed has changed. What is new is a right link of `names`, or a directory on
      the way to one of their output directories. */
  ghost predicate Extends(before: Nodes, after: Nodes, base: string, names: set<string>) {
    && (forall path :: path in before ==> path in after && after[path] == before[path])
    && (forall path :: path in after && path !in before ==>
          || (path in names && after[path] == Link(PathJoin(base, path)))
          || (after[path] == Dir && exists name :: name in names && OnTheWay(path, PathJoin(base, name))))
  }

  lemma NothingAdded(nodes: Nodes, base: string, names: set<string>)
    ensures Extends(nodes, nodes, base, names)
  {
  }

  lemma ExtendsStep(before: Nodes, nodes: Nodes, nodes': Nodes, base: string, names: set<string>, name: string)
    requires Extends(before, nodes, base, names) && name in names
    requires OnlyAdds(nodes, nodes', PathJoin(base, name), name)
    ensures Extends(before, nodes', base, names)
  {
  }

  /** The links of `done` are there, and nothing else but links of `names` and directories for
      them has been added. */
  ghost predicate LinksDone(before: Nodes, nodes: Nodes, base: string, names: set<string>, done: seq<string>) {
    Extends(before, nodes, base, names) && forall k :: 0 <= k < |done| ==> HasLink(nodes, base, done[k])
  }

  lemma LinksStep(before: Nodes, nodes: Nodes, nodes': Nodes, base: string, names: set<string>,
                  done: seq<string>, name: string)
    requires LinksDone(before, nodes, base, names, done) && name in names
    requires OnlyAdds(nodes, nodes', PathJoin(base, name), name) && HasLink(nodes', base, name)
    ensures LinksDone(before, nodes', base, names, done + [name])
  {
    ExtendsStep(before, nodes, nodes', base, names, name);
  }

  /** What is left once the links of `order` have been looked after in turn, if none of them
      fails. */
  function LinkAll(nodes: Nodes, base: string, order: seq<string>): Option<Nodes> {
    if order == [] then Some(nodes)
    else
      var name := Last(order);
      match LinkAll(nodes, base, order[..|order| - 1])
      case None => None
      case Some(n) =>
        if Linkable(n, PathJoin(base, name), name) then Some(WithLink(n, PathJoin(base, name), name)) else None
  }

  /** Looking after the link of `other` makes `name` a directory. */
  predicate Spoils(nodes: Nodes, base: string, other: string, name: string) {
    !HasLink(nodes, base, other) && !IsDir(nodes, PathJoin(base, other)) && OnTheWay(name, PathJoin(base, other))
  }

  /** Every link is right already, or can be made and is not spoilt by another one. */
  ghost predicate Plannable(nodes: Nodes, base: string, names: set<string>) {
    forall name :: name in names ==> HasLink(nodes, base, name) || PlannableName(nodes, base, names, name)
  }

  ghost predicate PlannableName(nodes: Nodes, base: string, names: set<string>, name: string) {
    && Linkable(nodes, PathJoin(base, name), name)
    && forall other :: other in names && other != name ==> !Spoils(nodes, base, other, name)
  }

  /** For instance: under an absolute base, names without slashes whose links are absent or
      right, and whose output directories are there or can be made. */
  lemma AbsoluteBaseIsPlannable(nodes: Nodes, base: string, names: set<string>)
    requires base != "" && base[0] == '/'
    requires forall name :: name in names ==>
               && name != "" && '/' !in name
               && (name !in nodes || HasLink(nodes, base, name))
               && (IsDir(nodes, PathJoin(base, name)) || CanMake(nodes, PathJoin(base, name)))
    ensures Plannable(nodes, base, names)
  {
    forall name | name in names ensures name[0] in name && PathJoin(base, name)[0] == '/' {
    }
  }

  lemma {:induction false} IsDirKept(nodes: Nodes, nodes': Nodes, path: string, hops: nat)
    requires forall p :: p in nodes ==> p in nodes' && nodes'[p] == nodes[p]
    requires IsDir(nodes, path, hops)
    ensures IsDir(nodes', path, hops)
    decreases hops
  {
    if nodes[path].Link? {
      IsDirKept(nodes, nodes', nodes[path].target, hops - 1);
    }
  }

  /** The directories on the way to a path on the way are themselves on the way. */
  lemma AncestorsOfOnTheWay(path: string, dir: string)
    requires OnTheWay(path, dir)
    ensures Ancestors(path) <= Ancestors(dir)
  {
    if path != dir {
      var i :| 0 < i < |dir| && dir[i] == '/' && path == dir[..i];
      forall a | a in Ancestors(path) ensures a in Ancestors(dir) {
        var j :| 0 < j < |path| && path[j] == '/' && a == path[..j];
        assert a == dir[..j];
      }
    }
  }

  /** Looking after the link of `n` leaves the output directory of `m` there or to be made, and
      leaves it no worse to make the link of `m`. */
  lemma OutputDirKept(nodes: Nodes, base: string, n: string, m: string)
    requires !HasLink(nodes, base, n) && Linkable(nodes, PathJoin(base, n), n)
    requires Linkable(nodes, PathJoin(base, m), m) && !HasLink(nodes, base, m) && !Spoils(nodes, base, m, n)
    ensures var nodes', dir := WithLink(nodes, PathJoin(base, n), n), PathJoin(base, m);
            && (IsDir(nodes', dir) || CanMake(nodes', dir))
            && forall path :: path in WithOutputDir(nodes, dir) ==>
                 path in WithOutputDir(nodes', dir) && WithOutputDir(nodes', dir)[path] == WithOutputDir(nodes, dir)[path]
  {
    var nodes', dir := WithLink(nodes, PathJoin(base, n), n), PathJoin(base, m);
    if IsDir(nodes, dir) {
      IsDirKept(nodes, nodes', dir, MAX_HOPS);
    } else {
      forall a | a in Ancestors(dir) && a in nodes' ensures IsDir(nodes', a) {
        if a in nodes {
          IsDirKept(nodes, nodes', a, MAX_HOPS);
        }
      }
      if dir in nodes' {
        AncestorsOfOnTheWay(dir, PathJoin(base, n));
      }
    }
  }

  lemma PlannableNameKept(nodes: Nodes, base: string, names: set<string>, n: string, m: string)
    requires Plannable(nodes, base, names) && n in names && m in names && n != m
    requires !HasLink(nodes, base, n) && !HasLink(nodes, base, m)
    ensures Linkable(WithLink(nodes, PathJoin(base, n), n), PathJoin(base, m), m)
  {
    var nodes', dir := WithLink(nodes, PathJoin(base, n), n), PathJoin(base, m);
    OutputDirKept(nodes, base, n, m);
    assert m !in nodes' && m !in WithOutputDir(nodes', dir) by {
      if IsDir(nodes, dir) {
        IsDirKept(nodes, nodes', dir, MAX_HOPS);
      }
    }
    forall a | a in Ancestors(m) ensures IsDir(WithOutputDir(nodes', dir), a) {
      IsDirKept(WithOutputDir(nodes, dir), WithOutputDir(nodes', dir), a, MAX_HOPS);
    }
  }

  /** Looking after one of the links never spoils the others. */
  lemma PlannableKept(nodes: Nodes, base: string, names: set<string>, n: string)
    requires Plannable(nodes, base, names) && n in names
    ensures Linkable(nodes, PathJoin(base, n), n)
    ensures Plannable(WithLink(nodes, PathJoin(base, n), n), base, names)
  {
    var nodes' := WithLink(nodes, PathJoin(base, n), n);
    if !HasLink(nodes, base, n) {
      forall m | m in names && !HasLink(nodes', base, m) ensures PlannableName(nodes', base, names, m) {
        PlannableNameKept(nodes, base, names, n, m);
        forall other | other in names && other != m ensures !Spoils(nodes', base, other, m) {
          if IsDir(nodes, PathJoin(base, other)) {
            IsDirKept(nodes, nodes', PathJoin(base, other), MAX_HOPS);
          }
        }
      }
    }
  }

  /** From a plannable file system the links can be looked after in any order. */
  lemma {:induction false} PlannableLinksAll(nodes: Nodes, base: string, names: set<string>, order: seq<string>)
    requires Plannable(nodes, base, names) && forall name :: name in order ==> name in names
    ensures LinkAll(nodes, base, order).Some? && Plannable(LinkAll(nodes, base, order).value, base, names)
  {
    if order != [] {
      var front := order[..|order| - 1];
      PlannableLinksAll(nodes, base, names, front);
      assert Last(order) in order;
      PlannableKept(LinkAll(nodes, base, front).value, base, names, Last(order));
    }
  }

  lemma {:induction false} FailureStays(nodes: Nodes, base: string, order: seq<string>, more: seq<string>)
    requires LinkAll(nodes, base, order).None?
    ensures LinkAll(nodes, base, order + more).None?
  {
    if more == [] {
      assert order + more == order;
    } else {
      assert (order + more)[..|order + more| - 1] == order + more[..|more| - 1];
      FailureStays(nodes, base, order, more[..|more| - 1]);
    }
  }

  lemma LinkAllStep(nodes: Nodes, base: string, order: seq<string>, name: string)
    ensures LinkAll(nodes, base, order + [name])
         == match LinkAll(nodes, base, order)
            case None => None
            case Some(n) =>
              if Linkable(n, PathJoin(base, name), name) then Some(WithLink(n, PathJoin(base, name), name)) else None
  {
    assert (order + [name])[..|order|] == order;
  }

  /** A name whose link fails even if it is the first one. */
  lemma FailsFirst(nodes: Nodes, base: string, name: string)
    requires !Linkable(nodes, PathJoin(base, name), name)
    ensures LinkAll(nodes, base, [name]).None?
  {
    LinkAllStep(nodes, base, [], name);
    assert [] + [name] == [name];
  }

  /** A name whose link fails after that of a name that spoils it. */
  lemma FailsSecond(nodes: Nodes, base: string, other: string, name: string)
    requires other != name && !HasLink(nodes, base, name) && Spoils(nodes, base, other, name)
    ensures LinkAll(nodes, base, [other, name]).None?
  {
    LinkAllStep(nodes, base, [], other);
    LinkAllStep(nodes, base, [other], name);
    assert [] + [other] == [other] && [other] + [name] == [other, name];
    if Linkable(nodes, PathJoin(base, other), other) {
      assert !Linkable(WithLink(nodes, PathJoin(base, other), other), PathJoin(base, name), name);
    }
  }

  /** One or two names whose links cannot be looked after in this order. */
  lemma FailingStart(nodes: Nodes, base: string, names: set<string>, name: string) returns (start: seq<string>)
    requires name in names && !HasLink(nodes, base, name) && !PlannableName(nodes, base, names, name)
    ensures LinkAll(nodes, base, start).None?
    ensures NoDuplicates(start) && forall x :: x in start ==> x in names
  {
    if Linkable(nodes, PathJoin(base, name), name) {
      var other :| other in names && other != name && Spoils(nodes, base, other, name);
      FailsSecond(nodes, base, other, name);
      start := [other, name];
    } else {
      FailsFirst(nodes, base, name);
      start := [name];
    }
  }

  /** Exactly from a plannable file system the links can be looked after in every order. */
  lemma PlannableIff(nodes: Nodes, base: string, names: set<string>)
    ensures Plannable(nodes, base, names)
       <==> forall order :: Enumerates(order, names) ==> LinkAll(nodes, base, order).Some?
  {
    if Plannable(nodes, base, names) {
      forall order | Enumerates(order, names) ensures LinkAll(nodes, base, order).Some? {
        PlannableLinksAll(nodes, base, names, order);
      }
    } else {
      var order := FailingOrder(nodes, base, names);
    }
  }

  lemma FailingOrder(nodes: Nodes, base: string, names: set<string>) returns (order: seq<string>)
    requires !Plannable(nodes, base, names)
    ensures Enumerates(order, names) && LinkAll(nodes, base, order).None?
  {
    var name :| name in names && !HasLink(nodes, base, name) && !PlannableName(nodes, base, names, name);
    var start := FailingStart(nodes, base, names, name);
    var rest := SomeOrder(names - (set x | x in start));
    FailureStays(nodes, base, start, rest);
    order := start + rest;
    StartAndRest(start, rest, names);
  }

  lemma StartAndRest(start: seq<string>, rest: seq<string>, names: set<string>)
    requires NoDuplicates(start) && forall x :: x in start ==> x in names
    requires Enumerates(rest, names - (set x | x in start))
    ensures Enumerates(start + rest, names)
  {
    forall i, j | 0 <= i < j < |start + rest| ensures (start + rest)[i] != (start + rest)[j] {
      assert i < |start| ==> start[i] in start;
      assert j >= |start| ==> rest[j - |start|] in rest;
    }
  }

  lemma {:induction false} SomeOrder(names: set<string>) returns (order: seq<string>)
    ensures Enumerates(order, names)
  {
    if names == {} {
      order := [];
    } else {
      var name :| name in names;
      var rest := SomeOrder(names - {name});
      order := rest + [name];
    }
  }
}
