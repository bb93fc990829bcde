/** Source trees and the source manager: which commit hashes or tags a benchmark needs, and
    which heap record stands for a source. */
module Sources {
  import opened Wrappers
  import opened Collections
  import opened Strings
  import opened Control
  import opened GitHistory

  datatype GitReply = Output(text: string) | CommandFailed

  datatype FetchReply = UpToDateOrCloned | NotCloned | PullFailed

  /** What git answers for one source; nothing is assumed about it. */
  datatype Git = Git(pull: FetchReply, head: GitReply, tagOutput: GitReply,
                     revList: (string, nat) -> GitReply, checkout: string -> GitReply)

  const UNKNOWN_REVISION: string := "unknown revision or path not in the working tree."

  predicate Contains(text: string, part: string) {
    part <= text || (text != "" && Contains(text[1..], part))
  }

  predicate Located(rec: SourceRecord) {
    rec.Path() != "" || rec.Url() != ""
  }

  /** What the text of a rev-list means to get_previous_commit_hash. */
  function ReadRevList(reply: GitReply): Outcome<string> {
    match reply
    case CommandFailed => Raise(CommandError)
    case Output(text) =>
      if Contains(text, UNKNOWN_REVISION) then Raise(SourceTreeError)
      else match LastNonBlank(Split(text, '\n'))
        case Some(hash) => Return(hash)
        case None => Raise(SourceTreeError)
  }

  /** The outcome of get_previous_commit_hash. */
  function Previous(git: Git, rec: SourceRecord, commit: string): Outcome<string> {
    if commit == "" then Raise(AssertionFailed)
    else if !Located(rec) then Raise(SourceTreeError)
    else if rec.Url() != "" && git.pull.PullFailed? then Raise(CommandError)
    else if IsTag(commit) then
      match git.tagOutput
      case CommandFailed => Raise(CommandError)
      case Output(text) => Return(TagBefore(ListTags(text), commit, 1))
    else if commit == "latest" then
      match git.head
      case CommandFailed => Raise(CommandError)
      case Output(head) => ReadRevList(git.revList(head, 2))
    else ReadRevList(git.revList(commit, 2))
  }

  /** The outcome of get_head_hash. */
  function Head(git: Git, rec: SourceRecord): Outcome<string> {
    if !Located(rec) then Raise(SourceTreeError)
    else match git.head
      case CommandFailed => Raise(CommandError)
      case Output(text) => Return(text)
  }

  /** What git reports after checking out `hash`. */
  function HeadLine(hash: string): string {
    "HEAD is now at " + if |hash| > 8 then hash[..8] else hash
  }

  /** The outcome of checkout_commit_hash. */
  function Checkout(git: Git, rec: SourceRecord): Outcome<bool> {
    if !Located(rec) then Raise(SourceTreeError)
    else if rec.Path() == "" && git.pull.PullFailed? then Raise(CommandError)
    else if rec.commitHash == "" then Return(true)
    else match git.checkout(rec.commitHash)
      case CommandFailed => Raise(CommandError)
      case Output(text) => Return(Contains(text, HeadLine(rec.commitHash)))
  }

  class SourceTree {
    const repo: SourceRepository
    const git: Git
    /** The commits whose predecessors were looked up, and the hashes checked out, in order. */
    var queries: seq<string>
    var checkouts: seq<string>

    constructor (repo: SourceRepository, git: Git)
      ensures this.repo == repo && this.git == git && queries == [] && checkouts == []
    {
      this.repo, this.git, queries, checkouts := repo, git, [], [];
    }

    method Pull() returns (r: Outcome<bool>)
      ensures r == if !Located(repo.rec) then Raise(SourceTreeError)
                   else if repo.rec.Url() == "" then Return(false)
                   else if git.pull.PullFailed? then Raise(CommandError)
                   else Return(git.pull.UpToDateOrCloned?)
    {
      if repo.rec.Path() == "" && repo.rec.Url() == "" {
        return Raise(SourceTreeError);
      }
      if repo.rec.Url() == "" {
        return Return(false);
      }
      match git.pull
      case UpToDateOrCloned => return Return(true);
      case NotCloned => return Return(false);
      case PullFailed => return Raise(CommandError);
    }

    method CopySourceDirectory() returns (r: Outcome<bool>)
      ensures r == if !Located(repo.rec) then Raise(SourceTreeError) else Return(repo.rec.Path() != "")
    {
      if repo.rec.Path() == "" && repo.rec.Url() == "" {
        return Raise(SourceTreeError);
      }
      return Return(repo.rec.Path() != "");
    }

    method GetPreviousCommitHash(currentCommit: string) returns (r: Outcome<string>)
      modifies this`queries
      ensures queries == old(queries) + [currentCommit]
      ensures r == Previous(git, repo.rec, currentCommit)
    {
      queries := queries + [currentCommit];
      if currentCommit == "" {
        return Raise(AssertionFailed);
      }
      var pulled := Pull();
      if pulled.Raise? {
        return Raise(pulled.error);
      }
      if !pulled.value {
        // Pull has already found the source located, so the copy does not raise.
        var _ := CopySourceDirectory();
      }
      if IsTag(currentCommit) {
        if git.tagOutput.CommandFailed? {
          return Raise(CommandError);
        }
        var tag := GetPreviousTag(ListTags(git.tagOutput.text), currentCommit, 1);
        return Return(tag.value);
      }
      var commit := currentCommit;
      if commit == "latest" {
        var head := GetHeadHash();
        if head.Raise? {
          return Raise(head.error);
        }
        commit := head.value;
      }
      var hashList := git.revList(commit, 2);
      if hashList.CommandFailed? {
        return Raise(CommandError);
      }
      if Contains(hashList.text, UNKNOWN_REVISION) {
        return Raise(SourceTreeError);
      }
      var found := ScanBackwards(hashList.text);
      return if found.Some? then Return(found.value) else Raise(SourceTreeError);
    }

    /** The result says whether git reported the expected HEAD; no caller looks at it. */
    method CheckoutCommitHash() returns (r: Outcome<bool>)
      modifies this`checkouts
      ensures r == Checkout(git, repo.rec)
      ensures checkouts == old(checkouts) + (if r.Return? && repo.rec.commitHash != "" then [repo.rec.commitHash] else [])
    {
      if repo.rec.Path() == "" && repo.rec.Url() == "" {
        return Raise(SourceTreeError);
      }
      var checkoutSuccess := true;
      if repo.rec.Path() == "" && repo.rec.Url() != "" {
        var pulled := Pull();
        if pulled.Raise? {
          return Raise(pulled.error);
        }
      }
      if repo.rec.commitHash != "" {
        var reply := git.checkout(repo.rec.commitHash);
        if reply.CommandFailed? {
          return Raise(CommandError);
        }
        checkoutSuccess := Contains(reply.text, HeadLine(repo.rec.commitHash));
        checkouts := checkouts + [repo.rec.commitHash];
      }
      return Return(checkoutSuccess);
    }

    method GetHeadHash() returns (r: Outcome<string>)
      ensures r == Head(git, repo.rec)
    {
      if repo.rec.Path() == "" && repo.rec.Url() == "" {
        return Raise(SourceTreeError);
      }
      return if git.head.CommandFailed? then Raise(CommandError) else Return(git.head.text);
    }
  }

  // ---- Which record stands for a source ----------------------------------------------------

  /** `repo` is the first record of the document with this identity. */
  ghost predicate IsFirst(source: seq<SourceRepository>, id: SourceId, repo: SourceRepository)
    reads source
  {
    exists i :: 0 <= i < |source| && source[i] == repo && repo.rec.identity == id
                && forall j :: 0 <= j < i ==> source[j].rec.identity != id
  }

  ghost predicate Names(source: seq<SourceRepository>, id: SourceId)
    reads source
  {
    exists i :: 0 <= i < |source| && source[i].rec.identity == id
  }

  /** The record made up for a known source that the document does not name. */
  function DefaultRecord(id: SourceId): SourceRecord {
    var url := if id.SrcEnvoy? then "https://github.com/envoyproxy/envoy.git"
               else "https://github.com/envoyproxy/nighthawk.git";
    SourceRecord(id, SourceUrl(url), "", "", [], [], false)
  }

  /** `repo` is what the document offers for `id`, or a made-up record apart from it. */
  ghost predicate StandsFor(source: seq<SourceRepository>, id: SourceId, repo: SourceRepository)
    reads source, repo
  {
    if Names(source, id) then IsFirst(source, id, repo)
    else repo !in source && repo.rec == DefaultRecord(id)
  }

  /** get_source_repository: the document's own record, or a new one on every call. */
  method FindSource(source: seq<SourceRepository>, id: SourceId) returns (r: Outcome<SourceRepository>)
    ensures !id.SrcUnspecified? ==>
              && r.Return? && StandsFor(source, id, r.value)
              && (!Names(source, id) ==> fresh(r.value))
    ensures (exists i :: 0 <= i < |source| && source[i].rec.identity == id) ==>
              && r.Return?
              && exists i :: 0 <= i < |source| && r.value == source[i] && source[i].rec.identity == id
                             && forall j :: 0 <= j < i ==> source[j].rec.identity != id
    ensures r.Return? && !Names(source, id) ==>
              r.value.rec == SourceRecord(id, SourceUrl(if id == SrcEnvoy then "https://github.com/envoyproxy/envoy.git"
                                                        else "https://github.com/envoyproxy/nighthawk.git"),
                                          "", "", [], [], false)
    ensures id.SrcUnspecified? ==>
              if Names(source, id) then r.Return? && IsFirst(source, id, r.value)
              else r == Raise(SourceManagerError)
  {
    for i := 0 to |source|
      invariant forall j :: 0 <= j < i ==> source[j].rec.identity != id
    {
      if source[i].rec.identity == id {
        return Return(source[i]);
      }
    }
    if !id.SrcUnspecified? {
      var made := new SourceRepository(DefaultRecord(id));
      return Return(made);
    }
    return Raise(SourceManagerError);
  }

  lemma FirstIsUnique(source: seq<SourceRepository>, id: SourceId, a: SourceRepository, b: SourceRepository)
    requires IsFirst(source, id, a) && IsFirst(source, id, b)
    ensures a == b
  {
  }

  // ---- Which hashes a benchmark needs ------------------------------------------------------

  /** `image_name.split(':')[-1]` */
  function ImageTag(image: string): string {
    Last(Split(image, ':'))
  }

  function Tags(images: seq<string>): set<string> {
    set image | image in images :: ImageTag(image)
  }

  /** get_image_hashes_from_disk_source: the predecessor's failure, or the two hashes. */
  function PredecessorOf(git: Git, rec: SourceRecord, commit: string): Outcome<string> {
    match Previous(git, rec, commit)
    case Return(hash) => if hash == "" then Raise(SourceManagerError) else Return(hash)
    case Raise(SourceTreeError) => Raise(SourceManagerError)
    case Raise(error) => Raise(error)
  }

  /** The image side looks for a predecessor only for a lone, unflagged Envoy image. */
  predicate ImageDiscovers(images: DockerImages) {
    images.envoyImage != "" && images.additionalEnvoyImages == [] && !images.testSingleImage
  }

  predicate ImageConflict(images: DockerImages) {
    images.envoyImage != "" && images.additionalEnvoyImages != [] && images.testSingleImage
  }

  /** The source side looks for a predecessor only for a lone, unflagged commit. */
  predicate SourceDiscovers(rec: SourceRecord) {
    rec.commitHash != "" && rec.additionalHashes == [] && !rec.testSingleCommit
  }

  predicate SourceConflict(rec: SourceRecord) {
    rec.additionalHashes != [] && rec.testSingleCommit
  }

  /** The source can be had at all, which the image side insists on before it looks. */
  predicate Fetchable(git: Git, rec: SourceRecord) {
    rec.Path() != "" || (rec.Url() != "" && git.pull.UpToDateOrCloned?)
  }

  /** The hashes that the image side of the document names. */
  function NamedByImages(images: DockerImages): set<string> {
    if images.envoyImage == "" then {} else {ImageTag(images.envoyImage)} + Tags(images.additionalEnvoyImages)
  }

  /** The hashes that the source side of the document names. */
  function NamedBySource(rec: SourceRecord): set<string> {
    (set hash | hash in rec.additionalHashes) + (if rec.commitHash == "" then {} else {rec.commitHash})
  }

  function FoundForImages(images: DockerImages, rec: SourceRecord, git: Git): set<string> {
    if ImageDiscovers(images) then Found(PredecessorOf(git, rec, ImageTag(images.envoyImage))) else {}
  }

  function FoundForSource(rec: SourceRecord, git: Git): set<string> {
    if SourceDiscovers(rec) then Found(PredecessorOf(git, rec, rec.commitHash)) else {}
  }

  function Found(r: Outcome<string>): set<string> {
    match r
    case Return(hash) => {hash}
    case Raise(_) => {}
  }

  /** The hashes that a document selects, when selection succeeds. */
  function SelectedHashes(images: DockerImages, rec: SourceRecord, git: Git): set<string> {
    NamedByImages(images) + NamedBySource(rec) + FoundForImages(images, rec, git) + FoundForSource(rec, git)
  }

  predicate ImageSelectable(images: DockerImages, rec: SourceRecord, git: Git) {
    && !ImageConflict(images)
    && (ImageDiscovers(images) ==>
          Fetchable(git, rec) && PredecessorOf(git, rec, ImageTag(images.envoyImage)).Return?)
  }

  predicate SourceSelectable(rec: SourceRecord, git: Git) {
    && !SourceConflict(rec)
    && (SourceDiscovers(rec) ==> PredecessorOf(git, rec, rec.commitHash).Return?)
  }

  /** The hash of the version that the image side looks for a predecessor of: the image's tag,
      or the head of the source if there is no image. */
  function BaselineHash(images: DockerImages, rec: SourceRecord, git: Git): Outcome<string> {
    if images.envoyImage != "" then Return(ImageTag(images.envoyImage)) else Head(git, rec)
  }

  /** The predecessor of that hash, if the source can be had at all. */
  function BaselinePredecessor(images: DockerImages, rec: SourceRecord, git: Git): Outcome<string> {
    match BaselineHash(images, rec, git)
    case Return(hash) => PredecessorOf(git, rec, hash)
    case Raise(error) => Raise(error)
  }

  /** The lookups that each side makes, whether or not they succeed. */
  function ImageQueries(images: DockerImages, rec: SourceRecord, git: Git): seq<string> {
    if ImageDiscovers(images) && Fetchable(git, rec) then [ImageTag(images.envoyImage)] else []
  }

  function SourceQueries(rec: SourceRecord): seq<string> {
    if SourceDiscovers(rec) then [rec.commitHash] else []
  }

  predicate Selectable(images: DockerImages, rec: SourceRecord, git: Git) {
    ImageSelectable(images, rec, git) && SourceSelectable(rec, git)
  }

  /** The lookups of a whole selection: one side's failure keeps the other from being tried. */
  function Queries(images: DockerImages, rec: SourceRecord, git: Git): seq<string> {
    ImageQueries(images, rec, git) + (if ImageSelectable(images, rec, git) then SourceQueries(rec) else [])
  }

  // ---- The same, written out ---------------------------------------------------------------

  /** The source can be pulled or copied, and the lookup of what precedes `hash` finds something. */
  ghost predicate Precedes(git: Git, rec: SourceRecord, hash: string, previous: string) {
    Previous(git, rec, hash) == Return(previous) && previous != ""
  }

  /** What is selected: the tag of the Envoy image and of every additional one (if there is an Envoy
      image), the commit and every additional hash of the Envoy source, what precedes the tag if it
      is the only one and not flagged, and what precedes the commit likewise; and nothing else. */
  ghost predicate IsSelected(images: DockerImages, rec: SourceRecord, git: Git, hash: string) {
    || (images.envoyImage != "" && hash == ImageTag(images.envoyImage))
    || (images.envoyImage != "" && exists image :: image in images.additionalEnvoyImages && hash == ImageTag(image))
    || (rec.commitHash != "" && hash == rec.commitHash)
    || hash in rec.additionalHashes
    || (images.envoyImage != "" && images.additionalEnvoyImages == [] && !images.testSingleImage
        && Precedes(git, rec, ImageTag(images.envoyImage), hash))
    || (rec.commitHash != "" && rec.additionalHashes == [] && !rec.testSingleCommit
        && Precedes(git, rec, rec.commitHash, hash))
  }

  /** When selection succeeds: no flag meets extras, and each lone unflagged version has something
      before it. For the tag of an image the source must be at hand as well. */
  ghost predicate CanSelect(images: DockerImages, rec: SourceRecord, git: Git) {
    && !(images.envoyImage != "" && images.testSingleImage && images.additionalEnvoyImages != [])
    && !(rec.testSingleCommit && rec.additionalHashes != [])
    && (images.envoyImage != "" && images.additionalEnvoyImages == [] && !images.testSingleImage ==>
          && (rec.Path() != "" || (rec.Url() != "" && git.pull == UpToDateOrCloned))
          && exists previous :: Precedes(git, rec, ImageTag(images.envoyImage), previous))
    && (rec.commitHash != "" && rec.additionalHashes == [] && !rec.testSingleCommit ==>
          exists previous :: Precedes(git, rec, rec.commitHash, previous))
  }

  lemma PredecessorIsWhatPrecedes(git: Git, rec: SourceRecord, hash: string)
    ensures PredecessorOf(git, rec, hash).Return? <==> exists previous :: Precedes(git, rec, hash, previous)
    ensures forall previous :: Precedes(git, rec, hash, previous) <==> PredecessorOf(git, rec, hash) == Return(previous)
  {
    if PredecessorOf(git, rec, hash).Return? {
      assert Precedes(git, rec, hash, PredecessorOf(git, rec, hash).value);
    }
  }

  lemma SelectsExactly(images: DockerImages, rec: SourceRecord, git: Git)
    ensures Selectable(images, rec, git) <==> CanSelect(images, rec, git)
    ensures forall hash :: hash in SelectedHashes(images, rec, git) <==> IsSelected(images, rec, git, hash)
  {
    PredecessorIsWhatPrecedes(git, rec, ImageTag(images.envoyImage));
    PredecessorIsWhatPrecedes(git, rec, rec.commitHash);
  }

  /** Nothing is looked up on a side with extras or the flag; nor on the source side after the image
      side has failed. */
  lemma LooksUpExactly(images: DockerImages, rec: SourceRecord, git: Git)
    ensures var image := images.envoyImage != "" && images.additionalEnvoyImages == [] && !images.testSingleImage;
            var commit := rec.commitHash != "" && rec.additionalHashes == [] && !rec.testSingleCommit;
            var atHand := rec.Path() != "" || (rec.Url() != "" && git.pull == UpToDateOrCloned);
            var conflict := images.envoyImage != "" && images.additionalEnvoyImages != [] && images.testSingleImage;
            var found := atHand && exists previous :: Precedes(git, rec, ImageTag(images.envoyImage), previous);
            Queries(images, rec, git)
            == (if image && atHand then [ImageTag(images.envoyImage)] else [])
               + (if commit && !conflict && (image ==> found) then [rec.commitHash] else [])
  {
    PredecessorIsWhatPrecedes(git, rec, ImageTag(images.envoyImage));
  }

  /** `latest` is looked up as the head commit that git reports. */
  lemma LatestIsHead(git: Git, rec: SourceRecord, head: string)
    requires Located(rec) && git.head == Output(head) && head != "" && head != "latest" && !IsTag(head)
    ensures Previous(git, rec, "latest") == Previous(git, rec, head)
  {
    assert !IsTag("latest");
  }

  /** When nothing can be looked up: there is no commit or no source, or git fails. */
  lemma PreviousFails(git: Git, rec: SourceRecord, commit: string)
    ensures commit == "" ==> Previous(git, rec, commit) == Raise(AssertionFailed)
    ensures commit != "" && rec.Path() == "" && rec.Url() == "" ==> Previous(git, rec, commit) == Raise(SourceTreeError)
    ensures commit != "" && rec.Url() != "" && git.pull == PullFailed ==> Previous(git, rec, commit) == Raise(CommandError)
    ensures Previous(git, rec, commit).Return? && IsTag(commit) ==> git.tagOutput.Output?
    ensures Previous(git, rec, commit).Return? && commit == "latest" ==> git.head.Output?
  {
    assert !IsTag("latest");
  }

  /** A checkout needs a source, a clone if there is no path, and git to know the commit, if any; and
      it is reported to be as expected if git shows the first eight characters of the commit. */
  lemma CheckoutExactly(git: Git, rec: SourceRecord)
    ensures Checkout(git, rec).Return? <==>
              && (rec.Path() != "" || (rec.Url() != "" && git.pull != PullFailed))
              && (rec.commitHash != "" ==> git.checkout(rec.commitHash).Output?)
    ensures Checkout(git, rec).Return? && rec.commitHash != "" ==>
              var expected := "HEAD is now at " + if |rec.commitHash| > 8 then rec.commitHash[..8] else rec.commitHash;
              Checkout(git, rec).value == Contains(git.checkout(rec.commitHash).text, expected)
  {
  }

  /** Whether the text has the part somewhere. */
  lemma {:induction false} ContainsIff(text: string, part: string)
    ensures Contains(text, part) <==> exists i :: 0 <= i <= |text| && part <= text[i..]
  {
    assert text[0..] == text;
    if text != "" {
      ContainsIff(text[1..], part);
      forall i | 0 <= i <= |text| ensures i > 0 ==> text[i..] == text[1..][i - 1..] {
      }
      if Contains(text[1..], part) {
        var i :| 0 <= i <= |text[1..]| && part <= text[1..][i..];
        assert text[i + 1..] == text[1..][i..];
      }
    }
  }

  /** A rev-list that git does not understand is an error, and so is one without any line. */
  lemma RevListRead(reply: GitReply)
    ensures ReadRevList(reply).Return? ==>
              && reply.Output? && !Contains(reply.text, "unknown revision or path not in the working tree.")
              && ReadRevList(reply).value in Split(reply.text, '\n') && ReadRevList(reply).value != ""
    ensures reply.CommandFailed? ==> ReadRevList(reply) == Raise(CommandError)
    ensures reply.Output? && Contains(reply.text, "unknown revision or path not in the working tree.") ==>
              ReadRevList(reply) == Raise(SourceTreeError)
  {
    if reply.Output? {
      LastNonBlankIsOne(Split(reply.text, '\n'));
    }
  }

  /** The tag of an image name is what follows its last colon, or all of it if there is none. */
  lemma TagFollowsLastColon(prefix: string, tag: string)
    requires ':' !in tag
    ensures ImageTag(tag) == tag && ImageTag(prefix + ":" + tag) == tag
  {
    SplitOne(tag, ':');
    LastPiece(prefix, ':', tag);
  }

  method CreateSourceTree(source: seq<SourceRepository>, id: SourceId, git: Git) returns (tree: SourceTree)
    requires !id.SrcUnspecified?
    ensures fresh(tree) && StandsFor(source, id, tree.repo)
    ensures !Names(source, id) ==> fresh(tree.repo)
    ensures tree.git == git && tree.queries == tree.checkouts == []
  {
    var repo := FindSource(source, id);
    tree := new SourceTree(repo.value, git);
  }

  class SourceManager {
    const control: JobControl
    const envoyTree: SourceTree
    const nighthawkTree: SourceTree

    /** One tree is made for each known source. */
    constructor (control: JobControl, envoyGit: Git, nighthawkGit: Git)
      ensures this.control == control && Valid()
      ensures fresh(envoyTree) && fresh(nighthawkTree)
      ensures !Names(control.source, SrcEnvoy) ==> fresh(envoyTree.repo)
      ensures envoyTree.git == envoyGit && envoyTree.queries == envoyTree.checkouts == []
    {
      var nighthawk := CreateSourceTree(control.source, SrcNighthawk, nighthawkGit);
      var envoy := CreateSourceTree(control.source, SrcEnvoy, envoyGit);
      this.control, envoyTree, nighthawkTree := control, envoy, nighthawk;
    }

    ghost predicate Valid()
      reads control.source, envoyTree.repo
    {
      envoyTree != nighthawkTree && StandsFor(control.source, SrcEnvoy, envoyTree.repo)
    }

    method GetImageHashesFromDiskSource(tree: SourceTree, commit: string) returns (r: Outcome<set<string>>)
      modifies tree`queries
      ensures tree.queries == old(tree.queries) + [commit]
      ensures match PredecessorOf(tree.git, tree.repo.rec, commit)
              case Return(hash) => r == Return({hash, commit})
              case Raise(error) => r == Raise(error)
    {
      var previous := tree.GetPreviousCommitHash(commit);
      if previous.Raise? {
        return if previous.error.SourceTreeError? then Raise(SourceManagerError) else Raise(previous.error);
      }
      if previous.value == "" {
        return Raise(SourceManagerError);
      }
      return Return({previous.value, commit});
    }

    method GetImageHash() returns (r: Outcome<string>)
      ensures r == BaselineHash(control.images, envoyTree.repo.rec, envoyTree.git)
    {
      if control.images.envoyImage != "" {
        return Return(ImageTag(control.images.envoyImage));
      } else {
        r := envoyTree.GetHeadHash();
      }
    }

    method DetermineEnvoyHashesFromSource() returns (r: Outcome<set<string>>)
      modifies envoyTree`queries
      ensures var images, rec, git := control.images, envoyTree.repo.rec, envoyTree.git;
              var hash := BaselineHash(images, rec, git);
              && (r.Return? <==> Fetchable(git, rec) && BaselinePredecessor(images, rec, git).Return?)
              && (r.Return? ==> r.value == {BaselinePredecessor(images, rec, git).value, hash.value})
              && envoyTree.queries == old(envoyTree.queries)
                                      + (if Fetchable(git, rec) && hash.Return? then [hash.value] else [])
    {
      var result := envoyTree.Pull();
      if result.Raise? {
        return Raise(result.error);
      }
      if !result.value {
        result := envoyTree.CopySourceDirectory();
        if !result.value {
          return Raise(SourceManagerError);
        }
      }
      var hash := GetImageHash();
      if hash.Raise? {
        return Raise(hash.error);
      }
      r := GetImageHashesFromDiskSource(envoyTree, hash.value);
    }

    /** find_all_images_from_specified_tags */
    method FindAllImagesFromSpecifiedTags() returns (r: Outcome<set<string>>)
      requires Valid()
      modifies envoyTree`queries
      ensures r.Return? <==> ImageSelectable(control.images, envoyTree.repo.rec, envoyTree.git)
      ensures r.Return? ==>
                r.value == NamedByImages(control.images)
                           + FoundForImages(control.images, envoyTree.repo.rec, envoyTree.git)
      ensures envoyTree.queries == old(envoyTree.queries)
                                   + ImageQueries(control.images, envoyTree.repo.rec, envoyTree.git)
    {
      // A missing NightHawk image asks for the NightHawk tree, which is always there.
      var images := control.images;
      if images.envoyImage == "" {
        return Return({});
      }
      if images.testSingleImage && images.additionalEnvoyImages != [] {
        return Raise(SourceManagerError);
      }
      if images.additionalEnvoyImages != [] {
        return Return(Tags(images.additionalEnvoyImages) + {ImageTag(images.envoyImage)});
      } else if images.testSingleImage {
        return Return({ImageTag(images.envoyImage)});
      } else {
        r := DetermineEnvoyHashesFromSource();
      }
    }

    /** find_all_images_from_specified_sources */
    method FindAllImagesFromSpecifiedSources() returns (r: Outcome<set<string>>)
      requires Valid()
      modifies envoyTree`queries
      ensures r.Return? <==> SourceSelectable(envoyTree.repo.rec, envoyTree.git)
      ensures r.Return? ==>
                r.value == NamedBySource(envoyTree.repo.rec)
                           + FoundForSource(envoyTree.repo.rec, envoyTree.git)
      ensures envoyTree.queries == old(envoyTree.queries) + SourceQueries(envoyTree.repo.rec)
    {
      var found := FindSource(control.source, SrcEnvoy);
      SameRecord(control.source, SrcEnvoy, found.value, envoyTree.repo);
      var rec := found.value.rec;
      if rec.testSingleCommit && rec.additionalHashes != [] {
        return Raise(SourceManagerError);
      }
      var hashSet: set<string> := {};
      if rec.additionalHashes != [] {
        hashSet := set hash | hash in rec.additionalHashes;
      }
      if rec.commitHash != "" && (rec.additionalHashes != [] || rec.testSingleCommit) {
        return Return(hashSet + {rec.commitHash});
      }
      if rec.commitHash != "" {
        r := GetImageHashesFromDiskSource(envoyTree, rec.commitHash);
      } else {
        return Return(hashSet);
      }
    }

    /** The selected hashes are those the document names and, on a side that names a lone
        commit or image without a flag, its predecessor. A side that names extras or sets its
        flag looks nothing up. */
    method GetEnvoyHashesForBenchmark() returns (r: Outcome<set<string>>)
      requires Valid()
      modifies envoyTree`queries
      ensures r.Return? <==> Selectable(control.images, envoyTree.repo.rec, envoyTree.git)
      ensures r.Return? ==>
                r.value == SelectedHashes(control.images, envoyTree.repo.rec, envoyTree.git)
      ensures r.Return? <==> CanSelect(control.images, envoyTree.repo.rec, envoyTree.git)
      ensures r.Return? ==>
                forall hash :: hash in r.value <==> IsSelected(control.images, envoyTree.repo.rec, envoyTree.git, hash)
      ensures envoyTree.queries == old(envoyTree.queries)
                                   + Queries(control.images, envoyTree.repo.rec, envoyTree.git)
    {
      SelectsExactly(control.images, envoyTree.repo.rec, envoyTree.git);
      var imageHashes := FindAllImagesFromSpecifiedTags();
      if imageHashes.Raise? {
        return Raise(imageHashes.error);
      }
      var sourceTags := FindAllImagesFromSpecifiedSources();
      if sourceTags.Raise? {
        return Raise(sourceTags.error);
      }
      return Return(imageHashes.value + sourceTags.value);
    }

    method HaveBuildOptions() returns (present: bool)
      requires Valid()
      ensures present <==> envoyTree.repo.rec.bazelOptions != []
    {
      var found := FindSource(control.source, SrcEnvoy);
      SameRecord(control.source, SrcEnvoy, found.value, envoyTree.repo);
      present := |found.value.rec.bazelOptions| >= 1;
    }
  }

  /** However often it is looked up, a source has the same contents. If the document names it,
      it is even the same object, which FirstIsUnique shows. */
  lemma SameRecord(source: seq<SourceRepository>, id: SourceId, a: SourceRepository, b: SourceRepository)
    requires StandsFor(source, id, a) && StandsFor(source, id, b)
    ensures a.rec == b.rec
    ensures Names(source, id) ==> a == b
  {
  }

  // ---- Predecessors on a linear history ----------------------------------------------------

  lemma {:induction false} ContainsKeepsChar(text: string, part: string, c: char)
    requires Contains(text, part) && c in part
    ensures c in text
  {
    if part <= text {
      var k :| 0 <= k < |part| && part[k] == c;
      assert text[k] == c;
    } else {
      ContainsKeepsChar(text[1..], part, c);
    }
  }

  lemma {:induction false} LinesHaveNoBlank(entries: seq<string>)
    requires forall e :: e in entries ==> NoSpace(e)
    ensures ' ' !in Lines(entries)
  {
    if entries != [] {
      assert NoSpace(entries[0]);
      LinesHaveNoBlank(entries[1..]);
    }
  }

  /** Git answers as rev-list does on a linear history; `blanks` are trailing blank lines. */
  ghost predicate AnswersFor(git: Git, history: seq<Commit>, i: nat, blanks: seq<string>) {
    && i < |history| && ProperHashes(history)
    && (forall b :: b in blanks ==> b == "")
    && git.revList(history[i].hash, 2) == Output(Lines(RevList(history, i, 2) + blanks))
  }

  lemma ReadRevListOfHistory(git: Git, history: seq<Commit>, i: nat, blanks: seq<string>)
    requires AnswersFor(git, history, i, blanks)
    ensures ReadRevList(git.revList(history[i].hash, 2))
         == match ScannedHash(history, i, blanks)
            case Some(hash) => Return(hash)
            case None => Raise(SourceTreeError)
  {
    var entries := RevList(history, i, 2) + blanks;
    FilteredFacts(history[i..]);
    forall e | e in entries ensures NoSpace(e) {
      assert e in blanks || e in Filtered(history[i..]);
    }
    LinesHaveNoBlank(entries);
    if Contains(Lines(entries), UNKNOWN_REVISION) {
      assert UNKNOWN_REVISION[7] == ' ';
      ContainsKeepsChar(Lines(entries), UNKNOWN_REVISION, ' ');
    }
  }

  /** A plain commit hash of a source that can be reached. */
  predicate Plain(git: Git, rec: SourceRecord, commit: string) {
    && Located(rec) && !(rec.Url() != "" && git.pull.PullFailed?)
    && commit != "" && commit != "latest" && !IsTag(commit)
  }

  /** The benchmark pair holds the nearest older passing commit exactly when the current commit
      passes the filter or nothing that passes is older still; it then has two elements. */
  lemma PairWithNearestOlderIff(git: Git, rec: SourceRecord, history: seq<Commit>, i: nat, j: nat, blanks: seq<string>)
    requires AnswersFor(git, history, i, blanks) && Plain(git, rec, history[i].hash)
    requires NearestOlder(history, i, j)
    ensures PredecessorOf(git, rec, history[i].hash) == Return(history[j].hash)
       <==> Passes(history[i]) || forall k :: j < k < |history| ==> !Passes(history[k])
    ensures |{history[j].hash, history[i].hash}| == 2
  {
    ReadRevListOfHistory(git, history, i, blanks);
    ScannedHashIsNearestOlderIff(history, i, j, blanks);
    assert history[j] in history;
    assert history[i].hash != history[j].hash;
  }

  /** When the condition fails, the pair holds the second nearest older passing commit. */
  lemma PairSkipsNearestOlder(git: Git, rec: SourceRecord, history: seq<Commit>, i: nat, j: nat, k: nat, blanks: seq<string>)
    requires AnswersFor(git, history, i, blanks) && Plain(git, rec, history[i].hash)
    requires !Passes(history[i]) && NearestOlder(history, i, j) && NearestOlder(history, j, k)
    ensures PredecessorOf(git, rec, history[i].hash) == Return(history[k].hash)
    ensures history[k].hash != history[j].hash
  {
    ReadRevListOfHistory(git, history, i, blanks);
    ScannedHashIsLast(history, i, blanks);
    RevListOfNextTwo(history, i, j, k);
    assert history[k] in history;
  }

  function SkippingHistory(): seq<Commit> {
    [Commit("c2", false, false), Commit("c1", false, true), Commit("c0", false, true)]
  }

  function SkippingGit(): Git {
    Git(UpToDateOrCloned, CommandFailed, CommandFailed,
        (commit, max) => Output(Lines(RevList(SkippingHistory(), 0, 2) + [])), hash => CommandFailed)
  }

  /** It does fail: GitHub did not commit c2, and c2 is paired with c0 instead of c1. */
  lemma PairSkipsExample(rec: SourceRecord)
    requires Located(rec)
    ensures AnswersFor(SkippingGit(), SkippingHistory(), 0, []) && NearestOlder(SkippingHistory(), 0, 1)
    ensures PredecessorOf(SkippingGit(), rec, "c2") == Return("c0")
  {
    SkippingFacts();
    PairSkipsNearestOlder(SkippingGit(), rec, SkippingHistory(), 0, 1, 2, []);
  }

  lemma SkippingFacts()
    ensures ProperHashes(SkippingHistory()) && !Passes(SkippingHistory()[0])
    ensures NearestOlder(SkippingHistory(), 0, 1) && NearestOlder(SkippingHistory(), 1, 2)
  {
  }

  /** Without an older passing commit there is no pair: a passing commit is its own
      predecessor, and for one that does not pass the search raises. */
  lemma PairWithoutOlder(git: Git, rec: SourceRecord, history: seq<Commit>, i: nat, blanks: seq<string>)
    requires AnswersFor(git, history, i, blanks) && Plain(git, rec, history[i].hash)
    requires forall k :: i < k < |history| ==> !Passes(history[k])
    ensures PredecessorOf(git, rec, history[i].hash)
         == if Passes(history[i]) then Return(history[i].hash) else Raise(SourceManagerError)
  {
    ReadRevListOfHistory(git, history, i, blanks);
    ScannedHashWithoutOlder(history, i, blanks);
    assert history[i] in history;
  }

  /** For a release tag, the predecessor is the greatest smaller tag that git listed; a tag
      without one has no predecessor. */
  lemma PredecessorOfTag(git: Git, rec: SourceRecord, listed: seq<string>, less: (string, string) -> bool, tag: string)
    requires Located(rec) && !(rec.Url() != "" && git.pull.PullFailed?) && IsTag(tag)
    requires git.tagOutput == Output(Lines(listed)) && forall t :: t in listed ==> NoSpace(t)
    requires Ascending(NonBlank(listed), less)
    ensures var tags := NonBlank(listed);
            match PredecessorOf(git, rec, tag)
            case Return(found) => && tag in tags && found in tags && less(found, tag)
                                  && forall t :: t in tags && less(t, tag) ==> t == found || less(t, found)
            case Raise(error) => error == SourceManagerError && (tag !in tags || Below(tags, less, tag) == {})
  {
    var tags := NonBlank(listed);
    ListTagsOfLines(listed);
    NonBlankHasNoBlank(listed);
    TagBeforeRank(tags, less, tag, 1);
    forall t | tag in tags && t in tags && less(t, tag)
      ensures var found := TagBefore(tags, tag, 1); t == found || less(t, found)
    {
      TagBeforeIsGreatestSmaller(tags, less, tag, t);
    }
  }

  lemma {:induction false} NonBlankHasNoBlank(entries: seq<string>)
    ensures "" !in NonBlank(entries)
  {
    if entries != [] {
      NonBlankHasNoBlank(entries[1..]);
    }
  }
}
