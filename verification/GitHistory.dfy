/** Finding the predecessor of a commit or of a release tag in a git source tree. */
module GitHistory {
  import opened Wrappers
  import opened Collections
  import opened Strings
  import opened Decimal

  // ---- Release tags ------------------------------------------------------------------------

  /** The end of the run of digits that starts at `i`. */
  function DigitsEnd(s: string, i: nat): (end: nat)
    requires i <= |s|
    ensures i <= end <= |s|
    ensures forall k :: i <= k < end ==> IsDigit(s[k])
    ensures end < |s| ==> !IsDigit(s[end])
    decreases |s| - i
  {
    if i < |s| && IsDigit(s[i]) then DigitsEnd(s, i + 1) else i
  }

  /** A match of `^v\d\.\d+\.\d+` at the start of the string, found greedily. */
  predicate IsTag(tag: string) {
    && |tag| > 3 && tag[0] == 'v' && IsDigit(tag[1]) && tag[2] == '.'
    && var end := DigitsEnd(tag, 3);
       end > 3 && end + 1 < |tag| && tag[end] == '.' && IsDigit(tag[end + 1])
  }

  predicate Digits(s: string) {
    s != "" && forall c :: c in s ==> IsDigit(c)
  }

  /** The language of the expression: v, one digit, and two more dotted runs of digits; anything
      may follow. */
  ghost predicate InTagLanguage(tag: string) {
    exists major: char, minor: string, patch: string, rest: string ::
      && IsDigit(major) && Digits(minor) && Digits(patch)
      && tag == ['v', major, '.'] + minor + ['.'] + patch + rest
  }

  lemma TagIsInLanguage(tag: string)
    requires IsTag(tag)
    ensures InTagLanguage(tag)
  {
    var end := DigitsEnd(tag, 3);
    var minor, patch, rest := tag[3..end], tag[end + 1..end + 2], tag[end + 2..];
    assert tag[..3] == ['v', tag[1], '.'];
    assert tag[..end] == tag[..3] + minor;
    assert tag[..end + 1] == tag[..end] + ['.'];
    assert tag == tag[..end + 1] + patch + rest;
    assert IsDigit(tag[1]) && Digits(minor) && Digits(patch);
  }

  lemma LanguageIsTag(major: char, minor: string, patch: string, rest: string)
    requires IsDigit(major) && Digits(minor) && Digits(patch)
    ensures IsTag(['v', major, '.'] + minor + ['.'] + patch + rest)
  {
    var tag, n := ['v', major, '.'] + minor + ['.'] + patch + rest, |minor|;
    assert forall k :: 0 <= k < n ==> tag[3 + k] == minor[k];
    assert tag[3 + n] == '.';
    assert tag[4 + n] == patch[0];
    assert DigitsEnd(tag, 3) == 3 + n;
  }

  lemma IsTagIffInLanguage(tag: string)
    ensures IsTag(tag) <==> InTagLanguage(tag)
  {
    if IsTag(tag) {
      TagIsInLanguage(tag);
    }
    if InTagLanguage(tag) {
      var major: char, minor: string, patch: string, rest: string :|
        && IsDigit(major) && Digits(minor) && Digits(patch)
        && tag == ['v', major, '.'] + minor + ['.'] + patch + rest;
      LanguageIsTag(major, minor, patch, rest);
    }
  }

  predicate IsSpace(c: char) {
    c == ' ' || c == '\t' || c == '\n' || c == '\r'
  }

  function StripLeft(s: string): string {
    if s != "" && IsSpace(s[0]) then StripLeft(s[1..]) else s
  }

  function StripRight(s: string): string {
    if s != "" && IsSpace(Last(s)) then StripRight(s[..|s| - 1]) else s
  }

  lemma {:induction false} StripLeftOf(blanks: string, s: string)
    requires (forall c :: c in blanks ==> IsSpace(c)) && (s == "" || !IsSpace(s[0]))
    ensures StripLeft(blanks + s) == s
  {
    if blanks == "" {
      assert blanks + s == s;
    } else {
      assert blanks[0] in blanks && (blanks + s)[1..] == blanks[1..] + s;
      StripLeftOf(blanks[1..], s);
    }
  }

  /** Stripping takes away the blanks on both sides and nothing else. */
  lemma {:induction false} StripRightOf(s: string, blanks: string)
    requires (forall c :: c in blanks ==> IsSpace(c)) && (s == "" || !IsSpace(Last(s)))
    ensures StripRight(s + blanks) == s
  {
    if blanks == "" {
      assert s + blanks == s;
    } else {
      var front := blanks[..|blanks| - 1];
      assert Last(blanks) in blanks && (s + blanks)[..|s + blanks| - 1] == s + front;
      StripRightOf(s, front);
    }
  }

  /** `[tag.strip() for tag in lines if tag]` */
  function NonBlankStripped(lines: seq<string>): seq<string> {
    if lines == [] then []
    else (if lines[0] == "" then [] else [StripRight(StripLeft(lines[0]))]) + NonBlankStripped(lines[1..])
  }

  function ListTags(output: string): seq<string> {
    NonBlankStripped(Split(output, '\n'))
  }

  /** The entries, one to a line. Blank entries are blank lines. */
  function Lines(entries: seq<string>): string {
    if entries == [] then "" else entries[0] + ['\n'] + Lines(entries[1..])
  }

  predicate NoSpace(s: string) {
    forall c :: c in s ==> !IsSpace(c)
  }

  lemma {:induction false} SplitLines(entries: seq<string>)
    requires forall e :: e in entries ==> NoSpace(e)
    ensures Split(Lines(entries), '\n') == entries + [""]
  {
    if entries != [] {
      var line, rest := entries[0], entries[1..];
      assert NoSpace(line);
      SplitLines(rest);
      SplitAfterPiece(line, '\n', Lines(rest));
      AppendAssociative([line], rest, [""]);
      assert entries == [line] + rest;
    }
  }

  function NonBlank(entries: seq<string>): seq<string> {
    if entries == [] then []
    else (if entries[0] == "" then [] else [entries[0]]) + NonBlank(entries[1..])
  }

  lemma {:induction false} StripNothing(lines: seq<string>)
    requires forall e :: e in lines ==> NoSpace(e)
    ensures NonBlankStripped(lines) == NonBlank(lines)
  {
    if lines != [] {
      var line := lines[0];
      assert line in lines && NoSpace(line);
      assert line != "" ==> line[0] in line && Last(line) in line;
      StripNothing(lines[1..]);
    }
  }

  lemma {:induction false} NonBlankConcat(a: seq<string>, b: seq<string>)
    ensures NonBlank(a + b) == NonBlank(a) + NonBlank(b)
  {
    if a == [] {
      assert a + b == b;
    } else {
      assert (a + b)[1..] == a[1..] + b;
      NonBlankConcat(a[1..], b);
    }
  }

  /** Reading git's tag listing gives back the tags that were printed, blank lines apart. */
  lemma ListTagsOfLines(entries: seq<string>)
    requires forall e :: e in entries ==> NoSpace(e)
    ensures ListTags(Lines(entries)) == NonBlank(entries)
  {
    SplitLines(entries);
    StripNothing(entries + [""]);
    NonBlankConcat(entries, [""]);
  }

  // ---- The predecessor of a tag ------------------------------------------------------------

  /** The position of the last occurrence of `x`, counted from the end; `|s|` if there is none. */
  function FromEnd(s: seq<string>, x: string): (d: nat)
    ensures d <= |s|
    ensures d < |s| ==> s[|s| - 1 - d] == x
    ensures forall k :: |s| - d <= k < |s| ==> s[k] != x
  {
    if s == [] || Last(s) == x then 0 else 1 + FromEnd(s[..|s| - 1], x)
  }

  /** `revisions` places before the last occurrence of `current`; '' if there is no such place.
      With `revisions` 0 it is the last tag of all, whatever `current` is. */
  function TagBefore(tags: seq<string>, current: string, revisions: int): string {
    var i := |tags| - 1 - FromEnd(tags, current);
    if revisions == 0 && tags != [] then Last(tags)
    else if revisions >= 1 && revisions <= i then tags[i - revisions]
    else ""
  }

  /** get_previous_tag, after the tags were listed: walk back from the newest, look for the
      current one, and then count down. Err is the SourceTreeError for a name of the wrong
      form. */
  method GetPreviousTag(tags: seq<string>, current: string, revisions: int) returns (r: Result<string>)
    ensures r == if IsTag(current) then Ok(TagBefore(tags, current, revisions)) else Err
  {
    if !IsTag(current) {
      return Err;
    }
    var countPrevious := false;
    var left := revisions;
    var n := |tags|;
    for k := 0 to n
      invariant !countPrevious ==> left == revisions && forall j :: n - k <= j < n ==> tags[j] != current
      invariant revisions == 0 ==> k == 0
      invariant countPrevious ==> FromEnd(tags, current) < k && left == revisions - (k - 1 - FromEnd(tags, current))
      invariant countPrevious && revisions >= 1 ==> left >= 1
    {
      var tag := tags[n - 1 - k];
      if countPrevious {
        left := left - 1;
      }
      if left == 0 {
        return Ok(tag);
      }
      if tag == current {
        countPrevious := true;
      }
    }
    return Ok("");
  }

  // ---- Rank of the result ------------------------------------------------------------------

  /** The tags strictly between two names, in git's version order. */
  ghost function Between(tags: seq<string>, less: (string, string) -> bool, low: string, high: string): set<string> {
    set tag | tag in tags && less(low, tag) && less(tag, high)
  }

  ghost function Below(tags: seq<string>, less: (string, string) -> bool, high: string): set<string> {
    set tag | tag in tags && less(tag, high)
  }

  /** Listed in strictly ascending version order. */
  ghost predicate Ascending(tags: seq<string>, less: (string, string) -> bool) {
    forall i, j :: 0 <= i < |tags| && 0 <= j < |tags| ==> (less(tags[i], tags[j]) <==> i < j)
  }

  lemma AscendingPosition(tags: seq<string>, less: (string, string) -> bool, i: nat)
    requires Ascending(tags, less) && i < |tags|
    ensures FromEnd(tags, tags[i]) == |tags| - 1 - i
  {
  }

  lemma BelowSize(tags: seq<string>, less: (string, string) -> bool, i: nat)
    requires Ascending(tags, less) && i < |tags|
    ensures |Below(tags, less, tags[i])| == i
  {
    var order := tags[..i];
    forall x ensures x in order <==> x in Below(tags, less, tags[i]) {
      if x in Below(tags, less, tags[i]) {
        var j :| 0 <= j < |tags| && tags[j] == x;
        assert order[j] == x;
      }
    }
    AscendingDistinct(tags, less);
    EnumerationLength(order, Below(tags, less, tags[i]));
  }

  lemma BetweenSize(tags: seq<string>, less: (string, string) -> bool, i: nat, j: nat)
    requires Ascending(tags, less) && i < j < |tags|
    ensures |Between(tags, less, tags[i], tags[j])| == j - i - 1
  {
    var order := tags[i + 1..j];
    forall x ensures x in order <==> x in Between(tags, less, tags[i], tags[j]) {
      if x in Between(tags, less, tags[i], tags[j]) {
        var k :| 0 <= k < |tags| && tags[k] == x;
        assert order[k - i - 1] == x;
      }
    }
    AscendingDistinct(tags, less);
    EnumerationLength(order, Between(tags, less, tags[i], tags[j]));
  }

  lemma AscendingDistinct(tags: seq<string>, less: (string, string) -> bool)
    requires Ascending(tags, less)
    ensures NoDuplicates(tags)
  {
  }

  /** Going back `revisions` >= 1 gives a tag with exactly `revisions` - 1 tags between it and
      the current one, or '' exactly when the current tag is not listed or has fewer than
      `revisions` tags below it. */
  lemma TagBeforeRank(tags: seq<string>, less: (string, string) -> bool, current: string, revisions: int)
    requires Ascending(tags, less) && "" !in tags && revisions >= 1
    ensures var found := TagBefore(tags, current, revisions);
            && (found == "" <==> current !in tags || |Below(tags, less, current)| < revisions)
            && (found != "" ==> found in tags && less(found, current)
                                && |Between(tags, less, found, current)| == revisions - 1)
  {
    if current in tags {
      var i :| 0 <= i < |tags| && tags[i] == current;
      AscendingPosition(tags, less, i);
      BelowSize(tags, less, i);
      if revisions <= i {
        assert TagBefore(tags, current, revisions) == tags[i - revisions];
        BetweenSize(tags, less, i - revisions, i);
        assert less(tags[i - revisions], tags[i]);
      }
    } else {
      assert FromEnd(tags, current) == |tags|;
    }
  }

  /** Going back no revision gives the newest tag of all; going back a negative number gives none. */
  lemma TagBeforeEdge(tags: seq<string>, current: string, revisions: int)
    requires revisions <= 0
    ensures TagBefore(tags, current, revisions) == if revisions == 0 && |tags| >= 1 then tags[|tags| - 1] else ""
  {
  }

  /** The default, one revision back, is the greatest smaller tag. */
  lemma TagBeforeIsGreatestSmaller(tags: seq<string>, less: (string, string) -> bool, current: string, tag: string)
    requires Ascending(tags, less) && "" !in tags
    requires current in tags && tag in tags && less(tag, current)
    ensures var found := TagBefore(tags, current, 1);
            found in tags && less(found, current) && (tag == found || less(tag, found))
  {
  }

  // ---- The predecessor of a commit ---------------------------------------------------------

  datatype Commit = Commit(hash: string, merge: bool, byGitHub: bool)

  /** What `--no-merges --committer='GitHub <noreply@github.com>'` lets through. */
  predicate Passes(c: Commit) {
    !c.merge && c.byGitHub
  }

  /** The hashes of the passing commits of a linear history, newest first. */
  function Filtered(history: seq<Commit>): seq<string> {
    if history == [] then []
    else (if Passes(history[0]) then [history[0].hash] else []) + Filtered(history[1..])
  }

  /** rev-list with a maximum count: filter first, then take. */
  function RevList(history: seq<Commit>, start: nat, max: nat): seq<string>
    requires start <= |history|
  {
    var passing := Filtered(history[start..]);
    if |passing| <= max then passing else passing[..max]
  }

  /** The last entry that is not blank. */
  function LastNonBlank(entries: seq<string>): Option<string> {
    if entries == [] then None
    else if Last(entries) != "" then Some(Last(entries))
    else LastNonBlank(entries[..|entries| - 1])
  }

  lemma {:induction false} LastNonBlankIsOne(entries: seq<string>)
    ensures LastNonBlank(entries).Some? ==>
              LastNonBlank(entries).value in entries && LastNonBlank(entries).value != ""
  {
    if entries != [] {
      LastNonBlankIsOne(entries[..|entries| - 1]);
    }
  }

  /** The scan over git's output, from the last line up. */
  method ScanBackwards(text: string) returns (r: Option<string>)
    ensures r == LastNonBlank(Split(text, '\n'))
  {
    var lines := Split(text, '\n');
    var k := |lines|;
    assert lines[..k] == lines;
    while k > 0
      invariant k <= |lines|
      invariant LastNonBlank(lines) == LastNonBlank(lines[..k])
    {
      assert lines[..k][..k - 1] == lines[..k - 1];
      k := k - 1;
      if lines[k] != "" {
        return Some(lines[k]);
      }
    }
    return None;
  }

  lemma {:induction false} LastNonBlankSkips(entries: seq<string>, blanks: seq<string>)
    requires forall b :: b in blanks ==> b == ""
    ensures LastNonBlank(entries + blanks) == LastNonBlank(entries)
  {
    if blanks == [] {
      assert entries + blanks == entries;
    } else {
      var n := |blanks| - 1;
      assert blanks[n] in blanks && forall b :: b in blanks[..n] ==> b in blanks;
      assert Last(entries + blanks) == blanks[n];
      assert (entries + blanks)[..|entries| + n] == entries + blanks[..n];
      LastNonBlankSkips(entries, blanks[..n]);
    }
  }

  /** Scanning a listing, trailing blank lines included, finds its last entry. */
  lemma ScanOfListing(listing: seq<string>, blanks: seq<string>)
    requires forall h :: h in listing ==> h != "" && NoSpace(h)
    requires forall b :: b in blanks ==> b == ""
    ensures LastNonBlank(Split(Lines(listing + blanks), '\n'))
         == if listing == [] then None else Some(Last(listing))
  {
    SplitLines(listing + blanks);
    assert listing + blanks + [""] == listing + (blanks + [""]);
    LastNonBlankSkips(listing, blanks + [""]);
    assert listing != [] ==> Last(listing) in listing;
  }

  ghost predicate ProperHashes(history: seq<Commit>) {
    && (forall c :: c in history ==> c.hash != "" && NoSpace(c.hash))
    && forall i, j :: 0 <= i < j < |history| ==> history[i].hash != history[j].hash
  }

  /** Commit `j` is the nearest passing commit older than commit `i`. */
  ghost predicate NearestOlder(history: seq<Commit>, i: nat, j: nat) {
    i < j < |history| && Passes(history[j]) && forall k :: i < k < j ==> !Passes(history[k])
  }

  lemma {:induction false} FilteredFacts(history: seq<Commit>)
    ensures forall h :: h in Filtered(history) ==>
              exists j :: 0 <= j < |history| && Passes(history[j]) && history[j].hash == h
    ensures Filtered(history) == [] <==> forall c :: c in history ==> !Passes(c)
  {
    if history != [] {
      FilteredFacts(history[1..]);
      assert history == [history[0]] + history[1..];
    }
  }

  lemma {:induction false} FilteredFirst(history: seq<Commit>, j: nat)
    requires j < |history| && Passes(history[j]) && forall k :: 0 <= k < j ==> !Passes(history[k])
    ensures Filtered(history) == [history[j].hash] + Filtered(history[j + 1..])
  {
    if j > 0 {
      FilteredFirst(history[1..], j - 1);
      assert history[1..][j..] == history[j + 1..];
    }
  }

  lemma FilteredFrom(history: seq<Commit>, i: nat, j: nat)
    requires NearestOlder(history, i, j)
    ensures Filtered(history[i..])
         == (if Passes(history[i]) then [history[i].hash] else [])
            + ([history[j].hash] + Filtered(history[j + 1..]))
  {
    var older := history[i + 1..];
    assert history[i..][1..] == older && older[j - i - 1] == history[j];
    FilteredFirst(older, j - i - 1);
    assert older[j - i..] == history[j + 1..];
  }

  /** The text that git prints for a rev-list, blank lines after it included, and the hash that
      the scan finds in it. */
  function ScannedHash(history: seq<Commit>, i: nat, blanks: seq<string>): Option<string>
    requires i < |history|
  {
    LastNonBlank(Split(Lines(RevList(history, i, 2) + blanks), '\n'))
  }

  lemma ScannedHashIsLast(history: seq<Commit>, i: nat, blanks: seq<string>)
    requires ProperHashes(history) && i < |history|
    requires forall b :: b in blanks ==> b == ""
    ensures var listing := RevList(history, i, 2);
            ScannedHash(history, i, blanks) == if listing == [] then None else Some(Last(listing))
  {
    var listing := RevList(history, i, 2);
    FilteredFacts(history[i..]);
    forall h | h in listing ensures h != "" && NoSpace(h) {
      assert h in Filtered(history[i..]);
    }
    ScanOfListing(listing, blanks);
  }

  lemma RevListOfTwo(history: seq<Commit>, i: nat, j: nat)
    requires NearestOlder(history, i, j)
    ensures var older := Filtered(history[j + 1..]);
            RevList(history, i, 2) == if Passes(history[i]) then [history[i].hash, history[j].hash]
                                      else if older == [] then [history[j].hash]
                                      else [history[j].hash, older[0]]
  {
    FilteredFrom(history, i, j);
  }

  lemma RevListOfNextTwo(history: seq<Commit>, i: nat, j: nat, k: nat)
    requires NearestOlder(history, i, j) && NearestOlder(history, j, k) && !Passes(history[i])
    ensures RevList(history, i, 2) == [history[j].hash, history[k].hash]
  {
    RevListOfTwo(history, i, j);
    var older := history[j + 1..];
    assert older[k - j - 1] == history[k];
    FilteredFirst(older, k - j - 1);
  }

  lemma OlderHashes(history: seq<Commit>, j: nat)
    requires ProperHashes(history) && j < |history|
    ensures Filtered(history[j + 1..]) == [] <==> forall k :: j < k < |history| ==> !Passes(history[k])
    ensures history[j].hash !in Filtered(history[j + 1..])
  {
    var older := history[j + 1..];
    FilteredFacts(older);
    assert forall k :: 0 <= k < |older| ==> older[k] == history[j + 1 + k];
    assert forall k :: j < k < |history| ==> history[k] == older[k - j - 1];
  }

  /** The scan finds the nearest older passing commit exactly when the current commit passes
      the filter itself, or nothing that passes is older still. */
  lemma ScannedHashIsNearestOlderIff(history: seq<Commit>, i: nat, j: nat, blanks: seq<string>)
    requires ProperHashes(history) && NearestOlder(history, i, j)
    requires forall b :: b in blanks ==> b == ""
    ensures ScannedHash(history, i, blanks) == Some(history[j].hash)
       <==> Passes(history[i]) || forall k :: j < k < |history| ==> !Passes(history[k])
  {
    ScannedHashIsLast(history, i, blanks);
    RevListOfTwo(history, i, j);
    OlderHashes(history, j);
  }

  /** With no older passing commit, the current commit is returned as its own predecessor if it
      passes, and nothing is found if it does not. */
  lemma ScannedHashWithoutOlder(history: seq<Commit>, i: nat, blanks: seq<string>)
    requires ProperHashes(history) && i < |history|
    requires forall k :: i < k < |history| ==> !Passes(history[k])
    requires forall b :: b in blanks ==> b == ""
    ensures ScannedHash(history, i, blanks) == if Passes(history[i]) then Some(history[i].hash) else None
  {
    ScannedHashIsLast(history, i, blanks);
    FilteredFacts(history[i + 1..]);
    assert history[i..][1..] == history[i + 1..];
  }
}
