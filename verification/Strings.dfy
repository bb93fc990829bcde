/** The string operations that the Go and the Python sources share: joining, and splitting
    at one character. */
module Strings {
  import opened Collections

  function IndexOf(s: string, c: char): (i: nat)
    requires c in s
    ensures i < |s| && s[i] == c && c !in s[..i]
  {
    if s[0] == c then 0 else 1 + IndexOf(s[1..], c)
  }

  /** Python `s.split(c)`: there is always at least one piece. */
  function Split(s: string, c: char): (pieces: seq<string>)
    ensures |pieces| >= 1
  {
    if c !in s then [s]
    else
      var i := IndexOf(s, c);
      [s[..i]] + Split(s[i + 1..], c)
  }

  /** Go `strings.Join(items, sep)` for a one-character separator. */
  function Join(items: seq<string>, sep: char): string {
    if |items| == 0 then ""
    else if |items| == 1 then items[0]
    else items[0] + [sep] + Join(items[1..], sep)
  }

  lemma SplitAfterPiece(piece: string, c: char, rest: string)
    requires c !in piece
    ensures Split(piece + [c] + rest, c) == [piece] + Split(rest, c)
  {
    var s := piece + [c] + rest;
    assert s[|piece|] == c;
    var i := IndexOf(s, c);
    assert forall k :: 0 <= k < |piece| ==> s[k] == piece[k];
    assert forall k :: 0 <= k < i ==> s[k] in s[..i];
    assert i == |piece|;
    assert s[..i] == piece && s[i + 1..] == rest;
  }

  lemma {:induction false} SplitJoin(items: seq<string>, c: char)
    requires |items| > 0
    requires forall item :: item in items ==> c !in item
    ensures Split(Join(items, c), c) == items
  {
    if |items| > 1 {
      SplitAfterPiece(items[0], c, Join(items[1..], c));
      SplitJoin(items[1..], c);
    }
  }

  lemma SplitOne(s: string, c: char)
    requires c !in s
    ensures Split(s, c) == [s]
  {
  }

  lemma CutAtIndex(s: string, c: char, rest: string)
    requires c in s
    ensures var i := IndexOf(s, c);
            s + [c] + rest == s[..i] + [c] + (s[i + 1..] + [c] + rest)
  {
    var i := IndexOf(s, c);
    var head, tail := s[..i], s[i + 1..];
    assert s == head + [c] + tail;
    AppendAssociative(head + [c], tail, [c]);
    AppendAssociative(head + [c], tail + [c], rest);
  }

  /** What follows the last separator is the last piece. */
  lemma {:induction false} LastPiece(prefix: string, c: char, rest: string)
    requires c !in rest
    ensures Last(Split(prefix + [c] + rest, c)) == rest
    decreases |prefix|
  {
    hide Split;
    if c in prefix {
      var i := IndexOf(prefix, c);
      var head, tail := prefix[..i], prefix[i + 1..] + [c] + rest;
      CutAtIndex(prefix, c, rest);
      SplitAfterPiece(head, c, tail);
      LastPiece(prefix[i + 1..], c, rest);
    } else {
      SplitAfterPiece(prefix, c, rest);
      SplitOne(rest, c);
    }
  }

  /** Equal sums with a separator that neither left part contains split the same way. */
  lemma SplitUnique(a: string, b: string, c: char, x: string, y: string)
    requires c !in a && c !in b
    requires a + [c] + x == b + [c] + y
    ensures a == b && x == y
  {
    var s := a + [c] + x;
    var t := b + [c] + y;
    assert s[|a|] == c && t[|b|] == c;
    assert forall k :: 0 <= k < |a| ==> s[k] == a[k];
    assert forall k :: 0 <= k < |b| ==> t[k] == b[k];
    assert |a| == |b|;
    assert a == s[..|a|] == t[..|b|] == b;
    assert x == s[|a| + 1..] == t[|b| + 1..] == y;
  }
}
