/** The options that a builder hands to bazel. */
module BazelOptions {
  import opened Collections

  const OPTIMIZED: string := "-c opt"

  predicate SetsMode(option: string) {
    "-c" <= option
  }

  /** The first occurrences, in order. */
  function Dedup(params: seq<string>): seq<string> {
    if params == [] then []
    else
      var front := Dedup(params[..|params| - 1]);
      if Last(params) in front then front else front + [Last(params)]
  }

  function Options(params: seq<string>): seq<string> {
    Dedup(params) + if exists p :: p in params && SetsMode(p) then [] else [OPTIMIZED]
  }

  /** _generate_bazel_options, before the options are joined with blanks. */
  method GenerateBazelOptions(params: seq<string>) returns (options: seq<string>)
    ensures options == Options(params)
  {
    options := [];
    var optimizedBuilds := true;
    for i := 0 to |params|
      invariant options == Dedup(params[..i])
      invariant optimizedBuilds <==> forall p :: p in params[..i] ==> !SetsMode(p)
    {
      PrefixStep(params, i);
      assert (params[..i] + [params[i]])[..i] == params[..i];
      if params[i] !in options {
        options := options + [params[i]];
      }
      if optimizedBuilds && SetsMode(params[i]) {
        optimizedBuilds := false;
      }
    }
    assert params[..|params|] == params;
    if optimizedBuilds {
      options := options + [OPTIMIZED];
    }
  }

  lemma {:induction false} DedupFacts(params: seq<string>)
    ensures NoDuplicates(Dedup(params))
    ensures forall p :: p in Dedup(params) <==> p in params
  {
    if params != [] {
      var front := params[..|params| - 1];
      DedupFacts(front);
      assert params == front + [Last(params)];
    }
  }

  lemma {:induction false} DedupOfDistinct(params: seq<string>)
    requires NoDuplicates(params)
    ensures Dedup(params) == params
  {
    if params != [] {
      DedupOfDistinct(params[..|params| - 1]);
    }
  }

  /** The position of the first occurrence. */
  function First(params: seq<string>, p: string): nat
    requires p in params
  {
    if params[0] == p then 0 else 1 + First(params[1..], p)
  }

  lemma {:induction false} FirstInFront(front: seq<string>, last: string, p: string)
    requires p in front
    ensures First(front + [last], p) == First(front, p) < |front|
  {
    if front[0] != p {
      assert (front + [last])[1..] == front[1..] + [last];
      FirstInFront(front[1..], last, p);
    }
  }

  lemma {:induction false} FirstIsLast(front: seq<string>, last: string)
    requires last !in front
    ensures First(front + [last], last) == |front|
  {
    if front != [] {
      assert (front + [last])[1..] == front[1..] + [last];
      FirstIsLast(front[1..], last);
    }
  }

  /** Each parameter appears once, and they keep the order of their first occurrences. */
  lemma {:induction false} DedupKeepsOrder(params: seq<string>, i: nat, j: nat)
    requires i < j < |Dedup(params)|
    ensures Dedup(params)[i] in params && Dedup(params)[j] in params
    ensures First(params, Dedup(params)[i]) < First(params, Dedup(params)[j])
  {
    var front, last := params[..|params| - 1], Last(params);
    assert params == front + [last];
    DedupFacts(front);
    DedupFacts(params);
    var a, b := Dedup(params)[i], Dedup(params)[j];
    FirstInFront(front, last, a);
    if j < |Dedup(front)| {
      DedupKeepsOrder(front, i, j);
      FirstInFront(front, last, b);
    } else {
      FirstIsLast(front, last);
    }
  }

  lemma SetsModeText(option: string)
    ensures SetsMode(option) <==> |option| >= 2 && option[..2] == "-c"
  {
  }

  /** The parameters come first, each once; `-c opt` follows exactly if none of them starts with
      `-c`. */
  lemma OptionsExactly(params: seq<string>)
    ensures NoDuplicates(Dedup(params)) && forall p :: p in Dedup(params) <==> p in params
    ensures (exists p :: p in params && |p| >= 2 && p[..2] == "-c") ==> Options(params) == Dedup(params)
    ensures (forall p :: p in params ==> !(|p| >= 2 && p[..2] == "-c")) ==> Options(params) == Dedup(params) + ["-c opt"]
  {
    DedupFacts(params);
    forall p ensures SetsMode(p) <==> |p| >= 2 && p[..2] == "-c" {
      SetsModeText(p);
    }
  }

  /** No option is there twice, and options generated from the generated options are the same again. */
  lemma OptionsStable(params: seq<string>)
    ensures NoDuplicates(Options(params))
    ensures OPTIMIZED in Options(params) <==> OPTIMIZED in params || forall p :: p in params ==> !SetsMode(p)
    ensures Options(Options(params)) == Options(params)
  {
    DedupFacts(params);
    assert SetsMode(OPTIMIZED);
    DedupOfDistinct(Options(params));
    assert exists p :: p in Options(params) && SetsMode(p);
  }
}
