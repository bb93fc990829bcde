/** Running the planned benchmarks one after the other: every session is bracketed by its own
    environment controller and, for dockerized benchmarks, by a container bracket inside it. */
module Runner {
  import opened Wrappers
  import opened Collections
  import opened BenchmarkEnv
  import opened Docker

  datatype Kind = Scavenging | FullyDockerized | Binary

  /** One planned benchmark, with what the outside world makes of it: whether its validation
      and preparation raise, what its command or container does, and whether its output is
      found to be bad afterwards. `extraVars` are the variables other than TMPDIR that a
      benchmark adds to its document when the document lacks them. */
  datatype Test = Test(kind: Kind, control: EnvironmentVars, extraVars: Env,
                       prepareRaises: bool, script: ContainerScript, verdictRaises: bool)

  /** The document that the controller of a test gets. Scavenging and binary benchmarks first
      add their variables to it; a dockerized benchmark hands them to the container instead. */
  function Doc(test: Test): EnvironmentVars {
    if test.kind.FullyDockerized? then test.control
    else test.control.(variables :=
           test.extraVars + map[TmpDir := test.control.outputDir] + test.control.variables)
  }

  function Docs(tests: seq<Test>): seq<EnvironmentVars> {
    seq(|tests|, i requires 0 <= i < |tests| => Doc(tests[i]))
  }

  predicate Raises(test: Test) {
    test.prepareRaises || Doc(test).testVersion.Unspecified? || test.script.raises || test.verdictRaises
  }

  predicate Enters(test: Test) {
    !test.prepareRaises && !Doc(test).testVersion.Unspecified?
  }

  /** The session of this test starts and fails for want of an IP version. */
  predicate FailsToStart(test: Test) {
    !test.prepareRaises && Doc(test).testVersion.Unspecified?
  }

  /** The position of the first test that raises; past the end if none does. */
  function FirstRaising(tests: seq<Test>): (k: nat)
    ensures k <= |tests| && (k < |tests| ==> Raises(tests[k]))
    ensures forall j :: 0 <= j < k ==> !Raises(tests[j])
  {
    if tests == [] || Raises(tests[0]) then 0 else 1 + FirstRaising(tests[1..])
  }

  lemma FirstRaisingIs(tests: seq<Test>, k: nat)
    requires k <= |tests| && (k < |tests| ==> Raises(tests[k]))
    requires forall j :: 0 <= j < k ==> !Raises(tests[j])
    ensures FirstRaising(tests) == k
  {
  }

  /** How many sessions a run enters: those before the first test that raises, and that test's
      own if it gets so far. */
  function Entered(tests: seq<Test>): (n: nat)
    ensures n <= |tests|
  {
    var k := FirstRaising(tests);
    if k < |tests| && Enters(tests[k]) then k + 1 else k
  }

  /** Everything that the documents clear on entry and exit. */
  ghost function AllControlled(docs: seq<EnvironmentVars>): set<Name> {
    set i, key | 0 <= i < |docs| && key in Controlled(docs[i]) :: key
  }

  /** What is left of an environment once sessions of `docs` have come and gone. */
  ghost function Residual(init: Env, docs: seq<EnvironmentVars>): Env {
    init - (AllControlled(docs) - Special())
  }

  /** What session `k` sees in a run that started in `init`. */
  ghost function SeenIn(init: Env, docs: seq<EnvironmentVars>, k: nat): Env
    requires k < |docs|
  {
    Visible(Residual(init, docs[..k]), docs[k])
  }

  /** The recorded sessions saw what the first sessions of `docs` see. */
  ghost predicate SawSessions(visible: seq<Env>, init: Env, docs: seq<EnvironmentVars>) {
    |visible| <= |docs| && forall k :: 0 <= k < |visible| ==> visible[k] == SeenIn(init, docs, k)
  }

  /** The environment that a run leaves. A session that fails to start does not run its exit. */
  ghost function Final(init: Env, tests: seq<Test>): Env {
    var k, env := FirstRaising(tests), Residual(init, Docs(tests)[..Entered(tests)]);
    if k < |tests| && FailsToStart(tests[k]) then env - Special() - Controlled(Doc(tests[k])) else env
  }

  lemma SawSessionsStep(visible: seq<Env>, seen: Env, init: Env, docs: seq<EnvironmentVars>)
    requires SawSessions(visible, init, docs) && |visible| < |docs|
    requires seen == SeenIn(init, docs, |visible|)
    ensures SawSessions(visible + [seen], init, docs)
  {
  }

  /** The containers left running by tests that started with `running`. */
  ghost function Survivors(running: set<string>, tests: seq<Test>): set<string> {
    if tests == [] then running
    else
      var before := Survivors(running, tests[..|tests| - 1]);
      var test := Last(tests);
      if test.kind.FullyDockerized? then test.script.runningAtEnd * before else test.script.runningAtEnd
  }

  /** What a completed session of `doc` leaves of the environment it started in. */
  ghost function AfterSession(env: Env, doc: EnvironmentVars): Env {
    env - (Controlled(doc) - Special())
  }

  /** The bracketed part of a benchmark; a dockerized one nests the container bracket inside
      the environment bracket. Both are undone whether or not the body raises. */
  method Session(kind: Kind, doc: EnvironmentVars, script: ContainerScript, os: Environ, daemon: Daemon)
    returns (raised: bool, seen: Option<Env>)
    modifies os, daemon`running
    ensures raised == (doc.testVersion.Unspecified? || script.raises)
    ensures doc.testVersion.Unspecified? ==>
              && seen == None
              && os.vars == old(os.vars) - Special() - Controlled(doc)
              && daemon.running == old(daemon.running)
    ensures !doc.testVersion.Unspecified? ==>
              && seen == Some(Visible(old(os.vars), doc))
              && os.vars == AfterSession(old(os.vars), doc)
              && daemon.running == (if kind.FullyDockerized? then script.runningAtEnd * old(daemon.running)
                                    else script.runningAtEnd)
  {
    var controller := new BenchmarkEnvController(doc, os);
    var entered := controller.Enter();
    if !entered {
      return true, None;
    }
    seen := Some(os.vars);
    if kind.FullyDockerized? {
      var image := new DockerImage(daemon);
      raised := image.RunImage(script);
    } else {
      daemon.running, raised := script.runningAtEnd, script.raises;
    }
    SessionUndone(old(os.vars), doc);
    controller.Exit();
  }

  /** One benchmark. `seen` is the environment inside its session, if it got that far. */
  method ExecuteBenchmark(test: Test, os: Environ, daemon: Daemon) returns (raised: bool, seen: Option<Env>)
    modifies os, daemon`running
    ensures raised <==> Raises(test)
    ensures seen == (if Enters(test) then Some(Visible(old(os.vars), Doc(test))) else None)
    ensures seen.Some? ==>
              && os.vars == AfterSession(old(os.vars), Doc(test))
              && daemon.running == Survivors(old(daemon.running), [test])
    ensures seen.None? ==>
              && daemon.running == old(daemon.running)
              && os.vars == (if test.prepareRaises then old(os.vars)
                             else old(os.vars) - Special() - Controlled(Doc(test)))
  {
    if test.prepareRaises {
      return true, None;
    }
    var variables := test.control.variables;
    if !test.kind.FullyDockerized? {
      variables := AddMissing(variables, test.extraVars + map[TmpDir := test.control.outputDir]);
    }
    var doc := test.control.(variables := variables);
    assert doc == Doc(test);
    assert [test][..0] == [];
    raised, seen := Session(test.kind, doc, test.script, os, daemon);
    raised := raised || test.verdictRaises;
  }

  /** Adds the bindings, visited in any order, whose keys are missing. */
  method AddMissing(variables: Env, bindings: Env) returns (filled: Env)
    ensures filled == bindings + variables
  {
    filled := variables;
    var pending := bindings.Keys;
    while pending != {}
      invariant pending <= bindings.Keys
      invariant filled == (bindings - pending) + variables
      decreases pending
    {
      var key := AnyOf(pending);
      if key !in filled {
        filled := filled[key := bindings[key]];
      }
      pending := pending - {key};
    }
    assert bindings - pending == bindings;
  }

  /** Leaving a session takes away what it controlled and puts the special variables back. */
  lemma SessionUndone(env: Env, doc: EnvironmentVars)
    ensures (Visible(env, doc) - Controlled(doc)) + (map[] + Only(env, Special())) == AfterSession(env, doc)
  {
    assert Settings(doc).Keys <= Controlled(doc);
  }

  lemma ResidualStep(init: Env, docs: seq<EnvironmentVars>, doc: EnvironmentVars)
    ensures Residual(init, docs + [doc]) == AfterSession(Residual(init, docs), doc)
  {
    AllControlledStep(docs, doc);
  }

  lemma AllControlledStep(docs: seq<EnvironmentVars>, doc: EnvironmentVars)
    ensures AllControlled(docs + [doc]) == AllControlled(docs) + Controlled(doc)
  {
    var all := docs + [doc];
    forall key ensures key in AllControlled(all) <==> key in AllControlled(docs) + Controlled(doc) {
      if key in AllControlled(docs) {
        var i :| 0 <= i < |docs| && key in Controlled(docs[i]);
        assert all[i] == docs[i];
      }
      if key in Controlled(doc) {
        assert all[|docs|] == doc;
      }
    }
  }

  /** The benchmarks run in turn until one raises. `visible[k]` is the environment inside the
      session of test k; a test that raises ends the run, within its session or before it. */
  method Execute(tests: seq<Test>, os: Environ, daemon: Daemon, remote: bool)
    returns (visible: seq<Env>, completed: bool)
    modifies os, daemon`running
    ensures completed <==> !remote && forall test :: test in tests ==> GetsGoing(test) && GoesWell(test)
    ensures remote ==> visible == [] && os.vars == old(os.vars) && daemon.running == old(daemon.running)
    ensures !remote ==>
              && |visible| == Entered(tests)
              && os.vars == Final(old(os.vars), tests)
              && daemon.running == Survivors(old(daemon.running), tests[..Entered(tests)])
    ensures SawSessions(visible, old(os.vars), Docs(tests))
  {
    visible := [];
    RunStarts(tests, os.vars, daemon.running);
    if remote {
      return visible, false;
    }
    for k := 0 to |tests|
      invariant |visible| == k
      invariant forall j :: 0 <= j < k ==> !Raises(tests[j])
      invariant AfterSessions(tests, old(os.vars), old(daemon.running), visible, os.vars, daemon.running)
    {
      AfterOneMore(tests, old(os.vars), old(daemon.running), visible, os.vars, daemon.running);
      var raised, seen := ExecuteBenchmark(tests[k], os, daemon);
      if seen.Some? {
        visible := visible + [seen.value];
      }
      if raised {
        FirstRaisingIs(tests, k);
        CompletesExactly(tests);
        return visible, false;
      }
    }
    FirstRaisingIs(tests, |tests|);
    CompletesExactly(tests);
    return visible, true;
  }

  /** The state of a run after its first sessions, one for each entry of `visible`. */
  ghost predicate AfterSessions(tests: seq<Test>, init: Env, running: set<string>,
                                visible: seq<Env>, env: Env, running': set<string>) {
    && SawSessions(visible, init, Docs(tests))
    && env == Residual(init, Docs(tests)[..|visible|])
    && running' == Survivors(running, tests[..|visible|])
  }

  lemma RunStarts(tests: seq<Test>, init: Env, running: set<string>)
    ensures AfterSessions(tests, init, running, [], init, running)
  {
    assert AllControlled(Docs(tests)[..0]) == {};
  }

  lemma AfterOneMore(tests: seq<Test>, init: Env, running: set<string>, visible: seq<Env>, env: Env, running': set<string>)
    requires AfterSessions(tests, init, running, visible, env, running') && |visible| < |tests|
    ensures var test := tests[|visible|];
            AfterSessions(tests, init, running, visible + [Visible(env, Doc(test))],
                          AfterSession(env, Doc(test)), Survivors(running', [test]))
  {
    var docs, k := Docs(tests), |visible|;
    PrefixStep(docs, k);
    ResidualStep(init, docs[..k], docs[k]);
    SurvivorsStep(running, tests, k);
    SawSessionsStep(visible, Visible(env, docs[k]), init, docs);
  }

  lemma SurvivorsStep(running: set<string>, tests: seq<Test>, k: nat)
    requires k < |tests|
    ensures Survivors(running, tests[..k + 1]) == Survivors(Survivors(running, tests[..k]), [tests[k]])
  {
    assert tests[..k + 1][..k] == tests[..k];
    assert [tests[k]][..0] == [];
  }

  // ---- What the runs guarantee -------------------------------------------------------------

  /** Exact final state, variable by variable: an initial variable survives, with its value,
      exactly when it is special or no document controls it. Nothing else remains. */
  lemma ResidualExactly(init: Env, docs: seq<EnvironmentVars>, key: Name)
    ensures key in Residual(init, docs)
       <==> key in init && (key in Special() || forall i :: 0 <= i < |docs| ==> key !in Controlled(docs[i]))
    ensures key in Residual(init, docs) ==> Residual(init, docs)[key] == init[key]
  {
  }

  /** However a run ends, it leaves nothing behind that was not there before it. */
  lemma RunLeavesOnlyInitialBindings(init: Env, tests: seq<Test>, key: Name)
    requires key in Final(init, tests)
    ensures key in init && Final(init, tests)[key] == init[key]
  {
    ResidualExactly(init, Docs(tests)[..Entered(tests)], key);
  }

  /** The first test that raises, if any, does so because its session fails to start. */
  ghost predicate EndsInFailedStart(tests: seq<Test>) {
    exists k :: 0 <= k < |tests| && FailsToStart(tests[k]) && forall j :: 0 <= j < k ==> !Raises(tests[j])
  }

  /** A special variable is back at its original value after a run exactly when the run did not
      end in a session that failed to start: such a session never runs its exit. */
  lemma SpecialVarLostIffStartFailed(init: Env, tests: seq<Test>, key: Name)
    requires key in Special() && key in init
    ensures (key in Final(init, tests) && Final(init, tests)[key] == init[key]) <==> !EndsInFailedStart(tests)
  {
    ResidualExactly(init, Docs(tests)[..Entered(tests)], key);
    if EndsInFailedStart(tests) {
      var k :| 0 <= k < |tests| && FailsToStart(tests[k]) && forall j :: 0 <= j < k ==> !Raises(tests[j]);
      FirstRaisingIs(tests, k);
    }
  }

  /** A run that loses a special variable: its only document specifies no IP version. */
  lemma SpecialVarLost()
    ensures var init := map[RunfilesManifestFile := "MANIFEST"];
            var doc := EnvironmentVars(Unspecified, "", "/out", map[]);
            var test := Test(Scavenging, doc, map[], false, ContainerScript({}, false), false);
            RunfilesManifestFile !in Final(init, [test])
  {
    var init: Env := map[RunfilesManifestFile := "MANIFEST"];
    var doc := EnvironmentVars(Unspecified, "", "/out", map[]);
    var test := Test(Scavenging, doc, map[], false, ContainerScript({}, false), false);
    assert SPECIAL[0] in Special();
    assert FailsToStart([test][0]);
    SpecialVarLostIffStartFailed(init, [test], RunfilesManifestFile);
    if RunfilesManifestFile in Final(init, [test]) {
      RunLeavesOnlyInitialBindings(init, [test], RunfilesManifestFile);
    }
  }

  /** The order of completed sessions does not show in the final environment. */
  lemma ResidualOrderFree(init: Env, docs: seq<EnvironmentVars>, docs': seq<EnvironmentVars>)
    requires multiset(docs) == multiset(docs')
    ensures Residual(init, docs) == Residual(init, docs')
  {
    assert forall doc :: doc in docs <==> doc in multiset(docs);
    assert forall doc :: doc in docs' <==> doc in multiset(docs');
    forall key ensures key in AllControlled(docs) <==> key in AllControlled(docs') {
      ControlledBySome(docs, key);
      ControlledBySome(docs', key);
    }
    assert AllControlled(docs) == AllControlled(docs');
  }

  lemma ControlledBySome(docs: seq<EnvironmentVars>, key: Name)
    ensures key in AllControlled(docs) <==> exists doc :: doc in docs && key in Controlled(doc)
  {
  }

  /** No leak: what session k sees under a name it does not set itself was there, with the same
      value, before the first session. */
  lemma NoLeakBetweenSessions(init: Env, docs: seq<EnvironmentVars>, k: nat, key: Name)
    requires k < |docs|
    requires key in SeenIn(init, docs, k)
    ensures var seen := SeenIn(init, docs, k);
            || (key in Settings(docs[k]) && seen[key] == Settings(docs[k])[key])
            || (key in init && seen[key] == init[key] && key !in Special()
                && forall j :: 0 <= j <= k ==> key !in Controlled(docs[j]))
  {
    if key !in Settings(docs[k]) {
      ResidualExactly(init, docs[..k], key);
      assert forall j :: 0 <= j < k ==> docs[..k][j] == docs[j];
    }
  }

  /** Session k sees what it would have seen had it run first exactly when every initial
      variable that an earlier session took away is special or controlled by session k too. */
  lemma SessionSeesAsIfFirst(init: Env, docs: seq<EnvironmentVars>, k: nat)
    requires k < |docs|
    ensures SeenIn(init, docs, k) == Visible(init, docs[k])
       <==> forall j, key :: 0 <= j < k && key in Controlled(docs[j]) && key in init ==>
              key in Special() || key in Controlled(docs[k])
  {
    var first, later := Visible(init, docs[k]), SeenIn(init, docs, k);
    assert forall j :: 0 <= j < k ==> docs[..k][j] == docs[j];
    assert Settings(docs[k]).Keys <= Controlled(docs[k]);
    forall key ensures key in later ==> key in first && later[key] == first[key] {
      ResidualExactly(init, docs[..k], key);
    }
    if forall j, key :: 0 <= j < k && key in Controlled(docs[j]) && key in init ==>
         key in Special() || key in Controlled(docs[k])
    {
      forall key | key in first ensures key in later {
        ResidualExactly(init, docs[..k], key);
      }
      assert first == later;
    } else {
      var j, key :| 0 <= j < k && key in Controlled(docs[j]) && key in init
                    && key !in Special() && key !in Controlled(docs[k]);
      ResidualExactly(init, docs[..k], key);
      assert key in first && key !in later;
    }
  }

  /** Benchmarks whose documents control the same names, as copies of one control document do,
      all see what they would have seen had they run first. */
  lemma CopiesSeeAsIfFirst(init: Env, docs: seq<EnvironmentVars>, k: nat)
    requires k < |docs|
    requires forall j :: 0 <= j < k ==> Controlled(docs[j]) == Controlled(docs[k])
    ensures SeenIn(init, docs, k) == Visible(init, docs[k])
  {
    SessionSeesAsIfFirst(init, docs, k);
  }

  /** A scavenging or binary benchmark whose document does not choose a TMPDIR itself writes
      into its own output directory. */
  lemma SessionWritesToOwnOutputDir(env: Env, test: Test)
    requires !test.kind.FullyDockerized? && TmpDir !in test.control.variables
    ensures var seen := Visible(env, Doc(test));
            TmpDir in seen && seen[TmpDir] == test.control.outputDir
  {
    assert TmpDir in Doc(test).variables;
  }

  /** If every benchmark is dockerized, a run leaves running only containers that were running
      before it began and still were at the end of every session. */
  lemma {:induction false} DockerizedRunsStopTheirContainers(running: set<string>, tests: seq<Test>, name: string)
    requires forall test :: test in tests ==> test.kind.FullyDockerized?
    ensures name in Survivors(running, tests)
       <==> name in running && forall test :: test in tests ==> name in test.script.runningAtEnd
  {
    if tests != [] {
      var front, last := tests[..|tests| - 1], Last(tests);
      assert tests == front + [last];
      assert last in tests;
      DockerizedRunsStopTheirContainers(running, front, name);
      assert forall test :: test in tests <==> test in front || test == last;
    }
  }

  /** Two such benchmarks with different output directories write into different ones. */
  lemma SessionsWriteApart(init: Env, tests: seq<Test>, j: nat, k: nat)
    requires j < |tests| && k < |tests|
    requires !tests[j].kind.FullyDockerized? && TmpDir !in tests[j].control.variables
    requires !tests[k].kind.FullyDockerized? && TmpDir !in tests[k].control.variables
    requires tests[j].control.outputDir != tests[k].control.outputDir
    ensures var a, b := SeenIn(init, Docs(tests), j), SeenIn(init, Docs(tests), k);
            TmpDir in a && TmpDir in b && a[TmpDir] != b[TmpDir]
  {
    SessionWritesToOwnOutputDir(Residual(init, Docs(tests)[..j]), tests[j]);
    SessionWritesToOwnOutputDir(Residual(init, Docs(tests)[..k]), tests[k]);
  }

  // ---- The same, variable by variable ------------------------------------------------------

  /** What a benchmark provides under `key`: what its control document sets, and on the host its
      output directory as TMPDIR and the variables of its kind where the document sets nothing. */
  function Provided(test: Test, key: Name): Option<string> {
    if key in test.control.variables then Some(test.control.variables[key])
    else if test.kind.FullyDockerized? then None
    else if key == TmpDir then Some(test.control.outputDir)
    else if key in test.extraVars then Some(test.extraVars[key])
    else None
  }

  lemma DocExactly(test: Test)
    ensures forall key :: Holds(Doc(test).variables, key, Provided(test, key))
    ensures Doc(test).testVersion == test.control.testVersion && Doc(test).envoyPath == test.control.envoyPath
  {
  }

  /** The variables that a session clears. */
  predicate Touches(test: Test, key: Name) {
    key == IpTestVersions || key == EnvoyPath || Provided(test, key).Some?
  }

  lemma TouchesExactly(test: Test, key: Name)
    ensures key in Controlled(Doc(test)) <==> Touches(test, key)
  {
    DocExactly(test);
    assert Holds(Doc(test).variables, key, Provided(test, key));
  }

  lemma AllTouched(tests: seq<Test>, n: nat, key: Name)
    requires n <= |tests|
    ensures key in AllControlled(Docs(tests)[..n]) <==> exists i :: 0 <= i < n && Touches(tests[i], key)
  {
    var docs := Docs(tests)[..n];
    forall i | 0 <= i < n ensures key in Controlled(docs[i]) <==> Touches(tests[i], key) {
      TouchesExactly(tests[i], key);
    }
    assert key in AllControlled(docs) <==> exists i :: 0 <= i < |docs| && key in Controlled(docs[i]);
    if i :| 0 <= i < n && Touches(tests[i], key) {
      assert key in Controlled(docs[i]);
    }
  }

  /** What session k of a run sees under `key`: what its own benchmark provides, its IP version and
      its Envoy path; for the rest what was there before the run and no earlier session touched. */
  function Seen(init: Env, tests: seq<Test>, k: nat, key: Name): Option<string>
    requires k < |tests|
  {
    var own := Provided(tests[k], key);
    if own.Some? then own
    else match key
      case IpTestVersions => IpVersions(tests[k].control.testVersion)
      case EnvoyPath => if tests[k].control.envoyPath == "" then None else Some(tests[k].control.envoyPath)
      case RunfilesManifestFile => None
      case _ =>
        if key in init && forall j :: 0 <= j < k ==> !Touches(tests[j], key) then Some(init[key]) else None
  }

  lemma SeenExactly(init: Env, tests: seq<Test>, k: nat, key: Name)
    requires k < |tests|
    ensures Holds(SeenIn(init, Docs(tests), k), key, Seen(init, tests, k, key))
  {
    DocExactly(tests[k]);
    assert Holds(Doc(tests[k]).variables, key, Provided(tests[k], key));
    VisibleExactly(Residual(init, Docs(tests)[..k]), Doc(tests[k]));
    assert Holds(SeenIn(init, Docs(tests), k), key, Shown(Residual(init, Docs(tests)[..k]), Doc(tests[k]), key));
    AllTouched(tests, k, key);
    SpecialName(key);
  }

  lemma ResidualAt(init: Env, tests: seq<Test>, n: nat, key: Name)
    requires n <= |tests|
    ensures Holds(Residual(init, Docs(tests)[..n]), key,
              if key in init && (key == RunfilesManifestFile || forall i :: 0 <= i < n ==> !Touches(tests[i], key))
              then Some(init[key]) else None)
  {
    hide AllControlled;
    SpecialName(key);
    AllTouched(tests, n, key);
  }

  lemma FailedStartTakes(env: Env, test: Test, key: Name)
    ensures var left := env - Special() - Controlled(Doc(test));
            key in left <==> key in env && key != RunfilesManifestFile && !Touches(test, key)
  {
    SpecialName(key);
    TouchesExactly(test, key);
  }

  /** What a run leaves under `key`: what was there before, unless an entered session touched it (a
      runfiles manifest is put back), or a last session that failed to start took it away. */
  lemma FinalExactly(init: Env, tests: seq<Test>, key: Name)
    ensures var k := FirstRaising(tests);
            var failed := k < |tests| && !tests[k].prepareRaises && tests[k].control.testVersion.Unspecified?;
            Holds(Final(init, tests), key,
              if && key in init
                 && (key == RunfilesManifestFile || forall i :: 0 <= i < Entered(tests) ==> !Touches(tests[i], key))
                 && !(failed && (key == RunfilesManifestFile || Touches(tests[k], key)))
              then Some(init[key]) else None)
  {
    hide Residual, Touches, Controlled, Special;
    var k := FirstRaising(tests);
    ResidualAt(init, tests, Entered(tests), key);
    if k < |tests| {
      FailedStartTakes(Residual(init, Docs(tests)[..Entered(tests)]), tests[k], key);
    }
  }

  // ---- Which sessions are entered ----------------------------------------------------------

  /** Preparation succeeds and there is an IP version, so the session is entered. */
  predicate GetsGoing(test: Test) {
    !test.prepareRaises && test.control.testVersion != Unspecified
  }

  /** Neither the command or container raises, nor the look at its output. */
  predicate GoesWell(test: Test) {
    !test.script.raises && !test.verdictRaises
  }

  lemma RaisesExactly(test: Test)
    ensures Raises(test) <==> !(GetsGoing(test) && GoesWell(test))
    ensures Enters(test) <==> GetsGoing(test)
  {
  }

  lemma CompletesExactly(tests: seq<Test>)
    ensures FirstRaising(tests) == |tests| <==> forall test :: test in tests ==> GetsGoing(test) && GoesWell(test)
  {
    hide Raises, GetsGoing, GoesWell;
    forall test ensures Raises(test) <==> !(GetsGoing(test) && GoesWell(test)) {
      RaisesExactly(test);
    }
    assert forall i :: 0 <= i < |tests| ==> tests[i] in tests;
  }

  /** Sessions are entered one after the other until one cannot be, or has not gone well. */
  lemma EnteredExactly(tests: seq<Test>)
    ensures var n := Entered(tests);
            && (forall i :: 0 <= i < n ==> GetsGoing(tests[i]))
            && (forall i :: 0 <= i < n - 1 ==> GoesWell(tests[i]))
            && (n < |tests| ==> !GetsGoing(tests[n]) || (n > 0 && !GoesWell(tests[n - 1])))
  {
    hide Raises, Enters, GetsGoing, GoesWell;
    forall test
      ensures Raises(test) <==> !(GetsGoing(test) && GoesWell(test))
      ensures Enters(test) <==> GetsGoing(test)
    {
      RaisesExactly(test);
    }
    assert forall i :: 0 <= i < |tests| ==> tests[i] in tests;
  }

  /** What runs at the end of a run with a session on the host, test `m` being the last: what ran at
      the end of that session and of all later ones. */
  lemma {:induction false} RunningSinceHost(running: set<string>, tests: seq<Test>, m: nat, name: string)
    requires m < |tests| && !tests[m].kind.FullyDockerized?
    requires forall i :: m < i < |tests| ==> tests[i].kind.FullyDockerized?
    ensures name in Survivors(running, tests)
       <==> forall i :: m <= i < |tests| ==> name in tests[i].script.runningAtEnd
  {
    if m < |tests| - 1 {
      var front := tests[..|tests| - 1];
      RunningSinceHost(running, front, m, name);
      assert forall i :: m <= i < |front| ==> front[i] == tests[i];
    }
  }
}
