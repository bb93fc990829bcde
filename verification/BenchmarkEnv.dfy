/** The process environment as benchmark sessions see it: a controller saves and clears the
    special variables, sets those of its document on entry, and undoes both on exit. */
module BenchmarkEnv {
  import opened Wrappers
  import opened Collections

  /** Names of environment variables: the ones that the controller or a benchmark writes
      (ENVOY_IP_TEST_VERSIONS, ENVOY_PATH, RUNFILES_MANIFEST_FILE, TMPDIR), and all names other
      than these four. */
  datatype Name = IpTestVersions | EnvoyPath | RunfilesManifestFile | TmpDir | Other(name: string)

  type Env = map<Name, string>

  datatype IpVersion = Unspecified | V4Only | V6Only | All

  /** The environment part of a job control document. */
  datatype EnvironmentVars = EnvironmentVars(
    testVersion: IpVersion, envoyPath: string, outputDir: string, variables: Env)

  /** `_VARIABLES_TO_CLEAR_AND_RESTORE` */
  const SPECIAL: seq<Name> := [RunfilesManifestFile]

  // ---- What a document controls ------------------------------------------------------------

  /** The variables that the controller of `doc` clears on entry and again on exit. */
  function Controlled(doc: EnvironmentVars): set<Name> {
    {IpTestVersions, EnvoyPath} + doc.variables.Keys
  }

  function VersionSetting(doc: EnvironmentVars): Env {
    match doc.testVersion
    case V4Only => map[IpTestVersions := "v4only"]
    case V6Only => map[IpTestVersions := "v6only"]
    case _ => map[]
  }

  function PathSetting(doc: EnvironmentVars): Env {
    if doc.envoyPath != "" then map[EnvoyPath := doc.envoyPath] else map[]
  }

  /** The bindings that `doc` puts in force; its own `variables` win over the two fields. */
  function Settings(doc: EnvironmentVars): Env {
    VersionSetting(doc) + PathSetting(doc) + doc.variables
  }

  lemma MergeAssociative(a: Env, b: Env, c: Env)
    ensures (a + b) + c == a + (b + c)
  {
  }

  function Special(): set<Name> {
    set i | 0 <= i < |SPECIAL| :: SPECIAL[i]
  }

  /** The bindings of `env` for the names in `keys`. */
  function Only(env: Env, keys: set<Name>): Env {
    env - (env.Keys - keys)
  }

  class Environ {
    var vars: Env

    constructor (vars: Env)
      ensures this.vars == vars
    {
      this.vars := vars;
    }
  }

  class BenchmarkEnvController {
    const environment: EnvironmentVars
    const os: Environ
    var preserved: Env

    constructor (environment: EnvironmentVars, os: Environ)
      ensures this.environment == environment && this.os == os && preserved == map[]
    {
      this.environment, this.os, this.preserved := environment, os, map[];
    }

    method PreserveAndClearSpecialVars()
      modifies this, os
      ensures preserved == old(preserved) + Only(old(os.vars), Special())
      ensures os.vars == old(os.vars) - Special()
    {
      ghost var done: set<Name> := {};
      for i := 0 to |SPECIAL|
        invariant done == set j | 0 <= j < i :: SPECIAL[j]
        invariant preserved == old(preserved) + Only(old(os.vars), done)
        invariant os.vars == old(os.vars) - done
      {
        var variable := SPECIAL[i];
        if variable in os.vars {
          preserved := preserved[variable := os.vars[variable]];
          os.vars := os.vars - {variable};
        }
        done := done + {variable};
      }
    }

    method ClearEnvironmentVars()
      modifies os
      ensures os.vars == old(os.vars) - Controlled(environment)
    {
      if IpTestVersions in os.vars {
        os.vars := os.vars - {IpTestVersions};
      }
      if EnvoyPath in os.vars {
        os.vars := os.vars - {EnvoyPath};
      }
      var pending := environment.variables.Keys;
      while pending != {}
        invariant pending <= environment.variables.Keys
        invariant os.vars == old(os.vars) - ({IpTestVersions, EnvoyPath} + (environment.variables.Keys - pending))
        decreases pending
      {
        var key := AnyOf(pending);
        if key in os.vars {
          os.vars := os.vars - {key};
        }
        pending := pending - {key};
      }
    }

    /** Raises, after clearing, when no IP version is specified. */
    method SetEnvironmentVars() returns (ok: bool)
      modifies os
      ensures ok <==> !environment.testVersion.Unspecified?
      ensures ok ==> os.vars == (old(os.vars) - Controlled(environment)) + Settings(environment)
      ensures ok ==> forall key :: Holds(os.vars, key, SetUp(old(os.vars), environment, key))
      ensures !ok ==> os.vars == old(os.vars) - Controlled(environment)
    {
      ClearEnvironmentVars();
      if environment.testVersion.Unspecified? {
        return false;
      } else if environment.testVersion.V4Only? {
        os.vars := os.vars[IpTestVersions := "v4only"];
      } else if environment.testVersion.V6Only? {
        os.vars := os.vars[IpTestVersions := "v6only"];
      }
      ghost var cleared := old(os.vars) - Controlled(environment);
      assert os.vars == cleared + VersionSetting(environment);
      if environment.envoyPath != "" {
        os.vars := os.vars[EnvoyPath := environment.envoyPath];
      }
      assert os.vars == cleared + VersionSetting(environment) + PathSetting(environment);
      CopyInto(environment.variables);
      MergeAssociative(cleared, VersionSetting(environment), PathSetting(environment));
      MergeAssociative(cleared, VersionSetting(environment) + PathSetting(environment), environment.variables);
      forall key ensures Holds(os.vars, key, SetUp(old(os.vars), environment, key)) {
        SettingsExactly(old(os.vars), environment, key);
      }
      return true;
    }

    /** Copies bindings, visited in any order, into the environment. */
    method CopyInto(bindings: Env)
      modifies os
      ensures os.vars == old(os.vars) + bindings
    {
      var pending := bindings.Keys;
      while pending != {}
        invariant pending <= bindings.Keys
        invariant os.vars == old(os.vars) + (bindings - pending)
        decreases pending
      {
        var key := AnyOf(pending);
        os.vars := os.vars[key := bindings[key]];
        pending := pending - {key};
      }
      assert bindings - pending == bindings;
    }

    method RestoreSpecialVars()
      modifies os
      ensures os.vars == old(os.vars) + preserved
    {
      CopyInto(preserved);
    }

    /** `__enter__` */
    method Enter() returns (ok: bool)
      modifies this, os
      ensures ok <==> !environment.testVersion.Unspecified?
      ensures preserved == old(preserved) + Only(old(os.vars), Special())
      ensures ok ==> os.vars == Visible(old(os.vars), environment)
      ensures ok ==> Sees(os.vars, old(os.vars), environment)
      ensures !ok ==> os.vars == old(os.vars) - Special() - Controlled(environment)
    {
      PreserveAndClearSpecialVars();
      ok := SetEnvironmentVars();
      VisibleExactly(old(os.vars), environment);
    }

    /** `__exit__` */
    method Exit()
      modifies os
      ensures os.vars == (old(os.vars) - Controlled(environment)) + preserved
    {
      ClearEnvironmentVars();
      RestoreSpecialVars();
    }
  }

  /** What a session of `doc` sees when it starts in `env`. */
  function Visible(env: Env, doc: EnvironmentVars): Env {
    (env - Special() - Controlled(doc)) + Settings(doc)
  }

  // ---- The same, variable by variable ------------------------------------------------------

  /** Under `key`, the environment has this value, or nothing. */
  predicate Holds(env: Env, key: Name, value: Option<string>) {
    if value.Some? then key in env && env[key] == value.value else key !in env
  }

  function IpVersions(version: IpVersion): Option<string> {
    match version
    case V4Only => Some("v4only")
    case V6Only => Some("v6only")
    case Unspecified => None
    case All => None
  }

  /** What setting up a document puts under `key`: the document's own variable, its IP version or
      its Envoy path; or what was there before. */
  function SetUp(before: Env, doc: EnvironmentVars, key: Name): Option<string> {
    if key in doc.variables then Some(doc.variables[key])
    else match key
      case IpTestVersions => IpVersions(doc.testVersion)
      case EnvoyPath => if doc.envoyPath == "" then None else Some(doc.envoyPath)
      case _ => if key in before then Some(before[key]) else None
  }

  /** A session sees that, except for a runfiles manifest that was there before. */
  function Shown(before: Env, doc: EnvironmentVars, key: Name): Option<string> {
    if key == RunfilesManifestFile && key !in doc.variables then None else SetUp(before, doc, key)
  }

  ghost predicate Sees(seen: Env, before: Env, doc: EnvironmentVars) {
    forall key :: Holds(seen, key, Shown(before, doc, key))
  }

  lemma SpecialName(key: Name)
    ensures key in Special() <==> key == RunfilesManifestFile
  {
    assert SPECIAL[0] == RunfilesManifestFile;
  }

  lemma SettingsExactly(before: Env, doc: EnvironmentVars, key: Name)
    ensures Holds((before - Controlled(doc)) + Settings(doc), key, SetUp(before, doc, key))
  {
  }

  lemma VisibleExactly(env: Env, doc: EnvironmentVars)
    ensures Sees(Visible(env, doc), env, doc)
  {
    forall key ensures Holds(Visible(env, doc), key, Shown(env, doc, key)) {
      SpecialName(key);
      SettingsExactly(env - Special(), doc, key);
    }
  }
}
