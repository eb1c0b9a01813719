/**
 * `get_tts`: the lazily built, cached synthesis handle. A cold call checks
 * the required model resources in a fixed order, collects the optional rule
 * FSTs, builds the backend configuration and constructs the handle; a warm
 * call returns the cached handle. The model directory's contents and the
 * backend's own config validation are inputs (`Env`).
 */
module ModelManager {
  import opened Wrappers
  import opened PyStr

  /** `os.path.join(dir, name)` for the relative names the service joins. */
  function JoinPath(dir: string, name: string): (r: string)
    ensures |dir| + |name| <= |r| <= |dir| + |name| + 1
  {
    if dir == [] || dir[|dir| - 1] == '/' then dir + name else dir + "/" + name
  }

  /** The joined path starts with the directory and ends with the name. */
  lemma JoinPathShape(dir: string, name: string)
    ensures var r := JoinPath(dir, name); r[..|dir|] == dir && r[|r| - |name|..] == name
  {
  }

  /** A required model resource: its name in the model directory and the name its error message uses. */
  datatype Resource = Resource(name: string, shownAs: string)

  const REQUIRED: seq<Resource> := [
    Resource("model.onnx", "model.onnx"),
    Resource("lexicon.txt", "lexicon.txt"),
    Resource("tokens.txt", "tokens.txt"),
    Resource("dict", "dict directory")
  ]

  const RULE_FST_NAMES: seq<string> := ["phone.fst", "date.fst", "number.fst"]

  const PROVIDER: string := "cpu"

  /** The backend configuration `get_tts` assembles. */
  datatype TtsConfig = TtsConfig(
    model: string, lexicon: string, tokens: string, dictDir: string,
    numThreads: int, provider: string, ruleFsts: string)

  /** Stand-in for the `sherpa_onnx.OfflineTts` object built from a configuration. */
  datatype Handle = OfflineTts(config: TtsConfig)

  /**
   * What a cold call raises: `FileNotFoundError` for a missing resource,
   * `ValueError` for a configuration the backend refuses, or whatever the
   * `OfflineTts` constructor itself raises.
   */
  datatype InitError = MissingResource(shownAs: string, path: string) | InvalidConfig | ConstructionFailed

  /**
   * The world a call of `get_tts` sees: the paths that exist, whether
   * `config.validate()` succeeds, and whether the `OfflineTts` constructor
   * then returns rather than raises.
   */
  datatype Env = Env(existing: set<string>, configValid: bool, constructs: bool)

  /** The position of the first required resource, from `from` on, that does not exist. */
  function FirstMissing(dir: string, existing: set<string>, from: nat): (r: Option<nat>)
    ensures r.None? <==> forall k :: from <= k < |REQUIRED| ==> JoinPath(dir, REQUIRED[k].name) in existing
    ensures r.Some? ==>
      && from <= r.value < |REQUIRED|
      && JoinPath(dir, REQUIRED[r.value].name) !in existing
      && forall k :: from <= k < r.value ==> JoinPath(dir, REQUIRED[k].name) in existing
    decreases |REQUIRED| - from
  {
    if from >= |REQUIRED| then None
    else if JoinPath(dir, REQUIRED[from].name) !in existing then Some(from)
    else FirstMissing(dir, existing, from + 1)
  }

  /** The paths of `names` inside `dir` that exist, in the order of `names`. */
  function PresentPaths(dir: string, names: seq<string>, existing: set<string>): (r: seq<string>)
    ensures |r| <= |names|
    ensures forall p :: p in r ==> p in existing
    ensures forall p :: p in r ==> exists k :: 0 <= k < |names| && p == JoinPath(dir, names[k])
    ensures forall k :: 0 <= k < |names| && JoinPath(dir, names[k]) in existing ==> JoinPath(dir, names[k]) in r
  {
    if names == [] then []
    else
      var init := names[..|names| - 1];
      var p := JoinPath(dir, names[|names| - 1]);
      var r := PresentPaths(dir, init, existing) + (if p in existing then [p] else []);
      assert forall k :: 0 <= k < |init| ==> init[k] == names[k];
      r
  }

  /**
   * The `rule_fsts` setting: the present rule FSTs, comma-joined. It is
   * empty when none is present, and the backend, splitting it at commas,
   * gets the present paths back unless the directory name holds a comma.
   */
  function RuleFsts(dir: string, existing: set<string>): (r: string)
    ensures PresentPaths(dir, RULE_FST_NAMES, existing) == [] ==> r == []
    ensures ',' !in dir && PresentPaths(dir, RULE_FST_NAMES, existing) != [] ==>
      Split(',', r) == PresentPaths(dir, RULE_FST_NAMES, existing)
  {
    PresentPathsCommaFree(dir, existing);
    Join(',', PresentPaths(dir, RULE_FST_NAMES, existing))
  }

  /**
   * A cold call of `get_tts`: the handle it constructs, or what it raises. A
   * missing resource is reported before the configuration is judged.
   */
  function Initialize(dir: string, numThreads: int, env: Env): (r: Result<Handle, InitError>)
    ensures r.Ok? <==> env.configValid && env.constructs && forall k :: 0 <= k < |REQUIRED| ==> JoinPath(dir, REQUIRED[k].name) in env.existing
    ensures r.Ok? ==> r.value.config.ruleFsts == RuleFsts(dir, env.existing) && r.value.config.numThreads == numThreads
    ensures r.Ok? ==>
      && r.value.config.model == JoinPath(dir, REQUIRED[0].name)
      && r.value.config.lexicon == JoinPath(dir, REQUIRED[1].name)
      && r.value.config.tokens == JoinPath(dir, REQUIRED[2].name)
      && r.value.config.dictDir == JoinPath(dir, REQUIRED[3].name)
      && r.value.config.provider == "cpu"
    ensures r == Err(InvalidConfig) ==> !env.configValid
    ensures FirstMissing(dir, env.existing, 0).None? && !env.configValid ==> r == Err(InvalidConfig)
    ensures FirstMissing(dir, env.existing, 0).None? && env.configValid && !env.constructs ==> r == Err(ConstructionFailed)
  {
    match FirstMissing(dir, env.existing, 0)
    case Some(k) => Err(MissingResource(REQUIRED[k].shownAs, JoinPath(dir, REQUIRED[k].name)))
    case None =>
      var config := TtsConfig(
        JoinPath(dir, "model.onnx"), JoinPath(dir, "lexicon.txt"), JoinPath(dir, "tokens.txt"), JoinPath(dir, "dict"),
        numThreads, PROVIDER, RuleFsts(dir, env.existing));
      if !env.configValid then Err(InvalidConfig)
      else if !env.constructs then Err(ConstructionFailed)
      else Ok(OfflineTts(config))
  }

  /** A missing required resource raises the error that names the first one missing. */
  lemma MissingResourceReported(dir: string, numThreads: int, env: Env, k: nat)
    requires k < |REQUIRED| && JoinPath(dir, REQUIRED[k].name) !in env.existing
    requires forall j :: 0 <= j < k ==> JoinPath(dir, REQUIRED[j].name) in env.existing
    ensures Initialize(dir, numThreads, env) == Err(MissingResource(REQUIRED[k].shownAs, JoinPath(dir, REQUIRED[k].name)))
  {
    var m := FirstMissing(dir, env.existing, 0);
    assert m.Some?;
  }

  /** The rule FSTs are looked for in the order phone, date, number, and each present one is listed once. */
  lemma RuleFstOrder(dir: string, existing: set<string>)
    ensures var phone, date, number := JoinPath(dir, "phone.fst"), JoinPath(dir, "date.fst"), JoinPath(dir, "number.fst");
      PresentPaths(dir, RULE_FST_NAMES, existing) ==
        (if phone in existing then [phone] else []) + (if date in existing then [date] else []) + (if number in existing then [number] else [])
  {
    var one, two := ["phone.fst"], ["phone.fst", "date.fst"];
    assert one[..0] == [] && two[..1] == one && RULE_FST_NAMES[..2] == two;
    assert PresentPaths(dir, one, existing) == PresentPaths(dir, [], existing) + (if JoinPath(dir, "phone.fst") in existing then [JoinPath(dir, "phone.fst")] else []);
  }

  /** With a comma-free directory, every present rule FST path is comma-free, so the join can be split back. */
  lemma PresentPathsCommaFree(dir: string, existing: set<string>)
    ensures var ps := PresentPaths(dir, RULE_FST_NAMES, existing);
      ',' !in dir && ps != [] ==> Split(',', Join(',', ps)) == ps
  {
    var ps := PresentPaths(dir, RULE_FST_NAMES, existing);
    if ',' !in dir && ps != [] {
      forall k | 0 <= k < |ps|
        ensures ',' !in ps[k]
      {
        assert ps[k] in ps;
        var j :| 0 <= j < |RULE_FST_NAMES| && ps[k] == JoinPath(dir, RULE_FST_NAMES[j]);
        assert j in {0, 1, 2};
      }
      SplitJoin(',', ps);
    }
  }

  // ---------------------------------------------------------------------------
  // The sequential semantics of `get_tts` as a state machine over the cached
  // instance (`_tts_instance`).

  /** One call of `get_tts` with cached instance `cached`: the instance afterwards and what the call returns or raises. */
  function GetTtsStep(cached: Option<Handle>, dir: string, numThreads: int, env: Env): (s: (Option<Handle>, Result<Handle, InitError>))
    ensures cached.Some? ==> s == (cached, Ok(cached.value))
    ensures s.1.Ok? ==> s.0 == Some(s.1.value)
    ensures s.1.Err? ==> s.0 == None
  {
    if cached.Some? then (cached, Ok(cached.value))
    else
      var r := Initialize(dir, numThreads, env);
      (if r.Ok? then Some(r.value) else None, r)
  }

  /** Whether that call constructs a handle. */
  predicate Builds(cached: Option<Handle>, dir: string, numThreads: int, env: Env): (b: bool)
    ensures b <==> cached.None? && GetTtsStep(cached, dir, numThreads, env).0.Some?
  {
    cached.None? && Initialize(dir, numThreads, env).Ok?
  }

  /** The outcomes of successive calls, the i-th seeing `envs[i]`. */
  function Calls(cached: Option<Handle>, dir: string, numThreads: int, envs: seq<Env>): (rs: seq<Result<Handle, InitError>>)
    ensures |rs| == |envs|
    ensures cached.Some? ==> forall i :: 0 <= i < |rs| ==> rs[i] == Ok(cached.value)
    decreases |envs|
  {
    if envs == [] then []
    else
      var (next, r) := GetTtsStep(cached, dir, numThreads, envs[0]);
      [r] + Calls(next, dir, numThreads, envs[1..])
  }

  /** How many of those calls construct a handle. */
  function BuildCount(cached: Option<Handle>, dir: string, numThreads: int, envs: seq<Env>): (n: nat)
    ensures n <= |envs|
    ensures cached.Some? ==> n == 0
    decreases |envs|
  {
    if envs == [] then 0
    else
      var next := GetTtsStep(cached, dir, numThreads, envs[0]).0;
      (if Builds(cached, dir, numThreads, envs[0]) then 1 else 0) + BuildCount(next, dir, numThreads, envs[1..])
  }

  /** However the model directory changes between calls, at most one call ever constructs a handle. */
  lemma {:induction false} AtMostOneBuild(cached: Option<Handle>, dir: string, numThreads: int, envs: seq<Env>)
    ensures BuildCount(cached, dir, numThreads, envs) <= (if cached.None? then 1 else 0)
  {
    if envs != [] {
      var next := GetTtsStep(cached, dir, numThreads, envs[0]).0;
      if next.None? {
        AtMostOneBuild(next, dir, numThreads, envs[1..]);
      }
    }
  }

  /**
   * A failed call caches nothing, so the next call tries again; and after
   * the first success every later call returns that same handle.
   */
  lemma {:induction false} FirstSuccessIsShared(dir: string, numThreads: int, envs: seq<Env>, i: nat)
    requires i < |envs| && Calls(None, dir, numThreads, envs)[i].Ok?
    ensures forall j :: i <= j < |envs| ==> Calls(None, dir, numThreads, envs)[j] == Calls(None, dir, numThreads, envs)[i]
  {
    var r := Initialize(dir, numThreads, envs[0]);
    if r.Ok? {
      assert Calls(None, dir, numThreads, envs)[0] == r;
      forall j | 0 <= j < |envs| ensures Calls(None, dir, numThreads, envs)[j] == r {
        if j > 0 {
          assert Calls(None, dir, numThreads, envs)[j] == Calls(Some(r.value), dir, numThreads, envs[1..])[j - 1];
        }
      }
    } else {
      assert Calls(None, dir, numThreads, envs) == [r] + Calls(None, dir, numThreads, envs[1..]);
      FirstSuccessIsShared(dir, numThreads, envs[1..], i - 1);
    }
  }

  /** The required resources, checked in order: the position of the first missing one. */
  method CheckRequired(dir: string, existing: set<string>) returns (missing: Option<nat>)
    ensures missing == FirstMissing(dir, existing, 0)
  {
    var k := 0;
    while k < |REQUIRED|
      invariant 0 <= k <= |REQUIRED|
      invariant FirstMissing(dir, existing, k) == FirstMissing(dir, existing, 0)
    {
      if JoinPath(dir, REQUIRED[k].name) !in existing {
        return Some(k);
      }
      k := k + 1;
    }
    return None;
  }

  /** The rule FST paths, collected in the order phone, date, number. */
  method CollectRuleFsts(dir: string, existing: set<string>) returns (paths: seq<string>)
    ensures paths == PresentPaths(dir, RULE_FST_NAMES, existing)
  {
    paths := [];
    var i := 0;
    while i < |RULE_FST_NAMES|
      invariant 0 <= i <= |RULE_FST_NAMES|
      invariant paths == PresentPaths(dir, RULE_FST_NAMES[..i], existing)
    {
      var p := JoinPath(dir, RULE_FST_NAMES[i]);
      assert RULE_FST_NAMES[..i + 1][..i] == RULE_FST_NAMES[..i];
      if p in existing {
        paths := paths + [p];
      }
      i := i + 1;
    }
    assert RULE_FST_NAMES[..i] == RULE_FST_NAMES;
  }

  /** The holder of `_tts_instance`. */
  class TtsManager {
    const modelDir: string
    const numThreads: int
    var instance: Option<Handle>
    /** How many handles have been constructed so far. */
    ghost var builds: nat

    constructor (modelDir: string, numThreads: int)
      ensures this.modelDir == modelDir && this.numThreads == numThreads
      ensures instance == None && builds == 0
    {
      this.modelDir := modelDir;
      this.numThreads := numThreads;
      instance := None;
      builds := 0;
    }

    /**
     * `get_tts()`: a cached handle is returned with nothing rebuilt; otherwise
     * a cold call either caches and returns the handle it constructs or raises
     * and leaves the cache empty.
     */
    method GetTts(env: Env) returns (r: Result<Handle, InitError>)
      modifies this
      ensures (instance, r) == GetTtsStep(old(instance), modelDir, numThreads, env)
      ensures builds == old(builds) + (if Builds(old(instance), modelDir, numThreads, env) then 1 else 0)
      ensures old(instance).Some? ==> instance == old(instance) && r == Ok(old(instance).value)
      ensures r.Err? ==> instance == None
    {
      if instance.Some? {
        return Ok(instance.value);
      }
      var missing := CheckRequired(modelDir, env.existing);
      if missing.Some? {
        var k := missing.value;
        return Err(MissingResource(REQUIRED[k].shownAs, JoinPath(modelDir, REQUIRED[k].name)));
      }
      var fsts := CollectRuleFsts(modelDir, env.existing);
      var config := TtsConfig(
        JoinPath(modelDir, "model.onnx"), JoinPath(modelDir, "lexicon.txt"), JoinPath(modelDir, "tokens.txt"),
        JoinPath(modelDir, "dict"), numThreads, PROVIDER, Join(',', fsts));
      if !env.configValid {
        return Err(InvalidConfig);
      }
      if !env.constructs {
        return Err(ConstructionFailed);
      }
      instance := Some(OfflineTts(config));
      builds := builds + 1;
      r := Ok(instance.value);
    }
  }
}
