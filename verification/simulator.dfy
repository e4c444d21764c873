/**
 * The checks and bookkeeping of the `Simulator` processor: which Geant4 UI
 * commands a configuration may pass, the configuration its constructor
 * reads (in order, with the first failure winning), the seed vector given
 * to the random engine and the run-header keys the command lists are
 * recorded under.
 *
 * Geant4 itself is a parameter: `apply(cmd)` is the status
 * `G4UImanager::ApplyCommand` returns.
 */
module Simulator {
  import opened Wrappers
  import opened Strings
  import opened Parameters
  import opened UserActionKinds

  /** Substrings of commands other parts of the simulator own. */
  const InvalidCommands: seq<string> :=
    ["/run/initialize", "/run/beamOn", "/random/setSeeds", "ldmx", "/persistency/gdml/read"]

  /** No invalid substring from index `k` on occurs in `cmd`. */
  function AllowedFrom(cmd: string, k: nat): (r: bool)
    requires k <= |InvalidCommands|
    ensures r <==> forall j :: k <= j < |InvalidCommands| ==> !Contains(cmd, InvalidCommands[j])
    decreases |InvalidCommands| - k
  {
    if k == |InvalidCommands| then true
    else if Contains(cmd, InvalidCommands[k]) then false
    else AllowedFrom(cmd, k + 1)
  }

  /** `allowed(cmd)`. */
  function Allowed(cmd: string): (r: bool)
    ensures r <==> forall j :: 0 <= j < |InvalidCommands| ==> !Contains(cmd, InvalidCommands[j])
  {
    AllowedFrom(cmd, 0)
  }

  /** Whatever a forbidden command is glued to, the result stays forbidden. */
  lemma ForbiddenStaysForbidden(a: string, b: string)
    ensures !Allowed(a) ==> !Allowed(a + b) && !Allowed(b + a)
  {
    if !Allowed(a) {
      var j :| 0 <= j < |InvalidCommands| && Contains(a, InvalidCommands[j]);
      ContainsInConcat(InvalidCommands[j], a, b);
    }
  }

  /** Each invalid substring is itself a forbidden command. */
  lemma InvalidCommandsForbidden(j: nat)
    requires j < |InvalidCommands|
    ensures !Allowed(InvalidCommands[j])
  {
    ContainsSelf(InvalidCommands[j]);
  }

  /** The pre-initialisation commands: each must be allowed and accepted by Geant4, in order. */
  function PreInit(cmds: seq<string>, apply: string -> int): (r: Result<seq<string>>)
    ensures r.Ok? <==> forall k :: 0 <= k < |cmds| ==> Allowed(cmds[k]) && apply(cmds[k]) <= 0
    ensures r.Ok? ==> r.value == cmds
    ensures r.Err? ==> r.error == "PreInitCmd"
    decreases |cmds|
  {
    if |cmds| == 0 then Ok([])
    else
      var init :- PreInit(cmds[..|cmds| - 1], apply);
      var cmd := cmds[|cmds| - 1];
      if !Allowed(cmd) || apply(cmd) > 0 then Err("PreInitCmd")
      else Ok(init + [cmd])
  }

  /** The post-initialisation commands are only checked here; Geant4 runs them later. */
  function PostInit(cmds: seq<string>): (r: Result<seq<string>>)
    ensures r.Ok? <==> forall k :: 0 <= k < |cmds| ==> Allowed(cmds[k])
    ensures r.Ok? ==> r.value == cmds
    ensures r.Err? ==> r.error == "PostInitCmd"
    decreases |cmds|
  {
    if |cmds| == 0 then Ok([])
    else
      var init :- PostInit(cmds[..|cmds| - 1]);
      if !Allowed(cmds[|cmds| - 1]) then Err("PostInitCmd")
      else Ok(init + [cmds[|cmds| - 1]])
  }

  /** The `class_name` of each configured object. */
  function ClassNames(ps: seq<Parameters>): (r: Result<seq<string>>)
    ensures r.Ok? ==> |r.value| == |ps|
    ensures r.Ok? ==> forall k :: 0 <= k < |ps| ==> GetString(ps[k], "class_name") == Ok(r.value[k])
    decreases |ps|
  {
    if |ps| == 0 then Ok([])
    else
      var init :- ClassNames(ps[..|ps| - 1]);
      var last :- GetString(ps[|ps| - 1], "class_name");
      Ok(init + [last])
  }

  /** The `pre_init_cmds` list as configured; empty when absent. */
  function PreInitCommands(params: Parameters): Result<seq<string>> {
    Defaulted(params, "pre_init_cmds", GetStrings(params, "pre_init_cmds"), [])
  }

  /** The `post_init_cmds` list as configured; empty when absent. */
  function PostInitCommands(params: Parameters): Result<seq<string>> {
    Defaulted(params, "post_init_cmds", GetStrings(params, "post_init_cmds"), [])
  }

  /** The `generators` list as configured; empty when absent. */
  function Generators(params: Parameters): Result<seq<Parameters>> {
    Defaulted(params, "generators", GetParametersList(params, "generators"), [])
  }

  /** What the constructor reads before the command lists. */
  datatype Head = Head(verbosity: int, loggingPrefix: string, detectorClass: string, sensitiveDetectorClasses: seq<string>)

  /** The verbosity, the logging prefix, the detector's class and each sensitive detector's class. */
  function ReadHead(params: Parameters): (r: Result<Head>)
    ensures r.Ok? ==> && GetParameters(params, "detector").Ok?
                      && GetString(GetParameters(params, "detector").value, "class_name") == Ok(r.value.detectorClass)
    ensures r.Ok? ==> && GetParametersList(params, "sensitive_detectors").Ok?
                      && ClassNames(GetParametersList(params, "sensitive_detectors").value) == Ok(r.value.sensitiveDetectorClasses)
    ensures r.Ok? ==> && Defaulted(params, "verbosity", GetInt(params, "verbosity"), 0) == Ok(r.value.verbosity)
                      && Defaulted(params, "logging_prefix", GetString(params, "logging_prefix"), "g4fire_log") == Ok(r.value.loggingPrefix)
  {
    var verbosity :- Defaulted(params, "verbosity", GetInt(params, "verbosity"), 0);
    var prefix :- Defaulted(params, "logging_prefix", GetString(params, "logging_prefix"), "g4fire_log");
    var detector :- GetParameters(params, "detector");
    var detectorClass :- GetString(detector, "class_name");
    var sds :- GetParametersList(params, "sensitive_detectors");
    var sdClasses :- ClassNames(sds);
    Ok(Head(verbosity, prefix, detectorClass, sdClasses))
  }

  /**
   * The pre-initialisation commands, applied in order, then the
   * post-initialisation commands, checked. A bad pre-initialisation command
   * fails with "PreInitCmd" before the post-initialisation list is read; a
   * forbidden post-initialisation command fails with "PostInitCmd".
   */
  function ReadCommands(params: Parameters, apply: string -> int): (r: Result<(seq<string>, seq<string>)>)
    ensures r.Ok? <==>
      && PreInitCommands(params).Ok? && PostInitCommands(params).Ok?
      && (forall k :: 0 <= k < |PreInitCommands(params).value| ==>
            Allowed(PreInitCommands(params).value[k]) && apply(PreInitCommands(params).value[k]) <= 0)
      && (forall k :: 0 <= k < |PostInitCommands(params).value| ==> Allowed(PostInitCommands(params).value[k]))
    ensures r.Ok? ==> r.value == (PreInitCommands(params).value, PostInitCommands(params).value)
    ensures PreInitCommands(params).Ok? && PreInit(PreInitCommands(params).value, apply).Err? ==> r == Err("PreInitCmd")
    ensures && PreInitCommands(params).Ok? && PreInit(PreInitCommands(params).value, apply).Ok?
            && PostInitCommands(params).Ok? && PostInit(PostInitCommands(params).value).Err?
            ==> r == Err("PostInitCmd")
  {
    var preCmds :- PreInitCommands(params);
    var pre :- PreInit(preCmds, apply);
    var postCmds :- PostInitCommands(params);
    var post :- PostInit(postCmds);
    Ok((pre, post))
  }

  /** What the constructor keeps. */
  datatype Config = Config(
    verbosity: int,
    loggingPrefix: string,
    detectorClass: string,
    sensitiveDetectorClasses: seq<string>,
    preInitCommands: seq<string>,
    postInitCommands: seq<string>,
    referencePhysicsList: string,
    generators: seq<Parameters>,
    actions: seq<Parameters>,
    additionalPhysics: seq<Parameters>,
    biasingOperators: seq<Parameters>)

  /**
   * The constructor's reads and checks, in its order, the first failure
   * winning. Building the objects from their class names (the factories) is
   * not modelled.
   */
  function Construct(params: Parameters, apply: string -> int): (r: Result<Config>)
    ensures r.Ok? ==> && ReadHead(params).Ok?
                      && ReadCommands(params, apply) == Ok((r.value.preInitCommands, r.value.postInitCommands))
    ensures r.Ok? ==> && PreInitCommands(params) == Ok(r.value.preInitCommands)
                      && PostInitCommands(params) == Ok(r.value.postInitCommands)
    ensures r.Ok? ==> forall k :: 0 <= k < |r.value.preInitCommands| ==>
      Allowed(r.value.preInitCommands[k]) && apply(r.value.preInitCommands[k]) <= 0
    ensures r.Ok? ==> forall k :: 0 <= k < |r.value.postInitCommands| ==> Allowed(r.value.postInitCommands[k])
    ensures r.Ok? ==> GetString(params, "reference_phys_list") == Ok(r.value.referencePhysicsList)
    ensures r.Ok? ==> |r.value.generators| > 0 && Generators(params) == Ok(r.value.generators)
    ensures ReadHead(params).Err? ==> r == Err(ReadHead(params).error)
    ensures ReadHead(params).Ok? && ReadCommands(params, apply).Err? ==> r == Err(ReadCommands(params, apply).error)
    ensures && ReadHead(params).Ok? && ReadCommands(params, apply).Ok?
            && GetString(params, "reference_phys_list").Ok? && Generators(params) == Ok([])
            ==> r == Err("MissingGenerator")
  {
    var head :- ReadHead(params);
    var cmds :- ReadCommands(params, apply);
    var physicsList :- GetString(params, "reference_phys_list");
    var generators :- Generators(params);
    var _ :- if |generators| == 0 then Err("MissingGenerator") else Ok(0);
    var _ :- ClassNames(generators);
    var actions :- Defaulted(params, "actions", GetParametersList(params, "actions"), []);
    var _ :- ClassNames(actions);
    var additional :- Defaulted(params, "additional_phys", GetParametersList(params, "additional_phys"), []);
    var bops :- Defaulted(params, "biasing_operators", GetParametersList(params, "biasing_operators"), []);
    Ok(Config(head.verbosity, head.loggingPrefix, head.detectorClass, head.sensitiveDetectorClasses,
              cmds.0, cmds.1, physicsList, generators, actions, additional, bops))
  }

  /**
   * A configuration with a forbidden pre- or post-initialisation command
   * never builds a simulator; once the reads before the lists succeed it
   * fails with the list's own category ("PreInitCmd" for the first list,
   * and one of the two for the second, since a bad first list stops first).
   */
  lemma ForbiddenCommandRejected(params: Parameters, apply: string -> int, cmd: string)
    requires !Allowed(cmd)
    requires || (PreInitCommands(params).Ok? && cmd in PreInitCommands(params).value)
             || (PostInitCommands(params).Ok? && cmd in PostInitCommands(params).value)
    ensures Construct(params, apply).Err?
    ensures ReadHead(params).Ok? && PreInitCommands(params).Ok? && cmd in PreInitCommands(params).value ==>
      Construct(params, apply) == Err("PreInitCmd")
    ensures ReadHead(params).Ok? && PreInitCommands(params).Ok? ==>
      Construct(params, apply).error in {"PreInitCmd", "PostInitCmd"}
  {
    var rc := ReadCommands(params, apply);
    if PreInitCommands(params).Ok? && cmd in PreInitCommands(params).value {
      var pre := PreInitCommands(params).value;
      var k :| 0 <= k < |pre| && pre[k] == cmd;
      assert !Allowed(pre[k]);
      assert PreInit(pre, apply).Err?;
      assert rc == Err("PreInitCmd");
    } else {
      var post := PostInitCommands(params).value;
      var k :| 0 <= k < |post| && post[k] == cmd;
      assert !Allowed(post[k]);
      assert rc.Err?;
      if PreInitCommands(params).Ok? {
        if PreInit(PreInitCommands(params).value, apply).Err? {
          assert rc == Err("PreInitCmd");
        } else {
          assert PostInit(post).Err?;
          assert rc == Err("PostInitCmd");
        }
      }
    }
  }

  /** The user actions attached to the five dispatchers, in configuration order. */
  function AttachActions<A>(actions: seq<A>, typesOf: A -> seq<Kind>): (d: Dispatchers<A>)
    ensures forall k :: HasDispatcher(k) ==> Attached(d, k) == Selected(actions, typesOf, k)
    ensures Attached(d, NoKind) == []
  {
    var empty: Dispatchers<A> := map[];
    forall k ensures HasDispatcher(k) ==> Attached(AttachAll(empty, actions, typesOf), k) == Selected(actions, typesOf, k) {
      AttachAllDispatches(empty, actions, typesOf, k);
    }
    AttachAllDispatches(empty, actions, typesOf, NoKind);
    AttachAll(empty, actions, typesOf)
  }

  // ---------------------------------------------------------------------
  // Seeds
  // ---------------------------------------------------------------------

  /** The random engine takes an array of 100 seeds. */
  const SeedSlots: nat := 100

  function Zeros(n: nat): (r: seq<int>)
    ensures |r| == n && forall k :: 0 <= k < n ==> r[k] == 0
  {
    if n == 0 then [] else Zeros(n - 1) + [0]
  }

  /**
   * `setSeeds`: nothing for no seeds, an error for a single seed, otherwise
   * the seeds at the front of 100 zero-padded slots (`None` when the engine
   * is left alone).
   */
  function SetSeeds(seeds: seq<int>): (r: Result<Option<seq<int>>>)
    requires |seeds| <= SeedSlots
    ensures |seeds| == 0 <==> r == Ok(None)
    ensures r.Err? <==> |seeds| == 1
    ensures r.Err? ==> r.error == "ConfigurationException"
    ensures r.Ok? && r.value.Some? ==> |r.value.value| == SeedSlots
    ensures r.Ok? && r.value.Some? ==> forall k :: 0 <= k < SeedSlots ==> r.value.value[k] == if k < |seeds| then seeds[k] else 0
  {
    if |seeds| == 0 then Ok(None)
    else if |seeds| == 1 then Err("ConfigurationException")
    else Ok(Some(seeds + Zeros(SeedSlots - |seeds|)))
  }

  /** The run start passes two seeds, so seeding always succeeds and the engine starts with them. */
  lemma NewRunSeeds(s0: int, s1: int)
    ensures SetSeeds([s0, s1]).Ok? && SetSeeds([s0, s1]).value.Some?
    ensures SetSeeds([s0, s1]).value.value[..2] == [s0, s1]
  {
    var v := SetSeeds([s0, s1]).value.value;
    assert v[0] == s0 && v[1] == s1;
  }

  // ---------------------------------------------------------------------
  // Run header
  // ---------------------------------------------------------------------

  /** The key of the `i`-th entry (counting from 1) of a recorded list. */
  function Key(name: string, i: nat): string {
    name + " " + NatToString(i)
  }

  /** The keys a list of `n` entries is recorded under. */
  function DumpKeys(name: string, n: nat): set<string> {
    set i | 1 <= i <= n :: Key(name, i)
  }

  /** The lambda in `beforeNewRun`: record `vec` under "<name> 1", "<name> 2", .... */
  function Dump(header: map<string, string>, name: string, vec: seq<string>): (r: map<string, string>)
    ensures r.Keys == header.Keys + DumpKeys(name, |vec|)
    decreases |vec|
  {
    if |vec| == 0 then header
    else
      var r := Dump(header, name, vec[..|vec| - 1])[Key(name, |vec|) := vec[|vec| - 1]];
      assert r.Keys == header.Keys + DumpKeys(name, |vec|) by {
        forall x | x in r.Keys ensures x in header.Keys + DumpKeys(name, |vec|) {
        }
        forall i | 1 <= i <= |vec| ensures Key(name, i) in r.Keys {
        }
      }
      r
  }

  lemma KeyInjective(name: string, i: nat, j: nat)
    requires Key(name, i) == Key(name, j)
    ensures i == j
  {
    assert NatToString(i) == Key(name, i)[|name| + 1..];
    assert NatToString(j) == Key(name, j)[|name| + 1..];
    NatToStringInjective(i, j);
  }

  /** Every entry is recorded under its own number, so none overwrites another. */
  lemma {:induction false} DumpRecordsEach(header: map<string, string>, name: string, vec: seq<string>, i: nat)
    requires 1 <= i <= |vec|
    ensures Key(name, i) in Dump(header, name, vec)
    ensures Dump(header, name, vec)[Key(name, i)] == vec[i - 1]
    decreases |vec|
  {
    if i < |vec| {
      DumpRecordsEach(header, name, vec[..|vec| - 1], i);
      if Key(name, |vec|) == Key(name, i) {
        KeyInjective(name, |vec|, i);
      }
    }
  }

  /** An entry the list is not recorded under keeps its value. */
  lemma {:induction false} DumpKeepsOthers(header: map<string, string>, name: string, vec: seq<string>, k: string)
    requires k in header && k !in DumpKeys(name, |vec|)
    ensures k in Dump(header, name, vec) && Dump(header, name, vec)[k] == header[k]
    decreases |vec|
  {
    if |vec| > 0 {
      assert Key(name, |vec|) in DumpKeys(name, |vec|);
      assert DumpKeys(name, |vec| - 1) <= DumpKeys(name, |vec|);
      DumpKeepsOthers(header, name, vec[..|vec| - 1], k);
    }
  }

  /** The two command lists and the physics list never share a key. */
  lemma RunHeaderKeysDistinct(i: nat, j: nat)
    ensures Key("Pre Init Command", i) != Key("Post Init Command", j)
    ensures Key("Pre Init Command", i) != "reference phys list"
    ensures Key("Post Init Command", j) != "reference phys list"
  {
    assert Key("Pre Init Command", i)[1] == 'r';
    assert Key("Post Init Command", j)[1] == 'o';
    assert Key("Pre Init Command", i)[0] == 'P' && Key("Post Init Command", j)[0] == 'P';
  }

  /** The pre-initialisation list, dumped first, survives the post-initialisation dump. */
  lemma DumpTwiceKeepsFirst(header: map<string, string>, pre: seq<string>, post: seq<string>, i: nat)
    requires 1 <= i <= |pre|
    ensures var h := Dump(Dump(header, "Pre Init Command", pre), "Post Init Command", post);
      Key("Pre Init Command", i) in h && h[Key("Pre Init Command", i)] == pre[i - 1]
  {
    DumpRecordsEach(header, "Pre Init Command", pre, i);
    assert Key("Pre Init Command", i) !in DumpKeys("Post Init Command", |post|) by {
      forall j | 1 <= j <= |post| ensures Key("Pre Init Command", i) != Key("Post Init Command", j) {
        RunHeaderKeysDistinct(i, j);
      }
    }
    DumpKeepsOthers(Dump(header, "Pre Init Command", pre), "Post Init Command", post, Key("Pre Init Command", i));
  }

  /** Both dumps of `beforeNewRun`: each list under its own numbers, every other entry unchanged. */
  lemma DumpBoth(header: map<string, string>, pre: seq<string>, post: seq<string>)
    ensures var h := Dump(Dump(header, "Pre Init Command", pre), "Post Init Command", post);
      && (forall i :: 1 <= i <= |pre| ==> Key("Pre Init Command", i) in h && h[Key("Pre Init Command", i)] == pre[i - 1])
      && (forall i :: 1 <= i <= |post| ==> Key("Post Init Command", i) in h && h[Key("Post Init Command", i)] == post[i - 1])
      && (forall k :: k in header && k !in DumpKeys("Pre Init Command", |pre|) && k !in DumpKeys("Post Init Command", |post|)
            ==> k in h && h[k] == header[k])
  {
    var h1 := Dump(header, "Pre Init Command", pre);
    forall i | 1 <= i <= |pre| ensures Key("Pre Init Command", i) in Dump(h1, "Post Init Command", post) && Dump(h1, "Post Init Command", post)[Key("Pre Init Command", i)] == pre[i - 1] {
      DumpTwiceKeepsFirst(header, pre, post, i);
    }
    forall i | 1 <= i <= |post| ensures Key("Post Init Command", i) in Dump(h1, "Post Init Command", post) && Dump(h1, "Post Init Command", post)[Key("Post Init Command", i)] == post[i - 1] {
      DumpRecordsEach(h1, "Post Init Command", post, i);
    }
    forall k | k in header && k !in DumpKeys("Pre Init Command", |pre|) && k !in DumpKeys("Post Init Command", |post|)
      ensures k in Dump(h1, "Post Init Command", post) && Dump(h1, "Post Init Command", post)[k] == header[k]
    {
      DumpKeepsOthers(header, "Pre Init Command", pre, k);
      DumpKeepsOthers(h1, "Post Init Command", post, k);
    }
  }

  /** No recorded command is stored under the physics list's key. */
  lemma PhysicsListKeyFree(pre: nat, post: nat)
    ensures "reference phys list" !in DumpKeys("Pre Init Command", pre)
    ensures "reference phys list" !in DumpKeys("Post Init Command", post)
  {
    forall i | 1 <= i <= pre ensures Key("Pre Init Command", i) != "reference phys list" {
      RunHeaderKeysDistinct(i, 0);
    }
    forall i | 1 <= i <= post ensures Key("Post Init Command", i) != "reference phys list" {
      RunHeaderKeysDistinct(0, i);
    }
  }

  /**
   * `beforeNewRun`'s own entries: every pre- and post-initialisation command
   * under its number, the reference physics list, and every other entry of
   * the header as it was.
   */
  function RunHeader(header: map<string, string>, config: Config): (r: map<string, string>)
    ensures forall i :: 1 <= i <= |config.preInitCommands| ==>
      Key("Pre Init Command", i) in r && r[Key("Pre Init Command", i)] == config.preInitCommands[i - 1]
    ensures forall i :: 1 <= i <= |config.postInitCommands| ==>
      Key("Post Init Command", i) in r && r[Key("Post Init Command", i)] == config.postInitCommands[i - 1]
    ensures "reference phys list" in r && r["reference phys list"] == config.referencePhysicsList
    ensures r.Keys == header.Keys + DumpKeys("Pre Init Command", |config.preInitCommands|)
                      + DumpKeys("Post Init Command", |config.postInitCommands|) + {"reference phys list"}
    ensures forall k :: && k in header && k != "reference phys list"
                        && k !in DumpKeys("Pre Init Command", |config.preInitCommands|)
                        && k !in DumpKeys("Post Init Command", |config.postInitCommands|)
                        ==> k in r && r[k] == header[k]
  {
    var h := Dump(Dump(header, "Pre Init Command", config.preInitCommands), "Post Init Command", config.postInitCommands);
    DumpBoth(header, config.preInitCommands, config.postInitCommands);
    PhysicsListKeyFree(|config.preInitCommands|, |config.postInitCommands|);
    h["reference phys list" := config.referencePhysicsList]
  }
}
