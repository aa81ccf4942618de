/**
 The commands that create, reuse and remove the chain container, and the agreement they
 keep between that container and the saved configuration.
 */
module ChainCommands {
  import opened Prelude
  import opened Docker

  const CHAIN: string := "dcchain"
  const VALIDATOR: string := "--validator"

  datatype ChainConfig = ChainConfig(
    nodeName: string, validatorFlag: string, syncMode: string,
    bootNode: string, exposeFlag: string, image: string)

  /** The command line startDcchainInDocker builds. */
  function Entrypoint(c: ChainConfig): seq<string> {
    Head() + Boot(c) + Mode(c) + Rpc(c) + Sync(c) + Pool() + ["--name", c.nodeName]
  }

  function Head(): seq<string> { ["dcchain", "--chain=mainnet", "--port", "60666"] }

  function Boot(c: ChainConfig): seq<string> {
    if |c.bootNode| > 20 then ["--bootnodes", c.bootNode] else []
  }

  function Mode(c: ChainConfig): seq<string> {
    if c.validatorFlag == "enable"
    then ["--state-pruning", "archive", "--blocks-pruning", "archive", VALIDATOR] else []
  }

  function Rpc(c: ChainConfig): seq<string> {
    if c.exposeFlag == "enable" then ["--unsafe-rpc-external", "--rpc-cors", "all"] else []
  }

  function Sync(c: ChainConfig): seq<string> {
    ["-d", "/opt/dcnetio/chaindata", "--sync", if c.syncMode != "" then c.syncMode else "full"]
  }

  function Pool(): seq<string> {
    ["--pool-limit", "819200", "--pool-kbytes", "2048000", "--rpc-max-subscriptions-per-connection", "1024000"]
  }

  /** No free-form value spells the validator flag. */
  predicate Sane(c: ChainConfig) {
    c.nodeName != VALIDATOR && c.syncMode != VALIDATOR
  }

  predicate IsValidator(args: seq<string>) {
    VALIDATOR in args
  }

  lemma EntrypointMode(c: ChainConfig)
    requires Sane(c)
    ensures IsValidator(Entrypoint(c)) <==> c.validatorFlag == "enable"
  {
    NotThere(c);
    if c.validatorFlag == "enable" {
      assert Mode(c)[4] == VALIDATOR;
    }
  }

  lemma NotThere(c: ChainConfig)
    requires Sane(c)
    ensures VALIDATOR !in Head() && VALIDATOR !in Boot(c) && VALIDATOR !in Rpc(c)
    ensures VALIDATOR !in Sync(c) && VALIDATOR !in Pool() && VALIDATOR !in ["--name", c.nodeName]
  {
    assert |VALIDATOR| == 11 && VALIDATOR[2] == 'v';
    assert |"--bootnodes"| == 11 && "--bootnodes"[2] == 'b';
  }

  /** The option `flag` is given with `value`. */
  ghost predicate Gives(args: seq<string>, flag: string, value: string) {
    exists i :: 0 <= i < |args| - 1 && args[i] == flag && args[i + 1] == value
  }

  predicate IsValue(v: string) {
    v == "" || v[0] != '-'
  }

  /** No free-form value looks like an option. */
  predicate Flagless(c: ChainConfig) {
    IsValue(c.nodeName) && IsValue(c.syncMode) && IsValue(c.bootNode)
  }

  /** What the command line of a chain node with this configuration says. */
  ghost predicate Spells(args: seq<string>, c: ChainConfig) {
    && |args| > 0 && args[0] == "dcchain"
    && (forall v :: Gives(args, "--bootnodes", v) <==> |c.bootNode| > 20 && v == c.bootNode)
    && ("--validator" in args <==> c.validatorFlag == "enable")
    && (forall v :: Gives(args, "--state-pruning", v) <==> c.validatorFlag == "enable" && v == "archive")
    && (forall v :: Gives(args, "--blocks-pruning", v) <==> c.validatorFlag == "enable" && v == "archive")
    && ("--unsafe-rpc-external" in args <==> c.exposeFlag == "enable")
    && (forall v :: Gives(args, "--rpc-cors", v) <==> c.exposeFlag == "enable" && v == "all")
    && (forall v :: Gives(args, "-d", v) <==> v == "/opt/dcnetio/chaindata")
    && (forall v :: Gives(args, "--sync", v) <==> v == if c.syncMode != "" then c.syncMode else "full")
    && (forall v :: Gives(args, "--name", v) <==> v == c.nodeName)
  }

  lemma GivenOnce(a: seq<string>, flag: string, value: string, b: seq<string>)
    requires flag !in a && flag !in b && flag != value
    ensures forall v :: Gives(a + [flag, value] + b, flag, v) <==> v == value
  {
    var args := a + [flag, value] + b;
    assert args[|a|] == flag && args[|a| + 1] == value;
    forall i | 0 <= i < |args| && i != |a| ensures args[i] != flag {
      if i < |a| {
        assert args[i] in a;
      } else if i > |a| + 1 {
        assert args[i] in b;
      }
    }
  }

  lemma NeverGiven(args: seq<string>, flag: string)
    requires flag !in args
    ensures forall v :: !Gives(args, flag, v)
  {
  }

  /** Which options stand in which part. */
  lemma WhereOptions(c: ChainConfig, flag: string)
    requires Flagless(c) && !IsValue(flag)
    ensures flag in Head() ==> flag == "--chain=mainnet" || flag == "--port"
    ensures flag in Boot(c) ==> flag == "--bootnodes"
    ensures flag in Mode(c) ==> flag == "--state-pruning" || flag == "--blocks-pruning" || flag == "--validator"
    ensures flag in Rpc(c) ==> flag == "--unsafe-rpc-external" || flag == "--rpc-cors"
    ensures flag in Sync(c) ==> flag == "-d" || flag == "--sync"
    ensures flag in Pool() ==> |flag| > 11
    ensures flag in ["--name", c.nodeName] ==> flag == "--name"
  {
  }

  lemma BootGiven(c: ChainConfig)
    requires Flagless(c) && |c.bootNode| > 20
    ensures forall v :: Gives(Entrypoint(c), "--bootnodes", v) <==> v == c.bootNode
  {
    WhereOptions(c, "--bootnodes");
    var before := Head();
    var rest := Mode(c) + Rpc(c) + Sync(c) + Pool() + ["--name", c.nodeName];
    GivenOnce(before, "--bootnodes", c.bootNode, rest);
    assert Entrypoint(c) == before + ["--bootnodes", c.bootNode] + rest;
  }

  lemma StatePruningGiven(c: ChainConfig)
    requires Flagless(c) && c.validatorFlag == "enable"
    ensures forall v :: Gives(Entrypoint(c), "--state-pruning", v) <==> v == "archive"
  {
    WhereOptions(c, "--state-pruning");
    var before := Head() + Boot(c);
    var rest := ["--blocks-pruning", "archive", "--validator"] + Rpc(c) + Sync(c) + Pool() + ["--name", c.nodeName];
    GivenOnce(before, "--state-pruning", "archive", rest);
    assert Entrypoint(c) == before + ["--state-pruning", "archive"] + rest;
  }

  lemma BlocksPruningGiven(c: ChainConfig)
    requires Flagless(c) && c.validatorFlag == "enable"
    ensures forall v :: Gives(Entrypoint(c), "--blocks-pruning", v) <==> v == "archive"
  {
    WhereOptions(c, "--blocks-pruning");
    var before := Head() + Boot(c) + ["--state-pruning", "archive"];
    var rest := ["--validator"] + Rpc(c) + Sync(c) + Pool() + ["--name", c.nodeName];
    GivenOnce(before, "--blocks-pruning", "archive", rest);
    assert Entrypoint(c) == before + ["--blocks-pruning", "archive"] + rest;
  }

  lemma CorsGiven(c: ChainConfig)
    requires Flagless(c) && c.exposeFlag == "enable"
    ensures forall v :: Gives(Entrypoint(c), "--rpc-cors", v) <==> v == "all"
  {
    WhereOptions(c, "--rpc-cors");
    var before := Head() + Boot(c) + Mode(c) + ["--unsafe-rpc-external"];
    var rest := Sync(c) + Pool() + ["--name", c.nodeName];
    GivenOnce(before, "--rpc-cors", "all", rest);
    assert Entrypoint(c) == before + ["--rpc-cors", "all"] + rest;
  }

  lemma DirGiven(c: ChainConfig)
    requires Flagless(c)
    ensures forall v :: Gives(Entrypoint(c), "-d", v) <==> v == "/opt/dcnetio/chaindata"
  {
    WhereOptions(c, "-d");
    var before := Head() + Boot(c) + Mode(c) + Rpc(c);
    var rest := Sync(c)[2..] + Pool() + ["--name", c.nodeName];
    GivenOnce(before, "-d", "/opt/dcnetio/chaindata", rest);
    assert Entrypoint(c) == before + ["-d", "/opt/dcnetio/chaindata"] + rest;
  }

  lemma SyncGiven(c: ChainConfig)
    requires Flagless(c)
    ensures forall v :: Gives(Entrypoint(c), "--sync", v) <==> v == if c.syncMode != "" then c.syncMode else "full"
  {
    WhereOptions(c, "--sync");
    var before := Head() + Boot(c) + Mode(c) + Rpc(c) + ["-d", "/opt/dcnetio/chaindata"];
    var rest := Pool() + ["--name", c.nodeName];
    GivenOnce(before, "--sync", (if c.syncMode != "" then c.syncMode else "full"), rest);
    assert Entrypoint(c) == before + ["--sync", (if c.syncMode != "" then c.syncMode else "full")] + rest;
  }

  lemma NameGiven(c: ChainConfig)
    requires Flagless(c)
    ensures forall v :: Gives(Entrypoint(c), "--name", v) <==> v == c.nodeName
  {
    WhereOptions(c, "--name");
    var before := Head() + Boot(c) + Mode(c) + Rpc(c) + Sync(c) + Pool();
    var rest := [];
    GivenOnce(before, "--name", c.nodeName, rest);
    assert Entrypoint(c) == before + ["--name", c.nodeName] + rest;
  }

  /** The options of a part that is left out are not given. */
  lemma NotGiven(c: ChainConfig, flag: string)
    requires Flagless(c)
    requires || (|c.bootNode| <= 20 && flag == "--bootnodes")
             || (c.validatorFlag != "enable" && (flag == "--state-pruning" || flag == "--blocks-pruning"))
             || (c.exposeFlag != "enable" && (flag == "--rpc-cors" || flag == "--unsafe-rpc-external"))
    ensures flag !in Entrypoint(c) && forall v :: !Gives(Entrypoint(c), flag, v)
  {
    WhereOptions(c, flag);
    NeverGiven(Entrypoint(c), flag);
  }

  /** The command line says what is configured, and nothing else about it. */
  lemma CommandLine(c: ChainConfig)
    requires Flagless(c)
    ensures Spells(Entrypoint(c), c)
  {
    EntrypointMode(c);
    NameGiven(c);
    SyncGiven(c);
    DirGiven(c);
    if |c.bootNode| > 20 { BootGiven(c); } else { NotGiven(c, "--bootnodes"); }
    PruningSpelled(c);
    RpcSpelled(c);
  }

  lemma PruningSpelled(c: ChainConfig)
    requires Flagless(c)
    ensures forall v :: Gives(Entrypoint(c), "--state-pruning", v) <==> c.validatorFlag == "enable" && v == "archive"
    ensures forall v :: Gives(Entrypoint(c), "--blocks-pruning", v) <==> c.validatorFlag == "enable" && v == "archive"
  {
    if c.validatorFlag == "enable" {
      StatePruningGiven(c);
      BlocksPruningGiven(c);
    } else {
      NotGiven(c, "--state-pruning");
      NotGiven(c, "--blocks-pruning");
    }
  }

  lemma RpcSpelled(c: ChainConfig)
    requires Flagless(c)
    ensures "--unsafe-rpc-external" in Entrypoint(c) <==> c.exposeFlag == "enable"
    ensures forall v :: Gives(Entrypoint(c), "--rpc-cors", v) <==> c.exposeFlag == "enable" && v == "all"
  {
    if c.exposeFlag == "enable" {
        assert Rpc(c)[0] == "--unsafe-rpc-external" && Rpc(c)[0] in Rpc(c);
      CorsGiven(c);
    } else {
      NotGiven(c, "--rpc-cors");
      NotGiven(c, "--unsafe-rpc-external");
    }
  }

  /** A chain container, if there is one, was built in the mode that is saved; and before
      the first configuration there is none. */
  ghost predicate Agrees(saved: ChainConfig, m: Containers) {
    && (forall id :: Named(m, id, CHAIN) ==> (IsValidator(m[id].args) <==> saved.validatorFlag == "enable"))
    && (saved.validatorFlag == "" ==> NameFree(m, CHAIN))
  }

  /** Every chain container of `m'` was one of `m`, with the same arguments. */
  ghost predicate NoNewChain(m: Containers, m': Containers) {
    forall id :: Named(m', id, CHAIN) ==> Named(m, id, CHAIN) && m'[id].args == m[id].args
  }

  lemma OtherServiceStart(m: Containers, name: string, removeOld: bool, image: string, args: seq<string>,
                          m': Containers, err: Err)
    requires WellNamed(m) && StartRel(m, name, removeOld, image, args, m', err) && name != CHAIN
    ensures NoNewChain(m, m')
  {
    assert ("/" + name)[1..] == name && ("/" + CHAIN)[1..] == CHAIN;
    if m' == m {
    } else if Reused(m, name, image, m') {
    } else if NameFree(m, name) && Created(m, m, name, image, args, m', err) {
    } else {
      var prior: Id :| Named(m, prior, name) && m[prior].image != image &&
                       (|| (err.Some? && m' == m[prior := m[prior].(running := false)])
                        || (err.Some? && m' == m - {prior})
                        || Created(m, m - {prior}, name, image, args, m', err));
    }
  }

  /** Starting the chain keeps the agreement even though a container with the configured
      image is reused with the arguments it was built with. */
  lemma ChainStartAgrees(c: ChainConfig, m: Containers, m': Containers, err: Err)
    requires WellNamed(m) && Sane(c) && Agrees(c, m) && c.validatorFlag != ""
    requires StartRel(m, CHAIN, true, c.image, Entrypoint(c), m', err)
    ensures Agrees(c, m')
  {
    EntrypointMode(c);
    if m' == m {
    } else if Reused(m, CHAIN, c.image, m') {
      assert NoNewChain(m, m');
    } else if NameFree(m, CHAIN) && Created(m, m, CHAIN, c.image, Entrypoint(c), m', err) {
    } else {
      var prior: Id :| Named(m, prior, CHAIN) && m[prior].image != c.image &&
                       (|| (err.Some? && m' == m[prior := m[prior].(running := false)])
                        || (err.Some? && m' == m - {prior})
                        || Created(m, m - {prior}, CHAIN, c.image, Entrypoint(c), m', err));
    }
  }

  /** A chain container that is made by a start has the command line of the configuration. */
  lemma NewChainSpelled(c: ChainConfig, m: Containers, m': Containers, err: Err)
    requires StartRel(m, CHAIN, true, c.image, Entrypoint(c), m', err)
    ensures forall id :: Named(m', id, CHAIN) && id !in m ==>
              && m'[id].names == ["/dcchain"] && m'[id].image == c.image && m'[id].args == Entrypoint(c)
              && (Flagless(c) ==> Spells(m'[id].args, c))
  {
    assert "/" + CHAIN == "/dcchain";
    if Flagless(c) {
      CommandLine(c);
    }
  }

  lemma RemoveAgrees(saved: ChainConfig, m: Containers, m': Containers, err: Err)
    requires WellNamed(m) && Agrees(saved, m) && RemoveRel(m, CHAIN, m', err)
    ensures Agrees(saved, m')
    ensures err.None? ==> NameFree(m', CHAIN)
  {
    RemoveFreesName(m, CHAIN, m', err);
    assert NoNewChain(m, m');
  }

  /**
   Two processes at a time are another matter.  A process that still works on a copy of
   the configuration read earlier, as the upgrade daemon does, keeps the agreement when
   it saves exactly if its copy is of the same mode or there is no chain container.
   */
  lemma StaleSaveAgreesIff(saved: ChainConfig, copy: ChainConfig, m: Containers)
    requires Agrees(saved, m)
    ensures Agrees(copy, m) <==> || NameFree(m, CHAIN)
                                 || (copy.validatorFlag != "" && (copy.validatorFlag == "enable" <==> saved.validatorFlag == "enable"))
  {
    if id: Id :| Named(m, id, CHAIN) {
      assert IsValidator(m[id].args) <==> saved.validatorFlag == "enable";
    }
  }

  // ---------------------------------------------------------------- what a command may do

  datatype Command =
    | Configure(goOn: bool, validator: bool)   // the answers given to `dc config`
    | StartChain
    | StopService(name: string)
    | StartService(name: string, removeOld: bool, image: string, args: seq<string>)
    | Hold(process: nat)      // a process that lives on, such as the daemon, reads the configuration,
    | SaveHeld(process: nat)  // and some time later writes back what it has read

  /** A command, and the random name its process would give the chain node. */
  datatype Call = Call(command: Command, random: string)

  /** What a process may find or fail at: writing the name, removing the old chain's data,
      answering the prompts and writing the file, having a data directory. */
  datatype Luck = Luck(named: bool, dataRemoved: bool, written: bool, dirReady: bool)

  datatype ChainState = ChainState(saved: ChainConfig, docker: Containers, held: map<nat, ChainConfig>)

  /** Every process first makes sure that the chain node has a name. */
  function Christened(c: ChainConfig, random: string): ChainConfig {
    if c.nodeName == "" then c.(nodeName := "dcnet_" + random) else c
  }

  function Configured(c: ChainConfig, validator: bool): ChainConfig {
    if validator then c.(validatorFlag := "enable", syncMode := "full") else c.(validatorFlag := "disable")
  }

  ghost predicate StartChainRel(c: ChainConfig, m: Containers, m': Containers) {
    m' == m || exists err: Err :: StartRel(m, CHAIN, true, c.image, Entrypoint(c), m', err)
  }

  /** `dc config` that ends early has at most cleared the old container. */
  ghost predicate EndedEarly(s: ChainState, s': ChainState) {
    && s'.saved == s.saved && s'.held == s.held
    && (s'.docker == s.docker || (s.saved.validatorFlag != "" && exists err: Err :: RemoveRel(s.docker, CHAIN, s'.docker, err)))
  }

  /** One that completes has cleared what there was, saved the new mode and tried to start
      the chain. */
  ghost predicate Reconfigured(s: ChainState, validator: bool, s': ChainState) {
    && s'.saved == Configured(s.saved, validator) && s'.held == s.held
    && exists m :: && (if s.saved.validatorFlag == "" then m == s.docker else RemoveRel(s.docker, CHAIN, m, None))
                   && StartChainRel(s'.saved, m, s'.docker)
  }

  /** Process `p` writes back what it holds. */
  function Written(s: ChainState, p: nat): ChainState {
    if p in s.held then s.(saved := s.held[p]) else s
  }

  /** The process proper, once the node has a name. */
  ghost predicate ProcessRel(s: ChainState, c: Command, s': ChainState) {
    if s.saved.validatorFlag == "" && !c.Configure? then s' == s else
      match c
      case Configure(goOn, validator) =>
        if s.saved.validatorFlag != "" && !goOn then s' == s
        else EndedEarly(s, s') || Reconfigured(s, validator, s')
      case StartChain => s' == s.(docker := s'.docker) && StartChainRel(s.saved, s.docker, s'.docker)
      case StopService(name) =>
        s' == s.(docker := s'.docker) && exists err: Err :: StopRel(s.docker, name, s'.docker, err)
      case StartService(name, removeOld, image, args) =>
        && s' == s.(docker := s'.docker)
        && if name == CHAIN then s'.docker == s.docker
           else exists err: Err :: StartRel(s.docker, name, removeOld, image, args, s'.docker, err)
      case Hold(p) => s' == s.(held := s.held[p := s.saved])
      case SaveHeld(p) => s' == Written(s, p)
  }

  /** The write of the held copy belongs to a process that is already there; every other
      command is a new process, which may fail to write the name. */
  ghost predicate CallRel(s: ChainState, call: Call, s': ChainState) {
    if call.command.SaveHeld? then s' == Written(s, call.command.process)
    else s' == s || ProcessRel(s.(saved := Christened(s.saved, call.random)), call.command, s')
  }

  ghost predicate ChainRun(t: seq<ChainState>, calls: seq<Call>) {
    && |t| == |calls| + 1
    && forall k {:trigger calls[k]} :: 0 <= k < |calls| ==> CallRel(t[k], calls[k], t[k + 1])
  }

  /** What holds whether or not the container agrees with the saved mode. */
  ghost predicate Regular(s: ChainState) {
    && WellNamed(s.docker) && Sane(s.saved)
    && (forall p :: p in s.held ==> Sane(s.held[p]) && s.held[p].validatorFlag != "")
    && (s.saved.validatorFlag == "" ==> NameFree(s.docker, CHAIN) && s.held == map[])
  }

  /** Nothing configured, no containers, no other process. */
  ghost predicate Installed(s: ChainState) {
    Sane(s.saved) && s.saved.validatorFlag == "" && s.docker == map[] && s.held == map[]
  }

  ghost predicate Agreeing(s: ChainState) {
    Agrees(s.saved, s.docker)
  }

  /** The held copy may be written back: there is no chain container, or it means the mode
      that is saved. */
  ghost predicate Harmless(s: ChainState, p: nat) {
    p in s.held ==> || NameFree(s.docker, CHAIN)
                    || (s.held[p].validatorFlag == "enable" <==> s.saved.validatorFlag == "enable")
  }

  // ---------------------------------------------------------------- one command

  lemma ChainStartKeepsNames(c: ChainConfig, m: Containers, m': Containers)
    requires WellNamed(m) && StartChainRel(c, m, m')
    ensures WellNamed(m') && OthersUnchanged(m, m', CHAIN)
    ensures Sane(c) && Agrees(c, m) && c.validatorFlag != "" ==> Agrees(c, m')
  {
    if m' != m {
      var err: Err :| StartRel(m, CHAIN, true, c.image, Entrypoint(c), m', err);
      StartReconciles(m, CHAIN, true, c.image, Entrypoint(c), m', err);
      if Sane(c) && Agrees(c, m) && c.validatorFlag != "" {
        ChainStartAgrees(c, m, m', err);
      }
    }
  }

  lemma EarlyEndKeeps(s: ChainState, s': ChainState)
    requires Regular(s) && EndedEarly(s, s')
    ensures Regular(s') && (Agreeing(s) ==> Agreeing(s'))
  {
    if s'.docker != s.docker {
      var err: Err :| RemoveRel(s.docker, CHAIN, s'.docker, err);
      RemoveFreesName(s.docker, CHAIN, s'.docker, err);
      if Agreeing(s) {
        RemoveAgrees(s.saved, s.docker, s'.docker, err);
      }
    }
  }

  /** A completed `dc config` ends in agreement, whatever there was before. */
  lemma ReconfiguredAgrees(s: ChainState, validator: bool, s': ChainState)
    requires Regular(s) && Reconfigured(s, validator, s')
    ensures Regular(s') && Agreeing(s')
  {
    var m :| && (if s.saved.validatorFlag == "" then m == s.docker else RemoveRel(s.docker, CHAIN, m, None))
             && StartChainRel(s'.saved, m, s'.docker);
    if s.saved.validatorFlag != "" {
      RemoveFreesName(s.docker, CHAIN, m, None);
    }
    assert Agrees(s'.saved, m);
    ChainStartKeepsNames(s'.saved, m, s'.docker);
  }

  lemma ServiceKeeps(s: ChainState, c: Command, s': ChainState)
    requires Regular(s) && (c.StopService? || c.StartService?) && ProcessRel(s, c, s')
    ensures Regular(s') && (Agreeing(s) ==> Agreeing(s'))
  {
    if s'.docker != s.docker {
      if c.StopService? {
        var err: Err :| StopRel(s.docker, c.name, s'.docker, err);
        StopStops(s.docker, c.name, s'.docker, err);
      } else {
        var err: Err :| StartRel(s.docker, c.name, c.removeOld, c.image, c.args, s'.docker, err);
        StartReconciles(s.docker, c.name, c.removeOld, c.image, c.args, s'.docker, err);
        OtherServiceStart(s.docker, c.name, c.removeOld, c.image, c.args, s'.docker, err);
      }
      assert NoNewChain(s.docker, s'.docker);
    }
  }

  lemma ProcessKeeps(s: ChainState, c: Command, s': ChainState)
    requires Regular(s) && ProcessRel(s, c, s') && !c.SaveHeld?
    ensures Regular(s') && (Agreeing(s) ==> Agreeing(s'))
    ensures !c.Configure? ==> s'.saved == s.saved
  {
    match c {
      case Configure(goOn, validator) =>
        if s' != s {
          if EndedEarly(s, s') { EarlyEndKeeps(s, s'); } else { ReconfiguredAgrees(s, validator, s'); }
        }
      case StartChain =>
        if s' != s { ChainStartKeepsNames(s.saved, s.docker, s'.docker); }
      case StopService(_) => if s' != s { ServiceKeeps(s, c, s'); }
      case StartService(_, _, _, _) => if s' != s { ServiceKeeps(s, c, s'); }
      case Hold(_) =>
    }
  }

  lemma ChristenedIsSane(c: ChainConfig, random: string)
    requires Sane(c)
    ensures Sane(Christened(c, random))
  {
    assert ("dcnet_" + random)[0] == 'd';
  }

  lemma CallKeeps(s: ChainState, call: Call, s': ChainState)
    requires Regular(s) && CallRel(s, call, s')
    ensures Regular(s')
    ensures !call.command.SaveHeld? && Agreeing(s) ==> Agreeing(s')
    ensures !call.command.SaveHeld? && !call.command.Configure? ==> s'.saved.validatorFlag == s.saved.validatorFlag
    ensures call.command.SaveHeld? && Agreeing(s) ==> (Agreeing(s') <==> Harmless(s, call.command.process))
  {
    if call.command.SaveHeld? {
      var p := call.command.process;
      if p in s.held && Agreeing(s) {
        StaleSaveAgreesIff(s.saved, s.held[p], s.docker);
      }
    } else if s' != s {
      ChristenedIsSane(s.saved, call.random);
      ProcessKeeps(s.(saved := Christened(s.saved, call.random)), call.command, s');
    }
  }

  // ---------------------------------------------------------------- sequences of commands

  lemma {:induction false} RunStaysRegular(t: seq<ChainState>, calls: seq<Call>, k: nat)
    requires ChainRun(t, calls) && Regular(t[0]) && k < |t|
    ensures Regular(t[k])
  {
    if k > 0 {
      RunStaysRegular(t, calls, k - 1);
      assert CallRel(t[k - 1], calls[k - 1], t[k]);
      CallKeeps(t[k - 1], calls[k - 1], t[k]);
    }
  }

  /** Every write of a held copy among the first `n` commands is harmless. */
  ghost predicate HarmlessSaves(t: seq<ChainState>, calls: seq<Call>, n: nat)
    requires |t| == |calls| + 1 && n <= |calls|
  {
    forall k {:trigger calls[k]} :: 0 <= k < n && calls[k].command.SaveHeld? ==> Harmless(t[k], calls[k].command.process)
  }

  /** One command keeps the agreement unless it is a harmful write. */
  ghost predicate SettledAt(t: seq<ChainState>, calls: seq<Call>, k: nat)
    requires |t| == |calls| + 1 && k < |calls|
  {
    Agreeing(t[k]) ==> (Agreeing(t[k + 1]) <==> (calls[k].command.SaveHeld? ==> Harmless(t[k], calls[k].command.process)))
  }

  lemma CallSettles(t: seq<ChainState>, calls: seq<Call>, k: nat)
    requires ChainRun(t, calls) && Regular(t[0]) && k < |calls|
    ensures SettledAt(t, calls, k)
  {
    RunStaysRegular(t, calls, k);
    assert CallRel(t[k], calls[k], t[k + 1]);
    CallKeeps(t[k], calls[k], t[k + 1]);
  }

  lemma {:induction false} SettledThroughout(t: seq<ChainState>, calls: seq<Call>, n: nat)
    requires |t| == |calls| + 1 && n <= |calls| && Agreeing(t[0])
    requires forall k :: 0 <= k < |calls| ==> SettledAt(t, calls, k)
    ensures AgreeAlong(t, n) <==> HarmlessSaves(t, calls, n)
  {
    if n > 0 {
      SettledThroughout(t, calls, n - 1);
      assert SettledAt(t, calls, n - 1);
      assert AgreeAlong(t, n) <==> AgreeAlong(t, n - 1) && Agreeing(t[n]);
      assert HarmlessSaves(t, calls, n) <==>
             HarmlessSaves(t, calls, n - 1) && (calls[n - 1].command.SaveHeld? ==> Harmless(t[n - 1], calls[n - 1].command.process));
    }
  }

  ghost predicate AgreeAlong(t: seq<ChainState>, n: nat)
    requires n < |t|
  {
    forall k {:trigger t[k]} :: 0 <= k <= n ==> Agreeing(t[k])
  }

  /**
   Over every sequence of commands from a clean install the agreement between the chain
   container and the saved configuration holds all along if and only if no process writes
   back a copy of the other mode while there is a chain container.
   */
  lemma AgreementSurvivesIff(t: seq<ChainState>, calls: seq<Call>, n: nat)
    requires ChainRun(t, calls) && Installed(t[0]) && n <= |calls|
    ensures AgreeAlong(t, n) <==> HarmlessSaves(t, calls, n)
  {
    forall k | 0 <= k < |calls| ensures SettledAt(t, calls, k) {
      CallSettles(t, calls, k);
    }
    SettledThroughout(t, calls, n);
  }

  /** In particular a copy is harmless if nobody has called `dc config` or written another
      copy back since it was read. */
  lemma {:induction false} FreshCopyIsHarmless(t: seq<ChainState>, calls: seq<Call>, i: nat, k: nat, p: nat)
    requires ChainRun(t, calls) && i < k <= |calls| && calls[i].command == Hold(p) && Regular(t[0])
    requires p in t[i + 1].held && t[i + 1].held[p] == t[i + 1].saved
    requires forall j {:trigger calls[j]} :: i < j < k ==> !calls[j].command.Configure? && OnlyBy(calls[j].command, p)
    ensures p in t[k].held && t[k].held[p].validatorFlag == t[k].saved.validatorFlag && Harmless(t[k], p)
    decreases k
  {
    if k > i + 1 {
      FreshCopyIsHarmless(t, calls, i, k - 1, p);
      RunStaysRegular(t, calls, k - 1);
      assert CallRel(t[k - 1], calls[k - 1], t[k]);
      CallKeeps(t[k - 1], calls[k - 1], t[k]);
      HeldChanges(t[k - 1], calls[k - 1], t[k], p);
    }
  }

  /** No other process writes back what it holds. */
  predicate OnlyBy(c: Command, p: nat) {
    c.SaveHeld? ==> c.process == p
  }

  lemma HeldChanges(s: ChainState, call: Call, s': ChainState, p: nat)
    requires CallRel(s, call, s') && p in s.held
    ensures p in s'.held && (s'.held[p] == s.held[p] || (call.command == Hold(p) && s'.held[p] == s'.saved))
    ensures call.command == SaveHeld(p) ==> s'.saved == s.held[p]
  {
  }

  /**
   The disagreement is real: from every clean install, `dc config` as a validator, a daemon
   that starts, `dc config` again as an ordinary node, and the daemon's save.  The file now
   asks for a validator; the container is none.
   */
  lemma DaemonSaveBreaks(s: ChainState, random: string, p: nat) returns (t: seq<ChainState>, calls: seq<Call>)
    requires Installed(s)
    ensures ChainRun(t, calls) && t[0] == s && |calls| == 4
    ensures calls == [Call(Configure(true, true), random), Call(Hold(p), random), Call(Configure(true, false), random),
                      Call(SaveHeld(p), random)]
    ensures Agreeing(t[3]) && !Agreeing(t[4]) && t[4].saved.validatorFlag == "enable"
  {
    var s1 := FirstConfig(s, random);
    var s2 := s1.(held := map[p := s1.saved]);
    var s3 := SecondConfig(s2, random);
    var s4 := s3.(saved := s1.saved);
    t := [s, s1, s2, s3, s4];
    calls := [Call(Configure(true, true), random), Call(Hold(p), random), Call(Configure(true, false), random),
              Call(SaveHeld(p), random)];
    assert CallRel(s1, calls[1], s2) && CallRel(s3, calls[3], s4);
    forall k | 0 <= k < |calls| ensures CallRel(t[k], calls[k], t[k + 1]) {
      assert k == 0 || k == 1 || k == 2 || k == 3;
    }
    assert Named(s4.docker, 1, CHAIN);
    EntrypointMode(s3.saved);
  }

  /** A new chain container after a completed `dc config`. */
  lemma CanStartChain(c: ChainConfig, m: Containers, id: Id) returns (m': Containers)
    requires NameFree(m, CHAIN) && id !in m
    ensures m' == m[id := Fresh(CHAIN, c.image, Entrypoint(c), true)] && StartChainRel(c, m, m')
  {
    m' := m[id := Fresh(CHAIN, c.image, Entrypoint(c), true)];
    assert m'[id].running;
    assert Created(m, m, CHAIN, c.image, Entrypoint(c), m', None);
    assert StartRel(m, CHAIN, true, c.image, Entrypoint(c), m', None);
  }

  lemma FirstConfig(s: ChainState, random: string) returns (s': ChainState)
    requires Installed(s)
    ensures CallRel(s, Call(Configure(true, true), random), s')
    ensures s'.saved == Configured(Christened(s.saved, random), true) && Sane(s'.saved) && s'.held == map[]
    ensures s'.docker == map[0 := Fresh(CHAIN, s'.saved.image, Entrypoint(s'.saved), true)]
  {
    ChristenedIsSane(s.saved, random);
    var c := Configured(Christened(s.saved, random), true);
    var m := CanStartChain(c, s.docker, 0);
    s' := ChainState(c, m, map[]);
    assert Reconfigured(s.(saved := Christened(s.saved, random)), true, s');
  }

  lemma SecondConfig(s: ChainState, random: string) returns (s': ChainState)
    requires Sane(s.saved) && s.saved.validatorFlag == "enable" && s.saved.nodeName != ""
    requires exists c :: s.docker == map[0 := Fresh(CHAIN, s.saved.image, c, true)]
    ensures CallRel(s, Call(Configure(true, false), random), s')
    ensures s'.saved == Configured(s.saved, false) && Sane(s'.saved) && s'.held == s.held
    ensures s'.docker == map[1 := Fresh(CHAIN, s'.saved.image, Entrypoint(s'.saved), true)]
    ensures Agreeing(s')
  {
    var c := Configured(s.saved, false);
    var m := s.docker - {0};
    assert RemoveRel(s.docker, CHAIN, m, None) by {
      assert Named(s.docker, 0, CHAIN);
    }
    var m' := CanStartChain(c, m, 1);
    s' := s.(saved := c, docker := m');
    assert Reconfigured(s, false, s');
    EntrypointMode(c);
  }

  // ---------------------------------------------------------------- the commands

  class Manager {
    const engine: Engine
    var saved: ChainConfig
    var held: map<nat, ChainConfig>  // what processes that live on have read

    /** A clean install: nothing configured, no containers. */
    constructor (defaults: ChainConfig)
      requires Sane(defaults) && defaults.validatorFlag == ""
      ensures Valid() && fresh(engine) && saved == defaults && Installed(View())
    {
      engine := new Engine();
      saved, held := defaults, map[];
    }

    ghost function View(): ChainState
      reads this, engine
    {
      ChainState(saved, engine.containers, held)
    }

    ghost predicate Valid()
      reads this, engine
    {
      engine.Valid() && Regular(View())
    }

    /** The chain container runs the configured image. */
    ghost predicate ChainUp()
      reads this, engine
    {
      exists id :: && Named(engine.containers, id, CHAIN) && engine.containers[id].running
                   && engine.containers[id].image == saved.image
    }

    /** The command has done what it is for, unless the engine failed. */
    twostate predicate Effective(command: Command, luck: Luck)
      reads this, engine
    {
      old(engine.faults) < engine.faults ||
      match command
      case Configure(goOn, validator) =>
        luck.written && (old(saved).validatorFlag == "" || (goOn && luck.dataRemoved)) ==>
          saved.validatorFlag == (if validator then "enable" else "disable") && (luck.dirReady ==> ChainUp())
      case StartChain => luck.dirReady ==> ChainUp()
      case StopService(name) => forall id :: Named(engine.containers, id, name) ==> !engine.containers[id].running
      case StartService(name, removeOld, image, args) =>
        name == CHAIN || (!removeOld && ImageClash(old(engine.containers), name, image)) ||
        exists id :: && Named(engine.containers, id, name) && engine.containers[id].running
                     && engine.containers[id].image == image
      case Hold(p) => p in held && held[p] == saved
      case SaveHeld(p) => p in old(held) ==> saved == old(held)[p]
    }

    /** One command: a process that reads the configuration, names the node, refuses
        everything but `dc config` until it has been configured, then dispatches; or the
        late write of a process that is already there. */
    method Execute(call: Call, luck: Luck)
      requires Valid()
      modifies this, engine
      ensures call.command.SaveHeld? || ((old(saved).validatorFlag != "" || call.command.Configure?)
                                         && (old(saved).nodeName != "" || luck.named)) ==>
                Effective(call.command, luck)
      ensures Valid() && CallRel(old(View()), call, View())
      ensures old(saved).validatorFlag == "" && !call.command.Configure? ==>
                && engine.containers == old(engine.containers) && held == old(held)
                && saved in {old(saved), Christened(old(saved), call.random)}
      ensures !call.command.Configure? && !call.command.SaveHeld? ==> saved.validatorFlag == old(saved).validatorFlag
    {
      ghost var s := View();
      if call.command.SaveHeld? {
        WriteHeld(call.command.process);
      } else {
        var named := NameNode(call.random, luck.named);
        if named {
          Process(call.command, luck);
        }
      }
      CallKeeps(s, call, View());
    }

    method NameNode(random: string, named: bool) returns (ok: bool)
      requires Valid()
      modifies this`saved
      ensures ok <==> old(saved).nodeName != "" || named
      ensures Valid() && saved == if ok then Christened(old(saved), random) else old(saved)
      ensures ok ==> saved == old(saved).(nodeName := if old(saved).nodeName == "" then "dcnet_" + random else old(saved).nodeName)
    {
      ok := true;
      if saved.nodeName == "" {
        ok := named;
        if ok {
          ChristenedIsSane(saved, random);
          saved := Christened(saved, random);
        }
      }
    }

    method Process(command: Command, luck: Luck)
      requires Valid() && !command.SaveHeld?
      modifies this, engine
      ensures old(saved).validatorFlag != "" || command.Configure? ==> Effective(command, luck)
      ensures Valid() && ProcessRel(old(View()), command, View())
      ensures old(saved).validatorFlag == "" && !command.Configure? ==> View() == old(View())
    {
      ghost var s := View();
      if saved.validatorFlag == "" && !command.Configure? { return; }  // "please config chain first"
      match command {
        case Configure(goOn, validator) =>
          var done := ConfigCommand(goOn, validator, luck);
        case StartChain =>
          var started := StartDcChain(saved, luck.dirReady);
        case StopService(name) => StopCommand(name);
        case StartService(name, removeOld, image, args) => ServiceCommand(name, removeOld, image, args);
        case Hold(p) => held := held[p := saved];
      }
      ProcessKeeps(s, command, View());
    }

    /** The save of a process that read its configuration some time ago: the daemon's after
        an upgrade, or `dc pccs_api_key`. */
    method WriteHeld(p: nat)
      requires Valid()
      modifies this`saved
      ensures Valid() && engine.containers == old(engine.containers)
      ensures saved == if p in held then held[p] else old(saved)
    {
      if p in held {
        saved := held[p];
      }
    }

    /** startDcChain with the configuration this process has read.  On success the chain
        container runs the configured image; if container and configuration agreed before,
        it does so in the configured mode, and they still agree. */
    method StartDcChain(config: ChainConfig, dirReady: bool) returns (ok: bool)
      requires engine.Valid() && Sane(config) && config.validatorFlag != ""
      modifies engine
      ensures engine.Valid() && StartChainRel(config, old(engine.containers), engine.containers)
      ensures OthersUnchanged(old(engine.containers), engine.containers, CHAIN)
      ensures old(engine.faults) <= engine.faults
      ensures Agrees(config, old(engine.containers)) ==> Agrees(config, engine.containers)
      ensures Flagless(config) ==>
                forall id :: Named(engine.containers, id, CHAIN) && id !in old(engine.containers) ==>
                  Spells(engine.containers[id].args, config)
      ensures if dirReady then ok || old(engine.faults) < engine.faults else !ok && engine.containers == old(engine.containers)
      ensures ok ==> exists id :: && Named(engine.containers, id, CHAIN) && engine.containers[id].running
                                  && engine.containers[id].image == config.image
    {
      ok := dirReady;  // the data directory is there or can be made
      if ok {
        ghost var m := engine.containers;
        var err := engine.StartContainer(CHAIN, true, config.image, Entrypoint(config));
        StartReconciles(m, CHAIN, true, config.image, Entrypoint(config), engine.containers, err);
        NewChainSpelled(config, m, engine.containers, err);
        if Agrees(config, m) {
          ChainStartAgrees(config, m, engine.containers, err);
        }
        ok := err.None?;
      }
    }

    /** `dc config`: an earlier configuration is cleared only after confirmation, and
        only if the old container and its data are really gone.  The process may end at
        any of its prompts. */
    method ConfigCommand(goOn: bool, validator: bool, luck: Luck) returns (done: bool)
      requires Valid()
      modifies this`saved, engine
      ensures engine.Valid()
      ensures done && validator ==> saved == old(saved).(validatorFlag := "enable", syncMode := "full")
      ensures done && !validator ==> saved == old(saved).(validatorFlag := "disable")
      ensures !done ==> saved == old(saved)
      ensures OthersUnchanged(old(engine.containers), engine.containers, CHAIN)
      ensures !goOn && old(saved).validatorFlag != "" ==> !done && engine.containers == old(engine.containers)
      ensures done ==> luck.written && (old(saved).validatorFlag == "" || (goOn && luck.dataRemoved))
      ensures luck.written && (old(saved).validatorFlag == "" || (goOn && luck.dataRemoved)) ==>
                done || old(engine.faults) < engine.faults
      ensures done && luck.dirReady ==> ChainUp() || old(engine.faults) < engine.faults
      ensures done && Flagless(saved) ==>
                forall id :: Named(engine.containers, id, CHAIN) ==> Spells(engine.containers[id].args, saved)
      ensures old(engine.faults) <= engine.faults
      ensures if done then Reconfigured(old(View()), validator, View()) else EndedEarly(old(View()), View())
      ensures done ==> Agrees(saved, engine.containers)
      ensures Agrees(old(saved), old(engine.containers)) ==> Agrees(saved, engine.containers)
    {
      ghost var m, s := engine.containers, View();
      done := false;
      if saved.validatorFlag != "" {
        if !goOn { return; }
        var err := engine.RemoveContainer(CHAIN);
        RemoveFreesName(m, CHAIN, engine.containers, err);
        EarlyEndKeeps(s, View());
        if err.Some? { return; }
        if !luck.dataRemoved { return; }
      }
      assert NameFree(engine.containers, CHAIN);
      if !luck.written { return; }
      done := true;
      ghost var m1 := engine.containers;
      SaveAndStart(validator, luck.dirReady);
      OthersStillUnchanged(m, m1, engine.containers, CHAIN);
      assert Reconfigured(s, validator, View());
      ReconfiguredAgrees(s, validator, View());
    }

    /** The new mode is saved, and a chain started in it. */
    method SaveAndStart(validator: bool, dirReady: bool)
      requires Valid() && NameFree(engine.containers, CHAIN)
      modifies this`saved, engine
      ensures engine.Valid() && saved == Configured(old(saved), validator)
      ensures StartChainRel(saved, old(engine.containers), engine.containers)
      ensures OthersUnchanged(old(engine.containers), engine.containers, CHAIN)
      ensures old(engine.faults) <= engine.faults && (dirReady ==> ChainUp() || old(engine.faults) < engine.faults)
      ensures Flagless(saved) ==>
                forall id :: Named(engine.containers, id, CHAIN) ==> Spells(engine.containers[id].args, saved)
    {
      saved := Configured(saved, validator);
      ghost var m := engine.containers;
      var started := StartDcChain(saved, dirReady);
      assert forall id :: Named(engine.containers, id, CHAIN) ==> id !in m;
    }

    /** `dc stop`; the error of the stop is not looked at. */
    method StopCommand(name: string)
      requires Valid()
      modifies engine
      ensures engine.Valid()
      ensures exists err: Err :: StopRel(old(engine.containers), name, engine.containers, err)
      ensures OthersUnchanged(old(engine.containers), engine.containers, name)
      ensures old(engine.faults) <= engine.faults
      ensures engine.faults == old(engine.faults) ==>
                forall id :: Named(engine.containers, id, name) ==> !engine.containers[id].running
    {
      ghost var m := engine.containers;
      var err := engine.StopContainer(name);
      StopStops(m, name, engine.containers, err);
    }

    /** A start of one of the other services. */
    method ServiceCommand(name: string, removeOld: bool, image: string, args: seq<string>)
      requires Valid()
      modifies engine
      ensures engine.Valid()
      ensures if name == CHAIN then engine.containers == old(engine.containers) else
                exists err: Err :: StartRel(old(engine.containers), name, removeOld, image, args, engine.containers, err)
      ensures OthersUnchanged(old(engine.containers), engine.containers, name)
      ensures || old(engine.faults) < engine.faults || name == CHAIN
              || (!removeOld && ImageClash(old(engine.containers), name, image))
              || (exists id :: && Named(engine.containers, id, name) && engine.containers[id].running
                               && engine.containers[id].image == image)
    {
      if name == CHAIN { return; }
      ghost var m := engine.containers;
      var err := engine.StartContainer(name, removeOld, image, args);
      StartReconciles(m, name, removeOld, image, args, engine.containers, err);
    }

    /** Any sequence of commands, with the late write of another process anywhere between
        them: a run of the model above, in which container and configuration agree all
        along exactly if every such write was harmless. */
    method RunCommands(calls: seq<Call>, luck: nat -> Luck) returns (ghost t: seq<ChainState>)
      requires Valid() && Installed(View())
      modifies this, engine
      ensures Valid() && ChainRun(t, calls) && t[0] == old(View()) && t[|calls|] == View()
      ensures AgreeAlong(t, |calls|) <==> HarmlessSaves(t, calls, |calls|)
      ensures (forall k :: 0 <= k < |calls| ==> !calls[k].command.Configure?) ==> engine.containers == old(engine.containers)
    {
      t := [View()];
      for i := 0 to |calls|
        invariant (forall k :: 0 <= k < i ==> !calls[k].command.Configure?) ==>
                    saved.validatorFlag == "" && engine.containers == old(engine.containers)
        invariant Valid() && |t| == i + 1 && t[0] == old(View()) && t[i] == View()
        invariant forall k {:trigger calls[k]} :: 0 <= k < i ==> CallRel(t[k], calls[k], t[k + 1])
      {
        Execute(calls[i], luck(i));
        t := t + [View()];
      }
      AgreementSurvivesIff(t, calls, |calls|);
    }
  }
}
