/**
 The upgrade of dcstorage as a state machine.

 `upgradeDeal` is cut at its calls into the container engine, the chain, the HTTP
 endpoints and the file system; between two cuts anything else may happen: the other
 services exchange the node key, the user runs `dc start/stop storage` or another
 process rewrites the configuration file, the chain moves on, the daemon dies and comes
 back.  One event is one such step.
 */
module Upgrade {
  import opened Prelude
  import opened Docker
  import opened Committee

  const STORAGE: string := "dcstorage"
  const ASSISTANT: string := "dcupgrade"
  const NODE_ARGS: seq<string> := ["dcstorage"]
  const ASSIST_LIMIT: nat := 150

  /** A released program: where its image can be pulled, and what it should report. */
  datatype Program = Program(origin: string, mirror: string, enclave: string, version: string)

  /** The part of the manager's configuration the upgrade reads and writes. */
  datatype Config = Config(nodeImage: string, newVersion: Program, registry: string)

  datatype Chain = Chain(program: Program, entries: seq<Entry>)

  /** What does not change: the assistant's image, what an image reports about itself,
      the order of version strings (None: does not parse) and the committee key. */
  datatype World = World(
    upgradeImage: string,
    versionOf: string -> string,
    enclaveOf: string -> string,
    rank: string -> Option<real>,
    authority: Authority)

  datatype Pc =
    | Idle | Ensure | Query | Decide | Fetch
    | StopAssistant | StartAssistant | AwaitAssistant
    | StopNode | RemoveNode | StartNode | AwaitNode
    | Retire | Save | Verify | Judge

  /** What the version endpoint says; two empty strings if it does not answer. */
  datatype Report = Report(version: string, enclave: string)

  /** Local variables of one attempt: what the running node reported, the chain's
      version, the target with the signatures it was checked against, its tag, and what the
      new node reported at the end. */
  datatype Local = Local(version: string, enclave: string, chainVersion: string, target: Program,
                         vouchers: seq<Entry>, tag: string, seen: Report)

  datatype State = State(
    // containers, and which of them hold the node key, once it has been issued; `flagged`
    // are assistants whose "key handed over" flag is up
    docker: Containers, keyed: set<Id>, flagged: set<Id>, issued: bool,
    // files, the chain, and the copies of the configuration other processes work on
    disk: Config, cmdStart: bool, chain: Chain, copies: map<nat, Config>,
    // the daemon process
    config: Config, errCount: nat, pc: Pc, local: Local)

  datatype Event =
    // the daemon
    | Tick
    | FoundRunning
    | EnsureStarted(err: Err)
    | QueryFailed
    | AssistLaunched(err: Err)
    | QueryAnswered(node: Id)
    | ChainUnread
    | Decided(manualOk: bool, checkOk: bool)
    | FetchFailed
    | Fetched(tag: string)
    | AssistantStopped(err: Err)
    | AssistantStarted(err: Err)
    | AssistantReady
    | AssistantTimedOut
    | NodeStopped(err: Err)
    | NodeRemoved(err: Err)
    | NodeStarted(err: Err)
    | NodeReady
    | NodeTimedOut
    | AssistantRetired(err: Err)
    | Saved
    | VerifyAnswered(node: Id)
    | VerifyTimedOut
    | VerifyEnded
    | VerifyStopped(err: Err)
    // its environment
    | Crash
    | KeyIssued(node: Id)
    | Acquire(assistant: Id, node: Id)
    | Handover(assistant: Id, node: Id)
    | CliStart(err: Err)
    | CliStop(err: Err)
    | CliRead(process: nat)
    | CliSave(process: nat)
    | ChainMoves
    | ManualEdited

  // ---------------------------------------------------------------- versions and targets

  predicate Below(w: World, v1: string, v2: string) {
    w.rank(v1).Some? && w.rank(v2).Some? && w.rank(v1).value < w.rank(v2).value
  }

  predicate NotAbove(w: World, v1: string, v2: string) {
    w.rank(v1).Some? && w.rank(v2).Some? && w.rank(v1).value <= w.rank(v2).value
  }

  predicate ManualSet(p: Program) {
    p.version != "" && p.enclave != ""
  }

  /** The configured version replaces the chain's when it is newer and its enclave id
      passed the signature check. */
  function Target(w: World, config: Config, chain: Chain, manualOk: bool): Program {
    if ManualSet(config.newVersion) && Below(w, chain.program.version, config.newVersion.version) && manualOk
    then config.newVersion else chain.program
  }

  predicate Proceed(w: World, s: State, target: Program, checkOk: bool) {
    && w.rank(s.chain.program.version).Some?
    && s.local.enclave != target.enclave
    && checkOk
    && Below(w, s.local.version, target.version)
  }

  /** The new node reports the target's version, but the enclave id of something else. */
  predicate WrongEnclave(local: Local) {
    local.seen.version == local.target.version && local.seen.enclave != local.target.enclave
  }

  // ---------------------------------------------------------------- the key

  ghost predicate StorageHolds(s: State) {
    exists id :: Named(s.docker, id, STORAGE) && id in s.keyed
  }

  ghost predicate AssistantHolds(s: State) {
    exists id :: Named(s.docker, id, ASSISTANT) && s.docker[id].running && id in s.keyed
  }

  ghost predicate Custody(s: State) {
    StorageHolds(s) || AssistantHolds(s)
  }

  /** A container keeps what it holds while it exists; an assistant only while it runs. */
  function Survivors(m: Containers, ids: set<Id>): set<Id> {
    set id | id in ids && id in m && ("/" + ASSISTANT in m[id].names ==> m[id].running)
  }

  function WithDocker(s: State, m: Containers): State {
    s.(docker := m, keyed := Survivors(m, s.keyed), flagged := Survivors(m, s.flagged))
  }

  function Restarted(s: State): State {
    s.(config := s.disk, errCount := 0, pc := Idle)
  }

  // ---------------------------------------------------------------- steps

  /** The services see to the key: the first storage container to run obtains it, and it
      is handed from container to container. */
  predicate KeyEvent(e: Event) {
    e.KeyIssued? || e.Acquire? || e.Handover?
  }

  /** The events that go through the container engine. */
  predicate StorageEvent(e: Event) {
    e.EnsureStarted? || e.NodeStopped? || e.NodeStarted? || e.VerifyStopped? || e.CliStart? || e.CliStop?
  }

  predicate AssistantEvent(e: Event) {
    e.AssistLaunched? || e.AssistantStopped? || e.AssistantStarted? || e.AssistantRetired?
  }

  predicate EngineEvent(e: Event) {
    StorageEvent(e) || AssistantEvent(e) || e.NodeRemoved?
  }

  /** What the engine does for the event. */
  ghost predicate EngineRel(w: World, s: State, e: Event, m: Containers)
    requires EngineEvent(e)
  {
    match e
    case EnsureStarted(err) => StartRel(s.docker, STORAGE, false, s.config.nodeImage, NODE_ARGS, m, err)
    case NodeStarted(err) => StartRel(s.docker, STORAGE, false, s.config.nodeImage, NODE_ARGS, m, err)
    case CliStart(err) => StartRel(s.docker, STORAGE, false, s.disk.nodeImage, NODE_ARGS, m, err)
    case AssistLaunched(err) => StartRel(s.docker, ASSISTANT, true, w.upgradeImage, [], m, err)
    case AssistantStarted(err) => StartRel(s.docker, ASSISTANT, true, w.upgradeImage, [], m, err)
    case AssistantStopped(err) => StopRel(s.docker, ASSISTANT, m, err)
    case AssistantRetired(err) => StopRel(s.docker, ASSISTANT, m, err)
    case NodeStopped(err) => StopRel(s.docker, STORAGE, m, err)
    case VerifyStopped(err) => StopRel(s.docker, STORAGE, m, err)
    case CliStop(err) => StopRel(s.docker, STORAGE, m, err)
    case NodeRemoved(err) => RemoveNodeRel(s.docker, s.config.nodeImage, m, err)
  }

  predicate EngineEnabled(s: State, e: Event)
    requires EngineEvent(e)
  {
    match e
    case EnsureStarted(_) => s.pc == Ensure
    case AssistLaunched(_) => s.pc == Query && s.errCount > ASSIST_LIMIT
    case AssistantStopped(_) => s.pc == StopAssistant
    case AssistantStarted(_) => s.pc == StartAssistant
    case NodeStopped(_) => s.pc == StopNode
    case NodeRemoved(_) => s.pc == RemoveNode
    case NodeStarted(_) => s.pc == StartNode
    case AssistantRetired(_) => s.pc == Retire
    case VerifyStopped(_) => s.pc == Judge && WrongEnclave(s.local)
    case CliStart(_) => true
    case CliStop(_) => true
  }

  /** Where the daemon goes from there.  Only some of the errors are looked at. */
  function AfterEngine(s: State, e: Event, m: Containers): State
    requires EngineEvent(e)
  {
    var s := WithDocker(s, m);
    match e
    case EnsureStarted(err) => s.(pc := if err.None? then Query else Idle)
    case AssistLaunched(_) => s.(errCount := 0, pc := Idle)
    case AssistantStopped(_) => s.(pc := StartAssistant)
    case AssistantStarted(_) => s.(pc := AwaitAssistant)
    case NodeStopped(_) => s.(pc := RemoveNode)
    case NodeRemoved(err) =>
      if err.Some? then s.(pc := Idle) else s.(pc := StartNode, config := s.config.(nodeImage := s.local.tag))
    case NodeStarted(err) => s.(pc := if err.None? then AwaitNode else Idle)
    case AssistantRetired(_) => s.(pc := Save)
    case VerifyStopped(_) => s.(pc := Idle)
    case CliStart(err) => s.(cmdStart := s.cmdStart || err.None?)
    case CliStop(_) => s.(cmdStart := false)
  }

  ghost predicate EngineStep(w: World, s: State, e: Event, s': State)
    requires EngineEvent(e)
  {
    EngineEnabled(s, e) && EngineRel(w, s, e, s'.docker) && s' == AfterEngine(s, e, s'.docker)
  }

  /** Steps that leave the containers alone. */
  ghost predicate PlainStep(w: World, s: State, e: Event, s': State)
    requires !EngineEvent(e)
  {
    match e
    case Tick =>
      s.pc == Idle && s.cmdStart && s' == s.(pc := Ensure)
    case FoundRunning =>
      && s.pc == Ensure && s' == s.(pc := Query)
      && (exists id :: Named(s.docker, id, STORAGE) && s.docker[id].running)
    case QueryFailed =>
      s.pc == Query && s.errCount <= ASSIST_LIMIT && s' == s.(errCount := s.errCount + 1, pc := Idle)
    case QueryAnswered(node) =>
      && s.pc == Query
      && Named(s.docker, node, STORAGE) && s.docker[node].running && node in s.keyed
      && s' == s.(errCount := 0, pc := Decide,
                  local := s.local.(version := w.versionOf(s.docker[node].image),
                                    enclave := w.enclaveOf(s.docker[node].image)))
    case ChainUnread =>
      s.pc == Decide && s' == s.(pc := Idle)
    case Decided(manualOk, checkOk) =>
      && s.pc == Decide
      && (manualOk ==> Vouched(w.authority, s.chain.entries, s.config.newVersion.enclave))
      && var target := Target(w, s.config, s.chain, manualOk);
         && (checkOk ==> Vouched(w.authority, s.chain.entries, target.enclave))
         && s' == if Proceed(w, s, target, checkOk) then
                    s.(pc := Fetch, local := s.local.(chainVersion := s.chain.program.version, target := target,
                                                      vouchers := s.chain.entries))
                  else s.(pc := Idle)
    case FetchFailed =>
      s.pc == Fetch && s' == s.(pc := Idle)
    case Fetched(tag) =>
      && s.pc == Fetch && tag in {s.local.target.origin, s.local.target.mirror}
      && s' == s.(pc := StopAssistant, local := s.local.(tag := tag))
    case AssistantReady =>
      s.pc == AwaitAssistant && AssistantHolds(s) && s' == s.(pc := StopNode)
    case AssistantTimedOut =>
      s.pc == AwaitAssistant && s' == s.(pc := Idle)
    case NodeReady =>
      && s.pc == AwaitNode && s' == s.(pc := Retire)
      && (exists id :: Named(s.docker, id, ASSISTANT) && s.docker[id].running && id in s.flagged)
    case NodeTimedOut =>
      s.pc == AwaitNode && s' == s.(pc := Idle)
    case Saved =>
      s.pc == Save && s' == s.(disk := s.config, pc := Verify)
    case VerifyAnswered(node) =>
      && s.pc == Verify
      && Named(s.docker, node, STORAGE) && s.docker[node].running && node in s.keyed
      && s' == s.(pc := Judge,
                  local := s.local.(seen := Report(w.versionOf(s.docker[node].image),
                                                   w.enclaveOf(s.docker[node].image))))
    case VerifyTimedOut =>
      s.pc == Verify && s' == s.(pc := Judge, local := s.local.(seen := Report("", "")))
    case VerifyEnded =>
      s.pc == Judge && !WrongEnclave(s.local) && s' == s.(pc := Idle)
    case Crash =>
      s' == Restarted(s)
    case KeyIssued(n) =>
      && !s.issued && Named(s.docker, n, STORAGE) && s.docker[n].running
      && s' == s.(keyed := {n}, issued := true)
    case Acquire(a, n) =>
      && Named(s.docker, a, ASSISTANT) && s.docker[a].running && a !in s.keyed
      && Named(s.docker, n, STORAGE) && s.docker[n].running && n in s.keyed
      && s' == s.(keyed := s.keyed + {a})
    case Handover(a, n) =>
      && Named(s.docker, a, ASSISTANT) && s.docker[a].running && a in s.keyed
      && Named(s.docker, n, STORAGE) && s.docker[n].running && n !in s.keyed
      && s' == s.(keyed := s.keyed + {n}, flagged := s.flagged + {a})
    case CliRead(p) =>
      s' == s.(copies := s.copies[p := s.disk])
    case CliSave(p) =>
      p in s.copies && s' == s.(disk := s.copies[p])
    case ChainMoves =>
      Admissible(w, s'.chain.program) && s' == s.(chain := s'.chain)
    case ManualEdited =>
      Admissible(w, s'.disk.newVersion) && s' == s.(disk := s.disk.(newVersion := s'.disk.newVersion))
  }

  ghost predicate StepBy(w: World, s: State, e: Event, s': State) {
    if EngineEvent(e) then EngineStep(w, s, e, s') else PlainStep(w, s, e, s')
  }

  /** No release is pulled from the assistant's own image. */
  predicate Admissible(w: World, p: Program) {
    p.origin != w.upgradeImage && p.mirror != w.upgradeImage
  }

  predicate AdmissibleConfig(w: World, c: Config) {
    c.nodeImage != w.upgradeImage && Admissible(w, c.newVersion)
  }

  ghost predicate Run(w: World, t: seq<State>, es: seq<Event>) {
    && |t| == |es| + 1
    && forall k {:trigger es[k]} :: 0 <= k < |es| ==> StepBy(w, t[k], es[k], t[k + 1])
  }

  // ---------------------------------------------------------------- basic invariant

  ghost predicate DockerOk(w: World, m: Containers, keyed: set<Id>, flagged: set<Id>) {
    && WellNamed(m)
    && keyed <= m.Keys
    && (forall id :: Named(m, id, ASSISTANT) ==> m[id].image == w.upgradeImage && !Named(m, id, STORAGE))
    && (forall id :: id in keyed && Named(m, id, ASSISTANT) ==> m[id].running)
    && (forall id :: id in flagged ==> Named(m, id, ASSISTANT) && id in keyed)
  }

  ghost predicate Base(w: World, s: State) {
    && !Contains(w.upgradeImage, "dcstorage")
    && DockerOk(w, s.docker, s.keyed, s.flagged)
    && Admissible(w, s.chain.program)
    && AdmissibleConfig(w, s.config) && AdmissibleConfig(w, s.disk)
    && (forall p :: p in s.copies ==> AdmissibleConfig(w, s.copies[p]))
    && (s.keyed != {} ==> s.issued)
    && (s.pc !in {Idle, Ensure, Query, Decide} ==> Admissible(w, s.local.target))
    && (s.pc !in {Idle, Ensure, Query, Decide, Fetch} ==> s.local.tag != w.upgradeImage)
  }

  lemma NamesDiffer()
    ensures "/" + STORAGE != "/" + ASSISTANT
  {
    assert ("/" + STORAGE)[3] == 's' && ("/" + ASSISTANT)[3] == 'u';
  }

  /** How one engine operation may change the containers: those without the name stay as
      they are, the holder keeps its id, names and image, and a new one gets only that name. */
  ghost predicate Grows(m: Containers, m': Containers, name: string, image: string) {
    && WellNamed(m')
    && m.Keys <= m'.Keys
    && (forall id :: id in m ==> || m'[id] == m[id]
                                 || (Named(m, id, name) && m'[id] == m[id].(running := m'[id].running)))
    && (forall id :: id in m' && id !in m ==> m'[id].names == ["/" + name] && m'[id].image == image)
  }

  lemma StartGrows(m: Containers, name: string, removeOld: bool, image: string, args: seq<string>,
                   m': Containers, err: Err)
    requires WellNamed(m) && StartRel(m, name, removeOld, image, args, m', err)
    requires removeOld ==> !ImageClash(m, name, image)
    ensures Grows(m, m', name, image)
    ensures forall id :: id in m && m[id].running ==> m'[id].running
    ensures err.None? ==> exists id :: Named(m', id, name) && m'[id].image == image && m'[id].running
  {
    StartReconciles(m, name, removeOld, image, args, m', err);
    assert !(removeOld && Replaced(m, name, image, args, m', err));
  }

  lemma StopGrows(m: Containers, name: string, m': Containers, err: Err, image: string)
    requires WellNamed(m) && StopRel(m, name, m', err)
    ensures Grows(m, m', name, image) && m'.Keys == m.Keys
    ensures err.None? ==> forall id :: Named(m', id, name) ==> !m'[id].running
  {
    StopStops(m, name, m', err);
  }

  lemma GrowsNames(m: Containers, m': Containers, name: string, image: string, id: Id, n: string)
    requires Grows(m, m', name, image)
    ensures Named(m', id, n) <==> Named(m, id, n) || (id in m' && id !in m && n == name)
  {
    if id in m' && id !in m {
      assert m'[id].names == ["/" + name];
      assert ("/" + n)[1..] == n && ("/" + name)[1..] == name;
    }
  }

  /** An operation on the storage container leaves every key where it is. */
  lemma StorageOp(w: World, s: State, m': Containers, image: string)
    requires DockerOk(w, s.docker, s.keyed, s.flagged) && Grows(s.docker, m', STORAGE, image)
    ensures var s' := WithDocker(s, m');
            && DockerOk(w, m', s'.keyed, s'.flagged)
            && s'.keyed == s.keyed && s'.flagged == s.flagged
            && (StorageHolds(s) ==> StorageHolds(s'))
            && (AssistantHolds(s) ==> AssistantHolds(s'))
  {
    NamesDiffer();
    var m, s' := s.docker, WithDocker(s, m');
    forall id: Id ensures Named(m', id, ASSISTANT) <==> Named(m, id, ASSISTANT)
                  ensures Named(m, id, STORAGE) ==> Named(m', id, STORAGE)
                  ensures Named(m', id, ASSISTANT) ==> m'[id] == m[id] && !Named(m', id, STORAGE)
    {
      GrowsNames(m, m', STORAGE, image, id, ASSISTANT);
      GrowsNames(m, m', STORAGE, image, id, STORAGE);
    }
    assert s'.keyed == s.keyed && s'.flagged == s.flagged;
  }

  /** An operation on the assistant never moves the key out of the storage container. */
  lemma AssistantOp(w: World, s: State, m': Containers)
    requires DockerOk(w, s.docker, s.keyed, s.flagged) && Grows(s.docker, m', ASSISTANT, w.upgradeImage)
    ensures var s' := WithDocker(s, m');
            && DockerOk(w, m', s'.keyed, s'.flagged)
            && s'.flagged <= s.flagged
            && (StorageHolds(s) ==> StorageHolds(s'))
  {
    NamesDiffer();
    var m, s' := s.docker, WithDocker(s, m');
    forall id: Id ensures Named(m', id, STORAGE) <==> Named(m, id, STORAGE)
                  ensures Named(m', id, STORAGE) ==> m'[id] == m[id]
                  ensures Named(m, id, ASSISTANT) ==> Named(m', id, ASSISTANT)
                  ensures Named(m', id, ASSISTANT) ==> m'[id].image == w.upgradeImage && !Named(m', id, STORAGE)
    {
      GrowsNames(m, m', ASSISTANT, w.upgradeImage, id, ASSISTANT);
      GrowsNames(m, m', ASSISTANT, w.upgradeImage, id, STORAGE);
    }
    if StorageHolds(s) {
      var id :| Named(m, id, STORAGE) && id in s.keyed;
      assert Named(m', id, STORAGE) && id in s'.keyed;
    }
  }

  /** Starting the assistant takes nothing from it either. */
  lemma AssistantStart(w: World, s: State, m': Containers, err: Err)
    requires DockerOk(w, s.docker, s.keyed, s.flagged)
    requires StartRel(s.docker, ASSISTANT, true, w.upgradeImage, [], m', err)
    ensures Grows(s.docker, m', ASSISTANT, w.upgradeImage)
    ensures var s' := WithDocker(s, m');
            && DockerOk(w, m', s'.keyed, s'.flagged)
            && s'.keyed == s.keyed && s'.flagged == s.flagged
            && (StorageHolds(s) ==> StorageHolds(s'))
            && (AssistantHolds(s) ==> AssistantHolds(s'))
  {
    StartGrows(s.docker, ASSISTANT, true, w.upgradeImage, [], m', err);
    AssistantOp(w, s, m');
    var s' := WithDocker(s, m');
    assert forall id :: id in s.keyed && Named(m', id, ASSISTANT) ==> m'[id].running by {
      forall id: Id | id in s.keyed && Named(m', id, ASSISTANT) ensures m'[id].running {
        GrowsNames(s.docker, m', ASSISTANT, w.upgradeImage, id, ASSISTANT);
      }
    }
    assert s'.keyed == s.keyed && s'.flagged == s.flagged;
    if AssistantHolds(s) {
      var id: Id :| Named(s.docker, id, ASSISTANT) && s.docker[id].running && id in s.keyed;
      GrowsNames(s.docker, m', ASSISTANT, w.upgradeImage, id, ASSISTANT);
    }
  }

  lemma AssistantStop(w: World, s: State, m': Containers, err: Err)
    requires DockerOk(w, s.docker, s.keyed, s.flagged)
    requires StopRel(s.docker, ASSISTANT, m', err)
    ensures Grows(s.docker, m', ASSISTANT, w.upgradeImage)
    ensures var s' := WithDocker(s, m');
            && DockerOk(w, m', s'.keyed, s'.flagged)
            && s'.flagged <= s.flagged
            && (StorageHolds(s) ==> StorageHolds(s'))
            && (err.None? ==> s'.flagged == {})
  {
    StopGrows(s.docker, ASSISTANT, m', err, w.upgradeImage);
    AssistantOp(w, s, m');
  }

  /** Removing the old node spares the assistant. */
  lemma NodeRemoval(w: World, s: State, m': Containers, err: Err)
    requires DockerOk(w, s.docker, s.keyed, s.flagged)
    requires !Contains(w.upgradeImage, "dcstorage") && s.config.nodeImage != w.upgradeImage
    requires RemoveNodeRel(s.docker, s.config.nodeImage, m', err)
    ensures var s' := WithDocker(s, m');
            && DockerOk(w, m', s'.keyed, s'.flagged)
            && s'.flagged == s.flagged
            && (AssistantHolds(s) ==> AssistantHolds(s'))
            && (err.Some? && StorageHolds(s) ==> StorageHolds(s'))
    ensures forall id, n :: Named(m', id, n) ==> Named(s.docker, id, n) && m'[id].image == s.docker[id].image
  {
    RemoveNodeWellNamed(s.docker, s.config.nodeImage, m', err);
    var m, s' := s.docker, WithDocker(s, m');
    assert forall id :: id in m' ==> m'[id].names == m[id].names && m'[id].image == m[id].image;
    forall id: Id | Named(m, id, ASSISTANT) ensures id in m' && m'[id] == m[id] {
      RemoveNodeSpares(m, s.config.nodeImage, m', err, id);
    }
    assert s'.flagged == s.flagged;
    if AssistantHolds(s) {
      var id: Id :| Named(m, id, ASSISTANT) && m[id].running && id in s.keyed;
      assert Named(m', id, ASSISTANT);
    }
    if err.Some? && StorageHolds(s) {
      var id: Id :| Named(m, id, STORAGE) && id in s.keyed;
      assert Named(m', id, STORAGE) && !Named(m, id, ASSISTANT);
      assert id in s'.keyed;
    }
  }
}
