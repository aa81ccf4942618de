/**
 `upgradeDeal` as the program it is: a method over the engine, the files and the
 daemon's variables, with interference between its calls.  Every change it makes is
 recorded as a step of the state machine, so all that is proved of the machine's runs
 holds of every run of this program.
 */
module UpgradeDaemon {
  import opened Prelude
  import opened Docker
  import opened Committee
  import opened Upgrade
  import opened UpgradeCustody
  import Polling

  ghost predicate Follows(w: World, t: seq<State>, es: seq<Event>, s: State) {
    Run(w, t, es) && t[|t| - 1] == s && Base(w, s)
  }

  lemma FollowOn(w: World, t: seq<State>, es: seq<Event>, s: State, e: Event, s': State)
    requires Follows(w, t, es, s) && StepBy(w, s, e, s')
    ensures Follows(w, t + [s'], es + [e], s')
  {
    StepKeepsBase(w, s, e, s');
    var t', es' := t + [s'], es + [e];
    forall k | 0 <= k < |es'| ensures StepBy(w, t'[k], es'[k], t'[k + 1]) {
      if k < |es| {
        assert t'[k] == t[k] && t'[k + 1] == t[k + 1] && es'[k] == es[k];
      }
    }
  }

  /** As long as no engine call ever failed, every first stop was effective. */
  ghost predicate Unharmed(faults: nat, t: seq<State>, es: seq<Event>) {
    faults == 0 ==> StopsEffective(t, es)
  }

  lemma UnharmedOn(faults: nat, t: seq<State>, es: seq<Event>, e: Event, s': State)
    requires Unharmed(faults, t, es) && (faults == 0 ==> StopEffective(e, s'))
    ensures Unharmed(faults, t + [s'], es + [e])
  {
    if faults == 0 {
      var t', es' := t + [s'], es + [e];
      forall k | 0 <= k < |es'| ensures StopEffective(es'[k], t'[k + 1]) {
        assert k < |es| ==> StopEffective(es[k], t[k + 1]) && es'[k] == es[k] && t'[k + 1] == t[k + 1];
      }
    }
  }

  /** No container, no key, no other process: where every daemon's history begins. */
  predicate CleanInstall(w: World, s: State) {
    && s.docker == map[] && s.keyed == {} && s.flagged == {} && !s.issued && s.copies == map[] && s.pc == Idle
    && !Contains(w.upgradeImage, "dcstorage")
    && AdmissibleConfig(w, s.config) && AdmissibleConfig(w, s.disk) && Admissible(w, s.chain.program)
  }

  /** Once somebody has the key somebody always has it. */
  ghost predicate CustodyKept(t: seq<State>) {
    forall j, k :: 0 <= j <= k < |t| && t[j].keyed != {} ==> Custody(t[k])
  }

  lemma CustodyFromInstall(w: World, t: seq<State>, es: seq<Event>)
    requires Run(w, t, es) && StopsEffective(t, es) && CleanInstall(w, t[0])
    ensures CustodyKept(t)
  {
    assert Base(w, t[0]);
    forall j, k | 0 <= j <= k < |t| && t[j].keyed != {} ensures Custody(t[k]) {
      CustodyOnceIssued(w, t, es, j, k);
    }
  }

  lemma MadeStep(w: World, s: State, e: Event, m: Containers)
    requires EngineEvent(e) && EngineEnabled(s, e) && EngineRel(w, s, e, m)
    ensures StepBy(w, s, e, AfterEngine(s, e, m))
  {
    assert AfterEngine(s, e, m).docker == m;
  }

  lemma FirstStop(w: World, s: State, m: Containers, err: Err)
    requires Base(w, s) && s.pc == StopAssistant && StopRel(s.docker, ASSISTANT, m, err)
    ensures var s' := AfterEngine(s, AssistantStopped(err), m);
            StepBy(w, s, AssistantStopped(err), s') && (err.None? ==> StopEffective(AssistantStopped(err), s'))
  {
    var e := AssistantStopped(err);
    var s' := AfterEngine(s, e, m);
    assert s'.docker == m && EngineStep(w, s, e, s');
    if err.None? {
      SuccessfulStopIsEffective(w, s, e, s');
    }
  }

  lemma AssistantUp(w: World, s: State, m: Containers, err: Err)
    requires Base(w, s) && s.pc == StartAssistant && StartRel(s.docker, ASSISTANT, true, w.upgradeImage, [], m, err)
    ensures StepBy(w, s, AssistantStarted(err), AfterEngine(s, AssistantStarted(err), m))
    ensures err.None? ==> exists id :: id in m && "/dcupgrade" in m[id].names && m[id].running
    ensures err != Some(Conflict)
  {
    assert "/" + ASSISTANT == "/dcupgrade";
    MadeStep(w, s, AssistantStarted(err), m);
    StartReconciles(s.docker, ASSISTANT, true, w.upgradeImage, [], m, err);
  }

  /** Which of an attempt's calls outside get through: the version query, reading the chain,
      the two looks at the signatures, loading and pulling the image, writing the file, and
      each query of the new node; and how many polls the process lives to make. */
  datatype Calls = Calls(query: bool, chain: bool, manual: bool, target: bool, load: bool, pull: bool,
                         pullOther: bool, save: bool, verify: nat -> bool, lifetime: nat)

  /** How an attempt may end although the engine has done what it was asked: by a crash, a
      name conflict, a version query or a wait without the answer hoped for, a decision
      against the release, or the verdict on the new node. */
  predicate Ends(e: Event, calls: Calls) {
    || e == Crash || e == QueryFailed || e.AssistLaunched? || e.Decided?
    || e == EnsureStarted(Some(Conflict)) || e == NodeStarted(Some(Conflict))
    || (e == ChainUnread && !calls.chain)
    || (e == FetchFailed && !calls.load && !calls.pull && !calls.pullOther)
    || e == AssistantTimedOut || e == NodeTimedOut || e == VerifyEnded || e.VerifyStopped?
  }

  lemma NodeUp(w: World, s: State, e: Event, m: Containers)
    requires WellNamed(s.docker) && ((e.EnsureStarted? && s.pc == Ensure) || (e.NodeStarted? && s.pc == StartNode))
    requires StartRel(s.docker, STORAGE, false, s.config.nodeImage, NODE_ARGS, m, e.err)
    ensures StepBy(w, s, e, AfterEngine(s, e, m))
    ensures e.err.None? ==> !ImageClash(s.docker, STORAGE, s.config.nodeImage)
    ensures e.err.None? ==> exists id :: Named(m, id, STORAGE) && m[id].running
    ensures e.err == Some(Conflict) ==> ImageClash(s.docker, STORAGE, s.config.nodeImage)
  {
    MadeStep(w, s, e, m);
    StartReconciles(s.docker, STORAGE, false, s.config.nodeImage, NODE_ARGS, m, e.err);
    if e.err.None? {
      var id :| Named(m, id, STORAGE) && m[id].image == s.config.nodeImage && m[id].running
                && forall j :: Named(m, j, STORAGE) ==> j == id;
      forall j | Named(s.docker, j, STORAGE) ensures s.docker[j].image == s.config.nodeImage {
        assert Named(m, j, STORAGE);
      }
    }
  }

  /** The early returns that leave nothing behind. */
  predicate EndsQuietly(pc: Pc, e: Event) {
    || (e == ChainUnread && pc == Decide)
    || (e == FetchFailed && pc == Fetch)
    || (e == AssistantTimedOut && pc == AwaitAssistant)
    || (e == NodeTimedOut && pc == AwaitNode)
  }

  lemma QuietStep(w: World, s: State, e: Event, s': State)
    requires EndsQuietly(s.pc, e) && s' == s.(pc := Idle)
    ensures StepBy(w, s, e, s') && StopEffective(e, s')
  {
  }

  lemma CrashStep(w: World, s: State, s': State)
    requires s' == s.(config := s.disk, errCount := 0, pc := Idle)
    ensures StepBy(w, s, Crash, s')
  {
  }

  lemma AnsweredStep(w: World, s: State, node: Id, s': State)
    requires s.pc == Query && Named(s.docker, node, STORAGE) && s.docker[node].running && node in s.keyed
    requires s' == s.(errCount := 0, pc := Decide,
                      local := s.local.(version := w.versionOf(s.docker[node].image),
                                        enclave := w.enclaveOf(s.docker[node].image)))
    ensures StepBy(w, s, QueryAnswered(node), s')
  {
  }

  lemma SeenStep(w: World, s: State, node: Id, s': State)
    requires s.pc == Verify && Named(s.docker, node, STORAGE) && s.docker[node].running && node in s.keyed
    requires s' == s.(pc := Judge,
                      local := s.local.(seen := Report(w.versionOf(s.docker[node].image),
                                                       w.enclaveOf(s.docker[node].image))))
    ensures StepBy(w, s, VerifyAnswered(node), s') && StopEffective(VerifyAnswered(node), s')
  {
  }

  lemma UnseenStep(w: World, s: State, s': State)
    requires s.pc == Verify && s' == s.(pc := Judge, local := s.local.(seen := Report("", "")))
    ensures StepBy(w, s, VerifyTimedOut, s') && StopEffective(VerifyTimedOut, s')
  {
  }

  lemma AcceptStep(w: World, s: State, s': State)
    requires s.pc == Judge && !WrongEnclave(s.local) && s' == s.(pc := Idle)
    ensures StepBy(w, s, VerifyEnded, s') && StopEffective(VerifyEnded, s')
  {
  }

  lemma DecidedStep(w: World, s: State, ok: bool, manualOk: bool, checkOk: bool, target: Program, s': State)
    requires s.pc == Decide && target == Target(w, s.config, s.chain, manualOk)
    requires manualOk ==> Vouched(w.authority, s.chain.entries, s.config.newVersion.enclave)
    requires checkOk ==> Vouched(w.authority, s.chain.entries, target.enclave)
    requires ok <==> Proceed(w, s, target, checkOk)
    requires s' == if ok then
                     s.(pc := Fetch, local := s.local.(chainVersion := s.chain.program.version, target := target,
                                                       vouchers := s.chain.entries))
                   else s.(pc := Idle)
    ensures StepBy(w, s, Decided(manualOk, checkOk), s')
  {
  }

  lemma RemovalStep(w: World, s: State, m: Containers, err: Err, s': State)
    requires s.pc == RemoveNode && RemoveNodeRel(s.docker, s.config.nodeImage, m, err)
    requires s' == s.(docker := m, keyed := Survivors(m, s.keyed), flagged := Survivors(m, s.flagged),
                      pc := if err.None? then StartNode else Idle,
                      config := if err.None? then s.config.(nodeImage := s.local.tag) else s.config)
    ensures StepBy(w, s, NodeRemoved(err), s')
  {
    MadeStep(w, s, NodeRemoved(err), m);
  }

  lemma NodeDown(w: World, s: State, m: Containers, err: Err)
    requires Base(w, s) && s.pc == StopNode && StopRel(s.docker, STORAGE, m, err)
    ensures StepBy(w, s, NodeStopped(err), AfterEngine(s, NodeStopped(err), m))
    ensures err.None? ==> forall id :: id in m && "/dcstorage" in m[id].names ==> !m[id].running
  {
    assert "/" + STORAGE == "/dcstorage";
    MadeStep(w, s, NodeStopped(err), m);
    StopStops(s.docker, STORAGE, m, err);
  }

  lemma HelpLaunched(w: World, s: State, m: Containers, err: Err, s': State)
    requires s.pc == Query && s.errCount > ASSIST_LIMIT
    requires StartRel(s.docker, ASSISTANT, true, w.upgradeImage, [], m, err)
    requires s' == s.(docker := m, keyed := Survivors(m, s.keyed), flagged := Survivors(m, s.flagged),
                      errCount := 0, pc := Idle)
    ensures StepBy(w, s, AssistLaunched(err), s')
  {
    MadeStep(w, s, AssistLaunched(err), m);
  }

  lemma HandedOver(w: World, s: State, a: Id, n: Id, s': State)
    requires Named(s.docker, a, ASSISTANT) && s.docker[a].running && a in s.keyed
    requires Named(s.docker, n, STORAGE) && s.docker[n].running && n !in s.keyed
    requires s' == s.(keyed := s.keyed + {n}, flagged := s.flagged + {a})
    ensures StepBy(w, s, Handover(a, n), s')
  {
  }

  class Node {
    const w: World
    const engine: Engine
    // the world around the daemon
    var keyed: set<Id>
    var flagged: set<Id>
    var disk: Config
    var cmdStart: bool
    var chain: Chain
    var issued: bool
    var copies: map<nat, Config>
    // the daemon's globals
    var config: Config
    var versionGetErrCount: nat
    // where it stands, and how it got there
    ghost const origin: State
    ghost var pc: Pc
    ghost var local: Local
    ghost var trace: seq<State>
    ghost var events: seq<Event>

    ghost function View(): State
      reads this, engine
    {
      State(engine.containers, keyed, flagged, issued, disk, cmdStart, chain, copies, config, versionGetErrCount, pc, local)
    }

    ghost predicate Valid()
      reads this, engine
    {
      && engine.Valid() && Follows(w, trace, events, View()) && Unharmed(engine.faults, trace, events)
      && trace[0] == origin
    }

    /** A daemon on a clean machine. */
    constructor (w: World, config: Config, chain: Chain)
      requires !Contains(w.upgradeImage, "dcstorage") && AdmissibleConfig(w, config) && Admissible(w, chain.program)
      ensures Valid() && fresh(engine) && this.w == w && pc == Idle && trace == [View()] && events == []
      ensures CleanInstall(w, origin)
    {
      this.w := w;
      engine := new Engine();
      keyed, flagged, issued, disk, cmdStart := {}, {}, false, config, false;
      this.chain, copies, this.config, versionGetErrCount := chain, map[], config, 0;
      pc, local := Idle, Local("", "", "", chain.program, [], "", Report("", ""));
      origin := State(map[], {}, {}, false, config, false, chain, map[], config, 0, Idle,
                      Local("", "", "", chain.program, [], "", Report("", "")));
      new;
      trace, events := [View()], [];
    }

    /** The trace only ever grows, and so does the number of failed engine calls. */
    twostate predicate Grown()
      reads this, engine
    {
      old(trace) <= trace && old(events) <= events && old(engine.faults) <= engine.faults
    }

    ghost predicate Last(e: Event)
      reads this
    {
      events != [] && Latest() == e
    }

    /** What was recorded last. */
    ghost function Latest(): Event
      reads this
    {
      if events == [] then Tick else events[|events| - 1]
    }

    ghost predicate Ended(calls: Calls)
      reads this
    {
      Ends(Latest(), calls)
    }

    /** The engine has failed, or this is how it ended. */
    twostate predicate Excused(calls: Calls)
      reads this, engine
    {
      old(engine.faults) < engine.faults || Ended(calls)
    }

    ghost method Record(e: Event)
      requires engine.Valid() && |trace| > 0 && Follows(w, trace, events, trace[|trace| - 1]) && trace[0] == origin
      requires StepBy(w, trace[|trace| - 1], e, View())
      requires Unharmed(engine.faults, trace, events) && (engine.faults == 0 ==> StopEffective(e, View()))
      modifies this`trace, this`events
      ensures Valid() && Grown() && trace == old(trace) + [View()] && events == old(events) + [e]
      ensures Last(e)
    {
      FollowOn(w, trace, events, trace[|trace| - 1], e, View());
      UnharmedOn(engine.faults, trace, events, e, View());
      trace := trace + [View()];
      events := events + [e];
    }

    /** Containers that are gone, and assistants that no longer run, lose what they held. */
    method Settle()
      modifies this`keyed, this`flagged
      ensures keyed == Survivors(engine.containers, old(keyed)) && flagged == Survivors(engine.containers, old(flagged))
    {
      keyed := Survivors(engine.containers, keyed);
      flagged := Survivors(engine.containers, flagged);
    }

    /** A call of util.StartContainer, ... */
    method Start(name: string, removeOld: bool, image: string, args: seq<string>) returns (err: Err)
      requires engine.Valid()
      modifies this`keyed, this`flagged, engine
      ensures engine.Valid() && StartRel(old(engine.containers), name, removeOld, image, args, engine.containers, err)
      ensures Blames(old(engine.faults), engine.faults, err)
      ensures keyed == Survivors(engine.containers, old(keyed)) && flagged == Survivors(engine.containers, old(flagged))
    {
      err := engine.StartContainer(name, removeOld, image, args);
      Settle();
    }

    /** ... of util.StopContainer ... */
    method Stop(name: string) returns (err: Err)
      requires engine.Valid()
      modifies this`keyed, this`flagged, engine
      ensures engine.Valid() && StopRel(old(engine.containers), name, engine.containers, err)
      ensures err != Some(Conflict) && Blames(old(engine.faults), engine.faults, err)
      ensures keyed == Survivors(engine.containers, old(keyed)) && flagged == Survivors(engine.containers, old(flagged))
    {
      err := engine.StopContainer(name);
      Settle();
    }

    /** ... and of removeDcStorageNodeInDocker, with what follows for the key. */
    method RemoveFor(nodeImage: string) returns (err: Err)
      requires engine.Valid()
      modifies this`keyed, this`flagged, engine
      ensures engine.Valid() && RemoveNodeRel(old(engine.containers), nodeImage, engine.containers, err)
      ensures err != Some(Conflict) && Blames(old(engine.faults), engine.faults, err)
      ensures keyed == Survivors(engine.containers, old(keyed)) && flagged == Survivors(engine.containers, old(flagged))
    {
      err := engine.RemoveNode(nodeImage);
      Settle();
    }

    // ------------------------------------------------ interference

    /** One step of the environment. */
    method Interfere()
      requires Valid()
      modifies this, engine
      ensures Valid() && Grown() && SameDaemon()
    {
      var choice: int := *;
      if choice == 0 {
        CliStartStorage();
      } else if choice == 1 {
        CliStopStorage();
      } else if choice == 2 {
        var a: Id, n: Id := *, *;
        HandKeyOver(a, n);
      } else if choice == 3 {
        var a: Id, n: Id := *, *;
        AcquireKey(a, n);
      } else if choice == 4 {
        var p: nat := *;
        CopyConfig(p);
      } else if choice == 5 {
        var p: nat := *;
        WriteCopyBack(p);
      } else if choice == 6 {
        var n: Id := *;
        IssueKey(n);
      } else if choice == 7 {
        var manual: Program := *;
        EditManual(manual);
      } else {
        var next: Chain := *;
        MoveChain(next);
      }
    }

    /** The daemon's own variables. */
    twostate predicate SameDaemon()
      reads this
    {
      pc == old(pc) && local == old(local) && config == old(config) && versionGetErrCount == old(versionGetErrCount)
    }

    /** `dc start storage` in another process. */
    method CliStartStorage()
      requires Valid()
      modifies this, engine
      ensures Valid() && Grown() && SameDaemon()
    {
      ghost var s := View();
      var err := Start(STORAGE, false, disk.nodeImage, NODE_ARGS);
      cmdStart := cmdStart || err.None?;
      MadeStep(w, s, CliStart(err), engine.containers);
      assert View() == AfterEngine(s, CliStart(err), engine.containers);
      Record(CliStart(err));
    }

    /** `dc stop storage` in another process. */
    method CliStopStorage()
      requires Valid()
      modifies this, engine
      ensures Valid() && Grown() && SameDaemon() && !cmdStart
      ensures engine.faults == old(engine.faults) ==>
                forall id :: Named(engine.containers, id, STORAGE) ==> !engine.containers[id].running
    {
      ghost var s := View();
      var err := Stop(STORAGE);
      cmdStart := false;
      MadeStep(w, s, CliStop(err), engine.containers);
      StopStops(s.docker, STORAGE, engine.containers, err);
      assert View() == AfterEngine(s, CliStop(err), engine.containers);
      Record(CliStop(err));
    }

    /** The first storage container to run obtains the key. */
    method IssueKey(n: Id)
      requires Valid()
      modifies this`keyed, this`issued, this`trace, this`events
      ensures Valid() && Grown()
    {
      if !issued && IsRunning(n, STORAGE) {
        ghost var s := View();
        keyed, issued := {n}, true;
        assert PlainStep(w, s, KeyIssued(n), View());
        Record(KeyIssued(n));
      }
    }

    method HandKeyOver(a: Id, n: Id)
      requires Valid()
      modifies this`keyed, this`flagged, this`trace, this`events
      ensures Valid() && Grown()
    {
      if IsRunning(a, ASSISTANT) && IsRunning(n, STORAGE) && a in keyed && n !in keyed {
        ghost var s := View();
        keyed, flagged := keyed + {n}, flagged + {a};
        HandedOver(w, s, a, n, View());
        Record(Handover(a, n));
      }
    }

    method AcquireKey(a: Id, n: Id)
      requires Valid()
      modifies this`keyed, this`flagged, this`trace, this`events
      ensures Valid() && Grown()
    {
      if IsRunning(a, ASSISTANT) && IsRunning(n, STORAGE) && n in keyed && a !in keyed {
        ghost var s := View();
        keyed := keyed + {a};
        assert PlainStep(w, s, Acquire(a, n), View());
        Record(Acquire(a, n));
      }
    }

    predicate IsRunning(id: Id, name: string)
      reads this, engine
    {
      id in engine.containers && "/" + name in engine.containers[id].names && engine.containers[id].running
    }

    /** Another process reads the configuration, ... */
    method CopyConfig(p: nat)
      requires Valid()
      modifies this`copies, this`trace, this`events
      ensures Valid() && Grown()
    {
      ghost var s := View();
      copies := copies[p := disk];
      assert PlainStep(w, s, CliRead(p), View());
      Record(CliRead(p));
    }

    /** ... writes its copy back, ... */
    method WriteCopyBack(p: nat)
      requires Valid()
      modifies this`disk, this`trace, this`events
      ensures Valid() && Grown()
    {
      if p in copies {
        ghost var s := View();
        disk := copies[p];
        assert PlainStep(w, s, CliSave(p), View());
        Record(CliSave(p));
      }
    }

    /** ... or edits the manual target. */
    method EditManual(manual: Program)
      requires Valid()
      modifies this`disk, this`trace, this`events
      ensures Valid() && Grown()
    {
      if Admissible(w, manual) {
        ghost var s := View();
        disk := disk.(newVersion := manual);
        assert PlainStep(w, s, ManualEdited, View());
        Record(ManualEdited);
      }
    }

    method MoveChain(next: Chain)
      requires Valid()
      modifies this`chain, this`trace, this`events
      ensures Valid() && Grown()
    {
      if Admissible(w, next.program) {
        ghost var s := View();
        chain := next;
        assert PlainStep(w, s, ChainMoves, View());
        Record(ChainMoves);
      }
    }

    /** Between two calls: any number of environment steps, then perhaps the end of the
        process and a restart from the configuration on disk. */
    method Pause() returns (alive: bool)
      requires Valid()
      modifies this, engine
      ensures Valid() && Grown()
      ensures alive ==> SameDaemon()
      ensures !alive ==> pc == Idle && Last(Crash)
    {
      var steps: nat := *;
      while steps > 0
        invariant Valid() && Grown() && SameDaemon()
      {
        Interfere();
        steps := steps - 1;
      }
      alive := *;
      if !alive {
        Die();
      }
    }

    method Die()
      requires Valid()
      modifies this
      ensures Valid() && Grown() && pc == Idle && Last(Crash)
      ensures config == disk == old(disk) && versionGetErrCount == 0
    {
      ghost var s := View();
      config, versionGetErrCount, pc := disk, 0, Idle;
      CrashStep(w, s, View());
      Record(Crash);
    }

    // ------------------------------------------------ what the daemon asks others

    /** The version endpoint: it answers only when the storage container runs and holds
        the key. */
    method GetVersion(through: bool) returns (node: Option<Id>, version: string, enclave: string)
      ensures node.Some? <==> through && SomeServing()
      ensures node.Some? ==> && Serving(node.value)
                             && version == w.versionOf(engine.containers[node.value].image)
                             && enclave == w.enclaveOf(engine.containers[node.value].image)
      ensures node.None? ==> version == enclave == ""
    {
      if through && exists id :: id in engine.containers && Serving(id) {
        var id :| id in engine.containers && Serving(id);
        var image := engine.containers[id].image;
        return Some(id), w.versionOf(image), w.enclaveOf(image);
      }
      return None, "", "";
    }

    ghost predicate SomeServing()
      reads this, engine
    {
      exists id :: Serving(id)
    }

    /** The storage container `id` runs and has the key. */
    predicate Serving(id: Id)
      reads this, engine
    {
      IsRunning(id, STORAGE) && id in keyed
    }

    /** The assistant's secretflag endpoint: "true" only when it holds the key. */
    method SecretFlag() returns (reply: Polling.Reply)
      ensures Polling.Affirms(reply) ==> AssistantHolds(View())
    {
      var id: Id := *;
      var text: string := *;
      if IsRunning(id, ASSISTANT) && id in keyed {
        assert Named(View().docker, id, ASSISTANT);
        return Polling.Body("true");
      }
      reply := if text == "true" then Polling.Failed else Polling.Body(text);
    }

    /** Its upgradeflag endpoint: "true" only while the flag is up, which it is from a
        hand-over until the assistant stops. */
    method UpgradeFlag() returns (reply: Polling.Reply)
      ensures Polling.Affirms(reply) ==>
                exists id :: Named(engine.containers, id, ASSISTANT) && engine.containers[id].running && id in flagged
    {
      var id: Id := *;
      var text: string := *;
      if IsRunning(id, ASSISTANT) && id in flagged {
        assert Named(engine.containers, id, ASSISTANT);
        return Polling.Body("true");
      }
      reply := if text == "true" then Polling.Failed else Polling.Body(text);
    }

    // ------------------------------------------------ the calls of upgradeDeal

    /** Start the node unless it is seen running. */
    method EnsureNode(ghost calls: Calls) returns (ok: bool)
      requires Valid() && pc == Ensure
      modifies this, engine
      ensures Valid() && Grown() && pc == if ok then Query else Idle
      ensures ok || Excused(calls)
      ensures ok && engine.faults == old(engine.faults) ==>
                exists id :: Named(engine.containers, id, STORAGE) && engine.containers[id].running
    {
      var running := SeenRunning();
      if running {
        NodeFound();
        ok := true;
      } else {
        ok := StartConfiguredNode(calls);
      }
    }

    /** checkDcnodeStatus. */
    method SeenRunning() returns (running: bool)
      requires Valid()
      modifies engine`faults
      ensures Valid() && old(engine.faults) <= engine.faults
      ensures running ==> exists id :: Named(engine.containers, id, STORAGE) && engine.containers[id].running
      ensures !running && engine.faults == old(engine.faults) ==>
                forall id :: Named(engine.containers, id, STORAGE) ==> !engine.containers[id].running
    {
      var rows, lerr := engine.List(false);
      if lerr.Some? { return false; }
      var found := Search(rows, STORAGE, None);
      assert found.Some? ==> Named(engine.containers, found.value, STORAGE);
      running := found.Some?;
    }

    method NodeFound()
      requires Valid() && pc == Ensure
      requires exists id :: Named(engine.containers, id, STORAGE) && engine.containers[id].running
      modifies this
      ensures Valid() && Grown() && pc == Query && engine.containers == old(engine.containers)
    {
      ghost var s := View();
      pc := Query;
      assert PlainStep(w, s, FoundRunning, View());
      Record(FoundRunning);
    }

    method StartConfiguredNode(ghost calls: Calls) returns (ok: bool)
      requires Valid() && pc == Ensure
      modifies this, engine
      ensures Valid() && Grown() && pc == if ok then Query else Idle
      ensures ok || Excused(calls)
      ensures ok ==> exists id :: Named(engine.containers, id, STORAGE) && engine.containers[id].running
    {
      ghost var s := View();
      var err := Start(STORAGE, false, config.nodeImage, NODE_ARGS);
      ok := err.None?;
      pc := if ok then Query else Idle;
      NodeUp(w, s, EnsureStarted(err), engine.containers);
      assert View() == AfterEngine(s, EnsureStarted(err), engine.containers);
      Record(EnsureStarted(err));
    }

    /** Ask the node for its version; after too many failures launch the assistant. */
    method QueryNode(calls: Calls) returns (ok: bool, version: string, enclave: string)
      requires Valid() && pc == Query
      modifies this, engine
      ensures Valid() && Grown() && pc == if ok then Decide else Idle
      ensures ok <==> calls.query && old(SomeServing())
      ensures ok ==> local.version == version && local.enclave == enclave
      ensures !ok ==> Ended(calls)
    {
      var node;
      node, version, enclave := GetVersion(calls.query);
      ok := node.Some?;
      if ok {
        NodeAnswered(node.value, version, enclave);
      } else {
        CountFailure();
      }
    }

    method NodeAnswered(node: Id, version: string, enclave: string)
      requires Valid() && pc == Query && Serving(node)
      requires version == w.versionOf(engine.containers[node].image)
      requires enclave == w.enclaveOf(engine.containers[node].image)
      modifies this
      ensures Valid() && Grown() && pc == Decide && local.version == version && local.enclave == enclave
    {
      ghost var s := View();
      versionGetErrCount, pc := 0, Decide;
      local := local.(version := version, enclave := enclave);
      AnsweredStep(w, s, node, View());
      Record(QueryAnswered(node));
    }

    method CountFailure()
      requires Valid() && pc == Query
      modifies this, engine
      ensures Valid() && Grown() && pc == Idle
      ensures if old(versionGetErrCount) <= 150 then
                Last(QueryFailed) && versionGetErrCount == old(versionGetErrCount) + 1
              else
                versionGetErrCount == 0 && Latest().AssistLaunched?
    {
      if versionGetErrCount > ASSIST_LIMIT {
        LaunchForHelp();
      } else {
        NoteFailure();
      }
    }

    method NoteFailure()
      requires Valid() && pc == Query && versionGetErrCount <= ASSIST_LIMIT
      modifies this
      ensures Valid() && Grown() && pc == Idle && Last(QueryFailed)
      ensures versionGetErrCount == old(versionGetErrCount) + 1
    {
      ghost var s := View();
      versionGetErrCount, pc := versionGetErrCount + 1, Idle;
      assert PlainStep(w, s, QueryFailed, View());
      Record(QueryFailed);
    }

    method LaunchForHelp()
      requires Valid() && pc == Query && versionGetErrCount > ASSIST_LIMIT
      modifies this, engine
      ensures Valid() && Grown() && pc == Idle && versionGetErrCount == 0 && Latest().AssistLaunched?
    {
      ghost var s := View();
      versionGetErrCount := 0;
      var err := Start(ASSISTANT, true, w.upgradeImage, []);
      pc := Idle;
      HelpLaunched(w, s, engine.containers, err, View());
      Record(AssistLaunched(err));
    }

    /** Select the target and check that it is signed and newer. */
    method SelectTarget(version: string, enclave: string, calls: Calls) returns (ok: bool, target: Program)
      requires Valid() && pc == Decide && local.version == version && local.enclave == enclave
      modifies this
      ensures Valid() && Grown() && pc == if ok then Fetch else Idle
      ensures ok ==> local.target == target
      ensures if calls.chain then Latest().Decided? else !ok && Last(ChainUnread)
    {
      if calls.chain {
        var manualOk, checkOk;
        ok, target, manualOk, checkOk := Compare(version, enclave, calls);
        Settled(ok, target, manualOk, checkOk);
      } else {
        ok, target := false, chain.program;
        GiveUp(ChainUnread);
      }
    }

    method Settled(ok: bool, target: Program, manualOk: bool, checkOk: bool)
      requires Valid() && pc == Decide
      requires manualOk ==> Vouched(w.authority, chain.entries, config.newVersion.enclave)
      requires target == Target(w, config, chain, manualOk)
      requires checkOk ==> Vouched(w.authority, chain.entries, target.enclave)
      requires ok <==> Proceed(w, View(), target, checkOk)
      modifies this
      ensures Valid() && Grown() && pc == if ok then Fetch else Idle
      ensures ok ==> local.target == target
      ensures Latest().Decided?
    {
      ghost var s := View();
      pc := if ok then Fetch else Idle;
      local := if ok then local.(chainVersion := chain.program.version, target := target, vouchers := chain.entries)
               else local;
      DecidedStep(w, s, ok, manualOk, checkOk, target, View());
      Record(Decided(manualOk, checkOk));
    }

    /** The early returns that leave nothing behind. */
    method GiveUp(ghost e: Event)
      requires Valid()
      requires EndsQuietly(pc, e)
      modifies this
      ensures Valid() && Grown() && pc == Idle && Last(e)
    {
      ghost var s := View();
      pc := Idle;
      QuietStep(w, s, e, View());
      Record(e);
    }

    /** The comparisons of upgradeDeal, in its order and with its early exits. */
    method Compare(version: string, enclave: string, calls: Calls)
      returns (ok: bool, target: Program, manualOk: bool, checkOk: bool)
      requires local.version == version && local.enclave == enclave
      ensures manualOk <==>
                var manual, known := config.newVersion, w.rank(chain.program.version);
                && manual.version != "" && manual.enclave != ""
                && known.Some? && w.rank(manual.version).Some? && known.value < w.rank(manual.version).value
                && calls.manual && Vouched(w.authority, chain.entries, manual.enclave)
      ensures manualOk ==> target == config.newVersion
      ensures !manualOk ==> target == chain.program
      ensures ok <==>
                && w.rank(chain.program.version).Some? && enclave != target.enclave
                && calls.target && Vouched(w.authority, chain.entries, target.enclave)
                && w.rank(version).Some? && w.rank(target.version).Some?
                && w.rank(version).value < w.rank(target.version).value
      ensures checkOk ==> Vouched(w.authority, chain.entries, target.enclave)
      ensures target == Target(w, config, chain, manualOk) && (ok <==> Proceed(w, View(), target, checkOk))
    {
      target, manualOk, checkOk := chain.program, false, false;
      if w.rank(chain.program.version).None? { return false, target, manualOk, checkOk; }
      if ManualSet(config.newVersion) && Below(w, chain.program.version, config.newVersion.version) {
        manualOk := CheckEnclave(config.newVersion.enclave, calls.manual);
        if manualOk {
          target := config.newVersion;
        }
      }
      if enclave == target.enclave { return false, target, manualOk, checkOk; }
      checkOk := CheckEnclave(target.enclave, calls.target);
      if !checkOk { return false, target, manualOk, checkOk; }
      ok := Below(w, version, target.version);
    }

    /** The chain may not answer; then nothing is valid. */
    method CheckEnclave(enclave: string, answered: bool) returns (valid: bool)
      ensures valid <==> answered && Vouched(w.authority, chain.entries, enclave)
    {
      valid := IfEnclaveIdValid(w.authority, if answered then Some(chain.entries) else None, enclave);
    }

    /** Get the image: loaded from the DC network, or pulled from one registry, or else
        from the other. */
    method FetchImage(target: Program, calls: Calls) returns (ok: bool, tag: string)
      requires Valid() && pc == Fetch && local.target == target
      modifies this
      ensures Valid() && Grown() && pc == if ok then StopAssistant else Idle
      ensures ok ==> local == old(local).(tag := tag)
      ensures ok <==> calls.load || calls.pull || calls.pullOther
      ensures calls.load ==> tag == target.origin
      ensures !calls.load && old(config).registry == "cn" ==> tag == if calls.pull then target.mirror else target.origin
      ensures !calls.load && old(config).registry != "cn" ==> tag == if calls.pull then target.origin else target.mirror
      ensures !ok ==> Last(FetchFailed)
    {
      ok, tag := true, target.origin;
      if !calls.load {
        var useMirror := config.registry == "cn";
        if useMirror {
          tag := target.mirror;
        }
        if !calls.pull {
          tag := if useMirror then target.origin else target.mirror;
          ok := calls.pullOther;
        }
      }
      if ok {
        ImageReady(target, tag);
      } else {
        GiveUp(FetchFailed);
      }
    }

    method ImageReady(target: Program, tag: string)
      requires Valid() && pc == Fetch && local.target == target && tag in {target.origin, target.mirror}
      modifies this
      ensures Valid() && Grown() && pc == StopAssistant && local == old(local).(tag := tag)
    {
      ghost var s := View();
      pc := StopAssistant;
      local := local.(tag := tag);
      assert PlainStep(w, s, Fetched(tag), View());
      Record(Fetched(tag));
    }

    /** The stop whose error nobody looks at. */
    method HaltAssistant()
      requires Valid() && pc == StopAssistant
      modifies this, engine
      ensures Valid() && Grown() && pc == StartAssistant && local == old(local)
      ensures engine.faults == old(engine.faults) ==> flagged == {}
    {
      ghost var s := View();
      var err := Stop(ASSISTANT);
      pc := StartAssistant;
      FirstStop(w, s, engine.containers, err);
      assert View() == AfterEngine(s, AssistantStopped(err), engine.containers);
      Record(AssistantStopped(err));
    }

    /** The start whose error nobody looks at. */
    method LaunchAssistant()
      requires Valid() && pc == StartAssistant
      modifies this, engine
      ensures Valid() && Grown() && pc == AwaitAssistant && local == old(local)
      ensures engine.faults == old(engine.faults) ==>
                exists id :: && id in engine.containers && "/dcupgrade" in engine.containers[id].names
                             && engine.containers[id].running
    {
      ghost var s := View();
      var err := Start(ASSISTANT, true, w.upgradeImage, []);
      pc := AwaitAssistant;
      AssistantUp(w, s, engine.containers, err);
      assert View() == AfterEngine(s, AssistantStarted(err), engine.containers);
      Record(AssistantStarted(err));
    }

    /** waitDcUpdateGetPeerSecret in place, with the world moving between two polls.  It
        gives up only after 61 replies none of which affirmed. */
    method AwaitAssistantKey() returns (ok: bool, ghost replies: seq<Polling.Reply>)
      requires Valid() && pc == AwaitAssistant
      modifies this, engine
      ensures Valid() && Grown() && pc == if ok then StopNode else Idle
      ensures ok ==> local == old(local)
      ensures |replies| <= 61 && forall i :: 0 <= i < |replies| - (if ok then 1 else 0) ==> replies[i] != Polling.Body("true")
      ensures ok ==> |replies| > 0 && replies[|replies| - 1] == Polling.Body("true")
      ensures ok || Last(Crash) || (Last(AssistantTimedOut) && |replies| == 61)
    {
      var count := 0;
      replies := [];
      ok := false;
      var alive := true;
      while !ok && alive && count <= Polling.ACQUIRE_LIMIT
        invariant Valid() && Grown() && count <= Polling.ACQUIRE_LIMIT + 1
        invariant pc == if !alive then Idle else if ok then StopNode else AwaitAssistant
        invariant ok ==> alive
        invariant if alive then local == old(local) else Last(Crash)
        invariant |replies| == count + (if ok then 1 else 0) && (ok ==> count <= Polling.ACQUIRE_LIMIT)
        invariant Polling.SettledBy(replies, ok)
        decreases alive && !ok, Polling.ACQUIRE_LIMIT + 1 - count
      {
        alive, ok, replies := AssistantRound(replies);
        if alive && !ok {
          count := count + 1;
        }
      }
      Polling.SettledMeans(replies, ok);
      if alive && !ok {
        GiveUp(AssistantTimedOut);
      }
    }

    /** Wait a second, in which anything may happen, and ask once more. */
    method AssistantRound(ghost before: seq<Polling.Reply>) returns (alive: bool, ok: bool, ghost replies: seq<Polling.Reply>)
      requires Valid() && pc == AwaitAssistant && Polling.SettledBy(before, false)
      modifies this, engine
      ensures Valid() && Grown() && pc == if !alive then Idle else if ok then StopNode else AwaitAssistant
      ensures if alive then local == old(local) else Last(Crash) && !ok
      ensures |replies| == |before| + (if alive then 1 else 0) && Polling.SettledBy(replies, ok)
    {
      ok, replies := false, before;
      alive := Pause();
      if alive {
        ghost var reply;
        ok, reply := PollAssistant();
        Polling.OneMoreReply(before, reply);
        replies := before + [reply];
      }
    }

    method PollAssistant() returns (ok: bool, ghost reply: Polling.Reply)
      requires Valid() && pc == AwaitAssistant
      modifies this
      ensures Valid() && Grown() && pc == (if ok then StopNode else AwaitAssistant) && local == old(local)
      ensures ok == Polling.Affirms(reply)
    {
      var answer := SecretFlag();
      reply := answer;
      ok := Polling.Affirms(answer);
      if ok {
        ghost var s := View();
        pc := StopNode;
        assert PlainStep(w, s, AssistantReady, View());
        Record(AssistantReady);
      }
    }

    /** Stop the old node, whatever that reports. */
    method HaltOldNode()
      requires Valid() && pc == StopNode
      modifies this, engine
      ensures Valid() && Grown() && pc == RemoveNode && local == old(local)
      ensures engine.faults == old(engine.faults) ==>
                forall id :: id in engine.containers && "/dcstorage" in engine.containers[id].names ==>
                  !engine.containers[id].running
    {
      ghost var s := View();
      var err := Stop(STORAGE);
      pc := RemoveNode;
      NodeDown(w, s, engine.containers, err);
      assert View() == AfterEngine(s, NodeStopped(err), engine.containers);
      Record(NodeStopped(err));
    }

    /** Remove it, and from then on mean the new image. */
    method RemoveOldNode(tag: string) returns (ok: bool)
      requires Valid() && pc == RemoveNode && local.tag == tag
      modifies this, engine
      ensures Valid() && Grown() && pc == if ok then StartNode else Idle
      ensures !ok ==> old(engine.faults) < engine.faults && config == old(config)
      ensures ok ==> config == old(config).(nodeImage := tag) && local == old(local)
    {
      var err := RemoveAndMean(tag);
      ok := err.None?;
      Record(NodeRemoved(err));
    }

    method RemoveAndMean(tag: string) returns (err: Err)
      requires engine.Valid() && pc == RemoveNode && local.tag == tag
      modifies this`keyed, this`flagged, this`config, this`pc, engine
      ensures engine.Valid() && StepBy(w, old(View()), NodeRemoved(err), View())
      ensures local == old(local)
      ensures old(engine.faults) + (if err.Some? then 1 else 0) <= engine.faults
      ensures pc == if err.None? then StartNode else Idle
      ensures config == if err.None? then old(config).(nodeImage := tag) else old(config)
    {
      ghost var s := View();
      err := RemoveFor(config.nodeImage);
      if err.None? {
        config := config.(nodeImage := tag);
      }
      pc := if err.None? then StartNode else Idle;
      RemovalStep(w, s, engine.containers, err, View());
    }

    method StartNewNode(ghost calls: Calls) returns (ok: bool)
      requires Valid() && pc == StartNode
      modifies this, engine
      ensures Valid() && Grown() && pc == (if ok then AwaitNode else Idle) && local == old(local)
      ensures ok || Excused(calls)
      ensures engine.faults == old(engine.faults) ==>
                (ok <==> !ImageClash(old(engine.containers), STORAGE, old(config).nodeImage))
    {
      var err := RaiseNode();
      ok := err.None?;
      Record(NodeStarted(err));
    }

    method RaiseNode() returns (err: Err)
      requires Valid() && pc == StartNode
      modifies this`keyed, this`flagged, this`pc, engine
      ensures engine.Valid() && StepBy(w, old(View()), NodeStarted(err), View())
      ensures pc == if err.None? then AwaitNode else Idle
      ensures Blames(old(engine.faults), engine.faults, err)
      ensures err.None? ==> !ImageClash(old(engine.containers), STORAGE, config.nodeImage)
      ensures err == Some(Conflict) ==> ImageClash(old(engine.containers), STORAGE, config.nodeImage)
    {
      ghost var s := View();
      err := Start(STORAGE, false, config.nodeImage, NODE_ARGS);
      pc := if err.None? then AwaitNode else Idle;
      NodeUp(w, s, NodeStarted(err), engine.containers);
      assert View() == AfterEngine(s, NodeStarted(err), engine.containers);
    }

    /** waitNewDcGetPeerSecret in place.  It gives up only after 601 refusals.  Failed
        requests are not counted, so only the lifetime of the process, in polls, bounds an
        undecided wait. */
    method AwaitNodeKey(lifetime: nat) returns (ok: bool, ghost replies: seq<Polling.Reply>)
      requires Valid() && pc == AwaitNode
      modifies this, engine
      ensures Valid() && Grown() && pc == if ok then Retire else Idle
      ensures ok ==> local == old(local)
      ensures Polling.Refused(replies) <= 601
      ensures forall i :: 0 <= i < |replies| - (if ok then 1 else 0) ==> replies[i] != Polling.Body("true")
      ensures ok ==> |replies| > 0 && replies[|replies| - 1] == Polling.Body("true")
      ensures ok || Last(Crash) || (Last(NodeTimedOut) && Polling.Refused(replies) == 601)
    {
      var count, polls, alive := 0, 0, true;
      replies := [];
      ok := false;
      while !ok && alive && count <= Polling.HANDOVER_LIMIT && polls < lifetime
        invariant Valid() && Grown() && polls <= lifetime
        invariant pc == if !alive then Idle else if ok then Retire else AwaitNode
        invariant ok ==> alive
        invariant if alive then local == old(local) else Last(Crash)
        invariant count == Polling.Refused(replies) <= Polling.HANDOVER_LIMIT + 1 && Polling.SettledBy(replies, ok)
        decreases lifetime - polls
      {
        polls := polls + 1;
        var counted;
        alive, ok, counted, replies := NodeRound(replies);
        if counted {
          count := count + 1;
        }
      }
      Polling.SettledMeans(replies, ok);
      if alive && !ok {
        if count > Polling.HANDOVER_LIMIT {
          GiveUp(NodeTimedOut);
        } else {
          Die();
        }
      }
    }

    method NodeRound(ghost before: seq<Polling.Reply>)
      returns (alive: bool, ok: bool, counted: bool, ghost replies: seq<Polling.Reply>)
      requires Valid() && pc == AwaitNode && Polling.SettledBy(before, false)
      modifies this, engine
      ensures Valid() && Grown() && pc == if !alive then Idle else if ok then Retire else AwaitNode
      ensures if alive then local == old(local) else Last(Crash) && !ok
      ensures Polling.SettledBy(replies, ok)
      ensures Polling.Refused(replies) == Polling.Refused(before) + if counted then 1 else 0
    {
      ok, counted, replies := false, false, before;
      alive := Pause();
      if alive {
        ghost var reply;
        ok, counted, reply := PollNode();
        Polling.OneMoreReply(before, reply);
        replies := before + [reply];
      }
    }

    method PollNode() returns (ok: bool, counted: bool, ghost reply: Polling.Reply)
      requires Valid() && pc == AwaitNode
      modifies this
      ensures Valid() && Grown() && pc == (if ok then Retire else AwaitNode) && local == old(local)
      ensures ok == Polling.Affirms(reply) && counted == (reply.Body? && !ok)
    {
      var answer := UpgradeFlag();
      reply := answer;
      ok := Polling.Affirms(answer);
      counted := !ok && answer.Body?;
      if ok {
        ghost var s := View();
        pc := Retire;
        assert PlainStep(w, s, NodeReady, View());
        Record(NodeReady);
      }
    }

    method RetireAssistant()
      requires Valid() && pc == Retire
      modifies this, engine
      ensures Valid() && Grown() && pc == Save && local == old(local)
      ensures engine.faults == old(engine.faults) ==> flagged == {}
    {
      ghost var s := View();
      var err := Stop(ASSISTANT);
      pc := Save;
      MadeStep(w, s, AssistantRetired(err), engine.containers);
      assert View() == AfterEngine(s, AssistantRetired(err), engine.containers);
      Record(AssistantRetired(err));
    }

    /** A failed write ends the process. */
    method SaveConfig(writes: bool) returns (ok: bool)
      requires Valid() && pc == Save
      modifies this
      ensures Valid() && Grown() && pc == (if ok then Verify else Idle) && ok == writes
      ensures ok ==> disk == config == old(config) && local == old(local)
      ensures !ok ==> disk == old(disk) && Last(Crash)
    {
      ok := writes;
      if ok {
        ghost var s := View();
        disk, pc := config, Verify;
        assert PlainStep(w, s, Saved, View());
        Record(Saved);
      } else {
        Die();
      }
    }

    /** Look at what came up. */
    method VerifyNewNode(target: Program, answers: nat -> bool)
      requires Valid() && pc == Verify && local.target == target
      modifies this, engine
      ensures Valid() && Grown() && pc == Idle
      ensures Last(Crash) || Last(VerifyEnded) || Latest().VerifyStopped?
    {
      ghost var asked;
      var alive, version, enclave;
      alive, version, enclave, asked := AwaitAnswer(answers);
      if alive { Conclude(target, version, enclave); }
    }

    method Conclude(target: Program, version: string, enclave: string)
      requires Valid() && pc == Judge && local.target == target && local.seen == Report(version, enclave)
      modifies this, engine
      ensures Valid() && Grown() && pc == Idle
      ensures Last(Crash) || Last(VerifyEnded) || Latest().VerifyStopped?
    {
      var alive := Pause();
      if alive { PassVerdict(target, version, enclave); }
    }

    /** Query the new node, up to 61 times, with the world moving in between. */
    method AwaitAnswer(answers: nat -> bool) returns (alive: bool, version: string, enclave: string, ghost asked: nat)
      requires Valid() && pc == Verify
      modifies this, engine
      ensures Valid() && Grown() && pc == if alive then Judge else Idle
      ensures alive ==> local == old(local).(seen := Report(version, enclave))
      ensures alive ==> (Last(VerifyTimedOut) && asked == 61) || (asked < 61 && Latest().VerifyAnswered?)
      ensures !alive ==> Last(Crash)
    {
      var count, ok := 0, false;
      alive, version, enclave, asked := true, "", "", 0;
      while !ok && alive && count <= 60
        invariant Valid() && Grown() && asked == count <= 61
        invariant pc == if !alive then Idle else if ok then Judge else Verify
        invariant if alive then SeenIf(ok, old(local), version, enclave) else Last(Crash) && !ok
        invariant ok ==> count < 61 && Latest().VerifyAnswered?
        decreases alive && !ok, 61 - count
      {
        ok, version, enclave := AskNewNode(answers(count));
        if !ok {
          alive := Pause();
          count, asked := count + 1, asked + 1;
        }
      }
      if alive && !ok {
        NoAnswer();
      }
    }

    /** What has been noted so far of the new node's answer. */
    ghost predicate SeenIf(ok: bool, before: Local, version: string, enclave: string)
      reads this
    {
      if ok then local == before.(seen := Report(version, enclave)) else local == before && version == enclave == ""
    }

    method AskNewNode(through: bool) returns (ok: bool, version: string, enclave: string)
      requires Valid() && pc == Verify
      modifies this
      ensures Valid() && Grown() && pc == if ok then Judge else Verify
      ensures ok <==> through && old(SomeServing())
      ensures SeenIf(ok, old(local), version, enclave)
      ensures ok ==> Latest().VerifyAnswered?
    {
      var node;
      node, version, enclave := GetVersion(through);
      ok := node.Some?;
      if ok {
        ghost var s := View();
        pc, local := Judge, local.(seen := Report(version, enclave));
        SeenStep(w, s, node.value, View());
        Record(VerifyAnswered(node.value));
      }
    }

    method NoAnswer()
      requires Valid() && pc == Verify
      modifies this
      ensures Valid() && Grown() && pc == Judge && Last(VerifyTimedOut)
      ensures local == old(local).(seen := Report("", ""))
    {
      ghost var s := View();
      pc, local := Judge, local.(seen := Report("", ""));
      UnseenStep(w, s, View());
      Record(VerifyTimedOut);
    }

    /** A node that reports the target's version, but another enclave id, is stopped; one that
        reports both is kept, and the daemon restarts itself; any other is left alone. */
    method PassVerdict(target: Program, version: string, enclave: string)
      requires Valid() && pc == Judge && local.target == target && local.seen == Report(version, enclave)
      modifies this, engine
      ensures Valid() && Grown() && pc == Idle
      ensures version == target.version && enclave != target.enclave ==>
                && Latest().VerifyStopped?
                && (engine.faults == old(engine.faults) ==>
                      forall id :: Named(engine.containers, id, STORAGE) ==> !engine.containers[id].running)
      ensures version != target.version || enclave == target.enclave ==> engine.containers == old(engine.containers)
      ensures version == target.version && enclave == target.enclave ==> Last(Crash) && config == disk
      ensures version != target.version ==> Last(VerifyEnded) && config == old(config)
    {
      if version != target.version {
        LetBe();
      } else if enclave != target.enclave {
        HaltWrongNode();
      } else {
        LetBe();
        Die();  // the daemon restarts itself after a success
      }
    }

    method LetBe()
      requires Valid() && pc == Judge && !WrongEnclave(local)
      modifies this`pc, this`trace, this`events
      ensures Valid() && Grown() && pc == Idle && Last(VerifyEnded)
    {
      ghost var s := View();
      pc := Idle;
      AcceptStep(w, s, View());
      Record(VerifyEnded);
    }

    method HaltWrongNode()
      requires Valid() && pc == Judge && WrongEnclave(local)
      modifies this, engine
      ensures Valid() && Grown() && pc == Idle && Latest().VerifyStopped?
      ensures engine.faults == old(engine.faults) ==>
                forall id :: Named(engine.containers, id, STORAGE) ==> !engine.containers[id].running
    {
      ghost var s := View();
      var err := Stop(STORAGE);
      pc := Idle;
      MadeStep(w, s, VerifyStopped(err), engine.containers);
      StopStops(s.docker, STORAGE, engine.containers, err);
      assert View() == AfterEngine(s, VerifyStopped(err), engine.containers);
      Record(VerifyStopped(err));
    }

    // ------------------------------------------------ the sequence

    method Begin()
      requires Valid() && pc == Idle && cmdStart
      modifies this
      ensures Valid() && pc == Ensure && trace == old(trace) + [View()] && events == old(events) + [Tick]
    {
      ghost var s := View();
      pc := Ensure;
      assert PlainStep(w, s, Tick, View());
      Record(Tick);
    }

    method Choose(version: string, enclave: string, calls: Calls) returns (ok: bool, target: Program, tag: string)
      requires Valid() && pc == Decide && local.version == version && local.enclave == enclave
      modifies this, engine
      ensures Valid() && Grown() && pc == if ok then StopAssistant else Idle
      ensures ok ==> local.target == target && local.tag == tag
      ensures ok || Ended(calls)
    {
      tag := "";
      ok, target := SelectTarget(version, enclave, calls);
      if ok { ok := Pause(); }
      if ok { ok, tag := FetchImage(target, calls); }
    }

    /** Restart the assistant and wait until it has the key. */
    method Arm(ghost calls: Calls) returns (ok: bool)
      requires Valid() && pc == StopAssistant
      modifies this, engine
      ensures Valid() && Grown() && pc == if ok then StopNode else Idle
      ensures if ok then local == old(local) else Ended(calls)
    {
      HaltAssistant();
      ok := Pause();
      if ok { ok := Rearm(calls); }
    }

    method Rearm(ghost calls: Calls) returns (ok: bool)
      requires Valid() && pc == StartAssistant
      modifies this, engine
      ensures Valid() && Grown() && pc == if ok then StopNode else Idle
      ensures if ok then local == old(local) else Ended(calls)
    {
      LaunchAssistant();
      ghost var replies;
      ok, replies := AwaitAssistantKey();
    }

    /** Replace the container. */
    method Replace(tag: string, ghost calls: Calls) returns (ok: bool)
      requires Valid() && pc == StopNode && local.tag == tag
      modifies this, engine
      ensures Valid() && Grown() && pc == if ok then StartNode else Idle
      ensures if ok then local == old(local) else Excused(calls)
    {
      HaltOldNode();
      ok := Pause();
      if ok { ok := ClearWay(tag, calls); }
    }

    method ClearWay(tag: string, ghost calls: Calls) returns (ok: bool)
      requires Valid() && pc == RemoveNode && local.tag == tag
      modifies this, engine
      ensures Valid() && Grown() && pc == if ok then StartNode else Idle
      ensures if ok then local == old(local) else Excused(calls)
    {
      ok := RemoveOldNode(tag);
      if ok { ok := Pause(); }
    }

    /** Start the new one and wait until the key has moved. */
    method BringUp(calls: Calls) returns (ok: bool)
      requires Valid() && pc == StartNode
      modifies this, engine
      ensures Valid() && Grown() && pc == if ok then Retire else Idle
      ensures if ok then local == old(local) else Excused(calls)
    {
      ok := StartNewNode(calls);
      if ok {
        ghost var replies;
        ok, replies := AwaitNodeKey(calls.lifetime);
      }
    }

    /** Retire the assistant, save the configuration, look at what came up. */
    method Finish(target: Program, calls: Calls)
      requires Valid() && pc == Retire && local.target == target
      modifies this, engine
      ensures Valid() && Grown() && pc == Idle && Ended(calls)
    {
      var ok := Pause();
      if ok { FinishFromRetirement(target, calls); }
    }

    method FinishFromRetirement(target: Program, calls: Calls)
      requires Valid() && pc == Retire && local.target == target
      modifies this, engine
      ensures Valid() && Grown() && pc == Idle && Ended(calls)
    {
      RetireAssistant();
      var ok := Pause();
      if ok { FinishFromSave(target, calls); }
    }

    method FinishFromSave(target: Program, calls: Calls)
      requires Valid() && pc == Save && local.target == target
      modifies this, engine
      ensures Valid() && Grown() && pc == Idle && Ended(calls)
    {
      var ok := SaveConfig(calls.save);
      if ok { ok := Pause(); }
      if ok { VerifyNewNode(target, calls.verify); }
    }

    // The body of upgradeDeal, one call and what follows it at a time.

    method Attempt(calls: Calls)
      requires Valid() && pc == Ensure
      modifies this, engine
      ensures Valid() && Grown() && pc == Idle && Excused(calls)
    {
      var ok := Pause();
      if ok { ok := EnsureNode(calls); }
      if ok { AttemptFromQuery(calls); }
    }

    method AttemptFromQuery(calls: Calls)
      requires Valid() && pc == Query
      modifies this, engine
      ensures Valid() && Grown() && pc == Idle && Excused(calls)
    {
      var version, enclave;
      var ok := Pause();
      if ok {
        ok, version, enclave := QueryNode(calls);
        if ok { AttemptFromDecision(version, enclave, calls); }
      }
    }

    method AttemptFromDecision(version: string, enclave: string, calls: Calls)
      requires Valid() && pc == Decide && local.version == version && local.enclave == enclave
      modifies this, engine
      ensures Valid() && Grown() && pc == Idle && Excused(calls)
    {
      var ok := Pause();
      if ok {
        var target, tag;
        ok, target, tag := Choose(version, enclave, calls);
        if ok { AttemptFromImage(target, tag, calls); }
      }
    }

    method AttemptFromImage(target: Program, tag: string, calls: Calls)
      requires Valid() && pc == StopAssistant && local.target == target && local.tag == tag
      modifies this, engine
      ensures Valid() && Grown() && pc == Idle && Excused(calls)
    {
      var ok := Pause();
      if ok { ok := Arm(calls); }
      if ok { AttemptFromKey(target, tag, calls); }
    }

    method AttemptFromKey(target: Program, tag: string, calls: Calls)
      requires Valid() && pc == StopNode && local.target == target && local.tag == tag
      modifies this, engine
      ensures Valid() && Grown() && pc == Idle && Excused(calls)
    {
      var ok := Pause();
      if ok { ok := Replace(tag, calls); }
      if ok { AttemptFromRemoval(target, calls); }
    }

    method AttemptFromRemoval(target: Program, calls: Calls)
      requires Valid() && pc == StartNode && local.target == target
      modifies this, engine
      ensures Valid() && Grown() && pc == Idle && Excused(calls)
    {
      var ok := BringUp(calls);
      if ok { Finish(target, calls); }
    }

    /**
     upgradeDeal on an SGX2 machine.  Every state it passes through belongs to a run of
     the machine that began with the clean install this object was made as; and once
     somebody has the key somebody always has it, provided the first stops of the
     assistant did their work; which they did if no call to the engine ever failed.
     */
    method UpgradeDeal(calls: Calls)
      requires Valid() && pc == Idle && cmdStart
      modifies this, engine
      ensures Excused(calls)
      ensures Valid() && Grown() && pc == Idle && |events| > |old(events)| && events[|old(events)|] == Tick
      ensures CleanInstall(w, origin) && (engine.faults == 0 || StopsEffective(trace, events)) ==> CustodyKept(trace)
      ensures old(Custody(View())) && (engine.faults == 0 || StopsEffective(trace, events)) ==>
                forall k :: |old(trace)| <= k < |trace| ==> Custody(trace[k])
    {
      ghost var t0, es0, s := trace, events, View();
      Begin();
      ghost var es1 := events;
      Attempt(calls);
      assert events[|es0|] == es1[|es0|];
      if engine.faults == 0 || StopsEffective(trace, events) {
        if CleanInstall(w, origin) {
          CustodyFromInstall(w, trace, events);
        }
        if Custody(s) {
          CustodyThroughout(w, t0, trace, events);
        }
      }
    }

    /** One tick of daemonCommandDeal: no upgrade unless the node was started on command. */
    method DaemonTick(calls: Calls)
      requires Valid() && pc == Idle
      modifies this, engine
      ensures Valid() && Grown() && pc == Idle
      ensures old(cmdStart) ==> |events| > |old(events)| && events[|old(events)|] == Tick
      ensures !old(cmdStart) ==> View() == old(View()) && trace == old(trace)
    {
      if cmdStart {
        UpgradeDeal(calls);
      }
    }
  }

  /** From an idle state in which somebody holds the key. */
  lemma CustodyThroughout(w: World, t0: seq<State>, t: seq<State>, es: seq<Event>)
    requires Run(w, t, es) && StopsEffective(t, es) && 0 < |t0| && t0 <= t
    requires var s := t0[|t0| - 1]; Base(w, s) && s.pc == Idle && Custody(s)
    ensures forall k :: |t0| <= k < |t| ==> Custody(t[k])
  {
    assert t[|t0| - 1] == t0[|t0| - 1];
    forall k | |t0| <= k < |t| ensures Custody(t[k]) {
      RunKeepsKey(w, t, es, |t0| - 1, k);
    }
  }
}
