/** What the upgrade installs and what it writes to disk, over every run. */
module UpgradeVersions {
  import opened Prelude
  import opened Docker
  import opened Committee
  import opened Upgrade
  import opened UpgradeCustody

  // ---------------------------------------------------------------- guarded installation

  predicate Early(pc: Pc) {
    pc in {Idle, Ensure, Query, Decide}
  }

  predicate Fetching(pc: Pc) {
    Early(pc) || pc == Fetch
  }

  /** The target of an attempt past its checks. */
  ghost predicate Guarded(w: World, s: State) {
    && (!Early(s.pc) ==>
          && Vouched(w.authority, s.local.vouchers, s.local.target.enclave)
          && Below(w, s.local.version, s.local.target.version)
          && NotAbove(w, s.local.chainVersion, s.local.target.version))
    && (!Fetching(s.pc) ==> s.local.tag in {s.local.target.origin, s.local.target.mirror})
  }

  lemma EngineKeepsLocal(s: State, e: Event, m: Containers)
    requires EngineEvent(e) && EngineEnabled(s, e)
    ensures var s' := AfterEngine(s, e, m); s'.local == s.local && (Early(s.pc) ==> Early(s'.pc)) && (Fetching(s.pc) ==> Fetching(s'.pc))
  {
  }

  lemma StepKeepsGuard(w: World, s: State, e: Event, s': State)
    requires Guarded(w, s) && StepBy(w, s, e, s')
    ensures Guarded(w, s')
  {
    if EngineEvent(e) {
      EngineKeepsLocal(s, e, s'.docker);
    } else {
      PlainKeepsGuard(w, s, e, s');
    }
  }

  lemma PlainKeepsGuard(w: World, s: State, e: Event, s': State)
    requires Guarded(w, s) && !EngineEvent(e) && PlainStep(w, s, e, s')
    ensures Guarded(w, s')
  {
  }

  /**
   Guarded installation.  From the fetch to the end of an attempt, in every run: the
   target's enclave id has an entry, on the chain at the time of the check, that verifies
   under the committee key; its version is strictly above the one the node reported in
   this attempt and not below the chain's; and what is installed is one of its two images.
   */
  lemma GuardedInstallation(w: World, t: seq<State>, es: seq<Event>, k: nat)
    requires Run(w, t, es) && t[0].pc == Idle && k < |t|
    ensures t[k].pc !in {Idle, Ensure, Query, Decide} ==>
              var committee, entries, enclave := w.authority, t[k].local.vouchers, t[k].local.target.enclave;
              exists i :: && 0 <= i < |entries| && entries[i].enclaveId == enclave
                          && committee.decode(entries[i].signature).Some?
                          && committee.verify(enclave, committee.decode(entries[i].signature).value) == Some(true)
    ensures t[k].pc !in {Idle, Ensure, Query, Decide} ==>
              var reported, chain := w.rank(t[k].local.version), w.rank(t[k].local.chainVersion);
              var target := w.rank(t[k].local.target.version);
              && reported.Some? && chain.Some? && target.Some?
              && reported.value < target.value && chain.value <= target.value
    ensures t[k].pc !in {Idle, Ensure, Query, Decide, Fetch} ==>
              t[k].local.tag == t[k].local.target.origin || t[k].local.tag == t[k].local.target.mirror
  {
    RunKeepsGuard(w, t, es, k);
    VouchedMeans(w.authority, t[k].local.vouchers, t[k].local.target.enclave);
  }

  lemma {:induction false} RunKeepsGuard(w: World, t: seq<State>, es: seq<Event>, k: nat)
    requires Run(w, t, es) && t[0].pc == Idle && k < |t|
    ensures Guarded(w, t[k])
  {
    if k > 0 {
      RunKeepsGuard(w, t, es, k - 1);
      assert StepBy(w, t[k - 1], es[k - 1], t[k]);
      StepKeepsGuard(w, t[k - 1], es[k - 1], t[k]);
    }
  }

  // ---------------------------------------------------------------- persisted version

  function Installs(w: World, c: Config): string {
    w.versionOf(c.nodeImage)
  }

  /** Both images of a release report the release's version. */
  predicate Honest(w: World, p: Program) {
    w.versionOf(p.origin) == p.version && w.versionOf(p.mirror) == p.version
  }

  predicate Attempting(pc: Pc) {
    !Early(pc) && pc !in {StartNode, AwaitNode, Retire, Save, Verify, Judge}
  }

  predicate Installing(pc: Pc) {
    pc in {StartNode, AwaitNode, Retire, Save}
  }

  ghost predicate ReportedByHolder(w: World, s: State) {
    exists id :: Named(s.docker, id, STORAGE) && w.versionOf(s.docker[id].image) == s.local.version
  }

  ghost predicate HolderIsConfigured(s: State) {
    exists id :: Named(s.docker, id, STORAGE) && s.docker[id].image == s.config.nodeImage
  }

  ghost predicate PersistedNotAboveInstalled(w: World, s: State) {
    forall id :: Named(s.docker, id, STORAGE) ==> NotAbove(w, Installs(w, s.disk), w.versionOf(s.docker[id].image))
  }

  ghost predicate VersionInv(w: World, s: State) {
    && PersistedNotAboveInstalled(w, s)
    && VersionsAt(w, s.pc, s.disk, s.config, s.local)
    && (Attempting(s.pc) || s.pc == Decide ==> ReportedByHolder(w, s))
    && (Installing(s.pc) && s.pc != StartNode ==> HolderIsConfigured(s))
  }

  predicate VersionsAt(w: World, pc: Pc, disk: Config, config: Config, local: Local) {
    && NotAbove(w, Installs(w, disk), Installs(w, config))
    && (Attempting(pc) ==> Below(w, local.version, local.target.version) && Honest(w, local.target))
    && (Attempting(pc) && pc != Fetch ==> local.tag in {local.target.origin, local.target.mirror})
    && (Installing(pc) ==> Below(w, Installs(w, disk), Installs(w, config)))
  }

  /** Releases are honest wherever the daemon may take its target from. */
  predicate HonestSources(w: World, s: State) {
    Honest(w, s.chain.program) && (ManualSet(s.config.newVersion) ==> Honest(w, s.config.newVersion))
  }

  /** Another process that saves its copy of the configuration does not undo an upgrade
      saved since it read it. */
  predicate NoLostUpdate(s: State, e: Event, s': State) {
    e.CliSave? ==> s'.disk.nodeImage == s.disk.nodeImage
  }

  lemma StorageHolders(w: World, s: State, e: Event, m: Containers)
    requires Base(w, s) && StorageEvent(e) && EngineRel(w, s, e, m)
    ensures forall id :: Named(s.docker, id, STORAGE) ==> Named(m, id, STORAGE) && m[id].image == s.docker[id].image
    ensures var image := if e.CliStart? then s.disk.nodeImage else s.config.nodeImage;
            forall id :: Named(m, id, STORAGE) ==>
              || (Named(s.docker, id, STORAGE) && m[id].image == s.docker[id].image)
              || m[id].image == image
    ensures e == NodeStarted(None) ==> exists id :: Named(m, id, STORAGE) && m[id].image == s.config.nodeImage
  {
    var image := StorageGrows(w, s, e, m);
    forall id: Id ensures Named(m, id, STORAGE) <==> Named(s.docker, id, STORAGE) || (id in m && id !in s.docker) {
      GrowsNames(s.docker, m, STORAGE, image, id, STORAGE);
    }
    if e == NodeStarted(None) {
      StartGrows(s.docker, STORAGE, false, image, NODE_ARGS, m, None);
    }
  }

  lemma AssistantHolders(w: World, s: State, e: Event, m: Containers)
    requires Base(w, s) && AssistantEvent(e) && EngineRel(w, s, e, m)
    ensures forall id :: Named(s.docker, id, STORAGE) <==> Named(m, id, STORAGE)
    ensures forall id :: Named(m, id, STORAGE) && id in s.docker ==> m[id].image == s.docker[id].image
  {
    if e.AssistLaunched? || e.AssistantStarted? {
      AssistantStart(w, s, m, e.err);
    } else {
      AssistantStop(w, s, m, e.err);
    }
    NamesDiffer();
    forall id: Id ensures Named(m, id, STORAGE) <==> Named(s.docker, id, STORAGE) {
      GrowsNames(s.docker, m, ASSISTANT, w.upgradeImage, id, STORAGE);
    }
  }

  lemma StorageKeepsVersions(w: World, s: State, e: Event, m: Containers)
    requires Base(w, s) && VersionInv(w, s) && StorageEvent(e) && EngineEnabled(s, e) && EngineRel(w, s, e, m)
    ensures VersionInv(w, AfterEngine(s, e, m))
  {
    StorageHolders(w, s, e, m);
    HoldersKeepVersions(w, s, e, m);
  }

  lemma HoldersKeepVersions(w: World, s: State, e: Event, m: Containers)
    requires VersionInv(w, s) && (StorageEvent(e) || AssistantEvent(e)) && EngineEnabled(s, e)
    requires HoldersStay(s.docker, m)
    requires forall id :: Named(m, id, STORAGE) ==>
               || (Named(s.docker, id, STORAGE) && m[id].image == s.docker[id].image)
               || m[id].image in {s.disk.nodeImage, s.config.nodeImage}
    requires e == NodeStarted(None) ==> exists id :: Named(m, id, STORAGE) && m[id].image == s.config.nodeImage
    ensures VersionInv(w, AfterEngine(s, e, m))
  {
    var s' := AfterEngine(s, e, m);
    EngineKeepsData(s, e, m);
    HoldersKeepBound(w, s, s');
    HoldersKeepReport(w, s, s');
    StageKeepsVersions(w, s, s');
  }

  /** Every holder of the name stays, with its image. */
  ghost predicate HoldersStay(m: Containers, m': Containers) {
    forall id :: Named(m, id, STORAGE) ==> Named(m', id, STORAGE) && m'[id].image == m[id].image
  }

  lemma HoldersKeepBound(w: World, s: State, s': State)
    requires PersistedNotAboveInstalled(w, s) && NotAbove(w, Installs(w, s.disk), Installs(w, s.config))
    requires s'.disk == s.disk
    requires forall id :: Named(s'.docker, id, STORAGE) ==>
               || (Named(s.docker, id, STORAGE) && s'.docker[id].image == s.docker[id].image)
               || s'.docker[id].image in {s.disk.nodeImage, s.config.nodeImage}
    ensures PersistedNotAboveInstalled(w, s')
  {
  }

  lemma HoldersKeepReport(w: World, s: State, s': State)
    requires HoldersStay(s.docker, s'.docker) && s'.config == s.config && s'.local == s.local
    ensures ReportedByHolder(w, s) ==> ReportedByHolder(w, s')
    ensures HolderIsConfigured(s) ==> HolderIsConfigured(s')
  {
  }

  lemma StageKeepsVersions(w: World, s: State, s': State)
    requires VersionInv(w, s) && PersistedNotAboveInstalled(w, s')
    requires s'.disk == s.disk && s'.config == s.config && s'.local == s.local && StageMove(s.pc, s'.pc)
    requires ReportedByHolder(w, s) ==> ReportedByHolder(w, s')
    requires HolderIsConfigured(s) || (s.pc == StartNode && s'.pc == AwaitNode) ==> HolderIsConfigured(s')
    ensures VersionInv(w, s')
  {
  }

  lemma EngineKeepsData(s: State, e: Event, m: Containers)
    requires (StorageEvent(e) || AssistantEvent(e)) && EngineEnabled(s, e)
    ensures var s' := AfterEngine(s, e, m);
            && s'.docker == m && s'.disk == s.disk && s'.config == s.config && s'.local == s.local
            && StageMove(s.pc, s'.pc) && (s.pc == StartNode && s'.pc == AwaitNode ==> e == NodeStarted(None))
  {
  }

  /** Where the starts and stops lead. */
  predicate StageMove(pc: Pc, pc': Pc) {
    || pc' == pc || pc' == Idle
    || (pc == Ensure && pc' == Query)
    || (pc == StopAssistant && pc' == StartAssistant)
    || (pc == StartAssistant && pc' == AwaitAssistant)
    || (pc == StopNode && pc' == RemoveNode)
    || (pc == StartNode && pc' == AwaitNode)
    || (pc == Retire && pc' == Save)
  }

  lemma RemovalKeepsVersions(w: World, s: State, e: Event, m: Containers)
    requires Base(w, s) && VersionInv(w, s) && e.NodeRemoved? && EngineEnabled(s, e) && EngineRel(w, s, e, m)
    ensures VersionInv(w, AfterEngine(s, e, m))
  {
    NodeRemoval(w, s, m, e.err);
    RemovedKeepsVersions(w, s, e.err, m);
  }

  lemma RemovedKeepsVersions(w: World, s: State, err: Err, m: Containers)
    requires VersionInv(w, s) && s.pc == RemoveNode
    requires forall id :: Named(m, id, STORAGE) ==> Named(s.docker, id, STORAGE) && m[id].image == s.docker[id].image
    ensures VersionInv(w, AfterEngine(s, NodeRemoved(err), m))
  {
    var s' := AfterEngine(s, NodeRemoved(err), m);
    assert s'.docker == m && s'.disk == s.disk && s'.local == s.local;
    assert PersistedNotAboveInstalled(w, s');
    var id :| Named(s.docker, id, STORAGE) && w.versionOf(s.docker[id].image) == s.local.version;
    assert NotAbove(w, Installs(w, s.disk), s.local.version);
  }

  lemma PlainKeepsVersions(w: World, s: State, e: Event, s': State)
    requires WellNamed(s.docker) && VersionInv(w, s) && !EngineEvent(e) && PlainStep(w, s, e, s')
    requires HonestSources(w, s) && NoLostUpdate(s, e, s')
    ensures VersionInv(w, s')
  {
    if e.QueryAnswered? {
      QueryKeepsVersions(w, s, e.node, s');
    } else if e.Decided? {
      DecisionKeepsVersions(w, s, e.manualOk, e.checkOk, s');
    } else if e.Saved? {
      SaveKeepsVersions(w, s, s');
    } else if e.Crash? {
      CrashKeepsVersions(w, s, s');
    } else {
      OtherKeepsVersions(w, s, e, s');
    }
  }

  lemma CrashKeepsVersions(w: World, s: State, s': State)
    requires VersionInv(w, s) && PlainStep(w, s, Crash, s')
    ensures VersionInv(w, s')
  {
  }

  lemma QueryKeepsVersions(w: World, s: State, node: Id, s': State)
    requires VersionInv(w, s) && PlainStep(w, s, QueryAnswered(node), s')
    ensures VersionInv(w, s')
  {
    assert Named(s'.docker, node, STORAGE) && w.versionOf(s'.docker[node].image) == s'.local.version;
    assert ReportedByHolder(w, s');
  }

  lemma DecisionKeepsVersions(w: World, s: State, manualOk: bool, checkOk: bool, s': State)
    requires VersionInv(w, s) && PlainStep(w, s, Decided(manualOk, checkOk), s') && HonestSources(w, s)
    ensures VersionInv(w, s')
  {
    assert ReportedByHolder(w, s) ==> ReportedByHolder(w, s');
    assert Honest(w, Target(w, s.config, s.chain, manualOk));
  }

  lemma OtherKeepsVersions(w: World, s: State, e: Event, s': State)
    requires VersionInv(w, s) && !EngineEvent(e) && PlainStep(w, s, e, s') && NoLostUpdate(s, e, s')
    requires !e.QueryAnswered? && !e.Decided? && !e.Saved? && !e.Crash?
    ensures VersionInv(w, s')
  {
    PlainKeepsData(w, s, e, s');
    DataKeepsVersions(w, s, s');
  }

  lemma DataKeepsVersions(w: World, s: State, s': State)
    requires VersionInv(w, s) && SameData(s, s')
    ensures VersionInv(w, s')
  {
    assert ReportedByHolder(w, s) ==> ReportedByHolder(w, s');
    assert HolderIsConfigured(s) ==> HolderIsConfigured(s');
  }

  lemma PlainKeepsData(w: World, s: State, e: Event, s': State)
    requires !EngineEvent(e) && PlainStep(w, s, e, s') && NoLostUpdate(s, e, s')
    requires !e.QueryAnswered? && !e.Decided? && !e.Saved? && !e.Crash?
    ensures SameData(s, s')
  {
  }

  /** What most steps leave alone, and where they may lead. */
  ghost predicate SameData(s: State, s': State) {
    && s'.docker == s.docker && s'.disk.nodeImage == s.disk.nodeImage && s'.config == s.config
    && s'.local.version == s.local.version && s'.local.target == s.local.target
    && (s'.local.tag == s.local.tag || s'.pc == StopAssistant)
    && (s'.pc == StopAssistant && s.pc != StopAssistant ==> s'.local.tag in {s.local.target.origin, s.local.target.mirror})
    && (s'.pc == StopAssistant && s.pc == StopAssistant ==> s'.local.tag == s.local.tag)
    && (|| s'.pc == s.pc
        || (Early(s'.pc) && s'.pc != Decide)
        || (s.pc == Fetch && s'.pc == StopAssistant)
        || (s.pc == AwaitAssistant && s'.pc == StopNode)
        || (s.pc == AwaitNode && s'.pc == Retire)
        || s'.pc in {Verify, Judge})
  }

  /** At the save the one storage container has the image that is being saved. */
  lemma SaveKeepsVersions(w: World, s: State, s': State)
    requires WellNamed(s.docker) && VersionInv(w, s) && PlainStep(w, s, Saved, s')
    ensures VersionInv(w, s')
  {
    var holder: Id :| Named(s.docker, holder, STORAGE) && s.docker[holder].image == s.config.nodeImage;
    forall id: Id | Named(s.docker, id, STORAGE) ensures id == holder {
      assert "/" + STORAGE in s.docker[id].names && "/" + STORAGE in s.docker[holder].names;
    }
  }

  lemma StepKeepsVersions(w: World, s: State, e: Event, s': State)
    requires Base(w, s) && VersionInv(w, s) && StepBy(w, s, e, s')
    requires HonestSources(w, s) && NoLostUpdate(s, e, s')
    ensures VersionInv(w, s')
  {
    if StorageEvent(e) {
      StorageKeepsVersions(w, s, e, s'.docker);
    } else if AssistantEvent(e) {
      AssistantHolders(w, s, e, s'.docker);
      HoldersKeepVersions(w, s, e, s'.docker);
    } else if e.NodeRemoved? {
      RemovalKeepsVersions(w, s, e, s'.docker);
    } else {
      PlainKeepsVersions(w, s, e, s');
    }
  }

  /** Who writes the file, and what. */
  predicate DiskMoves(s: State, e: Event, s': State) {
    && (e == Saved ==> s.pc == Save && s'.disk == s.config)
    && (e.CliSave? ==> e.process in s.copies && s'.disk == s.copies[e.process])
    && (e != Saved && !e.CliSave? ==> s'.disk.nodeImage == s.disk.nodeImage)
    && s'.copies == if e.CliRead? then s.copies[e.process := s.disk] else s.copies
  }

  lemma StepMovesDisk(w: World, s: State, e: Event, s': State)
    requires StepBy(w, s, e, s')
    ensures DiskMoves(s, e, s')
  {
    if EngineEvent(e) {
      EngineMoves(s, e, s'.docker);
    } else {
      PlainMovesDisk(w, s, e, s');
    }
  }

  lemma PlainMovesDisk(w: World, s: State, e: Event, s': State)
    requires !EngineEvent(e) && PlainStep(w, s, e, s')
    ensures DiskMoves(s, e, s')
  {
  }

  /** The persisted image only ever rises, and strictly at a save. */
  lemma PersistedRises(w: World, s: State, e: Event, s': State)
    requires VersionInv(w, s) && DiskMoves(s, e, s') && NoLostUpdate(s, e, s')
    ensures NotAbove(w, Installs(w, s.disk), Installs(w, s'.disk))
    ensures e == Saved ==> Below(w, Installs(w, s.disk), Installs(w, s'.disk))
    ensures e != Saved ==> s'.disk.nodeImage == s.disk.nodeImage
  {
  }

  // ---------------------------------------------------------------- other processes

  /** The daemon has saved since process `p` last read the configuration. */
  ghost predicate Overtaken(es: seq<Event>, k: nat, p: nat)
    requires k <= |es|
  {
    exists m :: 0 <= m < k && es[m] == Saved && forall j :: m < j < k ==> es[j] != CliRead(p)
  }

  /** None of the first `n` events writes back a copy that has been overtaken. */
  ghost predicate InOrder(es: seq<Event>, n: nat)
    requires n <= |es|
  {
    forall k {:trigger es[k]} :: 0 <= k < n && es[k].CliSave? ==> !Overtaken(es, k, es[k].process)
  }

  lemma OvertakenNext(es: seq<Event>, k: nat, p: nat)
    requires k < |es|
    ensures Overtaken(es, k + 1, p) <==> es[k] == Saved || (Overtaken(es, k, p) && es[k] != CliRead(p))
  {
    if Overtaken(es, k + 1, p) && es[k] != Saved {
      var m :| 0 <= m < k + 1 && es[m] == Saved && forall j :: m < j < k + 1 ==> es[j] != CliRead(p);
      assert m < k;
    }
    if Overtaken(es, k, p) && es[k] != CliRead(p) {
      var m :| 0 <= m < k && es[m] == Saved && forall j :: m < j < k ==> es[j] != CliRead(p);
      assert forall j :: m < j < k + 1 ==> es[j] != CliRead(p);
    }
  }

  /** A copy that has not been overtaken means the image on disk; one that has, an older. */
  ghost predicate CopyInv(w: World, s: State, p: nat, overtaken: bool) {
    p in s.copies ==>
      if overtaken then Below(w, Installs(w, s.copies[p]), Installs(w, s.disk))
      else s.copies[p].nodeImage == s.disk.nodeImage
  }

  lemma StepKeepsCopy(w: World, s: State, e: Event, s': State, p: nat, overtaken: bool)
    requires VersionInv(w, s) && DiskMoves(s, e, s') && NoLostUpdate(s, e, s') && CopyInv(w, s, p, overtaken)
    ensures CopyInv(w, s', p, e == Saved || (overtaken && e != CliRead(p)))
  {
  }

  // ---------------------------------------------------------------- whole runs

  /** Releases are honest all along. */
  ghost predicate HonestRun(w: World, t: seq<State>, es: seq<Event>) {
    && Run(w, t, es) && InitialVersions(w, t[0])
    && forall k {:trigger es[k]} :: 0 <= k < |es| ==> HonestSources(w, t[k])
  }

  ghost predicate InitialVersions(w: World, s: State) {
    && Base(w, s) && s.pc == Idle && s.config == s.disk
    && w.rank(Installs(w, s.disk)).Some? && PersistedNotAboveInstalled(w, s)
    && forall p :: CopyInv(w, s, p, false)
  }

  /** The state after `k` events: versions are in order, and so is every copy. */
  ghost predicate Sound(w: World, t: seq<State>, es: seq<Event>, k: nat)
    requires k <= |es| && |t| == |es| + 1
  {
    Base(w, t[k]) && VersionInv(w, t[k]) && CopiesInv(w, t[k], es, k)
  }

  ghost predicate CopiesInv(w: World, s: State, es: seq<Event>, k: nat)
    requires k <= |es|
  {
    forall p :: CopyInv(w, s, p, Overtaken(es, k, p))
  }

  lemma RunKeepsSound(w: World, t: seq<State>, es: seq<Event>, k: nat)
    requires HonestRun(w, t, es) && k <= |es| && InOrder(es, k)
    ensures Sound(w, t, es, k)
  {
    InitialIsFine(w, t, es);
    forall i | 0 <= i < k && Sound(w, t, es, i) ensures Sound(w, t, es, i + 1) {
      SoundAt(w, t, es, i);
    }
    SoundThroughout(w, t, es, k);
  }

  lemma {:induction false} SoundThroughout(w: World, t: seq<State>, es: seq<Event>, k: nat)
    requires k <= |es| && |t| == |es| + 1 && Sound(w, t, es, 0)
    requires forall i :: 0 <= i < k && Sound(w, t, es, i) ==> Sound(w, t, es, i + 1)
    ensures Sound(w, t, es, k)
  {
    if k > 0 {
      SoundThroughout(w, t, es, k - 1);
    }
  }

  lemma InitialIsFine(w: World, t: seq<State>, es: seq<Event>)
    requires |t| == |es| + 1 && InitialVersions(w, t[0])
    ensures Sound(w, t, es, 0)
  {
    assert forall p :: !Overtaken(es, 0, p);
  }

  /** A write in order is none that undoes an upgrade. */
  lemma InOrderKeepsUpdate(w: World, t: seq<State>, es: seq<Event>, k: nat)
    requires |t| == |es| + 1 && k < |es| && Sound(w, t, es, k) && DiskMoves(t[k], es[k], t[k + 1])
    requires es[k].CliSave? ==> !Overtaken(es, k, es[k].process)
    ensures NoLostUpdate(t[k], es[k], t[k + 1])
  {
    if es[k].CliSave? {
      assert CopyInv(w, t[k], es[k].process, Overtaken(es, k, es[k].process));
    }
  }

  lemma CopiesAt(w: World, s: State, s': State, es: seq<Event>, k: nat)
    requires k < |es| && VersionInv(w, s) && CopiesInv(w, s, es, k) && DiskMoves(s, es[k], s') && NoLostUpdate(s, es[k], s')
    ensures CopiesInv(w, s', es, k + 1)
  {
    var next := k + 1;
    forall p: nat ensures CopyInv(w, s', p, Overtaken(es, next, p)) {
      OvertakenNext(es, k, p);
      StepKeepsCopy(w, s, es[k], s', p, Overtaken(es, k, p));
    }
  }

  lemma StepAt(w: World, t: seq<State>, es: seq<Event>, k: nat)
    requires HonestRun(w, t, es) && k < |es|
    ensures StepBy(w, t[k], es[k], t[k + 1]) && HonestSources(w, t[k]) && DiskMoves(t[k], es[k], t[k + 1])
  {
    assert StepBy(w, t[k], es[k], t[k + 1]) && HonestSources(w, t[k]);
    StepMovesDisk(w, t[k], es[k], t[k + 1]);
  }

  lemma SoundAt(w: World, t: seq<State>, es: seq<Event>, k: nat)
    requires HonestRun(w, t, es) && k < |es| && Sound(w, t, es, k)
    requires es[k].CliSave? ==> !Overtaken(es, k, es[k].process)
    ensures Sound(w, t, es, k + 1) && RisesAt(w, t, es, k)
  {
    StepAt(w, t, es, k);
    InOrderKeepsUpdate(w, t, es, k);
    CopiesAt(w, t[k], t[k + 1], es, k);
    StepKeepsBase(w, t[k], es[k], t[k + 1]);
    StepKeepsVersions(w, t[k], es[k], t[k + 1]);
    PersistedRises(w, t[k], es[k], t[k + 1]);
  }

  /** From one state to the next the disk does not get older, and newer at a save. */
  predicate RisesAt(w: World, t: seq<State>, es: seq<Event>, i: nat)
    requires |t| == |es| + 1 && i < |es|
  {
    && NotAbove(w, Installs(w, t[i].disk), Installs(w, t[i + 1].disk))
    && (es[i] == Saved ==> Below(w, Installs(w, t[i].disk), Installs(w, t[i + 1].disk)))
  }

  lemma {:induction false} Rising(w: World, t: seq<State>, es: seq<Event>, j: nat, k: nat)
    requires |t| == |es| + 1 && j <= k < |t|
    requires w.rank(Installs(w, t[j].disk)).Some?
    requires forall i :: j <= i < k ==> RisesAt(w, t, es, i)
    ensures NotAbove(w, Installs(w, t[j].disk), Installs(w, t[k].disk))
    ensures (exists i :: j <= i < k && es[i] == Saved) ==> Below(w, Installs(w, t[j].disk), Installs(w, t[k].disk))
  {
    if j < k {
      Rising(w, t, es, j, k - 1);
      assert RisesAt(w, t, es, k - 1);
    }
  }

  lemma RisesInOrder(w: World, t: seq<State>, es: seq<Event>, k: nat)
    requires HonestRun(w, t, es) && k < |es| && InOrder(es, k + 1)
    ensures RisesAt(w, t, es, k)
  {
    RunKeepsSound(w, t, es, k);
    SoundAt(w, t, es, k);
  }

  /**
   Persisted version.  Across any number of attempts, failures, crashes and restarts, and
   whatever another process reads and writes back in between as long as the daemon has
   not saved meanwhile: the image written to disk never reports more than the existing
   storage container's; what is on disk never gets older; every save makes it strictly
   newer.
   */
  lemma PersistedVersionMonotone(w: World, t: seq<State>, es: seq<Event>, j: nat, k: nat)
    requires HonestRun(w, t, es) && j <= k <= |es| && InOrder(es, k)
    ensures PersistedNotAboveInstalled(w, t[k])
    ensures NotAbove(w, Installs(w, t[j].disk), Installs(w, t[k].disk))
    ensures (exists i :: j <= i < k && es[i] == Saved) ==> Below(w, Installs(w, t[j].disk), Installs(w, t[k].disk))
  {
    RunKeepsSound(w, t, es, j);
    RunKeepsSound(w, t, es, k);
    forall i | j <= i < k ensures RisesAt(w, t, es, i) {
      RisesInOrder(w, t, es, i);
    }
    Rising(w, t, es, j, k);
  }

  /**
   The first copy written back out of order: exactly when the daemon has saved since its
   process read it does writing it back lower the version on disk; otherwise it leaves the
   image on disk as it is.
   */
  lemma StaleSaveLowersIff(w: World, t: seq<State>, es: seq<Event>, k: nat, p: nat)
    requires HonestRun(w, t, es) && k < |es| && es[k] == CliSave(p) && InOrder(es, k)
    ensures Below(w, Installs(w, t[k + 1].disk), Installs(w, t[k].disk)) <==> Overtaken(es, k, p)
    ensures !Overtaken(es, k, p) ==> t[k + 1].disk.nodeImage == t[k].disk.nodeImage
  {
    RunKeepsSound(w, t, es, k);
    StepAt(w, t, es, k);
    assert CopyInv(w, t[k], p, Overtaken(es, k, p));
  }

  /** So a run never lowers it if and only if no copy is written back after a save of the
      daemon that it missed. */
  lemma NeverLoweredIff(w: World, t: seq<State>, es: seq<Event>)
    requires HonestRun(w, t, es)
    ensures (forall k {:trigger es[k]} :: 0 <= k < |es| ==> NotAbove(w, Installs(w, t[k].disk), Installs(w, t[k + 1].disk)))
       <==> InOrder(es, |es|)
  {
    if InOrder(es, |es|) {
      forall k | 0 <= k < |es| ensures NotAbove(w, Installs(w, t[k].disk), Installs(w, t[k + 1].disk)) {
        RisesInOrder(w, t, es, k);
      }
    } else {
      var k := FirstStale(es, |es|);
      StaleSaveLowersIff(w, t, es, k, es[k].process);
    }
  }

  lemma {:induction false} FirstStale(es: seq<Event>, n: nat) returns (k: nat)
    requires n <= |es| && !InOrder(es, n)
    ensures k < n && es[k].CliSave? && Overtaken(es, k, es[k].process) && InOrder(es, k)
  {
    if InOrder(es, n - 1) {
      k := n - 1;
    } else {
      k := FirstStale(es, n - 1);
    }
  }

  // ---------------------------------------------------------------- fixpoint

  /** The release the node should run: the configured one if it is newer than the chain's
      and signed, else the chain's. */
  ghost function Best(w: World, config: Config, chain: Chain): Program {
    Target(w, config, chain, Vouched(w.authority, chain.entries, config.newVersion.enclave))
  }

  /** A storage container runs, holds the key, and is what memory and disk configure; it
      reports the version and the enclave id of the best release. */
  ghost predicate UpToDate(w: World, s: State, node: Id) {
    && Base(w, s)
    && Named(s.docker, node, STORAGE) && s.docker[node].running && node in s.keyed
    && s.config == s.disk && s.config.nodeImage == s.docker[node].image
    && w.versionOf(s.docker[node].image) == Best(w, s.config, s.chain).version
    && w.enclaveOf(s.docker[node].image) == Best(w, s.config, s.chain).enclave
    && Early(s.pc)
    && (s.pc == Decide ==> && s.local.version == Best(w, s.config, s.chain).version
                           && s.local.enclave == Best(w, s.config, s.chain).enclave)
  }

  /** What would give the upgrade something to do: the user stops the node, another
      process writes its configuration, or the chain or the configured release changes. */
  predicate Disturbs(e: Event) {
    e.CliStop? || e.CliSave? || e.ChainMoves? || e.ManualEdited?
  }

  /** Whatever the signature checks answer, an up-to-date node is not to be replaced. */
  lemma NothingBetter(w: World, s: State, manualOk: bool, checkOk: bool, node: Id)
    requires UpToDate(w, s, node) && s.pc == Decide
    requires manualOk ==> Vouched(w.authority, s.chain.entries, s.config.newVersion.enclave)
    ensures !Proceed(w, s, Target(w, s.config, s.chain, manualOk), checkOk)
  {
  }

  lemma PlainStays(w: World, s: State, e: Event, s': State, node: Id)
    requires UpToDate(w, s, node) && !EngineEvent(e) && PlainStep(w, s, e, s') && !Disturbs(e)
    requires !KeyEvent(e)
    ensures UpToDate(w, s', node) && s'.docker == s.docker && s'.config == s.config && s'.chain == s.chain
  {
    PlainBase(w, s, e, s');
    PlainFrame(w, s, e, s');
    if e.QueryAnswered? {
      assert e.node == node by {
        assert "/" + STORAGE in s.docker[node].names && "/" + STORAGE in s.docker[e.node].names;
      }
    } else if e.Decided? {
      NothingBetter(w, s, e.manualOk, e.checkOk, node);
    }
  }

  lemma ExchangeStays(w: World, s: State, e: Event, s': State, node: Id)
    requires UpToDate(w, s, node) && KeyEvent(e) && PlainStep(w, s, e, s')
    ensures UpToDate(w, s', node) && s'.docker == s.docker && s'.config == s.config && s'.chain == s.chain
  {
    ExchangeKeeps(w, s, e, s');
  }

  /** A start of the node that already runs with the configured image. */
  lemma StartChangesNothing(w: World, s: State, e: Event, m: Containers, node: Id)
    requires UpToDate(w, s, node) && EngineEvent(e) && !Disturbs(e) && !e.AssistLaunched?
    requires EngineEnabled(s, e) && EngineRel(w, s, e, m)
    ensures m == s.docker && WithDocker(s, m) == s && Base(w, AfterEngine(s, e, m)) && (e.EnsureStarted? || e.CliStart?)
  {
    StartKeepsSameImage(s.docker, STORAGE, false, s.config.nodeImage, NODE_ARGS, m, e.err, node);
    assert s.docker[node := s.docker[node].(running := true)] == s.docker;
    Unmoved(w, s);
    EngineBase(w, s, e, m);
  }

  /** The assistant, launched because the node has not answered for long. */
  lemma LaunchStays(w: World, s: State, e: Event, m: Containers, node: Id)
    requires UpToDate(w, s, node) && e.AssistLaunched? && EngineEnabled(s, e) && EngineRel(w, s, e, m)
    ensures UpToDate(w, AfterEngine(s, e, m), node) && OthersUnchanged(s.docker, m, ASSISTANT)
  {
    StartReconciles(s.docker, ASSISTANT, true, w.upgradeImage, [], m, e.err);
    AssistantStart(w, s, m, e.err);
    EngineBase(w, s, e, m);
    assert !Named(s.docker, node, ASSISTANT);
  }

  /** At most the assistant has changed, and nothing at all unless it was launched. */
  ghost predicate SameButAssistant(s: State, e: Event, s': State) {
    && s'.config == s.config && s'.chain == s.chain && OthersUnchanged(s.docker, s'.docker, ASSISTANT)
    && (!e.AssistLaunched? ==> s'.docker == s.docker)
  }

  lemma UpToDateStays(w: World, s: State, e: Event, s': State, node: Id)
    requires UpToDate(w, s, node) && StepBy(w, s, e, s') && !Disturbs(e)
    ensures UpToDate(w, s', node) && SameButAssistant(s, e, s')
  {
    if e.AssistLaunched? {
      LaunchStays(w, s, e, s'.docker, node);
    } else {
      if EngineEvent(e) {
        StartStays(w, s, e, s'.docker, node);
      } else if KeyEvent(e) {
        ExchangeStays(w, s, e, s', node);
      } else {
        PlainStays(w, s, e, s', node);
      }
      NothingChanged(s.docker, ASSISTANT);
    }
  }

  lemma StartStays(w: World, s: State, e: Event, m: Containers, node: Id)
    requires UpToDate(w, s, node) && EngineEvent(e) && !Disturbs(e) && !e.AssistLaunched?
    requires EngineEnabled(s, e) && EngineRel(w, s, e, m)
    ensures var s' := AfterEngine(s, e, m);
            UpToDate(w, s', node) && s'.docker == s.docker && s'.config == s.config && s'.chain == s.chain
  {
    StartChangesNothing(w, s, e, m, node);
  }

  lemma NothingChanged(m: Containers, name: string)
    ensures OthersUnchanged(m, m, name)
  {
  }

  /** How the state after `k` events compares with the first. */
  ghost predicate Steady(w: World, t: seq<State>, es: seq<Event>, k: nat, node: Id)
    requires k < |t| == |es| + 1
  {
    && UpToDate(w, t[k], node) && OthersUnchanged(t[0].docker, t[k].docker, ASSISTANT)
    && (NeverLaunched(es, k) ==> t[k].docker == t[0].docker)
    && t[k].config == t[0].config && t[k].chain == t[0].chain
  }

  predicate NeverLaunched(es: seq<Event>, k: nat)
    requires k <= |es|
  {
    forall i {:trigger es[i]} :: 0 <= i < k ==> !es[i].AssistLaunched?
  }

  lemma FixpointStep(w: World, t: seq<State>, es: seq<Event>, k: nat, node: Id)
    requires Run(w, t, es) && k < |es| && UpToDate(w, t[k], node) && !Disturbs(es[k])
    ensures UpToDate(w, t[k + 1], node) && SameButAssistant(t[k], es[k], t[k + 1])
  {
    assert StepBy(w, t[k], es[k], t[k + 1]);
    UpToDateStays(w, t[k], es[k], t[k + 1], node);
  }

  lemma StaysSteady(w: World, t: seq<State>, es: seq<Event>, k: nat, node: Id)
    requires Run(w, t, es) && k < |es| && Steady(w, t, es, k, node) && !Disturbs(es[k])
    ensures Steady(w, t, es, k + 1, node)
  {
    FixpointStep(w, t, es, k, node);
    OthersStillUnchanged(t[0].docker, t[k].docker, t[k + 1].docker, ASSISTANT);
    assert NeverLaunched(es, k + 1) ==> NeverLaunched(es, k) && !es[k].AssistLaunched?;
  }

  lemma {:induction false} SteadyThroughout(w: World, t: seq<State>, es: seq<Event>, k: nat, node: Id)
    requires Run(w, t, es) && k < |t| && UpToDate(w, t[0], node)
    requires forall i {:trigger es[i]} :: 0 <= i < |es| ==> !Disturbs(es[i])
    ensures Steady(w, t, es, k, node)
  {
    if k > 0 {
      SteadyThroughout(w, t, es, k - 1, node);
      StaysSteady(w, t, es, k - 1, node);
    } else {
      NothingChanged(t[0].docker, ASSISTANT);
    }
  }

  /**
   Upgrade fixpoint: once the node is up to date, running the upgrade again and again,
   with failing queries, restarts of the daemon, `dc start storage` and key exchanges in
   between, never gets past the comparison of versions: no fetch, stop, removal, creation,
   start or save.  Every container stays as it is; after 152 failing queries in a row the
   assistant may be launched, every other container still stays as it is.
   */
  lemma UpgradeFixpoint(w: World, t: seq<State>, es: seq<Event>, k: nat, node: Id)
    requires Run(w, t, es) && k < |t| && UpToDate(w, t[0], node)
    requires forall i {:trigger es[i]} :: 0 <= i < |es| ==> !Disturbs(es[i])
    ensures UpToDate(w, t[k], node) && t[k].pc in {Idle, Ensure, Query, Decide}
    ensures OthersUnchanged(t[0].docker, t[k].docker, ASSISTANT)
    ensures (forall i {:trigger es[i]} :: 0 <= i < k ==> !es[i].AssistLaunched?) ==> t[k].docker == t[0].docker
    ensures t[k].config == t[0].config && t[k].chain == t[0].chain
  {
    SteadyThroughout(w, t, es, k, node);
  }
}
