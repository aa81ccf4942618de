/**
 That the protocol gets anywhere: from every healthy node a new release can be installed,
 and the run that does it ends where the upgrade has nothing left to do.
 */
module UpgradeSuccess {
  import opened Prelude
  import opened Docker
  import opened Committee
  import opened Upgrade
  import opened UpgradeCustody
  import opened UpgradeVersions

  /** The storage container `id` runs, with the key. */
  ghost predicate Serves(s: State, id: Id) {
    Named(s.docker, id, STORAGE) && s.docker[id].running && id in s.keyed
  }

  /** An idle daemon over a serving node, and a better, signed release. */
  ghost predicate Upgradable(w: World, s: State, node: Id) {
    && Base(w, s) && s.pc == Idle && s.cmdStart && Serves(s, node)
    && Removable(s.docker[node], s.config.nodeImage)
    && var best := Best(w, s.config, s.chain);
       && Vouched(w.authority, s.chain.entries, best.enclave)
       && w.enclaveOf(s.docker[node].image) != best.enclave
       && Below(w, w.versionOf(s.docker[node].image), best.version)
  }

  /** What an upgrade leaves alone until it saves: files, chain, start command, the other
      processes, and of the configuration all but the node's image. */
  predicate SameRest(s: State, s': State) {
    && s'.disk == s.disk && s'.chain == s.chain && s'.cmdStart == s.cmdStart && s'.copies == s.copies
    && s'.config == s.config.(nodeImage := s'.config.nodeImage)
  }

  /** The attempt is after the best release. */
  ghost predicate Pursues(w: World, s: State) {
    s.local.target == Best(w, s.config, s.chain)
  }

  /** The key has just moved into the new container; the assistant says so. */
  ghost predicate Handed(w: World, s: State, tag: string, newId: Id, assistant: Id) {
    && Armed(w, s, assistant) && assistant in s.flagged && Serves(s, newId) && s.pc == AwaitNode
    && s.docker[newId].image == s.config.nodeImage == s.local.tag == tag
    && Pursues(w, s)
  }

  /** A run without a failing call from `s` to the hand-over. */
  ghost predicate HandsOver(w: World, s: State, t: seq<State>, es: seq<Event>, tag: string, newId: Id, assistant: Id) {
    && Run(w, t, es) && StopsEffective(t, es) && Faults(es) == 0 && t[0] == s
    && var end := t[|t| - 1]; SameRest(s, end) && Handed(w, end, tag, newId, assistant)
  }

  lemma Before(w: World, s: State, e: Event, t: seq<State>, es: seq<Event>, tag: string, newId: Id, assistant: Id)
    returns (t': seq<State>, es': seq<Event>)
    requires |t| > 0 && HandsOver(w, t[0], t, es, tag, newId, assistant)
    requires StepBy(w, s, e, t[0]) && StopEffective(e, t[0]) && !Fails(e) && SameRest(s, t[0])
    ensures HandsOver(w, s, t', es', tag, newId, assistant)
  {
    t', es' := Prepend(w, s, e, t, es);
  }

  // ---------------------------------------------------------------- up to the download

  /** The state in which the node has just answered. */
  function Answered(w: World, s: State, node: Id): State
    requires node in s.docker
  {
    s.(errCount := 0, pc := Decide,
       local := s.local.(version := w.versionOf(s.docker[node].image), enclave := w.enclaveOf(s.docker[node].image)))
  }

  /** The state in which the best release has been approved and fetched. */
  ghost function Approved(w: World, s: State, node: Id): State
    requires node in s.docker
  {
    var best, s3 := Best(w, s.config, s.chain), Answered(w, s, node);
    s3.(pc := StopAssistant, local := s3.local.(chainVersion := s.chain.program.version, target := best,
                                                vouchers := s.chain.entries, tag := best.origin))
  }

  /** The quiet beginning of an attempt on an upgradable node. */
  lemma LeadIn(w: World, s: State, node: Id, t: seq<State>, es: seq<Event>)
    returns (t': seq<State>, es': seq<Event>)
    requires Upgradable(w, s, node) && Run(w, t, es) && t[0] == Approved(w, s, node)
    ensures Run(w, t', es') && t'[0] == s && t'[|t'| - 1] == t[|t| - 1] && Faults(es') == Faults(es)
    ensures StopsEffective(t, es) ==> StopsEffective(t', es')
    ensures forall e :: e in es ==> e in es'
  {
    var signed := Vouched(w.authority, s.chain.entries, s.config.newVersion.enclave);
    var best, s3, s5 := Best(w, s.config, s.chain), Answered(w, s, node), t[0];
    var s4 := s5.(pc := Fetch, local := s5.local.(tag := s.local.tag));
    assert PlainStep(w, s3, Decided(signed, true), s4);
    t', es' := Prepend(w, s4, Fetched(best.origin), t, es);
    t', es' := Prepend(w, s3, Decided(signed, true), t', es');
    t', es' := LeadInToQuery(w, s, node, t', es');
  }

  lemma LeadInToQuery(w: World, s: State, node: Id, t: seq<State>, es: seq<Event>)
    returns (t': seq<State>, es': seq<Event>)
    requires s.pc == Idle && s.cmdStart && Serves(s, node) && Run(w, t, es) && t[0] == Answered(w, s, node)
    ensures Run(w, t', es') && t'[0] == s && t'[|t'| - 1] == t[|t| - 1] && Faults(es') == Faults(es)
    ensures StopsEffective(t, es) ==> StopsEffective(t', es')
    ensures forall e :: e in es ==> e in es'
  {
    assert PlainStep(w, s.(pc := Query), QueryAnswered(node), t[0]);
    t', es' := Prepend(w, s.(pc := Query), QueryAnswered(node), t, es);
    t', es' := LeadInToEnsure(w, s, node, t', es');
  }

  lemma LeadInToEnsure(w: World, s: State, node: Id, t: seq<State>, es: seq<Event>)
    returns (t': seq<State>, es': seq<Event>)
    requires s.pc == Idle && s.cmdStart && Named(s.docker, node, STORAGE) && s.docker[node].running
    requires Run(w, t, es) && t[0] == s.(pc := Query)
    ensures Run(w, t', es') && t'[0] == s && t'[|t'| - 1] == t[|t| - 1] && Faults(es') == Faults(es)
    ensures StopsEffective(t, es) ==> StopsEffective(t', es')
    ensures forall e :: e in es ==> e in es'
  {
    var s1 := s.(pc := Ensure);
    assert PlainStep(w, s1, FoundRunning, t[0]);
    t', es' := Prepend(w, s1, FoundRunning, t, es);
    t', es' := Prepend(w, s, Tick, t', es');
  }

  lemma ApprovedBase(w: World, s: State, node: Id)
    requires Upgradable(w, s, node)
    ensures Base(w, Approved(w, s, node)) && Serves(Approved(w, s, node), node) && Pursues(w, Approved(w, s, node))
  {
  }

  // ---------------------------------------------------------------- arming

  /** Some successful stop of a service. */
  lemma CanStop(m: Containers, name: string) returns (m': Containers)
    ensures StopRel(m, name, m', None)
  {
    m' := m;
    if id: Id :| Named(m, id, name) && m[id].running {
      m' := m[id := m[id].(running := false)];
    }
  }

  /** Some successful start, whether or not there is a container to reuse. */
  lemma CanStart(m: Containers, name: string, image: string, args: seq<string>) returns (m': Containers, id: Id)
    requires !ImageClash(m, name, image)
    ensures StartRel(m, name, true, image, args, m', None)
    ensures Named(m', id, name) && m'[id].running
  {
    if prior: Id :| Named(m, prior, name) {
      id := prior;
      m' := m[id := m[id].(running := true)];
      assert Reused(m, name, image, m');
    } else {
      id := UnusedId(m.Keys);
      m' := m[id := Fresh(name, image, args, true)];
      assert id !in m && m'[id].running;
      assert Created(m, m, name, image, args, m', None);
    }
  }

  /** Stopping the assistant, successfully. */
  lemma HaltStep(w: World, s: State, node: Id) returns (s': State)
    requires Base(w, s) && s.pc == StopAssistant && Serves(s, node)
    ensures StepBy(w, s, AssistantStopped(None), s') && Base(w, s')
    ensures s'.flagged == {} && Serves(s', node) && s'.docker[node] == s.docker[node]
    ensures s' == s.(docker := s'.docker, keyed := s'.keyed, flagged := {}, pc := StartAssistant)
    ensures forall id :: Named(s'.docker, id, ASSISTANT) ==> id !in s'.keyed
  {
    var m' := CanStop(s.docker, ASSISTANT);
    s' := WithDocker(s, m').(pc := StartAssistant);
    AssistantStop(w, s, m', None);
    SparesNode(w, s, m', node);
    StopGrows(s.docker, ASSISTANT, m', None, w.upgradeImage);
  }

  /** Operations on the assistant leave the storage container alone. */
  lemma SparesNode(w: World, s: State, m': Containers, node: Id)
    requires DockerOk(w, s.docker, s.keyed, s.flagged) && Grows(s.docker, m', ASSISTANT, w.upgradeImage)
    requires Serves(s, node)
    ensures Serves(WithDocker(s, m'), node) && m'[node] == s.docker[node]
  {
    assert !Named(s.docker, node, ASSISTANT);
  }

  /** Starting it again. */
  lemma RaiseStep(w: World, s: State, node: Id) returns (s': State, assistant: Id)
    requires Base(w, s) && s.pc == StartAssistant && Serves(s, node)
    requires forall id :: Named(s.docker, id, ASSISTANT) ==> id !in s.keyed
    ensures StepBy(w, s, AssistantStarted(None), s') && Base(w, s')
    ensures Serves(s', node) && s'.docker[node] == s.docker[node]
    ensures s' == s.(docker := s'.docker, pc := AwaitAssistant)
    ensures Named(s'.docker, assistant, ASSISTANT) && s'.docker[assistant].running && assistant !in s'.keyed
  {
    var m';
    m', assistant := CanStart(s.docker, ASSISTANT, w.upgradeImage, []);
    s' := WithDocker(s, m').(pc := AwaitAssistant);
    AssistantStart(w, s, m', None);
    SparesNode(w, s, m', node);
    GrowsNames(s.docker, m', ASSISTANT, w.upgradeImage, assistant, ASSISTANT);
  }

  /** The assistant takes the key over and says so. */
  lemma ArmedStep(w: World, s: State, node: Id, assistant: Id) returns (s': State)
    requires Base(w, s) && s.pc == AwaitAssistant && Serves(s, node)
    requires Named(s.docker, assistant, ASSISTANT) && s.docker[assistant].running && assistant !in s.keyed
    ensures s' == s.(keyed := s.keyed + {assistant})
    ensures StepBy(w, s, Acquire(assistant, node), s') && Armed(w, s', assistant)
    ensures StepBy(w, s', AssistantReady, s'.(pc := StopNode)) && Armed(w, s'.(pc := StopNode), assistant)
  {
    s' := s.(keyed := s.keyed + {assistant});
    assert PlainStep(w, s, Acquire(assistant, node), s');
    StepKeepsBase(w, s, Acquire(assistant, node), s');
    assert AssistantHolds(s');
    StepKeepsBase(w, s', AssistantReady, s'.(pc := StopNode));
  }

  // ---------------------------------------------------------------- up to the hand-over

  lemma HandoverStep(w: World, s: State, newId: Id, assistant: Id) returns (s': State)
    requires Armed(w, s, assistant) && s.pc == AwaitNode
    requires Named(s.docker, newId, STORAGE) && s.docker[newId].running && newId !in s.keyed
    ensures StepBy(w, s, Handover(assistant, newId), s') && Armed(w, s', assistant) && Serves(s', newId)
    ensures s' == s.(keyed := s.keyed + {newId}, flagged := s.flagged + {assistant})
  {
    var e := Handover(assistant, newId);
    s' := s.(keyed := s.keyed + {newId}, flagged := s.flagged + {assistant});
    assert PlainStep(w, s, e, s');
    StepKeepsBase(w, s, e, s');
  }

  lemma StartRun(w: World, s: State, assistant: Id) returns (t: seq<State>, es: seq<Event>, newId: Id)
    requires Armed(w, s, assistant) && s.pc == StartNode && NameFree(s.docker, STORAGE)
    requires s.config.nodeImage == s.local.tag && Pursues(w, s)
    ensures HandsOver(w, s, t, es, s.local.tag, newId, assistant)
  {
    newId := UnusedId(s.docker.Keys);
    var s1 := StartNodeStep(w, s, newId, assistant);
    assert newId !in s1.keyed;
    var s2 := HandoverStep(w, s1, newId, assistant);
    t, es := [s2], [];
    t, es := Before(w, s1, Handover(assistant, newId), t, es, s.local.tag, newId, assistant);
    t, es := Before(w, s, NodeStarted(None), t, es, s.local.tag, newId, assistant);
  }

  lemma ReplaceRun(w: World, s: State, node: Id, assistant: Id)
    returns (t: seq<State>, es: seq<Event>, newId: Id)
    requires Armed(w, s, assistant) && s.pc == StopNode
    requires Named(s.docker, node, STORAGE) && Removable(s.docker[node], s.config.nodeImage) && Pursues(w, s)
    ensures HandsOver(w, s, t, es, s.local.tag, newId, assistant)
  {
    var s1 := StopNodeStep(w, s, node, assistant);
    var s2 := RemoveNodeStep(w, s1, node, assistant);
    t, es, newId := StartRun(w, s2, assistant);
    t, es := Before(w, s1, NodeRemoved(None), t, es, s.local.tag, newId, assistant);
    t, es := Before(w, s, NodeStopped(None), t, es, s.local.tag, newId, assistant);
  }

  lemma ArmRun(w: World, s: State, node: Id)
    returns (t: seq<State>, es: seq<Event>, newId: Id, assistant: Id)
    requires Base(w, s) && s.pc == StopAssistant && Serves(s, node)
    requires Removable(s.docker[node], s.config.nodeImage) && Pursues(w, s)
    ensures HandsOver(w, s, t, es, s.local.tag, newId, assistant)
  {
    var s1, s2, s3;
    s1 := HaltStep(w, s, node);
    s2, assistant := RaiseStep(w, s1, node);
    s3 := ArmedStep(w, s2, node, assistant);
    t, es, newId := ReplaceRun(w, s3.(pc := StopNode), node, assistant);
    t, es := Before(w, s3, AssistantReady, t, es, s.local.tag, newId, assistant);
    t, es := Before(w, s2, Acquire(assistant, node), t, es, s.local.tag, newId, assistant);
    t, es := Before(w, s1, AssistantStarted(None), t, es, s.local.tag, newId, assistant);
    t, es := Before(w, s, AssistantStopped(None), t, es, s.local.tag, newId, assistant);
  }

  /** From every upgradable node, with or without an assistant from an earlier upgrade, an
      attempt can get as far as the hand-over without a failing call. */
  lemma CanHandOver(w: World, s: State, node: Id)
    returns (t: seq<State>, es: seq<Event>, newId: Id, assistant: Id)
    requires Upgradable(w, s, node)
    ensures HandsOver(w, s, t, es, Best(w, s.config, s.chain).origin, newId, assistant)
  {
    ApprovedBase(w, s, node);
    t, es, newId, assistant := ArmRun(w, Approved(w, s, node), node);
    t, es := LeadIn(w, s, node, t, es);
  }

  // ---------------------------------------------------------------- to the end

  lemma JoinRuns(w: World, t1: seq<State>, es1: seq<Event>, t2: seq<State>, es2: seq<Event>)
    returns (t: seq<State>, es: seq<Event>)
    requires Run(w, t1, es1) && Run(w, t2, es2) && t1[|t1| - 1] == t2[0]
    ensures Run(w, t, es) && t[0] == t1[0] && t[|t| - 1] == t2[|t2| - 1]
    ensures StopsEffective(t1, es1) && StopsEffective(t2, es2) ==> StopsEffective(t, es)
    ensures Faults(es) == Faults(es1) + Faults(es2) && es == es1 + es2
    ensures t == t1 + t2[1..]
  {
    t, es := t1 + t2[1..], es1 + es2;
    forall k | 0 <= k < |es|
      ensures StepBy(w, t[k], es[k], t[k + 1])
      ensures StopsEffective(t1, es1) && StopsEffective(t2, es2) ==> StopEffective(es[k], t[k + 1])
    {
      JoinAt(w, t1, es1, t2, es2, k);
    }
    FaultsJoin(es1, es2);
  }

  lemma JoinAt(w: World, t1: seq<State>, es1: seq<Event>, t2: seq<State>, es2: seq<Event>, k: nat)
    requires Run(w, t1, es1) && Run(w, t2, es2) && t1[|t1| - 1] == t2[0] && k < |es1 + es2|
    ensures var t, es := t1 + t2[1..], es1 + es2;
            && StepBy(w, t[k], es[k], t[k + 1])
            && (StopsEffective(t1, es1) && StopsEffective(t2, es2) ==> StopEffective(es[k], t[k + 1]))
  {
    var t, es := t1 + t2[1..], es1 + es2;
    if k < |es1| {
      assert t[k] == t1[k] && es[k] == es1[k] && t[k + 1] == t1[k + 1];
    } else {
      var i := k - |es1|;
      assert t[k] == t2[i] && es[k] == es2[i] && t[k + 1] == t2[i + 1];
    }
  }

  lemma {:induction false} FaultsJoin(es1: seq<Event>, es2: seq<Event>)
    ensures Faults(es1 + es2) == Faults(es1) + Faults(es2)
  {
    if es1 == [] {
      assert es1 + es2 == es2;
    } else {
      FaultsJoin(es1[1..], es2);
      assert (es1 + es2)[1..] == es1[1..] + es2;
    }
  }

  /** The image being installed reports what the release announces. */
  predicate Announced(w: World, tag: string, release: Program) {
    w.versionOf(tag) == release.version && w.enclaveOf(tag) == release.enclave
  }

  /** A run without a failing call that ends up to date, with the new image on disk. */
  ghost predicate Completes(w: World, s: State, t: seq<State>, es: seq<Event>, tag: string) {
    && Run(w, t, es) && StopsEffective(t, es) && Faults(es) == 0 && t[0] == s
    && var end := t[|t| - 1];
       && (exists node :: UpToDate(w, end, node))
       && end.disk == s.config.(nodeImage := tag) && end.chain == s.chain && end.copies == s.copies
  }

  lemma FinishStep(w: World, s: State, e: Event, t: seq<State>, es: seq<Event>, tag: string)
    returns (t': seq<State>, es': seq<Event>)
    requires |t| > 0 && Completes(w, t[0], t, es, tag)
    requires StepBy(w, s, e, t[0]) && StopEffective(e, t[0]) && !Fails(e)
    requires t[0].config == s.config && t[0].chain == s.chain && t[0].copies == s.copies
    ensures Completes(w, s, t', es', tag)
  {
    t', es' := Prepend(w, s, e, t, es);
  }

  /** The new container answers, as what it is. */
  lemma SeenStep(w: World, s: State, newId: Id) returns (s': State)
    requires Base(w, s) && s.pc == Verify && Serves(s, newId)
    ensures StepBy(w, s, VerifyAnswered(newId), s') && Base(w, s')
    ensures var image := s.docker[newId].image;
            s' == s.(pc := Judge, local := s.local.(seen := Report(w.versionOf(image), w.enclaveOf(image))))
  {
    var image := s.docker[newId].image;
    s' := s.(pc := Judge, local := s.local.(seen := Report(w.versionOf(image), w.enclaveOf(image))));
    assert PlainStep(w, s, VerifyAnswered(newId), s');
    StepKeepsBase(w, s, VerifyAnswered(newId), s');
  }

  /** It is the right one. */
  lemma AcceptedStep(w: World, s: State, newId: Id, s': State)
    requires Base(w, s) && Serves(s, newId) && s.config == s.disk && s.config.nodeImage == s.docker[newId].image
    requires Announced(w, s.config.nodeImage, Best(w, s.config, s.chain)) && Pursues(w, s)
    requires s.pc == Judge && s.local.seen == Report(w.versionOf(s.config.nodeImage), w.enclaveOf(s.config.nodeImage))
    requires s' == s.(pc := Idle)
    ensures StepBy(w, s, VerifyEnded, s') && UpToDate(w, s', newId)
  {
    assert PlainStep(w, s, VerifyEnded, s');
    StepKeepsBase(w, s, VerifyEnded, s');
  }

  /** Look at what came up. */
  lemma SeenRun(w: World, s: State, newId: Id) returns (t: seq<State>, es: seq<Event>)
    requires Base(w, s) && s.pc == Verify && Serves(s, newId)
    requires s.config == s.disk && s.config.nodeImage == s.docker[newId].image
    requires Announced(w, s.config.nodeImage, Best(w, s.config, s.chain)) && Pursues(w, s)
    ensures Completes(w, s, t, es, s.config.nodeImage)
  {
    var s1 := SeenStep(w, s, newId);
    var s2 := s1.(pc := Idle);
    AcceptedStep(w, s1, newId, s2);
    t, es := [s2], [];
    t, es := FinishStep(w, s1, VerifyEnded, t, es, s.config.nodeImage);
    t, es := FinishStep(w, s, VerifyAnswered(newId), t, es, s.config.nodeImage);
  }

  /** Save and look at what came up. */
  lemma SaveRun(w: World, s: State, newId: Id) returns (t: seq<State>, es: seq<Event>)
    requires Base(w, s) && s.pc == Save && Serves(s, newId) && s.docker[newId].image == s.config.nodeImage
    requires Announced(w, s.config.nodeImage, Best(w, s.config, s.chain)) && Pursues(w, s)
    ensures Completes(w, s, t, es, s.config.nodeImage)
  {
    var s1 := s.(disk := s.config, pc := Verify);
    assert PlainStep(w, s, Saved, s1);
    StepKeepsBase(w, s, Saved, s1);
    t, es := SeenRun(w, s1, newId);
    t, es := FinishStep(w, s, Saved, t, es, s.config.nodeImage);
  }

  lemma RetireRun(w: World, s: State, newId: Id, assistant: Id) returns (t: seq<State>, es: seq<Event>)
    requires Armed(w, s, assistant) && s.pc == Retire && Serves(s, newId)
    requires s.docker[newId].image == s.config.nodeImage && Pursues(w, s)
    requires Announced(w, s.config.nodeImage, Best(w, s.config, s.chain))
    ensures Completes(w, s, t, es, s.config.nodeImage)
  {
    assert newId != assistant;
    var s1 := RetireStep(w, s, assistant);
    t, es := SaveRun(w, s1, newId);
    t, es := FinishStep(w, s, AssistantRetired(None), t, es, s.config.nodeImage);
  }

  /** From the hand-over to the end. */
  lemma FinishRun(w: World, s: State, tag: string, newId: Id, assistant: Id) returns (t: seq<State>, es: seq<Event>)
    requires Handed(w, s, tag, newId, assistant) && Announced(w, tag, Best(w, s.config, s.chain))
    ensures Completes(w, s, t, es, tag)
  {
    var s1 := s.(pc := Retire);
    assert PlainStep(w, s, NodeReady, s1);
    StepKeepsBase(w, s, NodeReady, s1);
    t, es := RetireRun(w, s1, newId, assistant);
    t, es := FinishStep(w, s, NodeReady, t, es, tag);
  }

  /**
   From every upgradable node the release it should run can be installed: the configured one
   if that is complete, newer than the chain's and vouched for on the chain, else the
   chain's.  There is a run in which no call fails, somebody has the key in every state, and
   at whose end the node serves with that release's image, which is also on disk, so that by
   `UpgradeFixpoint` nothing more is done.
   */
  lemma HealthyUpgradeSucceeds(w: World, s: State, node: Id, release: Program) returns (t: seq<State>, es: seq<Event>)
    requires Upgradable(w, s, node)
    requires var manual, known := s.config.newVersion, w.rank(s.chain.program.version);
             release == if && manual.version != "" && manual.enclave != ""
                           && known.Some? && w.rank(manual.version).Some?
                           && known.value < w.rank(manual.version).value
                           && Vouched(w.authority, s.chain.entries, manual.enclave)
                        then manual else s.chain.program
    requires w.versionOf(release.origin) == release.version && w.enclaveOf(release.origin) == release.enclave
    ensures Completes(w, s, t, es, release.origin)
    ensures var end := t[|t| - 1];
            exists id :: Serves(end, id) && end.docker[id].image == release.origin == end.disk.nodeImage
    ensures forall k :: 0 <= k < |t| ==> Custody(t[k])
  {
    var t1, es1, newId, assistant := CanHandOver(w, s, node);
    var end := t1[|t1| - 1];
    var t2, es2 := FinishRun(w, end, release.origin, newId, assistant);
    t, es := JoinRuns(w, t1, es1, t2, es2);
    var id :| UpToDate(w, t[|t| - 1], id);
    assert Serves(t[|t| - 1], id);
    CustodyOfRun(w, t, es);
  }

  /** How a clean install comes by a serving node: the first start, and the key it obtains. */
  lemma FirstStart(w: World, s: State) returns (t: seq<State>, es: seq<Event>, node: Id)
    requires Base(w, s) && s.pc == Idle && !s.issued && NameFree(s.docker, STORAGE)
    ensures Run(w, t, es) && t[0] == s && Faults(es) == 0 && StopsEffective(t, es)
    ensures var end := t[|t| - 1];
            && Base(w, end) && end.pc == Idle && end.cmdStart && Serves(end, node)
            && end.docker[node].image == end.disk.nodeImage && end.disk == s.disk && end.chain == s.chain
  {
    var s1, s2;
    s1, node := UserStart(w, s);
    s2 := KeyStep(w, s1, node);
    t, es := Prepend(w, s1, KeyIssued(node), [s2], []);
    t, es := Prepend(w, s, CliStart(None), t, es);
  }

  /** `dc start storage` where there is no storage container yet. */
  lemma UserStart(w: World, s: State) returns (s': State, node: Id)
    requires Base(w, s) && NameFree(s.docker, STORAGE)
    ensures StepBy(w, s, CliStart(None), s') && Base(w, s')
    ensures node !in s.docker && s'.docker == s.docker[node := Fresh(STORAGE, s.disk.nodeImage, NODE_ARGS, true)]
    ensures s' == s.(docker := s'.docker, keyed := s'.keyed, flagged := s'.flagged, cmdStart := true)
  {
    node := UnusedId(s.docker.Keys);
    assert node !in s.docker;
    var m := s.docker[node := Fresh(STORAGE, s.disk.nodeImage, NODE_ARGS, true)];
    assert m[node].running;
    assert Created(s.docker, s.docker, STORAGE, s.disk.nodeImage, NODE_ARGS, m, None);
    s' := AfterEngine(s, CliStart(None), m);
    assert s'.docker == m;
    StepKeepsBase(w, s, CliStart(None), s');
  }

  lemma KeyStep(w: World, s: State, node: Id) returns (s': State)
    requires Base(w, s) && !s.issued && Named(s.docker, node, STORAGE) && s.docker[node].running
    ensures StepBy(w, s, KeyIssued(node), s') && Base(w, s') && s' == s.(keyed := {node}, issued := true)
  {
    s' := s.(keyed := {node}, issued := true);
    assert PlainStep(w, s, KeyIssued(node), s');
    StepKeepsBase(w, s, KeyIssued(node), s');
  }

  lemma CustodyOfRun(w: World, t: seq<State>, es: seq<Event>)
    requires Run(w, t, es) && StopsEffective(t, es) && Base(w, t[0]) && t[0].pc == Idle && StorageHolds(t[0])
    ensures forall k :: 0 <= k < |t| ==> Custody(t[k])
  {
    forall k | 0 <= k < |t| ensures Custody(t[k]) {
      RunKeepsKey(w, t, es, 0, k);
    }
  }
}
