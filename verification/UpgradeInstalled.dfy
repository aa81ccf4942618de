/** When the installed version falls. */
module UpgradeInstalled {
  import opened Prelude
  import opened Docker
  import opened Committee
  import opened Upgrade
  import opened UpgradeCustody
  import opened UpgradeVersions
  import opened UpgradeSuccess
  import opened UpgradeHazards

  // ---------------------------------------------------------------- one step

  /** Where storage containers come from and where they go. */
  ghost predicate HolderMove(s: State, e: Event, s': State) {
    && (forall id :: Named(s.docker, id, STORAGE) ==>
          (Named(s'.docker, id, STORAGE) && s'.docker[id].image == s.docker[id].image)
          || (e == NodeRemoved(None) && id !in s'.docker))
    && (forall id :: Named(s'.docker, id, STORAGE) && !Named(s.docker, id, STORAGE) ==>
          || (e.CliStart? && s'.docker[id].image == s.disk.nodeImage)
          || ((e.EnsureStarted? || e.NodeStarted?) && s'.docker[id].image == s.config.nodeImage))
    && (forall id :: Named(s'.docker, id, STORAGE) && !Named(s.docker, id, STORAGE) ==>
          s'.docker[id].names == ["/dcstorage"] && s'.docker[id].args == ["dcstorage"])
  }

  /** What a start without permission to replace makes. */
  lemma StartMakes(m: Containers, name: string, image: string, args: seq<string>, m': Containers, err: Err, id: Id)
    requires StartRel(m, name, false, image, args, m', err) && Named(m', id, name) && !Named(m, id, name)
    ensures m'[id].names == ["/" + name] && m'[id].args == args
  {
    assert !Reused(m, name, image, m');
  }

  lemma StorageMovesHolder(w: World, s: State, e: Event, m: Containers)
    requires Base(w, s) && StorageEvent(e) && EngineEnabled(s, e) && EngineRel(w, s, e, m)
    ensures HolderMove(s, e, AfterEngine(s, e, m))
  {
    EngineMoves(s, e, m);
    StorageHolders(w, s, e, m);
    if !e.CliStart? && !e.EnsureStarted? && !e.NodeStarted? {
      StopStops(s.docker, STORAGE, m, e.err);
    } else {
      forall id: Id | Named(m, id, STORAGE) && !Named(s.docker, id, STORAGE)
        ensures m[id].names == ["/dcstorage"] && m[id].args == ["dcstorage"]
      {
        var image := if e.CliStart? then s.disk.nodeImage else s.config.nodeImage;
        StartMakes(s.docker, STORAGE, image, NODE_ARGS, m, e.err, id);
        assert "/" + STORAGE == "/dcstorage";
      }
    }
  }

  lemma AssistantMovesHolder(w: World, s: State, e: Event, m: Containers)
    requires Base(w, s) && AssistantEvent(e) && EngineEnabled(s, e) && EngineRel(w, s, e, m)
    ensures HolderMove(s, e, AfterEngine(s, e, m))
  {
    EngineMoves(s, e, m);
    AssistantHolders(w, s, e, m);
  }

  lemma RemovalMovesHolder(w: World, s: State, e: Event, m: Containers)
    requires Base(w, s) && e.NodeRemoved? && EngineEnabled(s, e) && EngineRel(w, s, e, m)
    ensures HolderMove(s, e, AfterEngine(s, e, m))
  {
    EngineMoves(s, e, m);
    NodeRemoval(w, s, m, e.err);
  }

  lemma PlainKeepsDocker(w: World, s: State, e: Event, s': State)
    requires !EngineEvent(e) && PlainStep(w, s, e, s')
    ensures s'.docker == s.docker
  {
  }

  /** A storage container keeps its image as long as it exists; only the removal of an
      attempt ends it, and only a start makes one. */
  lemma StepMovesHolder(w: World, s: State, e: Event, s': State)
    requires Base(w, s) && StepBy(w, s, e, s')
    ensures HolderMove(s, e, s')
  {
    if StorageEvent(e) {
      StorageMovesHolder(w, s, e, s'.docker);
    } else if AssistantEvent(e) {
      AssistantMovesHolder(w, s, e, s'.docker);
    } else if e.NodeRemoved? {
      RemovalMovesHolder(w, s, e, s'.docker);
    } else {
      PlainKeepsDocker(w, s, e, s');
    }
  }

  // ---------------------------------------------------------------- while there is none

  /** Between the removal of a container that reported `was` and the next start: the file
      still names `onDisk`; the daemon means something newer, unless it has died. */
  ghost predicate Vacant(w: World, s: State, was: string, onDisk: string, died: bool) {
    && NameFree(s.docker, STORAGE) && s.disk.nodeImage == onDisk && s.pc in {StartNode, Idle, Ensure}
    && if died then s.pc != StartNode && s.config.nodeImage == onDisk else Below(w, was, Installs(w, s.config))
  }

  lemma EngineKeepsVacant(w: World, s: State, e: Event, m: Containers, was: string, onDisk: string, died: bool)
    requires WellNamed(s.docker) && Vacant(w, s, was, onDisk, died)
    requires EngineEvent(e) && EngineEnabled(s, e) && EngineRel(w, s, e, m) && NameFree(m, STORAGE)
    ensures Vacant(w, AfterEngine(s, e, m), was, onDisk, died)
  {
    EngineMoves(s, e, m);
    if e == EnsureStarted(None) {
      StartReconciles(s.docker, STORAGE, false, s.config.nodeImage, NODE_ARGS, m, None);
    } else if e == NodeStarted(None) {
      StartReconciles(s.docker, STORAGE, false, s.config.nodeImage, NODE_ARGS, m, None);
    }
  }

  lemma PlainKeepsVacant(w: World, s: State, e: Event, s': State, was: string, onDisk: string, died: bool)
    requires Vacant(w, s, was, onDisk, died) && !EngineEvent(e) && PlainStep(w, s, e, s') && NoLostUpdate(s, e, s')
    ensures Vacant(w, s', was, onDisk, died || e.Crash?)
  {
  }

  lemma StepKeepsVacant(w: World, s: State, e: Event, s': State, was: string, onDisk: string, died: bool)
    requires WellNamed(s.docker) && Vacant(w, s, was, onDisk, died)
    requires StepBy(w, s, e, s') && NoLostUpdate(s, e, s') && NameFree(s'.docker, STORAGE)
    ensures Vacant(w, s', was, onDisk, died || e.Crash?)
  {
    if EngineEvent(e) {
      EngineKeepsVacant(w, s, e, s'.docker, was, onDisk, died);
    } else {
      PlainKeepsVacant(w, s, e, s', was, onDisk, died);
    }
  }

  /** The removal that an attempt makes. */
  lemma RemovalLeavesVacant(w: World, s: State, s': State, prior: Id)
    requires Base(w, s) && VersionInv(w, s) && StepBy(w, s, NodeRemoved(None), s')
    requires Named(s.docker, prior, STORAGE) && NameFree(s'.docker, STORAGE)
    ensures Vacant(w, s', w.versionOf(s.docker[prior].image), s.disk.nodeImage, false)
    ensures NotAbove(w, Installs(w, s.disk), w.versionOf(s.docker[prior].image))
  {
    var id :| Named(s.docker, id, STORAGE) && w.versionOf(s.docker[id].image) == s.local.version;
    OneHolder(w, s, prior, id);
    assert s'.config.nodeImage == s.local.tag && s'.pc == StartNode && s'.disk == s.disk;
  }

  // ---------------------------------------------------------------- whole runs

  /** The daemon has died since event `j`. */
  ghost predicate DiedSince(es: seq<Event>, j: nat, k: nat)
    requires k <= |es|
  {
    exists i :: j < i < k && es[i].Crash?
  }

  lemma NextDeath(es: seq<Event>, j: nat, k: nat)
    requires j < k < |es|
    ensures DiedSince(es, j, k + 1) <==> DiedSince(es, j, k) || es[k].Crash?
  {
    if DiedSince(es, j, k + 1) && !es[k].Crash? {
      var i :| j < i < k + 1 && es[i].Crash?;
      assert i < k;
    }
  }

  /** The storage container `prior` goes at event `j`, and there is none up to state `k`. */
  ghost predicate Gone(t: seq<State>, es: seq<Event>, j: nat, k: nat, prior: Id)
    requires |t| == |es| + 1 && k <= |es|
  {
    && j < k && es[j] == NodeRemoved(None) && Named(t[j].docker, prior, STORAGE)
    && forall i {:trigger t[i]} :: j < i <= k ==> NameFree(t[i].docker, STORAGE)
  }

  ghost predicate VacantNow(w: World, t: seq<State>, es: seq<Event>, j: nat, k: nat, prior: Id)
    requires |t| == |es| + 1 && k <= |es| && Gone(t, es, j, k, prior)
  {
    && Vacant(w, t[k], w.versionOf(t[j].docker[prior].image), t[j].disk.nodeImage, DiedSince(es, j, k))
    && NotAbove(w, Installs(w, t[j].disk), w.versionOf(t[j].docker[prior].image))
  }

  lemma {:induction false} StaysVacant(w: World, t: seq<State>, es: seq<Event>, j: nat, k: nat, prior: Id)
    requires HonestRun(w, t, es) && k <= |es| && InOrder(es, k) && Gone(t, es, j, k, prior)
    ensures VacantNow(w, t, es, j, k, prior)
    decreases k
  {
    if k == j + 1 {
      BecomesVacant(w, t, es, j, prior);
    } else {
      StaysVacant(w, t, es, j, k - 1, prior);
      VacantAt(w, t, es, j, k - 1, prior);
    }
  }

  lemma BecomesVacant(w: World, t: seq<State>, es: seq<Event>, j: nat, prior: Id)
    requires HonestRun(w, t, es) && j < |es| && InOrder(es, j + 1) && Gone(t, es, j, j + 1, prior)
    ensures VacantNow(w, t, es, j, j + 1, prior)
  {
    RunKeepsSound(w, t, es, j);
    StepAt(w, t, es, j);
    RemovalLeavesVacant(w, t[j], t[j + 1], prior);
    assert !DiedSince(es, j, j + 1);
  }

  lemma VacantAt(w: World, t: seq<State>, es: seq<Event>, j: nat, k: nat, prior: Id)
    requires HonestRun(w, t, es) && k < |es| && InOrder(es, k + 1) && Gone(t, es, j, k + 1, prior)
    requires j < k && VacantNow(w, t, es, j, k, prior)
    ensures VacantNow(w, t, es, j, k + 1, prior)
  {
    RunKeepsSound(w, t, es, k);
    StepAt(w, t, es, k);
    InOrderKeepsUpdate(w, t, es, k);
    NextDeath(es, j, k);
    assert WellNamed(t[k].docker) && NameFree(t[k + 1].docker, STORAGE);
    StepKeepsVacant(w, t[k], es[k], t[k + 1], w.versionOf(t[j].docker[prior].image), t[j].disk.nodeImage,
                    DiedSince(es, j, k));
  }

  /**
   When does the installed version fall?  A storage container keeps its image while it
   exists, so only from one that is removed to the next.  The next is older exactly if the
   file still named an older image when the old one was removed, and it is not the daemon
   that starts it, or the daemon has died in between.
   */
  lemma InstalledFallsIff(w: World, t: seq<State>, es: seq<Event>, j: nat, k: nat, prior: Id, next: Id)
    requires HonestRun(w, t, es) && k < |es| && InOrder(es, k)
    requires Gone(t, es, j, k, prior) && Named(t[k + 1].docker, next, STORAGE)
    ensures var was, now := w.versionOf(t[j].docker[prior].image), w.versionOf(t[k + 1].docker[next].image);
            Below(w, now, was) <==> Below(w, Installs(w, t[j].disk), was) && (es[k].CliStart? || DiedSince(es, j, k))
  {
    StaysVacant(w, t, es, j, k, prior);
    RunKeepsSound(w, t, es, k);
    StepAt(w, t, es, k);
    StepMovesHolder(w, t[k], es[k], t[k + 1]);
    assert !Named(t[k].docker, next, STORAGE);
  }

  // ---------------------------------------------------------------- that it happens

  /** From an upgradable node: the old node is removed, and the user is quicker than the
      daemon. */
  lemma UserIsQuicker(w: World, s: State, node: Id) returns (t: seq<State>, es: seq<Event>, next: Id)
    requires Upgradable(w, s, node)
    ensures Run(w, t, es) && t[0] == s && Faults(es) == 0
    ensures var end := t[|t| - 1]; Named(end.docker, next, STORAGE) && end.docker[next].image == s.disk.nodeImage
  {
    ApprovedBase(w, s, node);
    var s1 := HaltStep(w, Approved(w, s, node), node);
    var s2, assistant := RaiseStep(w, s1, node);
    var s3 := ArmedStep(w, s2, node, assistant);
    t, es, next := RemoveAndStart(w, s3.(pc := StopNode), node, assistant);
    t, es := Prepend(w, s3, AssistantReady, t, es);
    t, es := Prepend(w, s2, Acquire(assistant, node), t, es);
    t, es := Prepend(w, s1, AssistantStarted(None), t, es);
    t, es := Prepend(w, Approved(w, s, node), AssistantStopped(None), t, es);
    t, es := LeadIn(w, s, node, t, es);
  }

  lemma RemoveAndStart(w: World, s: State, node: Id, assistant: Id) returns (t: seq<State>, es: seq<Event>, next: Id)
    requires Armed(w, s, assistant) && s.pc == StopNode
    requires Named(s.docker, node, STORAGE) && Removable(s.docker[node], s.config.nodeImage)
    ensures Run(w, t, es) && t[0] == s && Faults(es) == 0
    ensures var end := t[|t| - 1]; Named(end.docker, next, STORAGE) && end.docker[next].image == s.disk.nodeImage
  {
    var s1 := StopNodeStep(w, s, node, assistant);
    var s2 := RemoveNodeStep(w, s1, node, assistant);
    t, es, next := StartRemoved(w, s2);
    t, es := Prepend(w, s1, NodeRemoved(None), t, es);
    t, es := Prepend(w, s, NodeStopped(None), t, es);
  }

  lemma StartRemoved(w: World, s: State) returns (t: seq<State>, es: seq<Event>, next: Id)
    requires Base(w, s) && NameFree(s.docker, STORAGE)
    ensures Run(w, t, es) && t[0] == s && Faults(es) == 0
    ensures var end := t[|t| - 1]; Named(end.docker, next, STORAGE) && end.docker[next].image == s.disk.nodeImage
  {
    var s1;
    s1, next := UserStart(w, s);
    t, es := Prepend(w, s, CliStart(None), [s1], []);
  }

  /**
   It happens from every upgradable node, no call failing: a hand-over, a crash before the
   new image is saved, a second release, and `dc start storage` right after the removal.
   The node then runs the image it had at the start, older than the one in between.
   */
  lemma InstalledFalls(w: World, s: State, node: Id, next: Chain)
    returns (t: seq<State>, es: seq<Event>, m: nat, mid: Id, last: Id)
    requires Initial(w, s) && Upgradable(w, s, node) && s.disk.nodeImage == s.docker[node].image && Admissible(w, next.program)
    requires var first, second := Best(w, s.config, s.chain), Best(w, s.config, next);
             && Announced(w, first.origin, first) && Contains(first.origin, "dcstorage")
             && Vouched(w.authority, next.entries, second.enclave)
             && first.enclave != second.enclave && Below(w, first.version, second.version)
    ensures Run(w, t, es) && t[0] == s && Faults(es) == 0 && m < |t|
    ensures Named(t[m].docker, mid, STORAGE) && t[m].docker[mid].image == Best(w, s.config, s.chain).origin
    ensures var end := t[|t| - 1]; Named(end.docker, last, STORAGE) && end.docker[last].image == s.disk.nodeImage
    ensures Below(w, w.versionOf(s.disk.nodeImage), w.versionOf(Best(w, s.config, s.chain).origin))
  {
    var tag := Best(w, s.config, s.chain).origin;
    var t1, es1, newId, assistant := CanHandOver(w, s, node);
    m, mid := |t1| - 1, newId;
    var t2, es2 := CrashAfterHandover(w, t1[m], tag, newId, assistant, next);
    var s2 := t2[|t2| - 1];
    assert Upgradable(w, s2, newId);
    var t3, es3;
    t3, es3, last := UserIsQuicker(w, s2, newId);
    var t4, es4 := JoinRuns(w, t2, es2, t3, es3);
    t, es := JoinRuns(w, t1, es1, t4, es4);
    assert t[m] == t1[m];
  }
}
