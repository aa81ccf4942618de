/**
 What can go wrong on the way although every part does what it is written to do: runs from
 ordinary, healthy nodes, and the exact condition under which the harm is done.
 */
module UpgradeHazards {
  import opened Prelude
  import opened Docker
  import opened Committee
  import opened Upgrade
  import opened UpgradeCustody
  import opened UpgradeVersions
  import opened UpgradeSuccess

  // ---------------------------------------------------------------- the ignored error

  /** An attempt on an upgradable node over which an assistant still shows its flag: one
      failing stop, everything else succeeding, and the key is gone. */
  lemma StaleFlagAttempt(w: World, s: State, node: Id, assistant: Id) returns (t: seq<State>, es: seq<Event>)
    requires Upgradable(w, s, node) && assistant in s.flagged
    ensures Run(w, t, es) && t[0] == s && !Custody(t[|t| - 1])
    ensures Faults(es) == 1 && AssistantStopped(Some(Failed)) in es
  {
    var e, s5 := AssistantStopped(Some(Failed)), Approved(w, s, node);
    var s6 := s5.(pc := StartAssistant);
    ApprovedBase(w, s, node);
    assert StepBy(w, s5, e, s6) by {
      Unmoved(w, s5);
    }
    StepKeepsBase(w, s5, e, s6);
    var newId := UnusedId(s6.docker.Keys);
    t, es := StaleFlagLosesKey(w, s6, node, assistant, newId);
    t, es := Prepend(w, s5, e, t, es);
    t, es := LeadIn(w, s, node, t, es);
  }

  /** The daemon dies after the hand-over and comes back to a new release on the chain. */
  lemma CrashAfterHandover(w: World, s: State, tag: string, newId: Id, assistant: Id, next: Chain)
    returns (t: seq<State>, es: seq<Event>)
    requires Handed(w, s, tag, newId, assistant) && Admissible(w, next.program)
    ensures Run(w, t, es) && t[0] == s && Faults(es) == 0
    ensures var end := t[|t| - 1]; Base(w, end) && end == Restarted(s).(chain := next)
  {
    var s1 := Restarted(s);
    StepKeepsBase(w, s, Crash, s1);
    var s2 := ChainStep(w, s1, next);
    t, es := Prepend(w, s1, ChainMoves, [s2], []);
    t, es := Prepend(w, s, Crash, t, es);
  }

  lemma ChainStep(w: World, s: State, next: Chain) returns (s': State)
    requires Base(w, s) && Admissible(w, next.program)
    ensures StepBy(w, s, ChainMoves, s') && Base(w, s') && s' == s.(chain := next)
  {
    s' := s.(chain := next);
    assert PlainStep(w, s, ChainMoves, s');
    StepKeepsBase(w, s, ChainMoves, s');
  }

  /**
   The key can be lost from an ordinary start, no assistant showing a flag: a first upgrade
   that hands the key over, a crash of the daemon before it is done, a second release, and
   one engine call that fails, the stop whose error nobody looks at.
   */
  lemma IgnoredStopLosesKey(w: World, s: State, node: Id, next: Chain)
    requires Initial(w, s) && s.flagged == {} && Upgradable(w, s, node) && Admissible(w, next.program)
    requires var first, second := Best(w, s.config, s.chain), Best(w, s.config, next);
             && Contains(first.origin, "dcstorage")
             && Vouched(w.authority, next.entries, second.enclave)
             && w.enclaveOf(first.origin) != second.enclave
             && Below(w, w.versionOf(first.origin), second.version)
    ensures exists t, es :: && Run(w, t, es) && t[0] == s && !Custody(t[|t| - 1])
                            && Faults(es) == 1 && AssistantStopped(Some(Failed)) in es
  {
    var tag := Best(w, s.config, s.chain).origin;
    var t1, es1, newId, assistant := CanHandOver(w, s, node);
    var t2, es2 := CrashAfterHandover(w, t1[|t1| - 1], tag, newId, assistant, next);
    var s2 := t2[|t2| - 1];
    assert Upgradable(w, s2, newId);
    var t3, es3 := StaleFlagAttempt(w, s2, newId, assistant);
    var t4, es4 := JoinRuns(w, t2, es2, t3, es3);
    var t, es := JoinRuns(w, t1, es1, t4, es4);
  }

  // ---------------------------------------------------------------- the stale copy

  /**
   The version on disk can be lowered from every upgradable node that runs what is
   configured: another process reads the configuration, the upgrade runs to its end
   without a failing call, and the copy is written back.
   */
  lemma StaleSaveHappens(w: World, s: State, node: Id, p: nat) returns (t: seq<State>, es: seq<Event>)
    requires Upgradable(w, s, node) && s.config == s.disk && s.disk.nodeImage == s.docker[node].image
    requires var best := Best(w, s.config, s.chain); Announced(w, best.origin, best)
    ensures Run(w, t, es) && t[0] == s && Faults(es) == 0 && |es| > 0 && es[|es| - 1] == CliSave(p)
    ensures Below(w, Installs(w, t[|es|].disk), Installs(w, t[|es| - 1].disk))
  {
    var s1 := CopyTaken(w, s, node, p);
    var t1, es1 := HealthyUpgradeSucceeds(w, s1, node, Best(w, s.config, s.chain));
    var end := t1[|t1| - 1];
    assert Below(w, Installs(w, s.disk), Installs(w, end.disk));
    t, es := ReadAndWriteBack(w, s, s1, t1, es1, p);
  }

  lemma CopyTaken(w: World, s: State, node: Id, p: nat) returns (s': State)
    requires Upgradable(w, s, node)
    ensures StepBy(w, s, CliRead(p), s') && s' == s.(copies := s.copies[p := s.disk]) && Upgradable(w, s', node)
  {
    s' := s.(copies := s.copies[p := s.disk]);
    assert PlainStep(w, s, CliRead(p), s');
    StepKeepsBase(w, s, CliRead(p), s');
  }

  lemma ReadAndWriteBack(w: World, s: State, s1: State, t1: seq<State>, es1: seq<Event>, p: nat)
    returns (t: seq<State>, es: seq<Event>)
    requires StepBy(w, s, CliRead(p), s1) && Run(w, t1, es1) && t1[0] == s1
    requires var end := t1[|t1| - 1]; p in end.copies && end.copies[p] == s.disk
    ensures Run(w, t, es) && t[0] == s && Faults(es) == Faults(es1) && |es| > 0 && es[|es| - 1] == CliSave(p)
    ensures t[|es|].disk == s.disk && t[|es| - 1] == t1[|t1| - 1]
  {
    var t2, es2 := WriteBack(w, t1, es1, p);
    t, es := Prepend(w, s, CliRead(p), t2, es2);
  }

  lemma WriteBack(w: World, t: seq<State>, es: seq<Event>, p: nat) returns (t': seq<State>, es': seq<Event>)
    requires Run(w, t, es) && p in t[|t| - 1].copies
    ensures var end := t[|t| - 1];
            && t' == t + [end.(disk := end.copies[p])] && es' == es + [CliSave(p)] && Run(w, t', es')
    ensures Faults(es') == Faults(es)
  {
    var end := t[|t| - 1];
    var last := end.(disk := end.copies[p]);
    assert PlainStep(w, end, CliSave(p), last);
    var t0, es0 := Prepend(w, end, CliSave(p), [last], []);
    assert t0[1..] == [last] && Faults(es0) == 0;
    t', es' := JoinRuns(w, t, es, t0, es0);
  }

  // ---------------------------------------------------------------- the lockout

  ghost predicate Stopped(s: State, id: Id) {
    Named(s.docker, id, STORAGE) && !s.docker[id].running
  }

  /** Between attempts, the storage container is stopped and no start can want its image:
      not the user's, not after any other process has written its copy, and not the daemon's
      either, because it has another image in mind or has been told not to start the node. */
  ghost predicate LockedOut(s: State, id: Id) {
    && Stopped(s, id) && s.pc in {Idle, Ensure, Query}
    && s.docker[id].image != s.disk.nodeImage
    && (forall p :: p in s.copies ==> s.docker[id].image != s.copies[p].nodeImage)
    && (s.docker[id].image == s.config.nodeImage ==> !s.cmdStart && s.pc != Ensure)
  }

  lemma OneHolder(w: World, s: State, id: Id, other: Id)
    requires Base(w, s) && Named(s.docker, id, STORAGE) && Named(s.docker, other, STORAGE)
    ensures other == id
  {
    assert "/" + STORAGE in s.docker[id].names && "/" + STORAGE in s.docker[other].names;
  }

  lemma EngineKeepsLockout(w: World, s: State, e: Event, m: Containers, id: Id)
    requires Base(w, s) && LockedOut(s, id) && EngineEvent(e) && EngineEnabled(s, e) && EngineRel(w, s, e, m)
    ensures LockedOut(AfterEngine(s, e, m), id)
  {
    if e.AssistLaunched? {
      AssistantStart(w, s, m, e.err);
      assert !Named(s.docker, id, ASSISTANT);
    } else if e.CliStop? {
      StopStops(s.docker, STORAGE, m, e.err);
    } else {
      var image := if e.CliStart? then s.disk.nodeImage else s.config.nodeImage;
      assert ImageClash(s.docker, STORAGE, image);
      StartRespectsOtherImage(s.docker, STORAGE, image, NODE_ARGS, m, e.err);
    }
  }

  lemma PlainKeepsLockout(w: World, s: State, e: Event, s': State, id: Id)
    requires Base(w, s) && LockedOut(s, id) && !EngineEvent(e) && PlainStep(w, s, e, s')
    ensures LockedOut(s', id)
  {
    forall other: Id | Named(s.docker, other, STORAGE) ensures other == id {
      OneHolder(w, s, id, other);
    }
  }

  lemma StepKeepsLockout(w: World, t: seq<State>, es: seq<Event>, k: nat, id: Id)
    requires Run(w, t, es) && k < |es| && Base(w, t[k]) && LockedOut(t[k], id)
    ensures Base(w, t[k + 1]) && LockedOut(t[k + 1], id)
  {
    assert StepBy(w, t[k], es[k], t[k + 1]);
    StepKeepsBase(w, t[k], es[k], t[k + 1]);
    if EngineEvent(es[k]) {
      EngineKeepsLockout(w, t[k], es[k], t[k + 1].docker, id);
    } else {
      PlainKeepsLockout(w, t[k], es[k], t[k + 1], id);
    }
  }

  lemma {:induction false} LockoutLasts(w: World, t: seq<State>, es: seq<Event>, k: nat, id: Id)
    requires Run(w, t, es) && k < |t| && Base(w, t[0]) && LockedOut(t[0], id)
    ensures Base(w, t[k]) && LockedOut(t[k], id)
  {
    if k > 0 {
      LockoutLasts(w, t, es, k - 1, id);
      StepKeepsLockout(w, t, es, k - 1, id);
    }
  }

  ghost predicate NodeRuns(s: State) {
    exists id :: Named(s.docker, id, STORAGE) && s.docker[id].running
  }

  ghost predicate CanRunAgain(w: World, s: State) {
    exists t, es :: LeadsToRunning(w, s, t, es)
  }

  ghost predicate LeadsToRunning(w: World, s: State, t: seq<State>, es: seq<Event>) {
    Run(w, t, es) && t[0] == s && NodeRuns(t[|t| - 1])
  }

  /** Some start that wants the image of the stopped container. */
  lemma StartsAgain(w: World, s: State, id: Id, e: Event)
    requires Stopped(s, id) && EngineEvent(e) && EngineEnabled(s, e)
    requires || (e == CliStart(None) && s.docker[id].image == s.disk.nodeImage)
             || (e == EnsureStarted(None) && s.docker[id].image == s.config.nodeImage)
    ensures CanRunAgain(w, s)
  {
    var m := s.docker[id := s.docker[id].(running := true)];
    assert Reused(s.docker, STORAGE, s.docker[id].image, m);
    var s' := AfterEngine(s, e, m);
    assert s'.docker == m && StepBy(w, s, e, s');
    assert Named(s'.docker, id, STORAGE) && NodeRuns(s');
    var t, es := Prepend(w, s, e, [s'], []);
    assert LeadsToRunning(w, s, t, es);
  }

  lemma OneStepBack(w: World, s: State, e: Event, s': State)
    requires StepBy(w, s, e, s') && CanRunAgain(w, s')
    ensures CanRunAgain(w, s)
  {
    var t, es :| LeadsToRunning(w, s', t, es);
    var t', es' := Prepend(w, s, e, t, es);
    assert LeadsToRunning(w, s, t', es');
  }

  /** The daemon's own start, if it still means this image and is to start the node. */
  lemma DaemonStartsAgain(w: World, s: State, id: Id)
    requires Base(w, s) && Stopped(s, id) && s.docker[id].image == s.config.nodeImage
    requires s.pc == Ensure || (s.cmdStart && s.pc in {Idle, Query})
    ensures CanRunAgain(w, s)
  {
    if s.pc == Ensure {
      StartsAgain(w, s, id, EnsureStarted(None));
    } else if s.pc == Idle {
      StartsAgain(w, s.(pc := Ensure), id, EnsureStarted(None));
      OneStepBack(w, s, Tick, s.(pc := Ensure));
    } else {
      AttemptEnds(w, s, id);
    }
  }

  /** A version query that goes unanswered ends the attempt; the next one starts the node. */
  lemma AttemptEnds(w: World, s: State, id: Id)
    requires Base(w, s) && Stopped(s, id) && s.docker[id].image == s.config.nodeImage && s.cmdStart && s.pc == Query
    ensures CanRunAgain(w, s)
  {
    var s' := s.(pc := Idle, errCount := if s.errCount <= ASSIST_LIMIT then s.errCount + 1 else 0);
    StartsAgain(w, s'.(pc := Ensure), id, EnsureStarted(None));
    OneStepBack(w, s', Tick, s'.(pc := Ensure));
    var e := QueryEnds(w, s, s');
    OneStepBack(w, s, e, s');
  }

  lemma QueryEnds(w: World, s: State, s': State) returns (e: Event)
    requires Base(w, s) && s.pc == Query
    requires s' == s.(pc := Idle, errCount := if s.errCount <= ASSIST_LIMIT then s.errCount + 1 else 0)
    ensures StepBy(w, s, e, s')
  {
    if s.errCount <= ASSIST_LIMIT {
      e := QueryFailed;
    } else {
      e := AssistLaunched(Some(Failed));
      Unmoved(w, s);
      assert EngineStep(w, s, e, s');
    }
  }

  lemma NoWayOut(w: World, s: State, t: seq<State>, es: seq<Event>, id: Id)
    requires Base(w, s) && LockedOut(s, id)
    ensures !LeadsToRunning(w, s, t, es)
  {
    if Run(w, t, es) && t[0] == s {
      LockoutLasts(w, t, es, |t| - 1, id);
      var end := t[|t| - 1];
      forall other: Id | Named(end.docker, other, STORAGE) ensures other == id {
        OneHolder(w, end, id, other);
      }
    }
  }

  /**
   A stopped storage container can never run again, whatever the user, the daemon and the
   other services do, exactly if it is locked out.
   */
  lemma NeverAgainIffLockedOut(w: World, s: State, id: Id)
    requires Base(w, s) && Stopped(s, id) && s.pc in {Idle, Ensure, Query}
    ensures !CanRunAgain(w, s) <==> LockedOut(s, id)
  {
    if LockedOut(s, id) {
      if CanRunAgain(w, s) {
        var t, es :| LeadsToRunning(w, s, t, es);
        NoWayOut(w, s, t, es, id);
      }
    } else if s.docker[id].image == s.disk.nodeImage {
      StartsAgain(w, s, id, CliStart(None));
    } else if p :| p in s.copies && s.docker[id].image == s.copies[p].nodeImage {
      var s' := s.(disk := s.copies[p]);
      StartsAgain(w, s', id, CliStart(None));
      OneStepBack(w, s, CliSave(p), s');
    } else {
      DaemonStartsAgain(w, s, id);
    }
  }

  /** From the hand-over: the daemon dies, and the user stops the node. */
  lemma CrashThenStop(w: World, s: State, tag: string, newId: Id, assistant: Id) returns (t: seq<State>, es: seq<Event>)
    requires Handed(w, s, tag, newId, assistant) && s.disk.nodeImage != tag
    requires forall p :: p in s.copies ==> s.copies[p].nodeImage != tag
    ensures Run(w, t, es) && t[0] == s && Faults(es) == 0 && LockedOut(t[|t| - 1], newId)
  {
    var s1 := Restarted(s);
    var s2 := UserStop(w, s1, newId);
    t, es := Prepend(w, s1, CliStop(None), [s2], []);
    t, es := Prepend(w, s, Crash, t, es);
  }

  /** `dc stop storage` on a running node. */
  lemma UserStop(w: World, s: State, node: Id) returns (s': State)
    requires Named(s.docker, node, STORAGE) && s.docker[node].running
    ensures StepBy(w, s, CliStop(None), s') && s'.docker == s.docker[node := s.docker[node].(running := false)]
    ensures s' == s.(docker := s'.docker, keyed := s'.keyed, flagged := s'.flagged, cmdStart := false)
  {
    var m := s.docker[node := s.docker[node].(running := false)];
    assert StopRel(s.docker, STORAGE, m, None);
    s' := AfterEngine(s, CliStop(None), m);
    assert s'.docker == m;
  }

  /** It happens from every upgradable node that runs what is configured: an upgrade, a
      crash before the new image is saved, and `dc stop storage`; no call fails. */
  lemma LockoutHappens(w: World, s: State, node: Id) returns (t: seq<State>, es: seq<Event>, newId: Id)
    requires Upgradable(w, s, node) && s.config == s.disk && s.disk.nodeImage == s.docker[node].image
    requires forall p :: p in s.copies ==> s.copies[p].nodeImage == s.disk.nodeImage
    requires var best := Best(w, s.config, s.chain); Announced(w, best.origin, best)
    ensures Run(w, t, es) && t[0] == s && Faults(es) == 0 && LockedOut(t[|t| - 1], newId)
  {
    var tag := Best(w, s.config, s.chain).origin;
    var assistant;
    t, es, newId, assistant := CanHandOver(w, s, node);
    var t2, es2 := CrashThenStop(w, t[|t| - 1], tag, newId, assistant);
    t, es := JoinRuns(w, t, es, t2, es2);
  }
}
