/** When the node is stopped for good, and when it is not: the verdict at the end of an
    upgrade, and `dc stop storage`. */
module UpgradeVerdict {
  import opened Prelude
  import opened Docker
  import opened Upgrade
  import opened UpgradeCustody
  import opened UpgradeVersions
  import opened UpgradeHazards
  import opened UpgradeInstalled

  // ---------------------------------------------------------------- the verdict

  ghost predicate SeenAt(w: World, s: State, id: Id) {
    && Named(s.docker, id, STORAGE)
    && s.local.seen == Report(w.versionOf(s.docker[id].image), w.enclaveOf(s.docker[id].image))
  }

  /** What is judged is what an existing storage container says, or that none answered. */
  ghost predicate JudgeInv(w: World, s: State) {
    && Base(w, s) && Guarded(w, s)
    && (s.pc == Judge ==> s.local.seen == Report("", "") || exists id :: SeenAt(w, s, id))
  }

  lemma EngineLeavesJudge(s: State, e: Event, m: Containers)
    requires EngineEvent(e) && EngineEnabled(s, e)
    ensures var s' := AfterEngine(s, e, m);
            s'.pc == Judge ==> s.pc == Judge && s'.local == s.local && !e.NodeRemoved?
  {
  }

  lemma PlainReachesJudge(w: World, s: State, e: Event, s': State)
    requires !EngineEvent(e) && PlainStep(w, s, e, s') && s'.pc == Judge
    ensures || (s.pc == Judge && s'.local == s.local)
            || (e.VerifyAnswered? && SeenAt(w, s', e.node))
            || s'.local.seen == Report("", "")
  {
  }

  lemma ReachesJudge(w: World, s: State, e: Event, s': State)
    requires StepBy(w, s, e, s') && s'.pc == Judge
    ensures || (s.pc == Judge && s'.local == s.local && e != NodeRemoved(None))
            || (exists id :: SeenAt(w, s', id))
            || s'.local.seen == Report("", "")
  {
    if EngineEvent(e) {
      EngineLeavesJudge(s, e, s'.docker);
    } else {
      PlainReachesJudge(w, s, e, s');
    }
  }

  lemma StepKeepsJudge(w: World, s: State, e: Event, s': State)
    requires JudgeInv(w, s) && StepBy(w, s, e, s')
    ensures JudgeInv(w, s')
  {
    StepKeepsBase(w, s, e, s');
    StepKeepsGuard(w, s, e, s');
    if s'.pc == Judge {
      StepKeepsSeen(w, s, e, s');
    }
  }

  lemma StepKeepsSeen(w: World, s: State, e: Event, s': State)
    requires JudgeInv(w, s) && StepBy(w, s, e, s') && s'.pc == Judge
    ensures s'.local.seen == Report("", "") || exists id :: SeenAt(w, s', id)
  {
    ReachesJudge(w, s, e, s');
    StepMovesHolder(w, s, e, s');
    if s.pc == Judge && s'.local == s.local && e != NodeRemoved(None) {
      SeenLasts(w, s, e, s');
    }
  }

  lemma SeenLasts(w: World, s: State, e: Event, s': State)
    requires HolderMove(s, e, s') && e != NodeRemoved(None) && s'.local == s.local
    ensures forall id :: SeenAt(w, s, id) ==> SeenAt(w, s', id)
  {
  }

  lemma JudgeAt(w: World, t: seq<State>, es: seq<Event>, k: nat)
    requires Run(w, t, es) && k < |es| && JudgeInv(w, t[k])
    ensures JudgeInv(w, t[k + 1])
  {
    assert StepBy(w, t[k], es[k], t[k + 1]);
    StepKeepsJudge(w, t[k], es[k], t[k + 1]);
  }

  lemma RunKeepsJudge(w: World, t: seq<State>, es: seq<Event>, k: nat)
    requires Run(w, t, es) && Base(w, t[0]) && t[0].pc == Idle && k < |t|
    ensures JudgeInv(w, t[k])
  {
    forall i | 0 <= i < |es| && JudgeInv(w, t[i]) ensures JudgeInv(w, t[i + 1]) {
      JudgeAt(w, t, es, i);
    }
    Lasts(t, x => JudgeInv(w, x), 0, k);
  }

  lemma Verdict(w: World, s: State, e: Event, s': State)
    requires StepBy(w, s, e, s') && (e.VerifyStopped? || e == VerifyEnded)
    ensures s.pc == Judge
    ensures e.VerifyStopped? <==> s.local.seen.version == s.local.target.version && s.local.seen.enclave != s.local.target.enclave
  {
  }

  /**
   The verdict on a new node, in every run: it is stopped only if there is a storage
   container and every one reports the version of the target and an enclave id that is not
   the target's, and left alone only if none does, unless the node never answered.
   */
  lemma OnlyWrongNodeStopped(w: World, t: seq<State>, es: seq<Event>, k: nat)
    requires Run(w, t, es) && Base(w, t[0]) && t[0].pc == Idle && k < |es|
    requires w.rank("").None?
    ensures es[k].VerifyStopped? ==> exists id :: Named(t[k].docker, id, STORAGE)
    ensures es[k].VerifyStopped? ==>
              forall id :: Named(t[k].docker, id, STORAGE) ==>
                && w.versionOf(t[k].docker[id].image) == t[k].local.target.version
                && w.enclaveOf(t[k].docker[id].image) != t[k].local.target.enclave
    ensures es[k] == VerifyEnded && t[k].local.seen != Report("", "") ==>
              forall id :: Named(t[k].docker, id, STORAGE) ==>
                || w.versionOf(t[k].docker[id].image) != t[k].local.target.version
                || w.enclaveOf(t[k].docker[id].image) == t[k].local.target.enclave
  {
    RunKeepsJudge(w, t, es, k);
    assert StepBy(w, t[k], es[k], t[k + 1]);
    if es[k].VerifyStopped? || es[k] == VerifyEnded {
      Verdict(w, t[k], es[k], t[k + 1]);
      var s := t[k];
      if s.local.seen != Report("", "") {
        var seen :| SeenAt(w, s, seen);
        forall id: Id | Named(s.docker, id, STORAGE) ensures id == seen {
          OneHolder(w, s, seen, id);
        }
      }
    }
  }

  // ---------------------------------------------------------------- the user's stop

  /** No storage container runs, and the daemon is not to start one. */
  ghost predicate Resting(w: World, s: State) {
    Base(w, s) && s.pc == Idle && !s.cmdStart && !NodeRuns(s)
  }

  lemma EngineRests(w: World, s: State, e: Event, m: Containers)
    requires Resting(w, s) && !e.CliStart? && EngineEvent(e) && EngineEnabled(s, e) && EngineRel(w, s, e, m)
    ensures var s' := AfterEngine(s, e, m); s'.pc == Idle && !s'.cmdStart && !NodeRuns(s')
  {
    assert e.CliStop?;
    StopStops(s.docker, STORAGE, m, e.err);
  }

  lemma PlainRests(w: World, s: State, e: Event, s': State)
    requires Resting(w, s) && !EngineEvent(e) && PlainStep(w, s, e, s')
    ensures s'.pc == Idle && !s'.cmdStart && s'.docker == s.docker
  {
  }

  lemma StepRests(w: World, t: seq<State>, es: seq<Event>, k: nat)
    requires Run(w, t, es) && k < |es| && Resting(w, t[k]) && !es[k].CliStart?
    ensures Resting(w, t[k + 1])
  {
    assert StepBy(w, t[k], es[k], t[k + 1]);
    StepKeepsBase(w, t[k], es[k], t[k + 1]);
    if EngineEvent(es[k]) {
      EngineRests(w, t[k], es[k], t[k + 1].docker);
    } else {
      PlainRests(w, t[k], es[k], t[k + 1]);
    }
  }

  lemma StopRests(w: World, s: State, s': State)
    requires Base(w, s) && s.pc == Idle && StepBy(w, s, CliStop(None), s')
    ensures Resting(w, s')
  {
    StepKeepsBase(w, s, CliStop(None), s');
    EngineMoves(s, CliStop(None), s'.docker);
    StopStops(s.docker, STORAGE, s'.docker, None);
  }

  lemma {:induction false} RestLasts(w: World, t: seq<State>, es: seq<Event>, k: nat)
    requires Run(w, t, es) && 0 < k < |t| && Resting(w, t[1])
    requires forall i {:trigger es[i]} :: 0 <= i < k ==> !es[i].CliStart?
    ensures Resting(w, t[k])
    decreases k
  {
    if k > 1 {
      RestLasts(w, t, es, k - 1);
      StepRests(w, t, es, k - 1);
    }
  }

  /**
   A node that the user stops between two attempts stays stopped until the user starts it:
   whatever else happens, crashes and new releases included, no storage container runs and
   no attempt begins.
   */
  lemma UserStopLasts(w: World, t: seq<State>, es: seq<Event>, k: nat)
    requires Run(w, t, es) && Base(w, t[0]) && t[0].pc == Idle && 0 < k < |t| && es[0] == CliStop(None)
    requires forall i {:trigger es[i]} :: 0 <= i < k ==> !es[i].CliStart?
    ensures t[k].pc == Idle && !t[k].cmdStart
    ensures forall id :: Named(t[k].docker, id, STORAGE) ==> !t[k].docker[id].running
  {
    assert StepBy(w, t[0], es[0], t[1]);
    StopRests(w, t[0], t[1]);
    RestLasts(w, t, es, k);
    assert !NodeRuns(t[k]);
  }
}
