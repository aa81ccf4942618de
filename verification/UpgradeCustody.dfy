/** Who holds the node key, in every state of every run of the upgrade. */
module UpgradeCustody {
  import opened Prelude
  import opened Docker
  import opened Committee
  import opened Upgrade

  /**
   The key at each stage.  The storage container has it from the moment the node has
   answered until it is removed, and again from the moment the hand-over is confirmed;
   the assistant has it from the moment it says so until it is stopped.  In between the
   assistant's flag says nothing it should not.
   */
  ghost predicate KeyInv(s: State) {
    KeyAt(s.pc, StorageHolds(s), AssistantHolds(s), s.flagged != {})
  }

  predicate KeyAt(pc: Pc, storage: bool, assistant: bool, flagUp: bool) {
    && (storage || assistant)
    && (NodeHasKey(pc) ==> storage)
    && (AssistantHasKey(pc) ==> assistant)
    && (FlagDown(pc) ==> !flagUp)
    && (pc in {StartNode, AwaitNode} && flagUp ==> storage)
  }

  predicate NodeHasKey(pc: Pc) {
    pc !in {Idle, Ensure, Query, StartNode, AwaitNode}
  }

  predicate AssistantHasKey(pc: Pc) {
    pc in {StopNode, RemoveNode, StartNode, AwaitNode}
  }

  predicate FlagDown(pc: Pc) {
    pc in {StartAssistant, AwaitAssistant, StopNode, RemoveNode}
  }

  /** The first stop of an attempt did what it is there for: no assistant is left running
      with its flag up.  The source ignores whether it did. */
  predicate StopEffective(e: Event, s': State) {
    e.AssistantStopped? ==> s'.flagged == {}
  }

  /** A stop that reports success is effective. */
  lemma SuccessfulStopIsEffective(w: World, s: State, e: Event, s': State)
    requires Base(w, s) && StepBy(w, s, e, s') && (e.AssistantStopped? ==> e.err.None?)
    ensures StopEffective(e, s')
  {
    if e.AssistantStopped? {
      AssistantStop(w, s, s'.docker, e.err);
    }
  }

  // ---------------------------------------------------------------- one step

  /** Custody is a matter of containers and keys only. */
  lemma SameKeys(s: State, s': State)
    requires s'.docker == s.docker && s'.keyed == s.keyed
    ensures (StorageHolds(s) <==> StorageHolds(s')) && (AssistantHolds(s) <==> AssistantHolds(s'))
  {
  }

  /** What an engine event does to the keys, apart from the removal. */
  lemma StorageEffect(w: World, s: State, e: Event, m: Containers)
    requires Base(w, s) && StorageEvent(e) && EngineRel(w, s, e, m)
    ensures var s' := WithDocker(s, m);
            && DockerOk(w, m, s'.keyed, s'.flagged) && s'.flagged == s.flagged
            && (StorageHolds(s) ==> StorageHolds(s')) && (AssistantHolds(s) ==> AssistantHolds(s'))
  {
    var image := StorageGrows(w, s, e, m);
    StorageOp(w, s, m, image);
  }

  lemma StorageGrows(w: World, s: State, e: Event, m: Containers) returns (image: string)
    requires Base(w, s) && StorageEvent(e) && EngineRel(w, s, e, m)
    ensures Grows(s.docker, m, STORAGE, image)
    ensures image == if e.CliStart? then s.disk.nodeImage else s.config.nodeImage
  {
    image := if e.CliStart? then s.disk.nodeImage else s.config.nodeImage;
    if e.EnsureStarted? || e.NodeStarted? || e.CliStart? {
      StartGrows(s.docker, STORAGE, false, image, NODE_ARGS, m, e.err);
    } else {
      StopGrows(s.docker, STORAGE, m, e.err, image);
    }
  }

  lemma AssistantEffect(w: World, s: State, e: Event, m: Containers)
    requires Base(w, s) && AssistantEvent(e) && EngineRel(w, s, e, m)
    ensures var s' := WithDocker(s, m);
            && DockerOk(w, m, s'.keyed, s'.flagged) && s'.flagged <= s.flagged
            && (StorageHolds(s) ==> StorageHolds(s'))
            && (e.AssistLaunched? || e.AssistantStarted? ==>
                  s'.flagged == s.flagged && (AssistantHolds(s) ==> AssistantHolds(s')))
  {
    if e.AssistLaunched? || e.AssistantStarted? {
      AssistantStart(w, s, m, e.err);
    } else {
      AssistantStop(w, s, m, e.err);
    }
  }

  /** What an engine event leaves alone, and where it leads. */
  predicate EngineMove(s: State, s': State) {
    && s'.disk == s.disk && s'.chain == s.chain && s'.copies == s.copies && s'.issued == s.issued && s'.local == s.local
    && (s'.config == s.config ||
        (s.pc == RemoveNode && s'.pc == StartNode && s'.config == s.config.(nodeImage := s.local.tag)))
    && (s'.pc in {Idle, Ensure, Query, Decide, Fetch} || s.pc !in {Idle, Ensure, Query, Decide, Fetch})
    && (s'.pc == s.pc || s'.pc !in {Decide, Fetch})
  }

  lemma EngineMoves(s: State, e: Event, m: Containers)
    requires EngineEvent(e) && EngineEnabled(s, e)
    ensures var s', d := AfterEngine(s, e, m), WithDocker(s, m);
            EngineMove(s, s') && s'.docker == m && s'.keyed == d.keyed && s'.flagged == d.flagged
  {
  }

  lemma MoveKeepsBase(w: World, s: State, s': State)
    requires Base(w, s) && EngineMove(s, s') && s'.keyed <= s.keyed && DockerOk(w, s'.docker, s'.keyed, s'.flagged)
    ensures Base(w, s')
  {
  }

  lemma EngineBase(w: World, s: State, e: Event, m: Containers)
    requires Base(w, s) && EngineEvent(e) && EngineEnabled(s, e)
    requires var d := WithDocker(s, m); DockerOk(w, m, d.keyed, d.flagged)
    ensures Base(w, AfterEngine(s, e, m))
  {
    EngineMoves(s, e, m);
    MoveKeepsBase(w, s, AfterEngine(s, e, m));
  }

  lemma StorageStepKeeps(w: World, s: State, e: Event, m: Containers)
    requires Base(w, s) && StorageEvent(e) && EngineEnabled(s, e) && EngineRel(w, s, e, m)
    ensures Base(w, AfterEngine(s, e, m)) && (KeyInv(s) ==> KeyInv(AfterEngine(s, e, m)))
  {
    StorageEffect(w, s, e, m);
    EngineBase(w, s, e, m);
    if KeyInv(s) {
      EngineKey(s, e, m);
    }
  }

  lemma AssistantStepKeeps(w: World, s: State, e: Event, m: Containers)
    requires Base(w, s) && AssistantEvent(e) && EngineEnabled(s, e) && EngineRel(w, s, e, m)
    requires StopEffective(e, AfterEngine(s, e, m))
    ensures Base(w, AfterEngine(s, e, m)) && (KeyInv(s) ==> KeyInv(AfterEngine(s, e, m)))
  {
    AssistantEffect(w, s, e, m);
    EngineBase(w, s, e, m);
    if KeyInv(s) {
      EngineKey(s, e, m);
    }
  }

  lemma RemovalKeeps(w: World, s: State, e: Event, m: Containers)
    requires Base(w, s) && e.NodeRemoved? && EngineEnabled(s, e) && EngineRel(w, s, e, m)
    ensures Base(w, AfterEngine(s, e, m)) && (KeyInv(s) ==> KeyInv(AfterEngine(s, e, m)))
  {
    NodeRemoval(w, s, m, e.err);
    EngineBase(w, s, e, m);
    if KeyInv(s) {
      EngineKey(s, e, m);
    }
  }

  /** From the stage before to the stage after, given what became of the keys. */
  lemma EngineKey(s: State, e: Event, m: Containers)
    requires EngineEvent(e) && EngineEnabled(s, e) && KeyInv(s)
    requires StopEffective(e, AfterEngine(s, e, m))
    requires WithDocker(s, m).flagged <= s.flagged
    requires StorageHolds(s) && !(e.NodeRemoved? && e.err.None?) ==> StorageHolds(WithDocker(s, m))
    requires AssistantHolds(s) && !e.AssistantStopped? && !e.AssistantRetired? ==> AssistantHolds(WithDocker(s, m))
    ensures KeyInv(AfterEngine(s, e, m))
  {
    var d, s' := WithDocker(s, m), AfterEngine(s, e, m);
    SameKeys(d, s');
    assert s'.flagged == d.flagged;
    KeyMoves(s.pc, e, s'.pc, StorageHolds(s), AssistantHolds(s), s.flagged != {},
             StorageHolds(s'), AssistantHolds(s'), s'.flagged != {});
  }

  lemma KeyMoves(pc: Pc, e: Event, pc': Pc, storage: bool, assistant: bool, flagUp: bool,
                 storage': bool, assistant': bool, flagUp': bool)
    requires EngineEvent(e) && KeyAt(pc, storage, assistant, flagUp)
    requires flagUp' ==> flagUp
    requires storage && !(e.NodeRemoved? && e.err.None?) ==> storage'
    requires assistant && !e.AssistantStopped? && !e.AssistantRetired? ==> assistant'
    requires e.AssistantStopped? ==> !flagUp'
    requires match e
             case EnsureStarted(err) => pc == Ensure && pc' in {Query, Idle}
             case AssistLaunched(_) => pc == Query && pc' == Idle
             case AssistantStopped(_) => pc == StopAssistant && pc' == StartAssistant
             case AssistantStarted(_) => pc == StartAssistant && pc' == AwaitAssistant
             case NodeStopped(_) => pc == StopNode && pc' == RemoveNode
             case NodeRemoved(err) => pc == RemoveNode && pc' == if err.Some? then Idle else StartNode
             case NodeStarted(_) => pc == StartNode && pc' in {AwaitNode, Idle}
             case AssistantRetired(_) => pc == Retire && pc' == Save
             case VerifyStopped(_) => pc == Judge && pc' == Idle
             case CliStart(_) => pc' == pc
             case CliStop(_) => pc' == pc
    ensures KeyAt(pc', storage', assistant', flagUp')
  {
  }

  lemma ExchangeKeeps(w: World, s: State, e: Event, s': State)
    requires Base(w, s) && KeyEvent(e) && PlainStep(w, s, e, s')
    ensures Base(w, s') && (KeyInv(s) ==> KeyInv(s'))
  {
    assert s.keyed <= s'.keyed;
    if e.Handover? {
      assert Named(s'.docker, e.node, STORAGE) && e.node in s'.keyed;
      forall id: Id | Named(s.docker, id, STORAGE) ensures id !in s.keyed {
        assert "/" + STORAGE in s.docker[id].names && "/" + STORAGE in s.docker[e.node].names;
      }
    } else if StorageHolds(s) {
      var id: Id :| Named(s.docker, id, STORAGE) && id in s.keyed;
      assert Named(s'.docker, id, STORAGE) && id in s'.keyed;
    }
    if AssistantHolds(s) {
      var id: Id :| Named(s.docker, id, ASSISTANT) && s.docker[id].running && id in s.keyed;
      assert Named(s'.docker, id, ASSISTANT) && id in s'.keyed;
    }
  }

  lemma PlainStepKeeps(w: World, s: State, e: Event, s': State)
    requires Base(w, s) && !EngineEvent(e) && !KeyEvent(e) && PlainStep(w, s, e, s')
    ensures Base(w, s') && (KeyInv(s) ==> KeyInv(s'))
  {
    PlainBase(w, s, e, s');
    if KeyInv(s) {
      PlainKey(w, s, e, s');
    }
  }

  lemma PlainFrame(w: World, s: State, e: Event, s': State)
    requires !EngineEvent(e) && !KeyEvent(e) && PlainStep(w, s, e, s')
    ensures s'.docker == s.docker && s'.keyed == s.keyed && s'.flagged == s.flagged
  {
  }

  lemma PlainBase(w: World, s: State, e: Event, s': State)
    requires Base(w, s) && !EngineEvent(e) && !KeyEvent(e) && PlainStep(w, s, e, s')
    ensures Base(w, s')
  {
    PlainFrame(w, s, e, s');
  }

  /** Where the plain steps of the daemon lead; a crash leads back to the start, and the
      environment does not move it. */
  predicate PlainMove(e: Event, pc: Pc, pc': Pc)
    requires !EngineEvent(e)
  {
    match e
    case Tick => pc == Idle && pc' == Ensure
    case FoundRunning => pc == Ensure && pc' == Query
    case QueryFailed => pc == Query && pc' == Idle
    case QueryAnswered(_) => pc == Query && pc' == Decide
    case ChainUnread => pc == Decide && pc' == Idle
    case Decided(_, _) => pc == Decide && pc' in {Fetch, Idle}
    case FetchFailed => pc == Fetch && pc' == Idle
    case Fetched(_) => pc == Fetch && pc' == StopAssistant
    case AssistantReady => pc == AwaitAssistant && pc' == StopNode
    case AssistantTimedOut => pc == AwaitAssistant && pc' == Idle
    case NodeReady => pc == AwaitNode && pc' == Retire
    case NodeTimedOut => pc == AwaitNode && pc' == Idle
    case Saved => pc == Save && pc' == Verify
    case VerifyAnswered(_) => pc == Verify && pc' == Judge
    case VerifyTimedOut => pc == Verify && pc' == Judge
    case VerifyEnded => pc == Judge && pc' == Idle
    case Crash => pc' == Idle
    case _ => pc' == pc
  }

  lemma PlainMoves(pc: Pc, e: Event, pc': Pc, storage: bool, assistant: bool, flagUp: bool)
    requires !EngineEvent(e) && PlainMove(e, pc, pc') && KeyAt(pc, storage, assistant, flagUp)
    requires e.QueryAnswered? ==> storage
    requires e.AssistantReady? ==> assistant
    requires e.NodeReady? ==> flagUp
    ensures KeyAt(pc', storage, assistant, flagUp)
  {
  }

  lemma PlainStepMoves(w: World, s: State, e: Event, s': State)
    requires !EngineEvent(e) && PlainStep(w, s, e, s')
    ensures PlainMove(e, s.pc, s'.pc)
    ensures e.QueryAnswered? ==> StorageHolds(s)
    ensures e.AssistantReady? ==> AssistantHolds(s)
    ensures e.NodeReady? ==> s.flagged != {}
  {
    if e.QueryAnswered? {
      assert Named(s.docker, e.node, STORAGE) && e.node in s.keyed;
    }
  }

  lemma PlainKey(w: World, s: State, e: Event, s': State)
    requires KeyInv(s) && !EngineEvent(e) && !KeyEvent(e) && PlainStep(w, s, e, s')
    ensures KeyInv(s')
  {
    PlainFrame(w, s, e, s');
    SameKeys(s, s');
    PlainStepMoves(w, s, e, s');
    PlainMoves(s.pc, e, s'.pc, StorageHolds(s), AssistantHolds(s), s.flagged != {});
  }

  lemma StepKeepsKey(w: World, s: State, e: Event, s': State)
    requires Base(w, s) && StepBy(w, s, e, s') && StopEffective(e, s')
    ensures Base(w, s') && (KeyInv(s) ==> KeyInv(s'))
  {
    if StorageEvent(e) {
      StorageStepKeeps(w, s, e, s'.docker);
    } else if AssistantEvent(e) {
      AssistantStepKeeps(w, s, e, s'.docker);
    } else if e.NodeRemoved? {
      RemovalKeeps(w, s, e, s'.docker);
    } else if KeyEvent(e) {
      ExchangeKeeps(w, s, e, s');
    } else {
      PlainStepKeeps(w, s, e, s');
    }
  }

  /** The basic invariant survives every step, effective or not. */
  lemma StepKeepsBase(w: World, s: State, e: Event, s': State)
    requires Base(w, s) && StepBy(w, s, e, s')
    ensures Base(w, s')
  {
    if StorageEvent(e) {
      StorageEffect(w, s, e, s'.docker);
      EngineBase(w, s, e, s'.docker);
    } else if AssistantEvent(e) {
      AssistantEffect(w, s, e, s'.docker);
      EngineBase(w, s, e, s'.docker);
    } else if e.NodeRemoved? {
      NodeRemoval(w, s, s'.docker, e.err);
      EngineBase(w, s, e, s'.docker);
    } else if KeyEvent(e) {
      ExchangeKeeps(w, s, e, s');
    } else {
      PlainBase(w, s, e, s');
    }
  }

  // ---------------------------------------------------------------- whole runs

  /** The daemon starts over any containers it may find, as long as somebody has the key. */
  ghost predicate Initial(w: World, s: State) {
    Base(w, s) && s.pc == Idle && s.config == s.disk && Custody(s)
  }

  ghost predicate StopsEffective(t: seq<State>, es: seq<Event>) {
    |t| == |es| + 1 && forall k {:trigger es[k]} :: 0 <= k < |es| ==> StopEffective(es[k], t[k + 1])
  }

  ghost predicate Safe(w: World, s: State) {
    Base(w, s) && KeyInv(s)
  }

  lemma StepKeepsSafe(w: World, t: seq<State>, es: seq<Event>, k: nat)
    requires Run(w, t, es) && StopsEffective(t, es) && k < |es| && Safe(w, t[k])
    ensures Safe(w, t[k + 1])
  {
    assert StepBy(w, t[k], es[k], t[k + 1]) && StopEffective(es[k], t[k + 1]);
    StepKeepsKey(w, t[k], es[k], t[k + 1]);
  }

  lemma RunKeepsKey(w: World, t: seq<State>, es: seq<Event>, from: nat, k: nat)
    requires Run(w, t, es) && StopsEffective(t, es) && from <= k < |t| && Safe(w, t[from])
    ensures Safe(w, t[k])
  {
    forall i | from <= i < |es| && Safe(w, t[i]) ensures Safe(w, t[i + 1]) {
      StepKeepsSafe(w, t, es, i);
    }
    Lasts(t, x => Safe(w, x), from, k);
  }

  /** What each step of a run keeps lasts. */
  lemma {:induction false} Lasts(t: seq<State>, P: State -> bool, from: nat, k: nat)
    requires from <= k < |t| && P(t[from])
    requires forall i {:trigger P(t[i])} :: from <= i < |t| - 1 && P(t[i]) ==> P(t[i + 1])
    ensures P(t[k])
    decreases k
  {
    if k > from {
      Lasts(t, P, from, k - 1);
      assert P(t[k - 1]);
    }
  }

  /**
   Key custody.  In every state of every run, whatever step fails, whatever the polls
   answer, whenever the daemon dies or the user starts and stops the node, the node key
   is with the storage container or with a running assistant.  To be replaced, the node is
   stopped and removed only while the assistant has it, and the assistant is retired only
   once the storage container has it back.
   */
  lemma KeyCustody(w: World, t: seq<State>, es: seq<Event>, k: nat)
    requires Run(w, t, es) && StopsEffective(t, es) && Initial(w, t[0]) && k < |t|
    ensures Custody(t[k])
    ensures t[k].pc in {StopNode, RemoveNode, StartNode, AwaitNode} ==> AssistantHolds(t[k])
    ensures t[k].pc in {StopAssistant, StartAssistant, Retire, Save} ==> StorageHolds(t[k])
  {
    RunKeepsKey(w, t, es, 0, k);
  }

  // ---------------------------------------------------------------- from a clean install

  /** Until there is a key no attempt gets past its version query; from then on the key is
      where it should be. */
  ghost predicate SafeOnceIssued(w: World, s: State) {
    Base(w, s) && if s.issued then KeyInv(s) else s.pc in {Idle, Ensure, Query}
  }

  /** What happens before there is a key: no answer of the node, no hand-over, and the
      first container to run gets one. */
  lemma UnissuedMoves(w: World, s: State, e: Event, s': State)
    requires Base(w, s) && !s.issued && s.pc in {Idle, Ensure, Query} && StepBy(w, s, e, s')
    ensures s'.pc in {Idle, Ensure, Query} && (s'.issued <==> e.KeyIssued?) && (e.KeyIssued? ==> StorageHolds(s'))
  {
    if EngineEvent(e) {
      UnissuedEngine(s, e, s'.docker);
    } else {
      UnissuedPlain(w, s, e, s');
    }
  }

  lemma UnissuedEngine(s: State, e: Event, m: Containers)
    requires EngineEvent(e) && EngineEnabled(s, e) && s.pc in {Idle, Ensure, Query}
    ensures AfterEngine(s, e, m).pc in {Idle, Ensure, Query} && AfterEngine(s, e, m).issued == s.issued
  {
  }

  lemma UnissuedPlain(w: World, s: State, e: Event, s': State)
    requires !s.issued && s.keyed == {} && s.pc in {Idle, Ensure, Query} && !EngineEvent(e) && PlainStep(w, s, e, s')
    ensures s'.pc in {Idle, Ensure, Query} && (s'.issued <==> e.KeyIssued?) && (e.KeyIssued? ==> StorageHolds(s'))
  {
    if e.KeyIssued? {
      assert Named(s'.docker, e.node, STORAGE) && e.node in s'.keyed;
    }
  }

  lemma IssuedStays(w: World, s: State, e: Event, s': State)
    requires StepBy(w, s, e, s') && s.issued
    ensures s'.issued
  {
    if EngineEvent(e) {
      EngineMoves(s, e, s'.docker);
    } else {
      PlainIssued(w, s, e, s');
    }
  }

  lemma PlainIssued(w: World, s: State, e: Event, s': State)
    requires !EngineEvent(e) && PlainStep(w, s, e, s') && s.issued
    ensures s'.issued
  {
  }

  lemma UnissuedStep(w: World, s: State, e: Event, s': State)
    requires SafeOnceIssued(w, s) && !s.issued && StepBy(w, s, e, s')
    ensures SafeOnceIssued(w, s')
  {
    StepKeepsBase(w, s, e, s');
    UnissuedMoves(w, s, e, s');
  }

  lemma StepKeepsIssued(w: World, t: seq<State>, es: seq<Event>, k: nat)
    requires Run(w, t, es) && StopsEffective(t, es) && k < |es| && SafeOnceIssued(w, t[k])
    ensures SafeOnceIssued(w, t[k + 1]) && (t[k].issued ==> t[k + 1].issued)
  {
    assert StepBy(w, t[k], es[k], t[k + 1]) && StopEffective(es[k], t[k + 1]);
    if t[k].issued {
      IssuedStays(w, t[k], es[k], t[k + 1]);
      StepKeepsKey(w, t[k], es[k], t[k + 1]);
    } else {
      UnissuedStep(w, t[k], es[k], t[k + 1]);
    }
  }

  /**
   From a clean install, or any start before the node has obtained its key: once somebody
   has the key, somebody always has it.
   */
  lemma CustodyOnceIssued(w: World, t: seq<State>, es: seq<Event>, j: nat, k: nat)
    requires Run(w, t, es) && StopsEffective(t, es) && Base(w, t[0]) && !t[0].issued && t[0].pc == Idle
    requires j <= k < |t| && t[j].keyed != {}
    ensures Custody(t[k]) && SafeOnceIssued(w, t[k])
  {
    forall i | 0 <= i < |es| && SafeOnceIssued(w, t[i]) ensures SafeOnceIssued(w, t[i + 1]) {
      StepKeepsIssued(w, t, es, i);
    }
    Lasts(t, x => SafeOnceIssued(w, x), 0, j);
    forall i | j <= i < |es| && SafeOnceIssued(w, t[i]) && t[i].issued
      ensures SafeOnceIssued(w, t[i + 1]) && t[i + 1].issued
    {
      StepKeepsIssued(w, t, es, i);
    }
    Lasts(t, x => SafeOnceIssued(w, x) && x.issued, j, k);
  }

  // ---------------------------------------------------------------- the ignored error

  /** What the hand-over rests on: an assistant that runs and holds the key. */
  ghost predicate Armed(w: World, s: State, assistant: Id) {
    && Base(w, s) && Named(s.docker, assistant, ASSISTANT) && s.docker[assistant].running
    && assistant in s.keyed
  }

  lemma StopNodeStep(w: World, s: State, node: Id, assistant: Id) returns (s': State)
    requires Armed(w, s, assistant) && s.pc == StopNode && Named(s.docker, node, STORAGE)
    ensures StepBy(w, s, NodeStopped(None), s') && Armed(w, s', assistant)
    ensures s' == s.(docker := s'.docker, pc := RemoveNode) && s'.docker.Keys == s.docker.Keys
    ensures Named(s'.docker, node, STORAGE) && s'.docker[node].image == s.docker[node].image
  {
    var m := s.docker;
    var m' := m[node := m[node].(running := false)];
    assert StopRel(m, STORAGE, m', None) by {
      assert forall id: Id :: Named(m, id, STORAGE) ==> id == node;
      assert m[node].running || m' == m;
    }
    s' := WithDocker(s, m').(pc := RemoveNode);
    StopGrows(m, STORAGE, m', None, s.config.nodeImage);
    StorageOp(w, s, m', s.config.nodeImage);
  }

  lemma RemoveNodeStep(w: World, s: State, node: Id, assistant: Id) returns (s': State)
    requires Armed(w, s, assistant) && s.pc == RemoveNode && Named(s.docker, node, STORAGE)
    requires Removable(s.docker[node], s.config.nodeImage)
    ensures StepBy(w, s, NodeRemoved(None), s') && Armed(w, s', assistant)
    ensures s' == s.(docker := s.docker - {node}, pc := StartNode, keyed := s'.keyed,
                     config := s.config.(nodeImage := s.local.tag))
    ensures NameFree(s'.docker, STORAGE)
  {
    var m' := s.docker - {node};
    assert RemoveNodeRel(s.docker, s.config.nodeImage, m', None) by {
      OneRemoved(s.docker, s.docker, s.config.nodeImage, node);
    }
    s' := WithDocker(s, m').(pc := StartNode, config := s.config.(nodeImage := s.local.tag));
    NodeRemoval(w, s, m', None);
    assert Named(m', assistant, ASSISTANT);
  }

  lemma StartNodeStep(w: World, s: State, newId: Id, assistant: Id) returns (s': State)
    requires Armed(w, s, assistant) && s.pc == StartNode && NameFree(s.docker, STORAGE) && newId !in s.docker
    ensures StepBy(w, s, NodeStarted(None), s') && Armed(w, s', assistant)
    ensures s' == s.(docker := s.docker[newId := Fresh(STORAGE, s.config.nodeImage, NODE_ARGS, true)], pc := AwaitNode)
    ensures !StorageHolds(s')
  {
    var m := s.docker;
    var m' := m[newId := Fresh(STORAGE, s.config.nodeImage, NODE_ARGS, true)];
    assert Created(m, m, STORAGE, s.config.nodeImage, NODE_ARGS, m', None);
    s' := WithDocker(s, m').(pc := AwaitNode);
    StartGrows(m, STORAGE, false, s.config.nodeImage, NODE_ARGS, m', None);
    StorageOp(w, s, m', s.config.nodeImage);
    assert Named(m', assistant, ASSISTANT);
    forall id: Id | Named(m', id, STORAGE) ensures id !in s'.keyed {
      GrowsNames(m, m', STORAGE, s.config.nodeImage, id, STORAGE);
    }
  }

  lemma RetireStep(w: World, s: State, assistant: Id) returns (s': State)
    requires Armed(w, s, assistant) && s.pc == Retire
    ensures StepBy(w, s, AssistantRetired(None), s') && Base(w, s') && (!StorageHolds(s) ==> !Custody(s'))
    ensures s' == WithDocker(s, s.docker[assistant := s.docker[assistant].(running := false)]).(pc := Save)
  {
    var m := s.docker;
    var m' := m[assistant := m[assistant].(running := false)];
    assert StopRel(m, ASSISTANT, m', None);
    s' := WithDocker(s, m').(pc := Save);
    StopGrows(m, ASSISTANT, m', None, w.upgradeImage);
    AssistantOp(w, s, m');
    forall id: Id ensures Named(m', id, STORAGE) && id in s'.keyed ==> Named(m, id, STORAGE) && id in s.keyed {
      GrowsNames(m, m', ASSISTANT, w.upgradeImage, id, STORAGE);
    }
  }

  /**
   With an assistant that still shows the flag of an earlier hand-over, an attempt in
   which no call fails from here on loses the key: the stale flag passes for the new
   node's, and the only holder is stopped.
   */
  lemma StaleFlagLosesKey(w: World, s: State, node: Id, assistant: Id, newId: Id) returns (t: seq<State>, es: seq<Event>)
    requires Base(w, s) && s.pc == StartAssistant
    requires Named(s.docker, node, STORAGE) && Removable(s.docker[node], s.config.nodeImage)
    requires assistant in s.flagged && newId !in s.docker
    ensures Run(w, t, es) && t[0] == s && StopsEffective(t, es) && !Custody(t[|t| - 1]) && Faults(es) == 0
  {
    assert Armed(w, s, assistant);
    var s1 := LaunchStep(w, s, assistant);
    t, es := LoseFromReady(w, s1.(pc := StopNode), node, assistant, newId);
    t, es := Prepend(w, s1, AssistantReady, t, es);
    t, es := Prepend(w, s, AssistantStarted(None), t, es);
  }

  lemma LoseFromReady(w: World, s: State, node: Id, assistant: Id, newId: Id) returns (t: seq<State>, es: seq<Event>)
    requires Armed(w, s, assistant) && assistant in s.flagged && s.pc == StopNode && newId !in s.docker
    requires Named(s.docker, node, STORAGE) && Removable(s.docker[node], s.config.nodeImage)
    ensures Run(w, t, es) && t[0] == s && StopsEffective(t, es) && !Custody(t[|t| - 1]) && Faults(es) == 0
  {
    var s1 := StopNodeStep(w, s, node, assistant);
    var s2 := RemoveNodeStep(w, s1, node, assistant);
    t, es := LoseFromRemoved(w, s2, assistant, newId);
    t, es := Prepend(w, s1, NodeRemoved(None), t, es);
    t, es := Prepend(w, s, NodeStopped(None), t, es);
  }

  lemma LoseFromRemoved(w: World, s: State, assistant: Id, newId: Id) returns (t: seq<State>, es: seq<Event>)
    requires Armed(w, s, assistant) && assistant in s.flagged && s.pc == StartNode
    requires NameFree(s.docker, STORAGE) && newId !in s.docker
    ensures Run(w, t, es) && t[0] == s && StopsEffective(t, es) && !Custody(t[|t| - 1]) && Faults(es) == 0
  {
    var s1 := StartNodeStep(w, s, newId, assistant);
    var s2 := s1.(pc := Retire);
    assert PlainStep(w, s1, NodeReady, s2);
    SameKeys(s1, s2);
    var s3 := RetireStep(w, s2, assistant);
    t, es := [s3], [];
    t, es := Prepend(w, s2, AssistantRetired(None), t, es);
    t, es := Prepend(w, s1, NodeReady, t, es);
    t, es := Prepend(w, s, NodeStarted(None), t, es);
  }

  predicate Fails(e: Event) {
    EngineEvent(e) && e.err.Some?
  }

  /** How many engine calls of a run report an error. */
  function Faults(es: seq<Event>): nat {
    if es == [] then 0 else (if Fails(es[0]) then 1 else 0) + Faults(es[1..])
  }

  lemma Prepend(w: World, s: State, e: Event, t: seq<State>, es: seq<Event>)
    returns (t': seq<State>, es': seq<Event>)
    requires Run(w, t, es) && StepBy(w, s, e, t[0])
    ensures Run(w, t', es') && t'[0] == s && t' == [s] + t && t'[|t'| - 1] == t[|t| - 1] && es' == [e] + es
    ensures StopsEffective(t, es) && StopEffective(e, t[0]) ==> StopsEffective(t', es')
    ensures Faults(es') == (if Fails(e) then 1 else 0) + Faults(es)
  {
    t', es' := [s] + t, [e] + es;
    assert es'[1..] == es;
    forall k | 0 <= k < |es'|
      ensures StepBy(w, t'[k], es'[k], t'[k + 1])
      ensures StopsEffective(t, es) && StopEffective(e, t[0]) ==> StopEffective(es'[k], t'[k + 1])
    {
      if k > 0 {
        assert t'[k] == t[k - 1] && es'[k] == es[k - 1] && t'[k + 1] == t[k];
        assert StopsEffective(t, es) ==> StopEffective(es[k - 1], t[k]);
      }
    }
  }

  lemma LaunchStep(w: World, s: State, assistant: Id) returns (s': State)
    requires Armed(w, s, assistant) && s.pc == StartAssistant
    ensures s' == s.(pc := AwaitAssistant)
    ensures StepBy(w, s, AssistantStarted(None), s') && Armed(w, s', assistant)
    ensures StepBy(w, s', AssistantReady, s'.(pc := StopNode))
  {
    var m := s.docker;
    s' := s.(pc := AwaitAssistant);
    assert m[assistant := m[assistant].(running := true)] == m;
    assert Reused(m, ASSISTANT, w.upgradeImage, m);
    assert StartRel(m, ASSISTANT, true, w.upgradeImage, [], m, None);
    assert WithDocker(s, m) == s by {
      assert Survivors(m, s.keyed) == s.keyed && Survivors(m, s.flagged) == s.flagged;
    }
    assert AssistantHolds(s');
  }

  /** Some later run of the machine, in which every first stop is effective, loses the key. */
  ghost predicate CanLoseKey(w: World, s: State) {
    exists t, es :: Run(w, t, es) && StopsEffective(t, es) && t[0] == s && exists k :: 0 <= k < |t| && !Custody(t[k])
  }

  /** The storage container `node` holds the key and the attempt, past its first stop, will
      not remove it: it is not removable, or the removal is over. */
  ghost predicate Spared(w: World, s: State, node: Id) {
    && Base(w, s) && Named(s.docker, node, STORAGE) && node in s.keyed
    && Committed(s.pc) && (BeforeRemoval(s.pc) ==> !Removable(s.docker[node], s.config.nodeImage))
  }

  /** Past the first stop, and not yet past the removal. */
  predicate BeforeRemoval(pc: Pc) {
    pc in {StartAssistant, AwaitAssistant, StopNode, RemoveNode}
  }

  predicate Committed(pc: Pc) {
    pc !in {Idle, Ensure, Query, Decide, Fetch, StopAssistant}
  }

  /** The container stays, and the attempt goes on or ends. */
  ghost predicate SpareMove(s: State, s': State, node: Id) {
    && Named(s.docker, node, STORAGE) && Named(s'.docker, node, STORAGE)
    && s'.docker[node].image == s.docker[node].image && node in s'.keyed
    && PcMove(s, s')
  }

  predicate PcMove(s: State, s': State) {
    s'.pc == Idle || (Committed(s'.pc) && (BeforeRemoval(s'.pc) ==> BeforeRemoval(s.pc) && s'.config == s.config))
  }

  lemma StorageSpares(w: World, s: State, e: Event, m: Containers, node: Id)
    requires Base(w, s) && StorageEvent(e) && EngineRel(w, s, e, m) && Named(s.docker, node, STORAGE) && node in s.keyed
    ensures Named(m, node, STORAGE) && m[node].image == s.docker[node].image && node in WithDocker(s, m).keyed
  {
    var image := StorageGrows(w, s, e, m);
    StorageOp(w, s, m, image);
    GrowsNames(s.docker, m, STORAGE, image, node, STORAGE);
  }

  lemma AssistantSpares(w: World, s: State, e: Event, m: Containers, node: Id)
    requires Base(w, s) && AssistantEvent(e) && EngineRel(w, s, e, m) && Named(s.docker, node, STORAGE) && node in s.keyed
    ensures Named(m, node, STORAGE) && m[node].image == s.docker[node].image && node in WithDocker(s, m).keyed
  {
    if e.AssistLaunched? || e.AssistantStarted? {
      AssistantStart(w, s, m, e.err);
    } else {
      AssistantStop(w, s, m, e.err);
    }
    assert !Named(s.docker, node, ASSISTANT);
  }

  lemma RemovalSpares(w: World, s: State, e: Event, m: Containers, node: Id)
    requires Spared(w, s, node) && e.NodeRemoved? && EngineEnabled(s, e) && EngineRel(w, s, e, m)
    ensures Named(m, node, STORAGE) && m[node].image == s.docker[node].image && node in WithDocker(s, m).keyed
  {
    RemoveNodeSpares(s.docker, s.config.nodeImage, m, e.err, node);
    assert !Named(s.docker, node, ASSISTANT);
  }

  lemma EngineCommits(s: State, e: Event, m: Containers)
    requires EngineEvent(e) && EngineEnabled(s, e) && Committed(s.pc)
    ensures PcMove(s, AfterEngine(s, e, m))
  {
  }

  lemma EngineSpares(w: World, s: State, e: Event, m: Containers, node: Id)
    requires Spared(w, s, node) && EngineEvent(e) && EngineEnabled(s, e) && EngineRel(w, s, e, m)
    ensures SpareMove(s, AfterEngine(s, e, m), node)
  {
    EngineCommits(s, e, m);
    EngineMoves(s, e, m);
    if StorageEvent(e) {
      StorageSpares(w, s, e, m, node);
    } else if AssistantEvent(e) {
      AssistantSpares(w, s, e, m, node);
    } else {
      RemovalSpares(w, s, e, m, node);
    }
  }

  lemma PlainCommits(w: World, s: State, e: Event, s': State)
    requires Committed(s.pc) && !EngineEvent(e) && PlainStep(w, s, e, s')
    ensures PcMove(s, s')
  {
  }

  lemma PlainKeepsKeys(w: World, s: State, e: Event, s': State)
    requires s.issued && !EngineEvent(e) && PlainStep(w, s, e, s')
    ensures s'.docker == s.docker && s.keyed <= s'.keyed
  {
  }

  lemma PlainSpares(w: World, s: State, e: Event, s': State, node: Id)
    requires Spared(w, s, node) && !EngineEvent(e) && PlainStep(w, s, e, s')
    ensures SpareMove(s, s', node)
  {
    PlainCommits(w, s, e, s');
    PlainKeepsKeys(w, s, e, s');
  }

  lemma StepSpares(w: World, s: State, e: Event, s': State, node: Id)
    requires Spared(w, s, node) && StepBy(w, s, e, s')
    ensures SpareMove(s, s', node)
  {
    if EngineEvent(e) {
      EngineSpares(w, s, e, s'.docker, node);
    } else {
      PlainSpares(w, s, e, s', node);
    }
  }

  lemma StillSpared(w: World, s: State, s': State, node: Id)
    requires Spared(w, s, node) && SpareMove(s, s', node) && Base(w, s')
    ensures Spared(w, s', node) || Safe(w, s')
  {
    assert StorageHolds(s');
  }

  lemma StepKeepsHarmless(w: World, t: seq<State>, es: seq<Event>, k: nat, node: Id)
    requires Run(w, t, es) && StopsEffective(t, es) && k < |es| && (Spared(w, t[k], node) || Safe(w, t[k]))
    ensures Spared(w, t[k + 1], node) || Safe(w, t[k + 1])
  {
    if Safe(w, t[k]) {
      StepKeepsSafe(w, t, es, k);
    } else {
      assert StepBy(w, t[k], es[k], t[k + 1]);
      StepSpares(w, t[k], es[k], t[k + 1], node);
      StepKeepsBase(w, t[k], es[k], t[k + 1]);
      StillSpared(w, t[k], t[k + 1], node);
    }
  }

  lemma NeverLost(w: World, t: seq<State>, es: seq<Event>, k: nat, node: Id)
    requires Run(w, t, es) && StopsEffective(t, es) && k < |t| && (Spared(w, t[0], node) || Safe(w, t[0]))
    ensures Custody(t[k])
  {
    forall i | 0 <= i < |es| && (Spared(w, t[i], node) || Safe(w, t[i]))
      ensures Spared(w, t[i + 1], node) || Safe(w, t[i + 1])
    {
      StepKeepsHarmless(w, t, es, i, node);
    }
    Lasts(t, x => Spared(w, x, node) || Safe(w, x), 0, k);
    assert Spared(w, t[k], node) ==> StorageHolds(t[k]);
  }

  /**
   Exactly when can an attempt that has passed its first stop still lose the key?  When an
   assistant was left running with its flag up and the node can be removed.  The stop at
   that point is the only call in the whole protocol whose ignored error matters.
   */
  lemma SafeIffFirstStopEffective(w: World, s: State, node: Id)
    requires Base(w, s) && s.pc == StartAssistant && Named(s.docker, node, STORAGE) && node in s.keyed
    ensures CanLoseKey(w, s) <==> s.flagged != {} && Removable(s.docker[node], s.config.nodeImage)
  {
    if s.flagged != {} && Removable(s.docker[node], s.config.nodeImage) {
      var assistant :| assistant in s.flagged;
      var newId := UnusedId(s.docker.Keys);
      var t, es := StaleFlagLosesKey(w, s, node, assistant, newId);
      assert !Custody(t[|t| - 1]);
    } else {
      assert StorageHolds(s);
      if CanLoseKey(w, s) {
        var t, es :| Run(w, t, es) && StopsEffective(t, es) && t[0] == s && exists k :: 0 <= k < |t| && !Custody(t[k]);
        var k :| 0 <= k < |t| && !Custody(t[k]);
        NeverLost(w, t, es, k, node);
        assert false;
      }
    }
  }

  lemma Unmoved(w: World, s: State)
    requires DockerOk(w, s.docker, s.keyed, s.flagged)
    ensures WithDocker(s, s.docker) == s
  {
    assert Survivors(s.docker, s.keyed) == s.keyed && Survivors(s.docker, s.flagged) == s.flagged;
  }

  lemma {:induction false} UnusedId(ids: set<Id>) returns (id: Id)
    ensures forall i :: i in ids ==> i < id
  {
    id := 0;
    if ids != {} {
      var i :| i in ids;
      var above := UnusedId(ids - {i});
      id := if i < above then above else i + 1;
      assert forall j :: j in ids ==> j == i || j in ids - {i};
    }
  }
}
