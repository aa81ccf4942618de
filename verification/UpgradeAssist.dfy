/** How often the assistant is launched because the node does not answer. */
module UpgradeAssist {
  import opened Prelude
  import opened Docker
  import opened Upgrade

  const CYCLE: nat := ASSIST_LIMIT + 2

  predicate VersionFailure(e: Event) {
    e.QueryFailed? || e.AssistLaunched?
  }

  function Failures(es: seq<Event>): nat {
    if es == [] then 0 else Failures(es[..|es| - 1]) + if VersionFailure(es[|es| - 1]) then 1 else 0
  }

  function Launches(es: seq<Event>): nat {
    if es == [] then 0 else Launches(es[..|es| - 1]) + if es[|es| - 1].AssistLaunched? then 1 else 0
  }

  /** How one event moves the counter. */
  predicate Counts(s: State, e: Event, s': State) {
    && s'.errCount == (if e.QueryFailed? then s.errCount + 1 else if e.AssistLaunched? then 0 else s.errCount)
    && (e.QueryFailed? ==> s.errCount <= ASSIST_LIMIT)
    && (e.AssistLaunched? ==> s.errCount > ASSIST_LIMIT)
  }

  lemma EngineCounts(s: State, e: Event, m: Containers)
    requires EngineEvent(e) && EngineEnabled(s, e)
    ensures Counts(s, e, AfterEngine(s, e, m))
  {
  }

  lemma PlainCounts(w: World, s: State, e: Event, s': State)
    requires !EngineEvent(e) && PlainStep(w, s, e, s') && !e.QueryAnswered? && !e.Crash?
    ensures Counts(s, e, s')
  {
  }

  lemma RunCounts(w: World, t: seq<State>, es: seq<Event>, k: nat)
    requires Run(w, t, es) && k < |es| && !es[k].QueryAnswered? && !es[k].Crash?
    ensures Counts(t[k], es[k], t[k + 1])
  {
    assert StepBy(w, t[k], es[k], t[k + 1]);
    if EngineEvent(es[k]) {
      EngineCounts(t[k], es[k], t[k + 1].docker);
    } else {
      PlainCounts(w, t[k], es[k], t[k + 1]);
    }
  }

  lemma {:induction false} CounterInvariant(t: seq<State>, es: seq<Event>, k: nat)
    requires |t| == |es| + 1 && t[0].errCount == 0 && k <= |es|
    requires forall i :: 0 <= i < |es| ==> Counts(t[i], es[i], t[i + 1])
    ensures t[k].errCount <= ASSIST_LIMIT + 1
    ensures Launches(es[..k]) * CYCLE + t[k].errCount == Failures(es[..k])
  {
    if k > 0 {
      CounterInvariant(t, es, k - 1);
      assert Counts(t[k - 1], es[k - 1], t[k - 1 + 1]);
      assert es[..k][..k - 1] == es[..k - 1] && es[..k][k - 1] == es[k - 1];
    }
  }

  /** After n failed version queries with no answer and no restart in between, the
      assistant has been launched exactly n / 152 times and the counter stands at
      n mod 152. */
  lemma AssistCounter(w: World, t: seq<State>, es: seq<Event>)
    requires Run(w, t, es) && t[0].errCount == 0
    requires forall i :: 0 <= i < |es| ==> !es[i].QueryAnswered? && !es[i].Crash?
    ensures Launches(es) == Failures(es) / 152
    ensures t[|es|].errCount == Failures(es) % 152
  {
    forall k | 0 <= k < |es| ensures Counts(t[k], es[k], t[k + 1]) {
      RunCounts(w, t, es, k);
    }
    CounterInvariant(t, es, |es|);
    assert es[..|es|] == es;
    Cycles(Launches(es), t[|es|].errCount, Failures(es));
  }

  lemma Cycles(launches: nat, count: nat, failures: nat)
    requires launches * CYCLE + count == failures && count < CYCLE
    ensures launches == failures / 152 && count == failures % 152
  {
  }
}
