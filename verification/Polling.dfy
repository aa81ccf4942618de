/** The two polling loops of the key hand-over, decided by their streams of replies. */
module Polling {

  datatype Reply = Failed | Body(text: string)

  const ACQUIRE_LIMIT: nat := 60
  const HANDOVER_LIMIT: nat := 600

  predicate Affirms(r: Reply) {
    r == Body("true")
  }

  /** It arrived, but is not what was hoped for. */
  predicate Refuses(r: Reply) {
    r.Body? && r.text != "true"
  }

  /** Replies among the first `n` that arrived but did not affirm. */
  function Refusals(replies: nat -> Reply, n: nat): nat {
    if n == 0 then 0 else
      Refusals(replies, n - 1) + if Refuses(replies(n - 1)) then 1 else 0
  }

  /** The same for replies already received. */
  function Refused(replies: seq<Reply>): nat {
    if replies == [] then 0 else
      var last := replies[|replies| - 1];
      Refused(replies[..|replies| - 1]) + if Refuses(last) then 1 else 0
  }

  lemma {:induction false} RefusalsCount(replies: nat -> Reply, n: nat)
    ensures Refusals(replies, n) == |set i: nat | i < n && Refuses(replies(i))|
  {
    var refusing := set i: nat | i < n && Refuses(replies(i));
    if n > 0 {
      RefusalsCount(replies, n - 1);
      var last, earlier := n - 1, set i: nat | i < n - 1 && Refuses(replies(i));
      if Refuses(replies(last)) {
        assert refusing == earlier + {last};
      } else {
        assert refusing == earlier;
      }
    } else {
      assert refusing == {};
    }
  }

  lemma {:induction false} RefusedCount(replies: seq<Reply>)
    ensures Refused(replies) == |set i: nat | i < |replies| && Refuses(replies[i])|
  {
    var refusing := set i: nat | i < |replies| && Refuses(replies[i]);
    if replies != [] {
      var last := |replies| - 1;
      var front := replies[..last];
      RefusedCount(front);
      var earlier := set i: nat | i < |front| && Refuses(front[i]);
      if Refuses(replies[last]) {
        assert refusing == earlier + {last};
      } else {
        assert refusing == earlier;
      }
    } else {
      assert refusing == {};
    }
  }

  /** No reply affirmed, except the last if `ok`. */
  predicate SettledBy(replies: seq<Reply>, ok: bool) {
    if ok then |replies| > 0 && Affirms(replies[|replies| - 1]) && NoneAffirms(replies[..|replies| - 1])
    else NoneAffirms(replies)
  }

  predicate NoneAffirms(replies: seq<Reply>) {
    forall r :: r in replies ==> !Affirms(r)
  }

  lemma SettledMeans(replies: seq<Reply>, ok: bool)
    requires SettledBy(replies, ok)
    ensures forall i :: 0 <= i < |replies| - (if ok then 1 else 0) ==> replies[i] != Body("true")
    ensures ok ==> |replies| > 0 && replies[|replies| - 1] == Body("true")
  {
    var waited := if ok then replies[..|replies| - 1] else replies;
    forall i | 0 <= i < |waited| ensures replies[i] != Body("true") {
      assert waited[i] in waited;
    }
  }

  /** A wait that goes on until the reply after these. */
  lemma OneMoreReply(replies: seq<Reply>, reply: Reply)
    requires SettledBy(replies, false)
    ensures SettledBy(replies + [reply], Affirms(reply))
    ensures Refused(replies + [reply]) == Refused(replies) + if Refuses(reply) then 1 else 0
  {
    assert (replies + [reply])[..|replies|] == replies;
  }

  /**
   waitDcUpdateGetPeerSecret: true exactly if one of the first 61 replies affirms.  A
   failed request counts like a refusal, so 61 polls always settle it.
   */
  method WaitAssistantHasKey(replies: nat -> Reply) returns (ok: bool, polls: nat)
    ensures ok <==> exists i :: 0 <= i < 61 && replies(i) == Body("true")
    ensures 1 <= polls <= 61 && (ok ==> replies(polls - 1) == Body("true")) && (!ok ==> polls == 61)
    ensures forall i :: 0 <= i < polls - 1 ==> replies(i) != Body("true")
  {
    var count := 0;
    polls := 0;
    while true
      invariant count == polls <= ACQUIRE_LIMIT
      invariant forall i :: 0 <= i < polls ==> !Affirms(replies(i))
      decreases ACQUIRE_LIMIT - count
    {
      var reply := replies(polls);
      polls := polls + 1;
      if Affirms(reply) { return true, polls; }
      count := count + 1;
      if count > ACQUIRE_LIMIT { return false, polls; }
    }
  }

  /** The reply at which the second wait ends. */
  ghost predicate Settles(replies: nat -> Reply, k: nat) {
    Affirms(replies(k)) || Refusals(replies, k + 1) > HANDOVER_LIMIT
  }

  /**
   waitNewDcGetPeerSecret: true exactly if an affirming reply comes before the 601st
   refusal.  Failed requests are not counted, so the loop ends only on a stream that
   settles somewhere; `horizon` bounds where.
   */
  method WaitNodeHasKey(replies: nat -> Reply, ghost horizon: nat) returns (ok: bool, polls: nat)
    requires exists k :: 0 <= k < horizon && Settles(replies, k)
    ensures 1 <= polls <= horizon && (replies(polls - 1) == Body("true") || Refusals(replies, polls) == 601)
    ensures Refusals(replies, polls - 1) <= 600 && forall k :: 0 <= k < polls - 1 ==> replies(k) != Body("true")
    ensures ok <==> exists i :: 0 <= i && replies(i) == Body("true") && Refusals(replies, i) <= 600
  {
    var count := 0;
    polls := 0;
    while true
      invariant count == Refusals(replies, polls) <= HANDOVER_LIMIT && polls <= horizon
      invariant forall k :: 0 <= k < polls ==> replies(k) != Body("true")
      invariant forall k :: 0 <= k < polls ==> !Settles(replies, k)
      decreases horizon - polls
    {
      var reply := replies(polls);
      polls := polls + 1;
      if reply.Failed? { continue; }
      if Affirms(reply) {
        assert Refusals(replies, polls - 1) <= HANDOVER_LIMIT;
        return true, polls;
      }
      count := count + 1;
      if count > HANDOVER_LIMIT {
        forall i: nat | Affirms(replies(i)) ensures Refusals(replies, i) > HANDOVER_LIMIT {
          assert i >= polls;
          RefusalsGrow(replies, polls, i);
        }
        return false, polls;
      }
    }
  }

  lemma {:induction false} RefusalsGrow(replies: nat -> Reply, m: nat, n: nat)
    requires m <= n
    ensures Refusals(replies, m) <= Refusals(replies, n)
  {
    if m < n {
      RefusalsGrow(replies, m, n - 1);
    }
  }

  /** The second wait after `k` polls: None while it is still waiting. */
  datatype Progress = Waiting(count: nat) | Done(ok: bool)

  function HandoverProgress(replies: nat -> Reply, k: nat): Progress {
    if k == 0 then Waiting(0) else
      match HandoverProgress(replies, k - 1)
      case Done(ok) => Done(ok)
      case Waiting(count) =>
        var reply := replies(k - 1);
        if reply.Failed? then Waiting(count)
        else if Affirms(reply) then Done(true)
        else if count + 1 > HANDOVER_LIMIT then Done(false)
        else Waiting(count + 1)
  }

  /** It waits for ever exactly on a stream that never settles, such as one on which every
      request fails. */
  lemma WaitsForeverIffNeverSettled(replies: nat -> Reply)
    ensures NeverReturns(replies) <==> NeverSettles(replies)
  {
    if NeverReturns(replies) {
      forall k: nat ensures !Settles(replies, k) {
        ProgressCounts(replies, k);
        ProgressCounts(replies, k + 1);
        assert HandoverProgress(replies, k).Waiting? && HandoverProgress(replies, k + 1).Waiting?;
      }
    }
    if NeverSettles(replies) {
      forall k: nat ensures HandoverProgress(replies, k).Waiting? {
        NeverSettledWaits(replies, k);
      }
    }
  }

  ghost predicate NeverReturns(replies: nat -> Reply) {
    forall k: nat :: HandoverProgress(replies, k).Waiting?
  }

  ghost predicate NeverSettles(replies: nat -> Reply) {
    forall k: nat :: !Settles(replies, k)
  }

  lemma {:induction false} ProgressCounts(replies: nat -> Reply, k: nat)
    ensures var p := HandoverProgress(replies, k); p.Waiting? ==> p.count == Refusals(replies, k) <= HANDOVER_LIMIT
  {
    if k > 0 {
      ProgressCounts(replies, k - 1);
    }
  }

  lemma {:induction false} NeverSettledWaits(replies: nat -> Reply, k: nat)
    requires NeverSettles(replies)
    ensures HandoverProgress(replies, k).Waiting?
  {
    if k > 0 {
      NeverSettledWaits(replies, k - 1);
      ProgressCounts(replies, k - 1);
      assert !Settles(replies, k - 1);
    }
  }
}
