/** Which enclave ids the technical committee has signed on chain. */
module Committee {
  import opened Prelude

  datatype Entry = Entry(enclaveId: string, signature: string)

  /** The committee key, seen through signature decoding and verification; either may
      report an error (None). */
  datatype Authority = Authority(decode: string -> Option<string>, verify: (string, string) -> Option<bool>)

  predicate Signed(a: Authority, e: Entry) {
    var signature := a.decode(e.signature);
    signature.Some? && a.verify(e.enclaveId, signature.value) == Some(true)
  }

  predicate Vouched(a: Authority, entries: seq<Entry>, enclaveId: string) {
    exists e :: e in entries && e.enclaveId == enclaveId && Signed(a, e)
  }

  /** That is: some entry for the id has a signature that decodes, and that verifies over the
      id with the answer yes. */
  lemma VouchedMeans(a: Authority, entries: seq<Entry>, enclaveId: string)
    ensures Vouched(a, entries, enclaveId) <==>
              exists i :: && 0 <= i < |entries| && entries[i].enclaveId == enclaveId
                          && a.decode(entries[i].signature).Some?
                          && a.verify(enclaveId, a.decode(entries[i].signature).value) == Some(true)
  {
    if Vouched(a, entries, enclaveId) {
      var e :| e in entries && e.enclaveId == enclaveId && Signed(a, e);
      var i :| 0 <= i < |entries| && entries[i] == e;
    }
    if i :| && 0 <= i < |entries| && entries[i].enclaveId == enclaveId
            && a.decode(entries[i].signature).Some?
            && a.verify(enclaveId, a.decode(entries[i].signature).value) == Some(true)
    {
      assert entries[i] in entries && Signed(a, entries[i]);
    }
  }

  /** IfEnclaveIdValid: `answer` is what the chain returned, if anything.  A bad entry
      never hides a good one further down the list, and never counts itself. */
  method IfEnclaveIdValid(a: Authority, answer: Option<seq<Entry>>, enclaveId: string) returns (valid: bool)
    ensures valid <==> answer.Some? && Vouched(a, answer.value, enclaveId)
    ensures valid <==>
              && answer.Some?
              && (exists i :: && 0 <= i < |answer.value| && answer.value[i].enclaveId == enclaveId
                              && a.decode(answer.value[i].signature).Some?
                              && a.verify(enclaveId, a.decode(answer.value[i].signature).value) == Some(true))
  {
    if answer.None? { return false; }
    var entries := answer.value;
    VouchedMeans(a, entries, enclaveId);
    for i := 0 to |entries|
      invariant forall e :: e in entries[..i] ==> !(e.enclaveId == enclaveId && Signed(a, e))
    {
      var info := entries[i];
      if enclaveId != info.enclaveId { continue; }
      var signature := a.decode(info.signature);
      if signature.None? { continue; }
      var ok := a.verify(info.enclaveId, signature.value);
      if ok.None? || !ok.value { continue; }
      return true;
    }
    assert entries[..|entries|] == entries;
    valid := false;
  }
}
