/** Small generic pieces shared by every other module. */
module Prelude {

  datatype Option<+T> = None | Some(value: T)

  /** Membership in the Go sense of `strings.Contains(s, part)`. */
  predicate Contains(s: string, part: string) {
    exists i :: 0 <= i <= |s| - |part| && OccursAt(s, part, i)
  }

  predicate OccursAt(s: string, part: string, i: nat)
    requires i + |part| <= |s|
  {
    s[i..i + |part|] == part
  }

  /** A part may stand anywhere: after a registry name, before a tag. */
  lemma ContainsAnywhere(a: string, part: string, b: string)
    ensures Contains(a + part + b, part)
  {
    assert OccursAt(a + part + b, part, |a|);
  }

  lemma ContainsSplits(s: string, part: string) returns (a: string, b: string)
    requires Contains(s, part)
    ensures s == a + part + b
  {
    var i :| 0 <= i <= |s| - |part| && OccursAt(s, part, i);
    a, b := s[..i], s[i + |part|..];
  }
}
