/** Notions shared by components that have nothing else in common. */
module Basics {
  const U32 := 0x1_0000_0000

  ghost predicate Distinct<T>(s: seq<T>) {
    forall i, j :: 0 <= i < j < |s| ==> s[i] != s[j]
  }
}
