/** Values shared by every part of the model. */
module Basics {

  datatype Option<+T> = None | Some(value: T)

  /** An instant, in nanoseconds. */
  type Time = int

  /** Table rows are identified by their insertion position; the UUIDs of the
      program only need to be distinct. */
  type MessageId = nat
  type CampaignId = nat
  type InstanceId = string
  type ProviderId = string

  function Min(a: int, b: int): int {
    if a < b then a else b
  }

  function Max(a: int, b: int): int {
    if a < b then b else a
  }

  /** SQL's COALESCE for two arguments. */
  function Coalesce<T>(a: Option<T>, b: T): Option<T> {
    if a.Some? then a else Some(b)
  }

  predicate Distinct<T(==)>(s: seq<T>) {
    forall i, j :: 0 <= i < j < |s| ==> s[i] != s[j]
  }

  function Elements(s: seq<nat>): set<nat> {
    set x | x in s
  }

  lemma {:induction false} ElementsCount(s: seq<nat>)
    requires Distinct(s)
    ensures |Elements(s)| == |s|
  {
    if s != [] {
      var n := |s| - 1;
      ElementsCount(s[..n]);
      assert Elements(s) == Elements(s[..n]) + {s[n]};
    }
  }
}
