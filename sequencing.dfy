/** Steps tried one after another against an environment that may refuse
    any of them (a remote API, a disk): the run stops at the first refusal.
    `accepts(done, step)` says whether `step` succeeds after `done`. */
module Sequencing {

  /** The number of steps, counted from `i`, that succeed before the first refusal. */
  function CompletedFrom<T>(history: seq<T>, steps: seq<T>, accepts: (seq<T>, T) -> bool, i: nat): (k: nat)
    requires i <= |steps|
    ensures i <= k <= |steps|
    ensures forall j :: i <= j < k ==> accepts(history + steps[..j], steps[j])
    ensures k < |steps| ==> !accepts(history + steps[..k], steps[k])
    decreases |steps| - i
  {
    if i == |steps| || !accepts(history + steps[..i], steps[i]) then i
    else CompletedFrom(history, steps, accepts, i + 1)
  }

  /** The number of leading steps that succeed; if it is short of `|steps|`,
      the step at that index is the one that was refused. */
  function Completed<T>(history: seq<T>, steps: seq<T>, accepts: (seq<T>, T) -> bool): (k: nat)
    ensures k <= |steps|
    ensures forall j :: 0 <= j < k ==> accepts(history + steps[..j], steps[j])
    ensures k < |steps| ==> !accepts(history + steps[..k], steps[k])
  {
    CompletedFrom(history, steps, accepts, 0)
  }

  /** The steps actually tried: those that succeeded and, if there was one,
      the refused step, after which nothing more is tried. */
  function Issued<T>(history: seq<T>, steps: seq<T>, accepts: (seq<T>, T) -> bool): (s: seq<T>)
    ensures s <= steps
    ensures |s| == |steps| <==> Completed(history, steps, accepts) >= |steps| - 1
    ensures Completed(history, steps, accepts) < |steps| ==> |s| == Completed(history, steps, accepts) + 1
  {
    var k := Completed(history, steps, accepts);
    if k < |steps| then steps[..k + 1] else steps
  }

  /** Every step is accepted after the ones before it. */
  predicate AllAccepted<T>(history: seq<T>, steps: seq<T>, accepts: (seq<T>, T) -> bool) {
    forall j :: 0 <= j < |steps| ==> accepts(history + steps[..j], steps[j])
  }

  /** A count `k` of succeeding steps followed by a refusal (or the end) is `Completed`. */
  lemma CompletedIs<T>(history: seq<T>, steps: seq<T>, accepts: (seq<T>, T) -> bool, k: nat)
    requires k <= |steps|
    requires forall j :: 0 <= j < k ==> accepts(history + steps[..j], steps[j])
    requires k < |steps| ==> !accepts(history + steps[..k], steps[k])
    ensures Completed(history, steps, accepts) == k
  {
  }

  /** Appending in two steps is appending the two parts at once. */
  lemma AppendAssoc<T>(a: seq<T>, b: seq<T>, c: seq<T>)
    ensures a + b + c == a + (b + c)
  {
  }

  /** The prefix one longer is the prefix followed by the next element. */
  lemma TakeNext<T>(s: seq<T>, i: nat)
    requires i < |s|
    ensures s[..i + 1] == s[..i] + [s[i]]
  {
  }

  /** One more accepted step extends the accepted prefix by one. */
  lemma AcceptedNext<T>(history: seq<T>, steps: seq<T>, accepts: (seq<T>, T) -> bool, i: nat)
    requires i < |steps|
    requires forall j :: 0 <= j < i ==> accepts(history + steps[..j], steps[j])
    requires accepts(history + steps[..i], steps[i])
    ensures forall j :: 0 <= j < i + 1 ==> accepts(history + steps[..j], steps[j])
  {
  }
}
