/**
 A reference definition of the precedence an `if / elseif / ... / else`
 chain gives its conditions: the first condition that holds selects its
 branch, and the `else` branch is the one past the last condition.
 */
module Precedence {

  /** The index of the first set flag, or `|flags|` when none is set. */
  function FirstSet(flags: seq<bool>): (i: nat)
    ensures i <= |flags|
    ensures forall j :: 0 <= j < i ==> !flags[j]
    ensures i < |flags| ==> flags[i]
  {
    if flags == [] then 0
    else if flags[0] then 0
    else 1 + FirstSet(flags[1..])
  }

  /** The index of the first set flag is the only index with its two properties. */
  lemma FirstSetUnique(flags: seq<bool>, k: nat)
    requires k <= |flags|
    requires forall j :: 0 <= j < k ==> !flags[j]
    requires k < |flags| ==> flags[k]
    ensures FirstSet(flags) == k
  {
  }
}
