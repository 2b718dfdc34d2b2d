/**
 * Both the strength report and the validator run a fixed list of checks in a
 * fixed order and append one message for each check that does not pass. This
 * module states that pattern once: which messages appear, in which order, and
 * how they balance against the checks that pass.
 */
module Checklist {

  /** The messages of the checks from index `k` on that did not pass, in check order. */
  function FailedFrom(messages: seq<string>, passed: seq<bool>, k: nat): (r: seq<string>)
    requires |messages| == |passed| && k <= |passed|
    decreases |passed| - k
  {
    if k == |passed| then []
    else (if passed[k] then [] else [messages[k]]) + FailedFrom(messages, passed, k + 1)
  }

  /** The messages of the checks that did not pass, in check order. */
  function Failed(messages: seq<string>, passed: seq<bool>): seq<string>
    requires |messages| == |passed|
  {
    FailedFrom(messages, passed, 0)
  }

  /** The indices of the checks from index `k` on that did not pass, ascending. */
  function FailedPositions(passed: seq<bool>, k: nat): seq<nat>
    requires k <= |passed|
    decreases |passed| - k
  {
    if k == |passed| then []
    else (if passed[k] then [] else [k]) + FailedPositions(passed, k + 1)
  }

  /** The number of checks from index `k` on that passed. */
  function PassCount(passed: seq<bool>, k: nat): nat
    requires k <= |passed|
    decreases |passed| - k
  {
    if k == |passed| then 0
    else (if passed[k] then 1 else 0) + PassCount(passed, k + 1)
  }

  predicate Distinct(messages: seq<string>) {
    forall i, j :: 0 <= i < j < |messages| ==> messages[i] != messages[j]
  }

  /** The number of checks that passed, out of five, written out. */
  lemma PassCountOfFive(passed: seq<bool>)
    requires |passed| == 5
    ensures PassCount(passed, 0) ==
      (if passed[0] then 1 else 0) + (if passed[1] then 1 else 0) + (if passed[2] then 1 else 0)
      + (if passed[3] then 1 else 0) + (if passed[4] then 1 else 0)
  {
    assert PassCount(passed, 5) == 0;
    assert PassCount(passed, 4) == (if passed[4] then 1 else 0);
    assert PassCount(passed, 3) == (if passed[3] then 1 else 0) + PassCount(passed, 4);
    assert PassCount(passed, 2) == (if passed[2] then 1 else 0) + PassCount(passed, 3);
    assert PassCount(passed, 1) == (if passed[1] then 1 else 0) + PassCount(passed, 2);
  }

  /** A list of five checks, written out. */
  lemma FailedOfFive(messages: seq<string>, passed: seq<bool>)
    requires |messages| == |passed| == 5
    ensures Failed(messages, passed) ==
      (if passed[0] then [] else [messages[0]]) + (if passed[1] then [] else [messages[1]])
      + (if passed[2] then [] else [messages[2]]) + (if passed[3] then [] else [messages[3]])
      + (if passed[4] then [] else [messages[4]])
  {
    var f0, f1, f2 := (if passed[0] then [] else [messages[0]]), (if passed[1] then [] else [messages[1]]),
      (if passed[2] then [] else [messages[2]]);
    var f3, f4 := (if passed[3] then [] else [messages[3]]), (if passed[4] then [] else [messages[4]]);
    calc {
      Failed(messages, passed);
      f0 + FailedFrom(messages, passed, 1);
      f0 + (f1 + FailedFrom(messages, passed, 2));
      f0 + (f1 + (f2 + FailedFrom(messages, passed, 3)));
      f0 + (f1 + (f2 + (f3 + FailedFrom(messages, passed, 4))));
      { assert FailedFrom(messages, passed, 4) == f4 + FailedFrom(messages, passed, 5) == f4; }
      f0 + (f1 + (f2 + (f3 + f4)));
      f0 + f1 + f2 + f3 + f4;
    }
  }

  /** The failed positions are exactly the failed checks, strictly ascending. */
  lemma {:induction false} FailedPositionsSpec(passed: seq<bool>, k: nat)
    requires k <= |passed|
    ensures forall j :: j in FailedPositions(passed, k) <==> k <= j < |passed| && !passed[j]
    ensures forall i, j :: 0 <= i < j < |FailedPositions(passed, k)| ==>
      FailedPositions(passed, k)[i] < FailedPositions(passed, k)[j]
    decreases |passed| - k
  {
    if k < |passed| {
      FailedPositionsSpec(passed, k + 1);
      var tail := FailedPositions(passed, k + 1);
      assert forall i :: 0 <= i < |tail| ==> tail[i] in tail;
    }
  }

  /** The i-th message listed is the message of the i-th failed check. */
  lemma {:induction false} FailedAtPositions(messages: seq<string>, passed: seq<bool>, k: nat)
    requires |messages| == |passed| && k <= |passed|
    ensures |FailedFrom(messages, passed, k)| == |FailedPositions(passed, k)|
    ensures forall i :: 0 <= i < |FailedPositions(passed, k)| ==>
      FailedPositions(passed, k)[i] < |messages| &&
      FailedFrom(messages, passed, k)[i] == messages[FailedPositions(passed, k)[i]]
    decreases |passed| - k
  {
    if k < |passed| {
      FailedAtPositions(messages, passed, k + 1);
      FailedPositionsSpec(passed, k + 1);
    }
  }

  /** Every check either passes or lists its message. */
  lemma {:induction false} PassedPlusFailed(messages: seq<string>, passed: seq<bool>, k: nat)
    requires |messages| == |passed| && k <= |passed|
    ensures PassCount(passed, k) + |FailedFrom(messages, passed, k)| == |passed| - k
    decreases |passed| - k
  {
    if k < |passed| {
      PassedPlusFailed(messages, passed, k + 1);
    }
  }

  /** A message is listed exactly when its check did not pass. */
  lemma FailedMember(messages: seq<string>, passed: seq<bool>, j: nat)
    requires |messages| == |passed| && j < |passed| && Distinct(messages)
    ensures messages[j] in Failed(messages, passed) <==> !passed[j]
  {
    var r, pos := Failed(messages, passed), FailedPositions(passed, 0);
    FailedAtPositions(messages, passed, 0);
    FailedPositionsSpec(passed, 0);
    if !passed[j] {
      var i :| 0 <= i < |pos| && pos[i] == j;
      assert r[i] == messages[j];
    }
    if messages[j] in r {
      var i :| 0 <= i < |r| && r[i] == messages[j];
      assert messages[pos[i]] == messages[j];
      assert pos[i] == j;
    }
  }

  /** Nothing is listed exactly when every check passed. */
  lemma FailedEmpty(messages: seq<string>, passed: seq<bool>)
    requires |messages| == |passed|
    ensures Failed(messages, passed) == [] <==> forall j :: 0 <= j < |passed| ==> passed[j]
  {
    FailedAtPositions(messages, passed, 0);
    FailedPositionsSpec(passed, 0);
    if Failed(messages, passed) != [] {
      assert FailedPositions(passed, 0)[0] in FailedPositions(passed, 0);
    }
  }

  /** Listed messages keep the order of their checks: an earlier message never comes later. */
  lemma FailedInCheckOrder(messages: seq<string>, passed: seq<bool>, a: nat, b: nat)
    requires |messages| == |passed| && a < b < |passed| && !passed[a] && !passed[b]
    ensures exists i, j ::
      (0 <= i < j < |Failed(messages, passed)| &&
       Failed(messages, passed)[i] == messages[a] && Failed(messages, passed)[j] == messages[b])
  {
    var r, pos := Failed(messages, passed), FailedPositions(passed, 0);
    FailedAtPositions(messages, passed, 0);
    FailedPositionsSpec(passed, 0);
    assert a in pos && b in pos;
    var i :| 0 <= i < |pos| && pos[i] == a;
    var j :| 0 <= j < |pos| && pos[j] == b;
    assert r[i] == messages[a] && r[j] == messages[b];
  }
}
