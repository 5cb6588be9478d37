/** The sum the three programs of assignment 2 compute: in a loop, and through the exit statuses
    of forked children. */
module Sums {
  /** `calculate_value`. */
  function Value(v: int): int {
    8 * v + 6
  }

  function Total(values: seq<int>): int {
    if values == [] then 0 else Total(values[..|values| - 1]) + Value(values[|values| - 1])
  }

  /** The sum of the values as they are. */
  function PlainSum(values: seq<int>): int {
    if values == [] then 0 else values[0] + PlainSum(values[1..])
  }

  lemma {:induction false} PlainSumLast(values: seq<int>)
    requires values != []
    ensures PlainSum(values) == PlainSum(values[..|values| - 1]) + values[|values| - 1]
  {
    if |values| > 1 {
      PlainSumLast(values[1..]);
      assert values[1..][..|values| - 2] == values[..|values| - 1][1..];
    }
  }

  /** Eight times the sum and six for each value. */
  lemma {:induction false} TotalClosedForm(values: seq<int>)
    ensures Total(values) == 8 * PlainSum(values) + 6 * |values|
  {
    if values != [] {
      TotalClosedForm(values[..|values| - 1]);
      PlainSumLast(values);
    }
  }

  lemma TotalStep(values: seq<int>, i: nat)
    requires i < |values|
    ensures Total(values[..i + 1]) == Total(values[..i]) + Value(values[i])
  {
    assert values[..i + 1][..i] == values[..i];
  }

  /** `loop.c`. */
  method Loop(values: seq<int>) returns (total: int)
    ensures total == 8 * PlainSum(values) + 6 * |values|
  {
    total := 0;
    for i := 0 to |values|
      invariant total == Total(values[..i])
    {
      TotalStep(values, i);
      total := total + Value(values[i]);
    }
    assert values[..|values|] == values;
    TotalClosedForm(values);
  }

  /** What the parent gets to see of an exit value: its low 8 bits. */
  function ExitStatus(result: int): int {
    result % 256
  }

  /** What is lost of it, in units of 256. */
  function Lost(values: seq<int>): int {
    if values == [] then 0 else Lost(values[..|values| - 1]) + Value(values[|values| - 1]) / 256
  }

  lemma LostStep(values: seq<int>, i: nat)
    requires i < |values|
    ensures Lost(values[..i + 1]) == Lost(values[..i]) + Value(values[i]) / 256
  {
    assert values[..i + 1][..i] == values[..i];
  }

  /** `fork.c`: one child for each value, then a wait for each child in turn. */
  method Fork(values: seq<int>) returns (total: int)
    ensures total == 8 * PlainSum(values) + 6 * |values| - 256 * Lost(values)
    ensures 0 <= total <= 255 * |values|
    ensures (forall i :: 0 <= i < |values| ==> 0 <= 8 * values[i] + 6 <= 255) ==>
              total == 8 * PlainSum(values) + 6 * |values|
  {
    var children := new int[|values|];
    for i := 0 to |values|
      invariant forall k :: 0 <= k < i ==> children[k] == ExitStatus(Value(values[k]))
    {
      children[i] := ExitStatus(Value(values[i]));
    }
    total := 0;
    for i := 0 to |values|
      invariant forall k :: 0 <= k < |values| ==> children[k] == ExitStatus(Value(values[k]))
      invariant total == Total(values[..i]) - 256 * Lost(values[..i])
      invariant 0 <= total <= 255 * i
    {
      TotalStep(values, i);
      LostStep(values, i);
      total := total + children[i];
    }
    assert values[..|values|] == values;
    TotalClosedForm(values);
    if forall i :: 0 <= i < |values| ==> Fits(values[i]) {
      LostSign(values);
    }
  }

  predicate Fits(v: int) {
    0 <= 8 * v + 6 <= 255
  }

  lemma {:induction false} LostSign(values: seq<int>)
    requires forall i :: 0 <= i < |values| ==> 8 * values[i] + 6 >= 0
    ensures Lost(values) >= 0
    ensures Lost(values) == 0 <==> forall i :: 0 <= i < |values| ==> Fits(values[i])
  {
    if values != [] {
      var n := |values| - 1;
      LostSign(values[..n]);
      assert forall i :: 0 <= i < n ==> values[..n][i] == values[i];
    }
  }

  /** The forked total agrees with the loop's modulo 256 for any values, and is equal exactly when
      what the statuses drop adds up to nothing; for results that are not negative, that is
      exactly when every one of them fits in a status. */
  lemma ForkedTotal(values: seq<int>, total: int)
    requires total == 8 * PlainSum(values) + 6 * |values| - 256 * Lost(values)
    ensures total % 256 == (8 * PlainSum(values) + 6 * |values|) % 256
    ensures total == 8 * PlainSum(values) + 6 * |values| <==> Lost(values) == 0
    ensures (forall i :: 0 <= i < |values| ==> Fits(values[i])) ==> total == 8 * PlainSum(values) + 6 * |values|
    ensures (forall i :: 0 <= i < |values| ==> 8 * values[i] + 6 >= 0) ==>
              (total == 8 * PlainSum(values) + 6 * |values| <==> forall i :: 0 <= i < |values| ==> Fits(values[i]))
  {
    hide PlainSum, Lost;
    if forall i :: 0 <= i < |values| ==> 8 * values[i] + 6 >= 0 {
      LostSign(values);
    }
  }

  /** A value for which the forked program prints another sum than the loop: 6, not 262. */
  lemma ForkCanLose()
    ensures 8 * PlainSum([32]) + 6 * |[32]| == 262
    ensures 8 * PlainSum([32]) + 6 * |[32]| - 256 * Lost([32]) == 6
  {
    TotalClosedForm([32]);
    TotalStep([32], 0);
    LostStep([32], 0);
    assert [32][..1] == [32];
  }
}
