/** Counting helper shared by the check-mark and active-item rules. */
module Counting {

  /** How many entries of `bs` are true. */
  function CountTrue(bs: seq<bool>): (n: nat)
    ensures n <= |bs|
    ensures n == 0 <==> forall i :: 0 <= i < |bs| ==> !bs[i]
  {
    if bs == [] then 0 else (if bs[0] then 1 else 0) + CountTrue(bs[1..])
  }

  lemma {:induction false} CountTrueAppend(a: seq<bool>, b: seq<bool>)
    ensures CountTrue(a + b) == CountTrue(a) + CountTrue(b)
  {
    if a == [] {
      assert a + b == b;
    } else {
      assert (a + b)[1..] == a[1..] + b;
      CountTrueAppend(a[1..], b);
    }
  }

  /** A sequence with exactly one true entry counts one. */
  lemma CountTrueSingle(bs: seq<bool>, k: nat)
    requires k < |bs| && bs[k]
    requires forall i :: 0 <= i < |bs| && i != k ==> !bs[i]
    ensures CountTrue(bs) == 1
  {
    assert bs == bs[..k] + ([bs[k]] + bs[k + 1..]);
    CountTrueAppend(bs[..k], [bs[k]] + bs[k + 1..]);
    CountTrueAppend([bs[k]], bs[k + 1..]);
    assert CountTrue(bs[..k]) == 0;
    var rest := bs[k + 1..];
    forall i | 0 <= i < |rest| ensures !rest[i] {
      assert rest[i] == bs[k + 1 + i];
    }
  }
}
