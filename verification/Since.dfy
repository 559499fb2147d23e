/** Going back along a run to where something that still goes on began. */
module Since {

  /** `going[k]` tells whether it goes on in state k, and `begins[k]` whether the step from state k may begin it. */
  lemma {:induction false} Began(going: seq<bool>, begins: seq<bool>, i: nat) returns (a: nat)
    requires |going| == |begins| && i < |going| && going[i] && !going[0]
    requires forall k :: 0 <= k < i && going[k + 1] ==> going[k] || begins[k]
    ensures a < i && begins[a]
    ensures forall k :: a < k <= i ==> going[k]
  {
    assert going[i - 1 + 1];
    if going[i - 1] {
      a := Began(going, begins, i - 1);
    } else {
      a := i - 1;
    }
  }
}
