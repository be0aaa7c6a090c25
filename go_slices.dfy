/** Go's slice idiom `append(s[:i], s[i+1:]...)`, which removes element `i`. */
module GoSlices {

  /** `s` without its element at index `i`; Go panics unless `0 <= i < len(s)`. */
  function Quitar<T>(s: seq<T>, i: nat): (r: seq<T>)
    requires i < |s|
    ensures |r| == |s| - 1
    ensures forall k :: 0 <= k < i ==> r[k] == s[k]
    ensures forall k :: i <= k < |r| ==> r[k] == s[k + 1]
  {
    s[..i] + s[i + 1..]
  }

  /** Removal loses exactly the element at `i` and keeps every other one. */
  lemma QuitarMultiset<T>(s: seq<T>, i: nat)
    requires i < |s|
    ensures multiset(Quitar(s, i)) + multiset{s[i]} == multiset(s)
  {
    assert s == s[..i] + [s[i]] + s[i + 1..];
  }
}
