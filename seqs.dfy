/** Small facts about sequences shared by the frame and encoder models. */
module Seqs {

  /** Position of the first occurrence of `x` in `s`, or `|s|` when `x` does not occur
      (it stands for pandas' first-match label lookup and for the position of a category
      in the encoder's vocabulary). */
  function IndexOf<T(==)>(s: seq<T>, x: T): (k: nat)
    ensures k <= |s|
    ensures k < |s| <==> x in s
    ensures k < |s| ==> s[k] == x
    ensures forall j :: 0 <= j < k ==> s[j] != x
  {
    if s == [] then 0
    else if s[0] == x then 0
    else 1 + IndexOf(s[1..], x)
  }

  /** No element occurs twice. */
  predicate Distinct<T(==)>(s: seq<T>) {
    forall i, j :: 0 <= i < j < |s| ==> s[i] != s[j]
  }

  /** Looking up in a concatenation looks in the left part first. */
  lemma {:induction false} IndexOfConcat<T>(s: seq<T>, t: seq<T>, x: T)
    ensures IndexOf(s + t, x) == if x in s then IndexOf(s, x) else |s| + IndexOf(t, x)
    decreases |s|
  {
    if s != [] {
      assert (s + t)[1..] == s[1..] + t;
      IndexOfConcat(s[1..], t, x);
    } else {
      assert s + t == t;
    }
  }

  /** In a sequence without repetitions, the lookup of an element finds its own position. */
  lemma DistinctIndexOf<T>(s: seq<T>, i: nat)
    requires Distinct(s) && i < |s|
    ensures IndexOf(s, s[i]) == i
  {
  }
}
