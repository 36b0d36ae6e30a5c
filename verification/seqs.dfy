/** Order-preserving selection from a sequence, JavaScript's `Array.prototype.filter`. */
module Seqs {

  /**
   * The elements of `s` that satisfy `keep`, in their original order: every kept
   * element appears as often as in `s`, every other element not at all.
   */
  function Filter<T(==, !new)>(s: seq<T>, keep: T -> bool): (r: seq<T>)
    ensures |r| <= |s|
    ensures forall x :: x in r <==> x in s && keep(x)
    ensures forall x :: multiset(r)[x] == if keep(x) then multiset(s)[x] else 0
    ensures (forall i :: 0 <= i < |s| ==> keep(s[i])) ==> r == s
    ensures (forall i :: 0 <= i < |s| ==> !keep(s[i])) ==> r == []
  {
    if s == [] then
      []
    else
      var rest := Filter(s[1..], keep);
      FilterStep(s, rest, keep);
      if keep(s[0]) then [s[0]] + rest else rest
  }

  /** One step of `Filter`: its contract for `s[1..]` and `rest` gives it for `s`. */
  lemma FilterStep<T(!new)>(s: seq<T>, rest: seq<T>, keep: T -> bool)
    requires s != []
    requires |rest| <= |s| - 1
    requires forall x :: multiset(rest)[x] == if keep(x) then multiset(s[1..])[x] else 0
    requires (forall i :: 1 <= i < |s| ==> keep(s[i])) ==> rest == s[1..]
    requires (forall i :: 1 <= i < |s| ==> !keep(s[i])) ==> rest == []
    ensures var r := if keep(s[0]) then [s[0]] + rest else rest;
      && |r| <= |s|
      && (forall x :: x in r <==> x in s && keep(x))
      && (forall x :: multiset(r)[x] == if keep(x) then multiset(s)[x] else 0)
      && ((forall i :: 0 <= i < |s| ==> keep(s[i])) ==> r == s)
      && ((forall i :: 0 <= i < |s| ==> !keep(s[i])) ==> r == [])
  {
    var r := if keep(s[0]) then [s[0]] + rest else rest;
    assert s == [s[0]] + s[1..];
    assert multiset(s) == multiset{s[0]} + multiset(s[1..]);
    forall x ensures x in r <==> x in s && keep(x) {
      assert x in r <==> multiset(r)[x] > 0;
      assert x in s <==> multiset(s)[x] > 0;
    }
  }

  /**
   * Filtering a concatenation filters each part and keeps the parts in order. With
   * the one-element cases of `Filter`'s contract this fixes the order of the result.
   */
  lemma {:induction false} FilterConcat<T(!new)>(s: seq<T>, t: seq<T>, keep: T -> bool)
    ensures Filter(s + t, keep) == Filter(s, keep) + Filter(t, keep)
    decreases |s|
  {
    if s == [] {
      assert s + t == t;
    } else {
      assert (s + t)[1..] == s[1..] + t;
      FilterConcat(s[1..], t, keep);
    }
  }
}
