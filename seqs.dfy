/** Sequence helpers shared by the query models. */
module Seqs {

  /** The elements of `s` that satisfy `p`, in their original order (a `where` over a table). */
  function Filter<T(!new)>(s: seq<T>, p: T -> bool): (r: seq<T>)
    ensures |r| <= |s|
    ensures forall x :: x in r <==> x in s && p(x)
    ensures s == [] ==> r == []
  {
    if s == [] then [] else (if p(s[0]) then [s[0]] else []) + Filter(s[1..], p)
  }
}
