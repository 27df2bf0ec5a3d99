/** Element-wise mapping of lists and optional values (`iter().map(f).collect()`, `Option::map`). */
module Collections {
  import opened Wrappers

  /** The list `s` with `f` applied to every element, in order. */
  function MapSeq<A, B>(f: A -> B, s: seq<A>): (r: seq<B>)
    ensures |r| == |s|
    ensures forall i :: 0 <= i < |s| ==> r[i] == f(s[i])
  {
    if |s| == 0 then [] else [f(s[0])] + MapSeq(f, s[1..])
  }

  function MapOption<A, B>(f: A -> B, o: Option<A>): Option<B> {
    match o
    case None => None
    case Some(x) => Some(f(x))
  }

  /** Mapping with `f` and then with a left inverse `g` of `f` gives the list back. */
  lemma MapSeqInverse<A, B>(f: A -> B, g: B -> A, s: seq<A>)
    requires forall x :: x in s ==> g(f(x)) == x
    ensures MapSeq(g, MapSeq(f, s)) == s
  {
  }

  /** The same for an optional value. */
  lemma MapOptionInverse<A, B>(f: A -> B, g: B -> A, o: Option<A>)
    requires o.Some? ==> g(f(o.value)) == o.value
    ensures MapOption(g, MapOption(f, o)) == o
  {
  }
}
