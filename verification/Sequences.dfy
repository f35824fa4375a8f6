/** Facts about sequences that several modules need. */
module Sequences {

  lemma Associates<T>(a: seq<T>, b: seq<T>, c: seq<T>)
    ensures a + (b + c) == a + b + c
  {
  }

  /** The index of the first element with a name, or the length. */
  function IndexOf<T>(s: seq<T>, nameOf: T -> string, name: string): (k: nat)
    ensures k <= |s| && (k < |s| ==> nameOf(s[k]) == name)
    ensures forall i :: 0 <= i < k ==> nameOf(s[i]) != name
  {
    if s == [] || nameOf(s[0]) == name then 0 else 1 + IndexOf(s[1..], nameOf, name)
  }

  lemma {:induction false} IndexIs<T>(s: seq<T>, nameOf: T -> string, name: string, k: nat)
    requires k <= |s| && (k < |s| ==> nameOf(s[k]) == name)
    requires forall i :: 0 <= i < k ==> nameOf(s[i]) != name
    ensures IndexOf(s, nameOf, name) == k
  {
    if k > 0 {
      IndexIs(s[1..], nameOf, name, k - 1);
    }
  }
}
