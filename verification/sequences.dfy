/**
 * Regrouping facts about concatenation, stated over plain sequence
 * variables so that proofs about long output lists can name their parts
 * instead of unfolding the functions that compute them.
 */
module Sequences {

  /** Concatenation regroups. */
  lemma AppendAssoc<T>(a: seq<T>, b: seq<T>, c: seq<T>, ab: seq<T>, abc: seq<T>, bc: seq<T>)
    requires ab == a + b && abc == ab + c && bc == b + c
    ensures abc == a + bc
  {
  }

  /** Moving the head of what is still to come onto what is done keeps the whole. */
  lemma AppendShift<T>(done: seq<T>, head: seq<T>, rest: seq<T>, toCome: seq<T>, total: seq<T>, moved: seq<T>)
    requires done + toCome == total && toCome == head + rest && moved == done + head
    ensures moved + rest == total
  {
  }

  /** A sequence is its prefix, middle and suffix put back together. */
  lemma SliceSplit<T>(s: seq<T>, lo: nat, hi: nat)
    requires lo <= hi <= |s|
    ensures s[..hi] == s[..lo] + s[lo..hi] && s == s[..hi] + s[hi..]
  {
  }
}
