/** Small facts about sequence slicing and concatenation, stated once for every element type. */
module Seqs {

  /** Concatenation is associative. */
  lemma AppendAssoc<T>(a: seq<T>, b: seq<T>, c: seq<T>)
    ensures (a + b) + c == a + (b + c)
  {
  }

  /** Dropping the head of a non-empty sequence leaves its tail. */
  lemma DropFirst<T>(x: T, r: seq<T>)
    ensures ([x] + r)[1..] == r && |[x] + r| == |r| + 1
  {
  }

  /** The suffix from `i` starts with `s[i]` and continues with the suffix from `i + 1`. */
  lemma SuffixStep<T>(s: seq<T>, i: nat)
    requires i < |s|
    ensures s[i..] != [] && s[i..][0] == s[i] && s[i..][1..] == s[i + 1..]
  {
  }

  /** Appending a non-empty `ys`: all but the last element, and the last element. */
  lemma AppendInit<T>(xs: seq<T>, ys: seq<T>)
    requires ys != []
    ensures xs + ys != []
    ensures (xs + ys)[..|xs + ys| - 1] == xs + ys[..|ys| - 1]
    ensures (xs + ys)[|xs + ys| - 1] == ys[|ys| - 1]
  {
  }

  /** Appending nothing. */
  lemma AppendEmpty<T>(xs: seq<T>)
    ensures xs + [] == xs
  {
  }
}
