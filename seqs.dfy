/**
 * General facts about sequences, stated once so that the proofs about lists of
 * strings use them instead of comparing the strings element by element.
 */
module Seqs {
  /** A slice of a suffix is a slice of the whole. */
  lemma DropSlices<T>(s: seq<T>, l: nat, n: nat)
    requires l + n <= |s|
    ensures s[l..][..n] == s[l..l + n]
    ensures s[l..][n..] == s[l + n..]
  {
  }

  /** Concatenation is associative. */
  lemma ConcatAssoc<T>(a: seq<T>, b: seq<T>, c: seq<T>)
    ensures (a + b) + c == a + (b + c)
  {
  }

  /** A prefix one longer is the prefix and the next element. */
  lemma TakeSnoc<T>(s: seq<T>, j: nat)
    requires j < |s|
    ensures s[..j + 1] == s[..j] + [s[j]]
  {
  }

  /** The first and the last of three concatenated parts can be cut back out. */
  lemma SplitThree<T>(a: seq<T>, b: seq<T>, c: seq<T>)
    ensures (a + b + c)[..|a|] == a
    ensures (a + b + c)[|a| + |b|..] == c
  {
  }

  /** A sequence is its prefix followed by the rest. */
  lemma TakeDrop<T>(s: seq<T>, i: nat)
    requires i <= |s|
    ensures s[..i] + s[i..] == s
  {
  }

  /** The prefix of full length is the whole. */
  lemma TakeAll<T>(s: seq<T>)
    ensures s[..|s|] == s
  {
  }

  /** Appending three elements one at a time appends them as a list. */
  lemma AppendThree<T>(s: seq<T>, a: T, b: T, c: T)
    ensures s + [a] + [b] + [c] == s + [a, b, c]
  {
  }

  /** The end of a concatenation is its second part. */
  lemma SuffixOfConcat<T>(p: seq<T>, x: seq<T>)
    ensures (p + x)[|p + x| - |x|..] == x
  {
  }

  /** An empty middle part adds nothing. */
  lemma EmptyMiddle<T>(a: seq<T>, b: seq<T>)
    ensures a + [] + b == a + b
  {
  }

  /** What starts and ends a middle part starts and ends it inside a frame. */
  lemma Framed<T>(h: seq<T>, j: seq<T>, t: seq<T>, p: seq<T>, s: seq<T>)
    requires |j| >= |p| && |j| >= |s| && j[..|p|] == p && j[|j| - |s|..] == s
    ensures |h + j + t| >= |h + p| && |h + j + t| >= |s + t|
    ensures (h + j + t)[..|h + p|] == h + p
    ensures (h + j + t)[|h + j + t| - |s + t|..] == s + t
  {
    assert (h + j + t)[..|h + p|] == h + j[..|p|];
    assert (h + j + t)[|h + j + t| - |s + t|..] == j[|j| - |s|..] + t;
  }
}
