/**
 * Facts about sequences stated once for every element type, so that a
 * proof about strings or dicts can cite them without the solver having to
 * rediscover them next to the definitions it is unfolding.
 */
module Seqs {
  /** Dropping twice is dropping once. */
  lemma DropDrop<T>(s: seq<T>, a: nat, b: nat)
    requires a + b <= |s|
    ensures s[a..][b..] == s[a + b..]
  {
  }

  /** A sequence is its first element followed by the rest. */
  lemma HeadTail<T>(s: seq<T>)
    requires |s| > 0
    ensures [s[0]] + s[1..] == s
  {
  }

  /** Indexing past a first element. */
  lemma DropIndex<T>(s: seq<T>, a: nat, k: nat)
    requires a + k < |s|
    ensures s[a..][k] == s[a + k]
  {
  }

  lemma ConsIndex<T>(x: T, r: seq<T>, k: nat)
    requires k < 1 + |r|
    ensures ([x] + r)[k] == if k == 0 then x else r[k - 1]
  {
  }

  lemma EmptyConcat<T>(a: seq<T>, b: seq<T>)
    ensures [] + b == b && a[..0] == [] && (a == [] ==> a + b == b)
  {
  }

  lemma ConcatTail<T>(a: seq<T>, m: seq<T>, b: seq<T>)
    requires |a| > 0
    ensures (a + m + b)[0] == a[0] && (a + m + b)[1..] == a[1..] + m + b
    ensures (a + b)[0] == a[0] && (a + b)[1..] == a[1..] + b
  {
  }

  lemma ConsConcat<T>(x: T, a: seq<T>, b: seq<T>)
    ensures [x] + (a + b) == ([x] + a) + b
  {
  }

  lemma SliceCons<T>(s: seq<T>, n: nat)
    requires 0 < n <= |s|
    ensures s[..n] == [s[0]] + s[1..][..n - 1]
  {
  }

  /** Concatenation regrouped. */
  lemma Assoc<T>(a: seq<T>, b: seq<T>, c: seq<T>)
    ensures (a + b) + c == a + (b + c)
  {
  }

  /** A prefix of a prefix. */
  lemma TakeTake<T>(s: seq<T>, n: nat, i: nat)
    requires i <= n <= |s|
    ensures s[..n][..i] == s[..i] && s[..|s|] == s
  {
  }

  /** A slice of a suffix is a slice of the whole, shifted. */
  lemma SliceDrop<T>(s: seq<T>, k: nat, lo: nat, hi: nat)
    requires k <= |s| && lo <= hi <= |s| - k
    ensures s[k..][lo..hi] == s[lo + k..hi + k]
  {
  }

  /** A non-empty sequence is its front followed by its last element. */
  lemma TakeLast<T>(s: seq<T>)
    requires |s| > 0
    ensures s == s[..|s| - 1] + [s[|s| - 1]]
  {
  }
}
