/**
  The tabular method: the pool is shuffled in place, cut into three consecutive windows of
  `n` tokens and each window is mapped into its width class.
 */
module Tabular {

  import opened Wrappers
  import opened DigitPool

  /** The one-digit class: `v % 10`. */
  function OneDigit(v: int): (d: int)
    ensures 0 <= d < 10
    ensures (v - d) % 10 == 0
  {
    v % 10
  }

  /** The two-digit class: `v % 90 + 10`. */
  function TwoDigits(v: int): (d: int)
    ensures 10 <= d < 100
    ensures (v - (d - 10)) % 90 == 0
  {
    v % 90 + 10
  }

  /** The three-digit class: `v % 900 + 100`. */
  function ThreeDigits(v: int): (d: int)
    ensures 100 <= d < 1000
    ensures (v - (d - 100)) % 900 == 0
  {
    v % 900 + 100
  }

  /** Python's `s[lo:hi]` for `0 <= lo <= hi`: bounds past the end are cut back to it. */
  function Slice<T>(s: seq<T>, lo: nat, hi: nat): (w: seq<T>)
    requires lo <= hi
    ensures |w| == Min(hi, |s|) - Min(lo, |s|)
    ensures forall i :: 0 <= i < |w| ==> w[i] == s[lo + i]
  {
    if hi <= |s| then s[lo..hi] else if lo <= |s| then s[lo..] else []
  }

  /** The comprehension `[cls(int(i)) for i in ws]`, with `toInt` standing for `int`. */
  function Classify(ws: seq<string>, toInt: string -> int, cls: int -> int): seq<int>
  {
    seq(|ws|, i requires 0 <= i < |ws| => cls(toInt(ws[i])))
  }

  /** The three lists of the tabular method. */
  datatype Split = Split(one: seq<int>, two: seq<int>, three: seq<int>)

  /** The length of window `k` (0, 1 or 2) of a pool of `total` tokens cut in windows of `n`. */
  function WindowLength(total: nat, k: nat, n: nat): nat
  {
    if total <= k * n then 0 else Min(n, total - k * n)
  }

  /**
    The slice-and-remainder step of the tabular method: the windows `[0, n)`, `[n, 2n)` and
    `[2n, 3n)` of the (shuffled) pool, each mapped into its width class.
   */
  function TabularSplit(pool: seq<string>, n: nat, toInt: string -> int): (r: Split)
    ensures |r.one| == WindowLength(|pool|, 0, n)
    ensures |r.two| == WindowLength(|pool|, 1, n)
    ensures |r.three| == WindowLength(|pool|, 2, n)
    ensures forall i :: 0 <= i < |r.one| ==> r.one[i] == OneDigit(toInt(pool[i]))
    ensures forall i :: 0 <= i < |r.two| ==> r.two[i] == TwoDigits(toInt(pool[n + i]))
    ensures forall i :: 0 <= i < |r.three| ==> r.three[i] == ThreeDigits(toInt(pool[2 * n + i]))
  {
    Split(Classify(Slice(pool, 0, n), toInt, OneDigit),
          Classify(Slice(pool, n, 2 * n), toInt, TwoDigits),
          Classify(Slice(pool, 2 * n, 3 * n), toInt, ThreeDigits))
  }

  /** Every value of each list lies in that list's width class. */
  predicate InClasses(r: Split)
  {
    && (forall i :: 0 <= i < |r.one| ==> 0 <= r.one[i] < 10)
    && (forall i :: 0 <= i < |r.two| ==> 10 <= r.two[i] < 100)
    && (forall i :: 0 <= i < |r.three| ==> 100 <= r.three[i] < 1000)
  }

  /** Every tabular value lies in its width class, whatever integer its token stands for. */
  lemma SplitInClasses(pool: seq<string>, n: nat, toInt: string -> int)
    ensures InClasses(TabularSplit(pool, n, toInt))
  {
  }

  /** Each of the three lists has `n` values exactly when the pool holds at least `3n` tokens. */
  lemma FullWindows(pool: seq<string>, n: nat, toInt: string -> int)
    ensures var r := TabularSplit(pool, n, toInt);
      |r.one| == n && |r.two| == n && |r.three| == n <==> |pool| >= 3 * n
  {
  }

  /**
    The three windows are consecutive and do not overlap: together they are the first
    `3n` tokens of the pool (or all of it), in order.
   */
  lemma WindowsPartition<T>(pool: seq<T>, n: nat)
    ensures Slice(pool, 0, n) + Slice(pool, n, 2 * n) + Slice(pool, 2 * n, 3 * n) == pool[..Min(3 * n, |pool|)]
  {
  }

  /** In a pool without repeated tokens, no token feeds two width classes. */
  lemma DistinctWindowsDisjoint(pool: seq<string>, n: nat)
    requires Distinct(pool)
    ensures forall t :: t in Slice(pool, 0, n) ==> t !in Slice(pool, n, 2 * n) && t !in Slice(pool, 2 * n, 3 * n)
    ensures forall t :: t in Slice(pool, n, 2 * n) ==> t !in Slice(pool, 2 * n, 3 * n)
  {
  }

  /**
    `random.shuffle` on a list: an in-place shuffle whose random index choices are left
    open, so the result is some permutation of the input.
   */
  method Shuffle(a: array<string>)
    modifies a
    ensures multiset(a[..]) == old(multiset(a[..]))
  {
    var i := a.Length;
    while i > 1
      invariant 0 <= i <= a.Length
      invariant multiset(a[..]) == old(multiset(a[..]))
    {
      i := i - 1;
      var j :| 0 <= j <= i;
      a[i], a[j] := a[j], a[i];
    }
  }
}
