/**
  The digit pool of the tabular method: tokens collected row by row from the digit file
  until enough distinct ones are held. A row is a line of the file already split on
  whitespace; the file itself is not read here.
 */
module DigitPool {

  import opened Wrappers

  /** No token occurs twice. */
  predicate Distinct<T(==)>(s: seq<T>)
  {
    forall i, j :: 0 <= i < j < |s| ==> s[i] != s[j]
  }

  /** The distinct tokens of one row (the set built from a split line). */
  function RowTokens(row: seq<string>): set<string>
  {
    set t | t in row
  }

  /** The distinct tokens of all the given rows. */
  function TokensOf(rows: seq<seq<string>>): set<string>
  {
    set i, t | 0 <= i < |rows| && t in rows[i] :: t
  }

  /** Reading one more row adds its tokens to the set. */
  lemma TokensOfSnoc(rows: seq<seq<string>>, k: nat)
    requires k < |rows|
    ensures TokensOf(rows[..k + 1]) == TokensOf(rows[..k]) + RowTokens(rows[k])
  {
  }

  /** After reading the first `k` rows, the collection loop holds at least `count + 1` tokens. */
  predicate Reached(rows: seq<seq<string>>, count: nat, k: nat)
    requires k <= |rows|
  {
    |TokensOf(rows[..k])| >= count + 1
  }

  /**
    How many rows the collection loop reads when it has already read `i` rows without
    stopping: it reads the next one and stops if the threshold is then reached.
   */
  function ReadFrom(rows: seq<seq<string>>, count: nat, i: nat): (k: nat)
    requires i <= |rows|
    ensures i <= k <= |rows|
    ensures i < |rows| ==> i < k
    ensures forall j :: i < j < k ==> !Reached(rows, count, j)
    ensures k == |rows| || Reached(rows, count, k)
    decreases |rows| - i
  {
    if i == |rows| then i
    else if Reached(rows, count, i + 1) then i + 1
    else ReadFrom(rows, count, i + 1)
  }

  /**
    The number of rows the collection loop reads: the first `k` at which the threshold is
    reached, or all of them. No row past it is looked at.
   */
  function RowsRead(rows: seq<seq<string>>, count: nat): (k: nat)
    ensures k <= |rows|
    ensures forall j :: 0 <= j < k ==> !Reached(rows, count, j)
    ensures k == |rows| || Reached(rows, count, k)
  {
    assert !Reached(rows, count, 0) by { assert rows[..0] == []; }
    ReadFrom(rows, count, 0)
  }

  /** The set the collection loop holds when it stops. */
  function Collected(rows: seq<seq<string>>, count: nat): set<string>
  {
    TokensOf(rows[..RowsRead(rows, count)])
  }

  /** Reading the rows of a prefix collects no token outside the whole input. */
  lemma PrefixTokens(rows: seq<seq<string>>, k: nat)
    requires k <= |rows|
    ensures TokensOf(rows[..k]) <= TokensOf(rows)
  {
  }

  lemma SubsetCardinality(a: set<string>, b: set<string>)
    requires a <= b
    ensures |a| <= |b|
  {
    assert b == a + (b - a);
  }

  /**
    The set the loop stops with is as good as all the tokens, as far as a request for
    `count` of them goes: truncated to `count`, both give the same number.
   */
  lemma {:induction false} CollectedSize(rows: seq<seq<string>>, count: nat)
    ensures Collected(rows, count) <= TokensOf(rows)
    ensures Min(count, |Collected(rows, count)|) == Min(count, |TokensOf(rows)|)
  {
    var k := RowsRead(rows, count);
    PrefixTokens(rows, k);
    if k == |rows| {
      assert rows[..k] == rows;
    } else {
      assert Reached(rows, count, k);
      SubsetCardinality(Collected(rows, count), TokensOf(rows));
    }
  }

  /**
    Rows after the stopping row are never read: any input that agrees with `rows` up to the
    stopping row stops at the same row with the same collected set.
   */
  lemma {:induction false} LaterRowsUnread(rows: seq<seq<string>>, other: seq<seq<string>>, count: nat)
    requires RowsRead(rows, count) <= |other|
    requires other[..RowsRead(rows, count)] == rows[..RowsRead(rows, count)]
    requires Reached(rows, count, RowsRead(rows, count))
    ensures RowsRead(other, count) == RowsRead(rows, count)
    ensures Collected(other, count) == Collected(rows, count)
  {
    var k := RowsRead(rows, count);
    forall j | 0 <= j <= k
      ensures Reached(other, count, j) == Reached(rows, count, j)
    {
      assert other[..j] == other[..k][..j];
      assert rows[..j] == rows[..k][..j];
    }
    var k' := RowsRead(other, count);
    assert k <= k' by {
      assert k' == |other| || Reached(other, count, k');
    }
    assert k' <= k by {
      assert Reached(other, count, k);
    }
  }

  /** A list has no repeated token exactly when no token occurs in it more than once. */
  lemma {:induction false} DistinctMultiplicity<T>(s: seq<T>)
    ensures Distinct(s) <==> forall x :: multiset(s)[x] <= 1
  {
    if s != [] {
      var tail := s[1..];
      assert s == [s[0]] + tail;
      assert multiset(s) == multiset{s[0]} + multiset(tail);
      DistinctMultiplicity(tail);
      if Distinct(s) {
        assert s[0] !in tail by {
          forall j | 0 <= j < |tail| ensures tail[j] != s[0] { assert tail[j] == s[j + 1]; }
        }
        assert Distinct(tail) by {
          forall i, j | 0 <= i < j < |tail| ensures tail[i] != tail[j] {
            assert tail[i] == s[i + 1] && tail[j] == s[j + 1];
          }
        }
      }
      if forall x :: multiset(s)[x] <= 1 {
        assert multiset(tail)[s[0]] == 0;
        assert forall x :: multiset(tail)[x] <= multiset(s)[x];
        forall i, j | 0 <= i < j < |s| ensures s[i] != s[j] {
          if i == 0 {
            assert s[j] == tail[j - 1];
          } else {
            assert s[i] == tail[i - 1] && s[j] == tail[j - 1];
          }
        }
      }
    }
  }

  /** Reordering a list without repeated tokens leaves it without repeated tokens. */
  lemma PermutationDistinct<T>(s: seq<T>, t: seq<T>)
    requires multiset(s) == multiset(t)
    requires Distinct(s)
    ensures Distinct(t)
  {
    DistinctMultiplicity(s);
    DistinctMultiplicity(t);
  }

  /** Python's `list(s)`: the elements of a set, once each, in an order the set chooses. */
  method ListOf(s: set<string>) returns (xs: seq<string>)
    ensures Distinct(xs)
    ensures |xs| == |s|
    ensures forall t :: t in xs <==> t in s
  {
    xs := [];
    var rest := s;
    while rest != {}
      invariant rest <= s
      invariant Distinct(xs)
      invariant forall t :: t in xs <==> t in s && t !in rest
      invariant |xs| + |rest| == |s|
      decreases |rest|
    {
      var x :| x in rest;
      xs := xs + [x];
      rest := rest - {x};
    }
  }
}
