/**
  The algorithmic method's batch shape and the numbered table rows. The generator itself
  (its recurrence and its range mapping) is foreign: it is a step function over an opaque
  state, and only the way the state is threaded through the draws is modelled.
 */
module Batch {

  import opened Wrappers
  import opened Tabular

  /** The generator parameters `a`, `b`, `c` passed on every draw. */
  datatype Params = Params(a: int, b: int, c: int)

  /** A request for one draw in `[low, high)`. */
  datatype Range = Range(low: int, high: int)

  /**
    The shared generator object. `step` stands for one call of the foreign draw: from the
    current state, a requested range and the parameters, it gives the next state and the
    value drawn.
   */
  class Generator<S> {
    var state: S
    const step: (S, Range, Params) -> (S, int)

    constructor (init: S, step: (S, Range, Params) -> (S, int))
      ensures state == init
      ensures this.step == step
    {
      state := init;
      this.step := step;
    }

    /** One draw: the state advances and the value is returned. */
    method GetNumber(range: Range, p: Params) returns (v: int)
      modifies this
      ensures (state, v) == step(old(state), range, p)
    {
      var r := step(state, range, p);
      state, v := r.0, r.1;
    }
  }

  /**
    The values and the final state of a sequence of draws that starts from `s` and threads
    the state from each draw to the next, one draw per request, in order.
   */
  function Draws<S>(step: (S, Range, Params) -> (S, int), s: S, reqs: seq<Range>, p: Params): (r: (seq<int>, S))
    ensures |r.0| == |reqs|
    decreases |reqs|
  {
    if reqs == [] then ([], s)
    else
      var before := Draws(step, s, reqs[..|reqs| - 1], p);
      var last := step(before.1, reqs[|reqs| - 1], p);
      (before.0 + [last.1], last.0)
  }

  /** Drawing two request lists one after the other, the second from where the first left off. */
  function Then<S>(step: (S, Range, Params) -> (S, int), s: S, r1: seq<Range>, r2: seq<Range>, p: Params): (seq<int>, S)
  {
    var first := Draws(step, s, r1, p);
    var second := Draws(step, first.1, r2, p);
    (first.0 + second.0, second.1)
  }

  /** Draws over concatenated requests are the draws of each part, with the state carried over. */
  lemma {:induction false} DrawsAppend<S>(step: (S, Range, Params) -> (S, int), s: S, r1: seq<Range>, r2: seq<Range>, p: Params)
    ensures Draws(step, s, r1 + r2, p) == Then(step, s, r1, r2, p)
    decreases |r2|
  {
    if r2 == [] {
      assert r1 + r2 == r1;
      var first := Draws(step, s, r1, p);
      assert Draws(step, first.1, r2, p) == ([], first.1);
      assert first.0 + [] == first.0;
    } else {
      var r2' := r2[..|r2| - 1];
      assert (r1 + r2)[..|r1 + r2| - 1] == r1 + r2';
      assert (r1 + r2)[|r1 + r2| - 1] == r2[|r2| - 1];
      DrawsAppend(step, s, r1, r2', p);
      var first := Draws(step, s, r1, p);
      var mid := Draws(step, first.1, r2', p);
      var last := step(mid.1, r2[|r2| - 1], p);
      assert Draws(step, first.1, r2, p) == (mid.0 + [last.1], last.0);
      assert Draws(step, s, r1 + r2, p) == (first.0 + mid.0 + [last.1], last.0);
      assert first.0 + mid.0 + [last.1] == first.0 + (mid.0 + [last.1]);
    }
  }

  /** The draw of step `step` respects every non-empty requested range. */
  ghost predicate InRange<S(!new)>(step: (S, Range, Params) -> (S, int), p: Params)
  {
    forall s: S, r: Range :: r.low < r.high ==> r.low <= step(s, r, p).1 < r.high
  }

  /** When each single draw respects its range, every value of a sequence of draws does. */
  lemma {:induction false} DrawsInRange<S(!new)>(step: (S, Range, Params) -> (S, int), s: S, reqs: seq<Range>, p: Params)
    requires InRange(step, p)
    ensures forall i :: 0 <= i < |reqs| && reqs[i].low < reqs[i].high ==>
      reqs[i].low <= Draws(step, s, reqs, p).0[i] < reqs[i].high
    decreases |reqs|
  {
    if reqs != [] {
      var init := reqs[..|reqs| - 1];
      DrawsInRange(step, s, init, p);
      var vs := Draws(step, s, reqs, p).0;
      forall i | 0 <= i < |reqs| && reqs[i].low < reqs[i].high
        ensures reqs[i].low <= vs[i] < reqs[i].high
      {
        if i < |init| {
          assert reqs[i] == init[i];
          assert vs[i] == Draws(step, s, init, p).0[i];
        }
      }
    }
  }

  /** `n` requests for the same range (one list comprehension over `range(n)`). */
  function Repeat(n: nat, r: Range): seq<Range>
  {
    seq(n, _ => r)
  }

  /** The width-class ranges of the algorithmic method. */
  const OneDigitRange := Range(0, 10)
  const TwoDigitsRange := Range(10, 100)
  const ThreeDigitsRange := Range(100, 1000)

  /** The `3n` requests of one algorithmic batch: one-digit first, then two-, then three-digit. */
  function BatchRequests(n: nat): seq<Range>
  {
    Repeat(n, OneDigitRange) + Repeat(n, TwoDigitsRange) + Repeat(n, ThreeDigitsRange)
  }

  /**
    With a generator that respects its ranges, one batch has `3n` values: the first `n` are
    one-digit, the next `n` two-digit and the last `n` three-digit.
   */
  lemma BatchInClasses<S(!new)>(step: (S, Range, Params) -> (S, int), s: S, n: nat, p: Params)
    requires InRange(step, p)
    ensures var vs := Draws(step, s, BatchRequests(n), p).0;
      && |vs| == 3 * n
      && (forall i :: 0 <= i < n ==> 0 <= vs[i] < 10)
      && (forall i :: n <= i < 2 * n ==> 10 <= vs[i] < 100)
      && (forall i :: 2 * n <= i < 3 * n ==> 100 <= vs[i] < 1000)
  {
    var reqs := BatchRequests(n);
    DrawsInRange(step, s, reqs, p);
    forall i | 0 <= i < 3 * n
      ensures reqs[i] == if i < n then OneDigitRange else if i < 2 * n then TwoDigitsRange else ThreeDigitsRange
    {
    }
  }

  /** One displayed row: its number and the values of the three classes. */
  datatype TableRow = TableRow(number: int, one: int, two: int, three: int)

  /**
    The row comprehension `(i + 1, one[i], two[i], three[i])` for `i` in `range(n)`. An index
    past the end of a list raises `IndexError` there, which gives `None`.
   */
  function TableRows(n: nat, one: seq<int>, two: seq<int>, three: seq<int>): (r: Option<seq<TableRow>>)
    ensures r.Some? <==> |one| >= n && |two| >= n && |three| >= n
    ensures r.Some? ==> |r.value| == n
  {
    if |one| >= n && |two| >= n && |three| >= n then
      Some(seq(n, i requires 0 <= i < n => TableRow(i + 1, one[i], two[i], three[i])))
    else
      None
  }

  /** Every row is numbered by its position and holds one value of each width class. */
  predicate WellFormedRows(rows: seq<TableRow>)
  {
    forall i :: 0 <= i < |rows| ==>
      && rows[i].number == i + 1
      && 0 <= rows[i].one < 10
      && 10 <= rows[i].two < 100
      && 100 <= rows[i].three < 1000
  }

  /** The three columns of a table, in row order. */
  function Columns(rows: seq<TableRow>): Split
  {
    Split(seq(|rows|, i requires 0 <= i < |rows| => rows[i].one),
          seq(|rows|, i requires 0 <= i < |rows| => rows[i].two),
          seq(|rows|, i requires 0 <= i < |rows| => rows[i].three))
  }

  /**
    The rows are numbered `1..n` in order, and reading the columns back gives the first `n`
    values of each list: the rows neither drop, reorder nor mix values.
   */
  lemma RowsRoundTrip(n: nat, one: seq<int>, two: seq<int>, three: seq<int>)
    requires TableRows(n, one, two, three).Some?
    ensures var rows := TableRows(n, one, two, three).value;
      && (forall i :: 0 <= i < n ==> rows[i].number == i + 1)
      && Columns(rows) == Split(one[..n], two[..n], three[..n])
  {
  }

  /** Rows built from lists whose values lie in their width classes are well formed. */
  lemma RowsFromClasses(n: nat, one: seq<int>, two: seq<int>, three: seq<int>)
    requires TableRows(n, one, two, three).Some?
    requires forall i :: 0 <= i < n ==> 0 <= one[i] < 10 && 10 <= two[i] < 100 && 100 <= three[i] < 1000
    ensures WellFormedRows(TableRows(n, one, two, three).value)
  {
  }

  /**
    The rows of one algorithmic batch always exist (each list has exactly `n` values), and
    they are well formed whenever the generator respects the ranges it is asked for.
   */
  lemma AlgorithmicRows<S(!new)>(step: (S, Range, Params) -> (S, int), s: S, n: nat, p: Params)
    ensures var vs := Draws(step, s, BatchRequests(n), p).0;
      TableRows(n, vs[..n], vs[n..2 * n], vs[2 * n..]).Some?
    ensures InRange(step, p) ==>
      var vs := Draws(step, s, BatchRequests(n), p).0;
      WellFormedRows(TableRows(n, vs[..n], vs[n..2 * n], vs[2 * n..]).value)
  {
    var vs := Draws(step, s, BatchRequests(n), p).0;
    assert |vs| == 3 * n;
    if InRange(step, p) {
      BatchInClasses(step, s, n, p);
      var one, two, three := vs[..n], vs[n..2 * n], vs[2 * n..];
      forall i | 0 <= i < n ensures 0 <= one[i] < 10 && 10 <= two[i] < 100 && 100 <= three[i] < 1000 {
        assert one[i] == vs[i] && two[i] == vs[n + i] && three[i] == vs[2 * n + i];
      }
      RowsFromClasses(n, one, two, three);
    }
  }
}
