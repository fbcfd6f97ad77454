/**
  The window of the third lab: it reads the configuration, refuses a bad one, and then
  produces the algorithmic and the tabular batches with their numbered rows. Widgets,
  tables and dialogs are not modelled; what `solve` shows is returned as an `Outcome`.
 */
module Lab3 {

  import opened Wrappers
  import opened DigitPool
  import opened Tabular
  import opened Batch

  /** The guard of `solve`: a configuration it refuses to run. */
  predicate Rejects(count: int, a: int, b: int, c: int)
  {
    a < 1 || b < 1 || c < 1 || count < 10
  }

  /** The smallest configuration the guard lets through, and its neighbours it refuses. */
  lemma GateBoundary()
    ensures !Rejects(10, 1, 1, 1)
    ensures Rejects(9, 1, 1, 1) && Rejects(10, 0, 1, 1) && Rejects(10, 1, 0, 1) && Rejects(10, 1, 1, 0)
  {
  }

  /** Why `solve` gave up: an entry that is not an integer, or a value the guard refuses. */
  datatype Rejection = Unparsable | OutOfRange

  /**
    What one press of the button produces: nothing, or the algorithmic rows and, unless the
    row comprehension ran past a short tabular list, the tabular rows.
   */
  datatype Outcome =
    | Rejected(reason: Rejection)
    | Generated(algorithmic: seq<TableRow>, tabular: Option<seq<TableRow>>)

  /**
    The tabular rows of a pool: they exist exactly when the pool holds `3n` tokens, and then
    they are well formed.
   */
  lemma TabularRows(pool: seq<string>, n: nat, toInt: string -> int)
    ensures var r := TabularSplit(pool, n, toInt);
      && (TableRows(n, r.one, r.two, r.three).Some? <==> |pool| >= 3 * n)
      && (TableRows(n, r.one, r.two, r.three).Some? ==> WellFormedRows(TableRows(n, r.one, r.two, r.three).value))
  {
  }

  class Window<S> {
    /** The number of values per class, and the generator parameters, as last entered. */
    var countNumbers: int
    var a: int
    var b: int
    var c: int

    /** The generator shared by every window (a class attribute in the program). */
    const myrandom: Generator<S>

    constructor (shared: Generator<S>)
      ensures myrandom == shared
    {
      myrandom := shared;
    }

    /**
      `getNumbers`: collects the tokens of the rows into a set until it holds more than
      `count` of them, then keeps `count` of them in whatever order the set lists them.
     */
    method GetNumbers(count: nat, rows: seq<seq<string>>) returns (numbers: seq<string>)
      ensures Distinct(numbers)
      ensures |numbers| == Min(count, |TokensOf(rows)|)
      ensures forall t :: t in numbers ==> t in Collected(rows, count)
      ensures |Collected(rows, count)| <= count ==> forall t :: t in Collected(rows, count) ==> t in numbers
    {
      var collected: set<string> := {};
      var i := 0;
      while i < |rows|
        invariant i <= |rows|
        invariant collected == TokensOf(rows[..i])
        invariant ReadFrom(rows, count, i) == RowsRead(rows, count)
      {
        TokensOfSnoc(rows, i);
        collected := collected + RowTokens(rows[i]);
        i := i + 1;
        if |collected| >= count + 1 {
          break;
        }
      }
      assert i == RowsRead(rows, count);
      var all := ListOf(collected);
      CollectedSize(rows, count);
      numbers := all[..Min(count, |all|)];
    }

    /**
      `tabularSolve`: takes `3 * countNumbers` tokens of the digit file, shuffles them and
      splits them into the three width classes.
     */
    method TabularSolve(digits: seq<seq<string>>, toInt: string -> int)
      returns (r: Split, ghost pool: seq<string>, ghost shuffled: seq<string>)
      requires countNumbers >= 0
      ensures Distinct(pool) && |pool| == Min(3 * countNumbers, |TokensOf(digits)|)
      ensures forall t :: t in pool ==> t in Collected(digits, 3 * countNumbers)
      ensures multiset(shuffled) == multiset(pool) && |shuffled| == |pool|
      ensures Distinct(shuffled) && forall t :: t in shuffled ==> t in TokensOf(digits)
      ensures r == TabularSplit(shuffled, countNumbers, toInt)
      ensures |r.one| == WindowLength(Min(3 * countNumbers, |TokensOf(digits)|), 0, countNumbers)
      ensures |r.two| == WindowLength(Min(3 * countNumbers, |TokensOf(digits)|), 1, countNumbers)
      ensures |r.three| == WindowLength(Min(3 * countNumbers, |TokensOf(digits)|), 2, countNumbers)
      ensures InClasses(r)
    {
      var n: nat := countNumbers;
      var numbers := GetNumbers(3 * n, digits);
      pool := numbers;
      var list := new string[|numbers|](i requires 0 <= i < |numbers| => numbers[i]);
      assert list[..] == numbers;
      Shuffle(list);
      shuffled := list[..];
      assert |shuffled| == |multiset(shuffled)| == |multiset(pool)| == |pool|;
      PermutationDistinct(pool, shuffled);
      CollectedSize(digits, 3 * n);
      forall t | t in shuffled ensures t in TokensOf(digits) {
        assert t in multiset(pool);
      }
      r := TabularSplit(list[..], n, toInt);
      SplitInClasses(shuffled, n, toInt);
    }

    /** One comprehension of `algorithmicSolve`: `n` draws in `range`, advancing the generator. */
    method DrawMany(n: nat, range: Range) returns (xs: seq<int>)
      modifies myrandom
      ensures (xs, myrandom.state) == Draws(myrandom.step, old(myrandom.state), Repeat(n, range), Params(a, b, c))
    {
      xs := [];
      var i := 0;
      while i < n
        invariant i <= n
        invariant (xs, myrandom.state) == Draws(myrandom.step, old(myrandom.state), Repeat(i, range), Params(a, b, c))
      {
        var v := myrandom.GetNumber(range, Params(a, b, c));
        xs := xs + [v];
        i := i + 1;
        assert Repeat(i, range)[..i - 1] == Repeat(i - 1, range);
      }
    }

    /**
      `algorithmicSolve`: `countNumbers` one-digit draws, then as many two-digit and
      three-digit ones, all from the shared generator.
     */
    method AlgorithmicSolve() returns (r: Split)
      requires countNumbers >= 0
      modifies myrandom
      ensures |r.one| == countNumbers && |r.two| == countNumbers && |r.three| == countNumbers
      ensures (r.one + r.two + r.three, myrandom.state)
        == Draws(myrandom.step, old(myrandom.state), BatchRequests(countNumbers), Params(a, b, c))
    {
      var n: nat := countNumbers;
      ghost var p := Params(a, b, c);
      ghost var s0 := myrandom.state;
      var one := DrawMany(n, OneDigitRange);
      var two := DrawMany(n, TwoDigitsRange);
      var three := DrawMany(n, ThreeDigitsRange);
      DrawsAppend(myrandom.step, s0, Repeat(n, OneDigitRange), Repeat(n, TwoDigitsRange), p);
      DrawsAppend(myrandom.step, s0, Repeat(n, OneDigitRange) + Repeat(n, TwoDigitsRange), Repeat(n, ThreeDigitsRange), p);
      r := Split(one, two, three);
    }

    /**
      The parsing half of `solve`: the four entries are read in order and each one that
      parses is stored before the next is read, so a failure keeps the earlier values.
     */
    method ReadEntries(cntEntry: Option<int>, aEntry: Option<int>, bEntry: Option<int>, cEntry: Option<int>)
      returns (parsed: bool)
      modifies this
      ensures parsed <==> cntEntry.Some? && aEntry.Some? && bEntry.Some? && cEntry.Some?
      ensures countNumbers == if cntEntry.Some? then cntEntry.value else old(countNumbers)
      ensures a == if cntEntry.Some? && aEntry.Some? then aEntry.value else old(a)
      ensures b == if cntEntry.Some? && aEntry.Some? && bEntry.Some? then bEntry.value else old(b)
      ensures c == if parsed then cEntry.value else old(c)
    {
      parsed := false;
      if cntEntry.None? {
        return;
      }
      countNumbers := cntEntry.value;
      if aEntry.None? {
        return;
      }
      a := aEntry.value;
      if bEntry.None? {
        return;
      }
      b := bEntry.value;
      if cEntry.None? {
        return;
      }
      c := cEntry.value;
      parsed := true;
    }

    /**
      The generating half of `solve`: the algorithmic rows first, then the tabular rows,
      which are missing when the digit file has fewer than `3 * countNumbers` distinct tokens.
     */
    method Generate(digits: seq<seq<string>>, toInt: string -> int)
      returns (outcome: Outcome, ghost shuffled: seq<string>)
      requires countNumbers >= 0
      modifies myrandom
      ensures outcome.Generated?
      ensures var vs := Draws(myrandom.step, old(myrandom.state), BatchRequests(countNumbers), Params(a, b, c));
        && myrandom.state == vs.1
        && Some(outcome.algorithmic)
           == TableRows(countNumbers, vs.0[..countNumbers], vs.0[countNumbers..2 * countNumbers], vs.0[2 * countNumbers..])
      ensures Distinct(shuffled)
      ensures |shuffled| == Min(3 * countNumbers, |TokensOf(digits)|)
      ensures forall t :: t in shuffled ==> t in TokensOf(digits)
      ensures var r := TabularSplit(shuffled, countNumbers, toInt);
        outcome.tabular == TableRows(countNumbers, r.one, r.two, r.three)
      ensures outcome.tabular.Some? <==> |TokensOf(digits)| >= 3 * countNumbers
      ensures outcome.tabular.Some? ==> WellFormedRows(outcome.tabular.value)
    {
      var n: nat := countNumbers;
      var alg := AlgorithmicSolve();
      var vs := alg.one + alg.two + alg.three;
      assert vs[..n] == alg.one && vs[n..2 * n] == alg.two && vs[2 * n..] == alg.three;
      var algRows := TableRows(n, alg.one, alg.two, alg.three);

      var tab;
      ghost var pool;
      tab, pool, shuffled := TabularSolve(digits, toInt);
      var tabRows := TableRows(n, tab.one, tab.two, tab.three);
      TabularRows(shuffled, n, toInt);
      outcome := Generated(algRows.value, tabRows);
    }

    /**
      `solve`: reads the entries, refuses a configuration that does not parse or that the
      guard rejects (then nothing is drawn), and otherwise generates both batches.
     */
    method Solve(cntEntry: Option<int>, aEntry: Option<int>, bEntry: Option<int>, cEntry: Option<int>,
                 digits: seq<seq<string>>, toInt: string -> int)
      returns (outcome: Outcome, ghost shuffled: seq<string>)
      modifies this, myrandom
      ensures countNumbers == if cntEntry.Some? then cntEntry.value else old(countNumbers)
      ensures a == if cntEntry.Some? && aEntry.Some? then aEntry.value else old(a)
      ensures b == if cntEntry.Some? && aEntry.Some? && bEntry.Some? then bEntry.value else old(b)
      ensures c == if cntEntry.Some? && aEntry.Some? && bEntry.Some? && cEntry.Some? then cEntry.value else old(c)
      ensures outcome == Rejected(Unparsable) <==> cntEntry.None? || aEntry.None? || bEntry.None? || cEntry.None?
      ensures outcome == Rejected(OutOfRange) <==>
        cntEntry.Some? && aEntry.Some? && bEntry.Some? && cEntry.Some? &&
        Rejects(cntEntry.value, aEntry.value, bEntry.value, cEntry.value)
      ensures outcome.Rejected? ==> myrandom.state == old(myrandom.state)
      ensures outcome.Generated? ==> countNumbers >= 10
      ensures outcome.Generated? ==>
        var vs := Draws(myrandom.step, old(myrandom.state), BatchRequests(countNumbers), Params(a, b, c));
        && myrandom.state == vs.1
        && Some(outcome.algorithmic)
           == TableRows(countNumbers, vs.0[..countNumbers], vs.0[countNumbers..2 * countNumbers], vs.0[2 * countNumbers..])
      ensures outcome.Generated? ==>
        && Distinct(shuffled)
        && |shuffled| == Min(3 * countNumbers, |TokensOf(digits)|)
        && (forall t :: t in shuffled ==> t in TokensOf(digits))
        && var r := TabularSplit(shuffled, countNumbers, toInt);
           outcome.tabular == TableRows(countNumbers, r.one, r.two, r.three)
      ensures outcome.Generated? ==> (outcome.tabular.Some? <==> |TokensOf(digits)| >= 3 * countNumbers)
      ensures outcome.Generated? && outcome.tabular.Some? ==> WellFormedRows(outcome.tabular.value)
    {
      shuffled := [];
      var parsed := ReadEntries(cntEntry, aEntry, bEntry, cEntry);
      if !parsed {
        outcome := Rejected(Unparsable);
        return;
      }
      if Rejects(countNumbers, a, b, c) {
        outcome := Rejected(OutOfRange);
        return;
      }
      outcome, shuffled := Generate(digits, toInt);
    }
  }
}
