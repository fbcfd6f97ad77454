# Pseudo-random digit sampling of lab 3, modelled in Dafny

The third modelling lab produces pseudo-random numbers in three width classes — one-digit
`[0,10)`, two-digit `[10,100)` and three-digit `[100,1000)` — by two methods and shows them
side by side in numbered tables:

- the **tabular** method collects distinct tokens from a digit file row by row, keeps
  `3·N` of them, shuffles them, cuts them into three consecutive windows of `N` tokens and
  maps each window into its class with `v % 10`, `v % 90 + 10` and `v % 900 + 100`;
- the **algorithmic** method draws `N` values per class from one congruential generator,
  whose state is shared by every window and carries over from draw to draw.

Before either runs, `solve` reads four entries (`N`, `a`, `b`, `c`) and refuses to go on when
one of them is not an integer or when `a < 1 or b < 1 or c < 1 or N < 10`.

The model has five modules:

- `Wrappers` — `Option` and `Min`.
- `DigitPool` — the token sets of rows, the number of rows the collection loop reads
  (`RowsRead`), and `ListOf`, Python's `list(set)` with a free order.
- `Tabular` — the width-class maps, Python slices, the three-window split, and the in-place
  `Shuffle`.
- `Batch` — the shared `Generator` object with an abstract step, the threaded `Draws` over a
  list of requested ranges, the batch of `3·N` requests, and the numbered table rows.
- `Lab3` — the guard and class `Window` with `GetNumbers`, `TabularSolve`, `AlgorithmicSolve`,
  `ReadEntries`, `Generate` and `Solve`.

Where the program is imperative, the model is imperative too:

- `GetNumbers` is a loop with an early `break` over a set that it grows.
- The shuffle works in place on an array.
- `Solve` assigns the window's fields in order.
- Every draw updates the shared generator object.

The comprehensions are functions, and their properties are lemmas.

Three things the code does that a reader might not expect:

- The collection loop stops only once the set holds `count + 1` tokens, not `count`. It can
  therefore read further rows until one adds a new token, or the file ends. The result still
  has `min(count, distinct tokens)` elements (`CollectedSize`).
- The kept tokens are the first `count` in the set's own iteration order, not in file order.
- A digit file with fewer than `3·N` distinct tokens raises no dedicated error. The tabular
  lists come out short, and the row comprehension `oneDigit[i], …` then raises `IndexError`.
  By then the algorithmic rows are already built. `Generated(alg, None)` models this.

## Model

| member | source | states |
|---|---|---|
| `DigitPool.TokensOfSnoc` | lab_03/src/window.py:184-185 | reading one more row adds exactly that row's tokens to the accumulated set |
| `DigitPool.ReadFrom` | lab_03/src/window.py:184-187 | from row `i` on, the loop stops at the first later row count at which the set holds `count + 1` tokens, or at the end |
| `DigitPool.RowsRead` | lab_03/src/window.py:184-187 | the rows read are the least prefix reaching `count + 1` distinct tokens, or all rows; no shorter prefix reaches it |
| `DigitPool.CollectedSize` | lab_03/src/window.py:181-188 | the stopping set lies within all tokens, and truncated to `count` it has as many elements as all distinct tokens truncated to `count` |
| `DigitPool.LaterRowsUnread` | lab_03/src/window.py:184-187 | once the threshold is reached, any input agreeing on the rows read stops at the same row with the same set: later rows are never read |
| `DigitPool.PrefixTokens` | lab_03/src/window.py:184-185 | the tokens of a prefix of the rows are among the tokens of all the rows |
| `DigitPool.DistinctMultiplicity` | lab_03/src/window.py:188-193 | a general fact about lists, used to carry the pool's distinctness through the shuffle: a list has no repeated token iff every token occurs at most once in its multiset |
| `DigitPool.PermutationDistinct` | lab_03/src/window.py:193 | reordering a list without repeats (as the shuffle does) leaves it without repeats |
| `DigitPool.ListOf` | lab_03/src/window.py:188 | `list(set)` lists every element of the set exactly once, in some order |
| `Tabular.OneDigit` | lab_03/src/window.py:194 | `v % 10` lies in `[0,10)` and is congruent to `v` modulo 10, negative `v` included |
| `Tabular.TwoDigits` | lab_03/src/window.py:195 | `v % 90 + 10` lies in `[10,100)` and is `10` plus a value congruent to `v` modulo 90 |
| `Tabular.ThreeDigits` | lab_03/src/window.py:196 | `v % 900 + 100` lies in `[100,1000)` and is `100` plus a value congruent to `v` modulo 900 |
| `Tabular.Slice` | lab_03/src/window.py:194-196 | Python's `s[lo:hi]` is cut back at the end of `s`, and its element `i` is `s[lo + i]` |
| `Tabular.TabularSplit` | lab_03/src/window.py:194-196 | the three lists come from pool indices `[0,N)`, `[N,2N)`, `[2N,3N)` (cut at the pool's end), each mapped into its class |
| `Tabular.SplitInClasses` | lab_03/src/window.py:194-196 | every tabular value lies in its width class, whatever integer the token stands for |
| `Tabular.FullWindows` | lab_03/src/window.py:192-196 | all three lists have `N` values iff the pool holds at least `3N` tokens |
| `Tabular.WindowsPartition` | lab_03/src/window.py:194-196 | the three windows, concatenated, are exactly the first `min(3N, length of the pool)` tokens in order: consecutive, non-overlapping |
| `Tabular.DistinctWindowsDisjoint` | lab_03/src/window.py:192-196 | in a pool without repeats no token appears in two windows |
| `Tabular.Shuffle` | lab_03/src/window.py:193 | the in-place shuffle leaves the array a permutation of what it was |
| `Batch.Generator.constructor` | lab_03/src/window.py:36 | the generator starts from the given state with the given step |
| `Batch.Generator.GetNumber` | lab_03/src/window.py:202-204 | one draw returns the step's value and replaces the state with the step's next state |
| `Batch.Draws` | lab_03/src/window.py:202-204 | a sequence of draws threading one state yields one value per requested range |
| `Batch.DrawsAppend` | lab_03/src/window.py:202-204 | drawing two request lists in turn is the same as drawing their concatenation, the state carried over |
| `Batch.DrawsInRange` | lab_03/src/window.py:202-204 | if each single draw respects its range, every value of a sequence of draws lies in its requested range |
| `Batch.BatchInClasses` | lab_03/src/window.py:202-204 | with a range-respecting generator a batch has `3N` values: `N` one-digit, then `N` two-digit, then `N` three-digit |
| `Batch.TableRows` | lab_03/src/window.py:212 | the row comprehension succeeds iff each list has at least `N` values, and then gives `N` rows |
| `Batch.RowsRoundTrip` | lab_03/src/window.py:212 | rows are numbered `1..N` in order, and their columns read back are the first `N` values of each list |
| `Batch.RowsFromClasses` | lab_03/src/window.py:212 | rows built from in-class lists are numbered and hold in-class values |
| `Batch.AlgorithmicRows` | lab_03/src/window.py:202-212 | the rows of an algorithmic batch always exist, and are well formed when the generator respects its ranges |
| `Lab3.GateBoundary` | lab_03/src/window.py:240 | `N = 10, a = b = c = 1` passes the guard; lowering any one of them by one is refused |
| `Lab3.TabularRows` | lab_03/src/window.py:192-212 | tabular rows exist iff the shuffled pool holds `3N` tokens, and are then well formed |
| `Lab3.Window.constructor` | lab_03/src/window.py:36-38 | a window uses the generator object it is given, which other windows may share |
| `Lab3.Window.GetNumbers` | lab_03/src/window.py:180-189 | the result has no repeats, has `min(count, distinct tokens in all rows)` elements, holds only tokens of the rows read, and holds all of them when there is no truncation |
| `Lab3.Window.TabularSolve` | lab_03/src/window.py:191-198 | the pool has no repeats, has `min(3N, distinct tokens)` elements and comes from the rows read; the shuffled list is a permutation of it; the three lists are `TabularSplit` of the shuffled list, have the window lengths of that pool size, and lie in their classes |
| `Lab3.Window.DrawMany` | lab_03/src/window.py:202 | `N` draws in one range leave the generator in the threaded state and return the threaded values |
| `Lab3.Window.AlgorithmicSolve` | lab_03/src/window.py:200-206 | three lists of `N` draws whose concatenation is the batch of `3N` threaded draws, one-digit then two- then three-digit, with the generator left after the last |
| `Lab3.Window.ReadEntries` | lab_03/src/window.py:231-239 | the entries are stored in order until the first that fails to parse; later fields keep their old values |
| `Lab3.Window.Generate` | lab_03/src/window.py:244-248 | algorithmic rows built from the threaded batch first, then tabular rows from a distinct shuffled pool; the tabular rows exist iff the file has `3N` distinct tokens, and are then well formed |
| `Lab3.Window.Solve` | lab_03/src/window.py:227-248 | the run is refused iff an entry does not parse or `a < 1 or b < 1 or c < 1 or N < 10`; a refused run draws nothing; otherwise it generates both batches as `Generate` states |

## Left out

- Widgets are not modelled: the window, the tables, the labels, the buttons, `clearTreeview`, `table.insert`, `messagebox`, `aboutProgram`, `run` and `test`. `Solve` returns an `Outcome` in place of what `solve` displays.
- `fillEntry`'s `round(number, 2)` and the randomness coefficient `getCoeff` are not modelled. Both are floating point, and `getCoeff` lives in `myRandom.py`, which is not part of this model.
- `MyRandom.getNumber` is the abstract `step` of `Batch.Generator`. Its recurrence and its range mapping are not part of this model, so the class range of an algorithmic value is proved only under the hypothesis `InRange`.
- Reading `digits.txt` and splitting lines are left out. The rows come in already split, as `seq<seq<string>>`.
- `int()` applied to a token is a given total function `toInt`. The `ValueError` it raises on a non-numeric token is not modelled.
- `int()` applied to an entry is represented by its result: an `Option<int>` in which `None` is a parse failure.
- `random.shuffle`: its random index choices are left nondeterministic, so the model says only that the result is a permutation.
- `Lab3.Window.GetNumbers`: `count` is a `nat`. Python slicing with a negative `count` is not modelled, because the only caller passes `3·N ≥ 30`.
- `Lab3.Window.TabularSolve`: this method and `AlgorithmicSolve` require `countNumbers ≥ 0`. Their only caller runs them after the guard, which ensures `countNumbers ≥ 10`.
- The fields `COUNT_NUMBERS`, `a`, `b` and `c` are unset before the first `solve`. The model leaves them unconstrained: the constructor sets only the generator.
