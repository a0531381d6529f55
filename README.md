# LibfmLoader: libFM example building for coupon purchase prediction

This project models `LibfmLoader` from `libfm_input.py`. It is the step of
a coupon purchase prediction pipeline that turns users, train and test
coupons, purchases and coupon visits into libFM training and test rows.
Each row has a target, a user indicator token `"{user_index}:1"`, an item
indicator token `"{item_index}:1"` and a list of similar-item tokens.

The model follows the structure of the source:

- `tables.dfy` (module `Tables`) gives the pandas operations the loader
  uses, as functions on sequences of records:
  - `Select` is a boolean mask.
  - `Project` is a column projection or `apply`.
  - `Distinct` is `drop_duplicates`, keeping the first occurrence.
  - `LeftJoin` is `merge(how='left')`. It repeats a left row once per
    matching right row, and attaches `None` (NaN) when nothing matches.
  - `CrossJoin` is the merge on the constant `temp` column.
  - `GroupBy` is `groupby().aggregate()`.
- `notation.dfy` (module `Notation`) gives `libfm_notation`, that is
  `str(n) + ":1"`, with a parser that reads the index back.
- `pipeline.dfy` (module `Pipeline`) gives every table step of `__init__`,
  `_convert_train` and `_convert_test` as a pure function:
  - the coupon frame and the known visits;
  - `user_df` and `item_df`;
  - `rated`;
  - the positive examples (`plhold`) and the negative examples (`unpvis`);
  - the test cross product (`testrset`).
- `properties.dfy` (module `Properties`) states what these tables contain.
  Each claim is made against a reference definition: a user's position, a
  coupon's position in train ++ test, and the user's distinct viewed or
  purchased coupons.
- `loader.dfy` (module `Loader`) gives the `LibfmLoader` object as a class:
  - The constructor fixes the inputs and the derived counts, and sets
    `user_df`, `item_df`, `rated`, `result` and `result_test` to `None`.
  - `ConvertTrain` fills the first four fields. Its first part,
    `BuildTables`, fills `user_df`, `item_df` and `rated`.
  - `ConvertTest` needs them (`Trained()`) and fills `result_test`.
  - `Convert` runs both.
  - Each method's postcondition says which pipeline function each field
    now holds.

How values are represented:

- Ids are strings.
- Indices are unbounded naturals.
- A missing value (NaN after a left join) is `None`.
- `1.0 / math.sqrt(k)` is written symbolically as `InvSqrt(k)`.
- `x ** (1/3.)` is written symbolically as `CubeRoot(x)`.
- The probabilities `_convert_train` reads from `datalibfm/prob_purchase.txt`
  are a parameter, `estimates`.

Three uniqueness conditions appear only as lemma preconditions:

- user ids are distinct;
- coupon ids are distinct across train ++ test;
- the estimate table has one row per user.

The source demands none of them. Without them the merges multiply rows,
which is exactly what `LeftJoin` does.

Behaviour of the code worth noting:

- In the training rows a user without a similar-item list keeps a missing
  value, because no `fillna` is applied at libfm_input.py:102 or :126. Only
  the test set turns it into the empty list (:172). This is shown by
  `FeaturesNeverEmpty`, `TrainingSetShape` and `TestRowAt`.
- Every purchase feeds the similar-item lists, not only purchases of train
  coupons (libfm_input.py:92).
- `groupby` sorts its keys, while `GroupBy` keeps them in order of first
  appearance. The order of `rated` is never observable: it is only the
  right side of left joins, and `RatedKeysUnique` shows each user appears
  at most once.

## Model

| member | source | states |
|---|---|---|
| Tables.ProjectConcat | libfm_input.py:91-92 | projecting an appended table is appending the projections of its parts |
| Tables.ProjectCompose | libfm_input.py:79-81 | two column computations in a row are one computation by the composed function |
| Tables.Select | libfm_input.py:34 | the mask keeps only rows of the input that satisfy the predicate, and keeps every such row |
| Tables.SelectSuffix | libfm_input.py:157 | a mask that fails on a prefix and holds on the rest keeps exactly that suffix |
| Tables.Distinct | libfm_input.py:72 | `drop_duplicates` leaves no duplicates, drops no distinct row and adds none |
| Tables.DistinctOfNoDup | libfm_input.py:112 | de-duplicating a table without duplicates changes nothing |
| Tables.IndexOf | libfm_input.py:31-32 | a row's index is the position of its first occurrence |
| Tables.Lookup | libfm_input.py:73 | a join lookup finds a row iff some right row has the key, and only such a row |
| Tables.LookupAt | libfm_input.py:85 | with unique right keys, looking up a row's own key finds that row |
| Tables.Matches | libfm_input.py:96 | every row with the given key is matched, and only such rows |
| Tables.MatchesCount | libfm_input.py:96 | each row with the key occurs among the matches exactly as often as in the table; no other row occurs |
| Tables.MatchesConcat | libfm_input.py:96 | the matches of a concatenation are the matches of each part, in that order, so a group keeps table order |
| Tables.MatchesUnique | libfm_input.py:85 | with unique keys there is at most one match, and it is the lookup result |
| Tables.MatchesNoDup | libfm_input.py:93-96 | the matches of a table without duplicates have no duplicates |
| Tables.MatchesPointwise | libfm_input.py:94-96 | matching commutes with a row-wise map that keeps the key |
| Tables.LeftJoinKeepsRows | libfm_input.py:73 | a left merge never drops a left row: every left row appears in the result, with a right row of the same key, or with nothing when the right table has no such row |
| Tables.LeftJoinUnique | libfm_input.py:102 | with unique right keys a left merge has exactly one row per left row, row i joined with the lookup of its key |
| Tables.LeftJoinUniqueProject | libfm_input.py:163 | the same fact as a whole-table equation: the merge is a row-wise lookup |
| Tables.CrossJoin | libfm_input.py:159 | the merge on a constant column has \|left\| * \|right\| rows |
| Tables.CrossJoinAt | libfm_input.py:159 | row i * \|right\| + j of the product pairs left row i with right row j |
| Tables.CrossJoinProject | libfm_input.py:167-171 | mapping every row of a product is the product of the mapped cell function |
| Tables.CrossJoinLookup | libfm_input.py:159-172 | a product merged on unique keys and then mapped is again a product |
| Tables.GroupByKeysUnique | libfm_input.py:96-98 | when the aggregate keeps its key, the group-by has at most one entry per key |
| Tables.GroupByLookup | libfm_input.py:96-98 | a key has a group iff some row has it, and the group aggregates that key's rows |
| Notation.Decimal | libfm_input.py:60 | `str(n)` is a non-empty string of digits without a leading zero |
| Notation.DecimalRoundTrip | libfm_input.py:60 | reading back `str(n)` gives n |
| Notation.LibfmNotation | libfm_input.py:59-60 | the token is a digit string followed by `:1` |
| Notation.NotationRoundTrip | libfm_input.py:59-60 | parsing the token of n gives n |
| Notation.NotationInjective | libfm_input.py:59-60 | two indices give the same token iff they are equal |
| Properties.UserFrameIndices | libfm_input.py:64-67 | `user_df` has one row per user in row order, user i gets token `i:1`, and no two users share a token |
| Properties.UserFrameKeysUnique | libfm_input.py:64-67 | with distinct user ids, no two rows of `user_df` share a user id |
| Properties.UserFrameLookup | libfm_input.py:64-67 | with distinct user ids, the merge with `user_df` attaches the user's position token, and nothing for an unknown user |
| Properties.CouponFrameOrder | libfm_input.py:28-32 | `coupons` is train then test, with index i at position i, and type train exactly for the first \|train\| rows |
| Properties.ItemFrameIndices | libfm_input.py:77-81 | coupon i gets item token `num_users+i:1` and similar-item slot `num_users+i+num_items` |
| Properties.ItemFrameAt | libfm_input.py:77-81 | row i of `item_df` is coupon i of train ++ test with token `num_users+i:1` and slot `num_users+i+num_items` |
| Properties.ItemFrameKeysUnique | libfm_input.py:77-81 | with distinct coupon ids, no two rows of `item_df` share a coupon id |
| Properties.IndexSpacesDisjoint | libfm_input.py:36-39 | user indices are in [0, nu), item indices in [nu, nu+ni), slots in [nu+ni, nu+2ni), and no user token equals an item token |
| Properties.TrainBeforeTest | libfm_input.py:28-32 | with distinct ids, a train coupon's position is its train position, and a test coupon's position is \|train\| plus its test position |
| Properties.ItemFrameLookup | libfm_input.py:85 | with distinct ids, the merge with `item_df` attaches the coupon's reference token and slot |
| Properties.JoinedRows | libfm_input.py:71-86 | merging pairs with `user_df`, `item_df` and `rated` gives one row per pair with the reference tokens and the user's list |
| Properties.RatedKeysUnique | libfm_input.py:96-98 | `rated` has at most one row per user |
| Properties.RatedSourceMembers | libfm_input.py:90-92 | a pair is in the union iff it is a view of a train coupon or a purchase |
| Properties.UserCouponsDistinct | libfm_input.py:93 | a user's coupons after `drop_duplicates` are distinct |
| Properties.UserCouponsMembers | libfm_input.py:90-93 | a user's coupons are exactly the viewed train coupons and the purchased coupons |
| Properties.GroupEntry | libfm_input.py:94-98 | after the item merge a user has a group iff the user has a pair, and the group is that user's rows |
| Properties.SimilarItemsSpec | libfm_input.py:90-98 | a user has an entry iff the user has a qualifying coupon; then token j is coupon j's slot, and every weight is InvSqrt of the count |
| Properties.FeaturesNeverEmpty | libfm_input.py:102 | a similar-item list, when present, is never empty |
| Properties.PositivePairsMembers | libfm_input.py:71-72 | the distinct purchase pairs are exactly the purchases |
| Properties.PositiveExamplesSpec | libfm_input.py:71-107 | one row per distinct purchase pair, target 1.0, reference tokens and the user's list; no pair twice; every purchase present |
| Properties.NegativePairsMembers | libfm_input.py:111-113 | the negative pairs are exactly the flag-0 visits to a known coupon |
| Properties.NegativeExamplesSpec | libfm_input.py:111-140 | one row per distinct negative pair; target is the user's probability, its cube root iff the coupon is a test coupon, missing without an estimate |
| Properties.TrainingSetShape | libfm_input.py:147 | the training set has \|positives\| + \|negatives\| rows, the first \|positives\| with target 1.0, none with an empty list |
| Properties.TestItemsAreSuffix | libfm_input.py:156-157 | selecting test coupons from `item_df` keeps exactly the rows after the train coupons |
| Properties.TestItemAt | libfm_input.py:156-157 | test item j is test coupon j with token `num_users+num_train+j:1` |
| Properties.TestExamplesSpec | libfm_input.py:154-173 | the test set is the user × test-coupon product of test cells, with \|users\| * \|test\| rows |
| Properties.TestRowAt | libfm_input.py:154-173 | row i * \|test\| + j is user i with test coupon j, target -1.0, tokens `i:1` and `nu+ntrain+j:1`, and the user's list or the empty list |
| Loader.LibfmLoader.constructor | libfm_input.py:22-46 | the inputs and counts are stored, visits are limited to known coupons, and all computed fields are `None` |
| Loader.LibfmLoader.BuildTables | libfm_input.py:63-101 | `user_df`, `item_df` and `rated` hold the pipeline's index tables, and `result` and `result_test` are unchanged |
| Loader.LibfmLoader.ConvertTrain | libfm_input.py:54-147 | `user_df`, `item_df`, `rated` and `result` hold the pipeline's tables, and `result_test` is unchanged |
| Loader.LibfmLoader.ConvertTest | libfm_input.py:150-173 | given the trained tables, `result_test` holds the test set and nothing else changes |
| Loader.LibfmLoader.Convert | libfm_input.py:49-51 | after converting, `user_df`, `item_df`, `rated`, `result` and `result_test` all hold the pipeline's tables |

## Left out

- `load()` and the `__main__` block are left out. They read CSV files from
  fixed paths and take output paths from `sys.argv`, which is file I/O and
  process arguments.
- The read of `datalibfm/prob_purchase.txt` (libfm_input.py:130-131) is
  file I/O. Its contents are the parameter `estimates` of `ConvertTrain`
  and `Convert`.
- `write()` is left out: it is CSV output. The token shape it writes,
  `"{index}:1"`, is modelled by `Notation.LibfmNotation`.
- The progress `print` statements are left out: they are console output.
- Float arithmetic is left out. `1.0 / math.sqrt(k)` stays the symbol
  `InvSqrt(k)` and `** (1/3.)` stays `CubeRoot(x)`. Numeric facts about
  them are not modelled: the sum of squared weights being 1, the cube root
  of a value in [0, 1] staying in [0, 1], and NaN for a negative base.
- The rendering of features as a space-joined string
  `"{slot}:{weight}"` is not modelled. A list is a sequence of
  (slot, weight) tokens, because its text depends on Python's `str` of
  floats. For the same reason the model does not show an integer column
  that holds a NaN being printed as a float (`123.0`).
- Only the columns the loader reads are modelled. The `type` column
  stands as the `Train`/`Test` tag. Adding it mutates the caller's
  DataFrames (libfm_input.py:28-29), and that aliasing is not modelled.
- `reset_index` is modelled only by its effect, position-based indices.
  This assumes the default index that `read_csv` produces. The
  constructor's `reset_index` argument is accepted and, as in the source,
  unused.
- `Tables.GroupBy`: keeps keys in first-appearance order, where pandas
  sorts them. The order of `rated` is never observable, because it is only
  the right side of left joins.
- `Loader.LibfmLoader.ConvertTrain` stores `user_df`, `item_df` and
  `rated` (through `BuildTables`) before it builds the examples; the
  source assigns all four fields together at the end. Nothing between the
  two points reads them, so the final state is the same.
- `Properties.TestExamplesSpec` and `Properties.TestRowAt` assume distinct
  coupon ids across train ++ test. With a coupon id in both lists, the
  test item frame holds more rows than the test coupons, and the lemmas do
  not describe that case.
