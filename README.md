# Bird-call classifier: label map, rank score and ranking table

`model.py` defines `Classifier`, which prepares a table of bird-call recordings, fits a
soft-voting ensemble (SVC, logistic regression, random forest) and scores it. Nearly all
of that work is scikit-learn and pandas. This project models the part that is the
repository's own logic:

- **Label index map** (`Classifier.__init__`). Every distinct `common_name` gets a dense id
  in order of first occurrence. Every record gets the id of its name as its label. Module
  `LabelIndex`; the constructed object is the class `LabelIndex.Classifier`. A Python
  dict is modelled as `LabelMap(keys, ids)`, where `keys` is the dict's insertion order.
- **Ascending ranking** (`np.argsort`) and the position lookup
  `np.where(order == target)[0][0]`. Module `Ranking`. numpy's default argsort is not
  stable. The properties are therefore proved for *every* valid ascending order, and
  uniqueness of that order is proved for rows of distinct probabilities. `Ranking.Argsort`
  (insertion of the classes one by one) is one such order.
- **Rank-based evaluation score** (`new_evaluation_score`). Module `Evaluation`. The
  function `EvaluationScore` says what the call returns or which exception it raises. The
  method `NewEvaluationScore` is the accumulating loop, proved equal to it.
- **Descending ranking table** (`class_score_df`). Module `ClassScore`. The function
  `ClassScore` specifies the result and the method `ClassScoreDf` is the
  column-by-column loop.
- **Joint encode-then-split** inside `prepare_df`. Module `Dummies`. The train and test
  categorical frames are stacked and then cut at `len(dummy_train)`. The encoder
  `pd.get_dummies` is a function parameter.

Python exceptions are modelled as `Err` values of a `Result` (module `Wrappers`):
- an index past the end of `y_test`;
- a true class missing from the order;
- a position past the end of the weight table;
- division by an empty test set;
- an id or class past the end of the map's keys;
- a header list whose length differs from the number of columns.

The probability matrix returned by `predict_proba` is an input. Column `c` of a row is
read as the probability of label id `c`.

The docstring of `new_evaluation_score` says the score is 1 when the true label is
"in the first position". It means first in the *predicted* ranking, i.e. most probable.
The code weighs the position in the *ascending* order, where that class is last and gets
the last weight. The model follows the code, and the two readings agree.

## Model

| member | source | states |
|---|---|---|
| LabelIndex.Unique | model.py:29 | `Series.unique()`: a name occurs in the result exactly when it occurs in the column, and no name twice |
| LabelIndex.Enumerate | model.py:29 | the dict comprehension over `enumerate`: its keys are exactly the enumerated names, and over distinct names the name at index `i` gets id `i` |
| LabelIndex.UniqueFirstOccurrenceOrder | model.py:29 | ids follow first occurrence: a name with a smaller id first occurs earlier in the data |
| LabelIndex.IdClass | model.py:29 | `self.id_class`: its keys are exactly the names of the column, its dict keys are its insertion-ordered keys, and the key at insertion position `i` has id `i` |
| LabelIndex.IdsDecode | model.py:29 | every id indexes the insertion-ordered keys at its own name |
| LabelIndex.IdsOnto | model.py:29 | the ids in use are exactly 0..k-1 |
| LabelIndex.IdClassIsBijection | model.py:29 | the map holds exactly the names that occur; ids are exactly 0..k-1; no two names share an id; `keys[id_class[name]] == name` and `id_class[keys[i]] == i` |
| LabelIndex.Labels | model.py:30 | one label per record; every label lies in [0, k) and decodes back to the record's own name through the insertion-ordered keys |
| LabelIndex.Classifier.constructor | model.py:27-31 | the new object's `id_class` is a bijection over the names that occur, and `labels` has one entry per record that decodes to its name |
| Ranking.Argsort | model.py:152 | `np.argsort(row)` has one entry per class and holds exactly the class indices 0..k-1 |
| Ranking.ArgsortIsAscending | model.py:152 | the argsort lists every class index 0..k-1 exactly once, by non-decreasing probability |
| Ranking.Position | model.py:153 | `np.where(o == t)[0][0]` is absent exactly when `t` is not in `o`; otherwise it is the first index holding `t` |
| Ranking.PositionOfClass | model.py:152-153 | in a valid ascending order the true class has a position exactly when it is a class of the row, and no other position holds it |
| Ranking.BeforeMeansLessProbable | model.py:152-153 | with distinct probabilities, the classes before position `p` are exactly those less probable than the class at `p`, in both directions |
| Ranking.AscendingOrderUnique | model.py:152 | with distinct probabilities any two valid ascending orders are equal, so the tie-breaking cannot matter |
| Ranking.TopClassIsLast | model.py:152-153 | a class strictly more probable than all others is at position k-1 of any ascending order |
| Ranking.BottomClassIsFirst | model.py:152-153 | a class strictly less probable than all others is at position 0 of any ascending order |
| Ranking.Reverse | model.py:175 | `[::-1]`: entry `i` of the result is entry `k-1-i` of the input |
| Ranking.ReverseIsOrdering | model.py:175 | reversing an ordering of 0..k-1 gives an ordering of 0..k-1 |
| Ranking.ReversedIsDescending | model.py:175-177 | the reversed argsort lists every class once by non-increasing probability, and its first entry is a most probable class |
| Ranking.ReversedPosition | model.py:175-177 | a class at ascending position `p` is at descending position `k-1-p` |
| Evaluation.LinearWeightsShape | model.py:134 | a linearly spaced table of `k` weights starts at 0, ends at 1, lies in [0, 1] and strictly increases |
| Evaluation.DefaultWeights | model.py:134 | the default `np.linspace(0, 10, 10) / 10` is the linearly spaced table of 10 weights from 0 to 1 |
| Evaluation.LinearWeights | model.py:134 | a linearly spaced table of `k` weights from 0 to 1 has `k` entries (its shape is `Evaluation.LinearWeightsShape`) |
| Evaluation.RecordWeight | model.py:151-153 | the weight one record earns or the exception it raises; its contract is stated by `Evaluation.RecordWeightOutcomes` and `Evaluation.RecordWeightMeaning` |
| Evaluation.RecordWeightOutcomes | model.py:151-153 | for any probabilities, a record raises the lookup error exactly when its true class is not a class of the row; otherwise it earns one of the table's weights or raises because its position is past the table |
| Evaluation.RecordWeightMeaning | model.py:151-153 | for distinct probabilities and ANY valid ascending order `o`: a true class outside the row raises; otherwise the record earns `weights[p]` for the position `p` of its class in `o` exactly when `p` is inside the table, and raises the table-index error at `p` otherwise |
| Evaluation.WeightSum | model.py:148-153 | `new_score` after the first `n` iterations, or the first exception; its contract is stated by `Evaluation.WeightSumOutcomes` and the lemmas below |
| Evaluation.WeightSumOutcomes | model.py:148-153 | the loop raises only at a record it has reached, never the division or configuration error, and completes `n` iterations only if `y_test` has at least `n` labels |
| Evaluation.EvaluationScore | model.py:148-155 | what `new_evaluation_score` returns or raises; its contract is stated by `Evaluation.EvaluationScoreOutcomes` and the lemmas below |
| Evaluation.EvaluationScoreOutcomes | model.py:148-155 | a score needs a label for every record and a non-empty `y_test`; the division error is raised exactly when there are neither records nor labels; the unchecked score never reports a configuration error |
| Evaluation.AddRecord | model.py:149-153 | one iteration of the loop: either the record's weight is added to `new_score`, or the exception it raises is the outcome of the whole call |
| Evaluation.NewEvaluationScore | model.py:134-155 | the accumulating loop returns the mean weight, or the exception of the first record that raises, or the division error for an empty test set |
| Evaluation.WeightSumStep | model.py:153 | a record that earns weight `w` adds `w` to the running sum |
| Evaluation.WeightSumStepError | model.py:152-153 | a record that raises makes the loop end with that error |
| Evaluation.WeightSumErrorPersists | model.py:150-153 | once a record raises, the later records do not change the outcome |
| Evaluation.ScoreAfterMissingTarget | model.py:150-151 | a record without a true label makes the whole call raise at that record |
| Evaluation.ScoreAfterRecordError | model.py:152-153 | a record that raises while being weighted makes the whole call raise that error |
| Evaluation.WeightSumBounds | model.py:148-153 | with weights in [0, 1], the running sum after `n` records lies in [0, n], and only records that have a true label are reached |
| Evaluation.ScoreInUnitInterval | model.py:136-154 | a score exists only for a non-empty test set, and with weights in [0, 1] it lies in [0, 1] |
| Evaluation.WeightSumDefined | model.py:150-153 | with one true label per record, each label a class of its row and no row wider than the table, no record raises |
| Evaluation.WeightSumUniform | model.py:148-153 | when every record earns the same weight `w`, the sum after `n` records is `w` added `n` times |
| Evaluation.ScoreOfUniform | model.py:148-154 | when every record earns the same weight `w`, the score is `w` |
| Evaluation.TopRecordWeight | model.py:152-153 | a record whose true class is strictly most probable earns the last weight of a table with one weight per class |
| Evaluation.BottomRecordWeight | model.py:152-153 | a record whose true class is strictly least probable earns the first weight of any non-empty table, whatever the number of classes |
| Evaluation.ScoreWhenTrueClassesTop | model.py:136-154 | if every true class is strictly most probable and rows match the table length, the score is the last weight |
| Evaluation.ScoreWhenTrueClassesBottom | model.py:136-154 | if every true class is strictly least probable, the score is the first weight of any non-empty table, whatever the number of classes |
| Evaluation.DefaultTableBottomTwelveClasses | model.py:134-155 | with twelve classes and the default table, a record whose true class is least probable still scores 0: the bottom of the ranking never overruns the table |
| Evaluation.LinearScoreExtremes | model.py:134-154 | with a linearly spaced table of one weight per class, the score is 1 when every true class is strictly most probable and 0 when every one is strictly least probable |
| Evaluation.DefaultTableOverrunsTwelveClasses | model.py:134-153 | with twelve classes and the default table, a perfect prediction indexes the table at 11 and raises |
| Evaluation.DefaultTableCapsFourClasses | model.py:134-154 | with four classes and the default table, a perfect prediction scores 1/3, not 1 |
| Evaluation.FirstMismatch | model.py:134 | finds the first record whose class count differs from the table length, or reports that none does |
| Evaluation.CheckedScore | model.py:134-155 | if some row's class count differs from the table length, the checked score is a mismatch error naming a record with that count; a score exists only when every row matches the table |
| Evaluation.CheckedEvaluationScore | model.py:134-155 | the score with a table/class-count mismatch rejected as a configuration error before any record is weighted |
| Evaluation.CheckedScoreSound | model.py:134-155 | with one in-range true label per record, the checked score never raises an index error: it is a mismatch error or a score in [0, 1] |
| Evaluation.CheckedLinearScoreExtremes | model.py:136-139 | the checked score with a linear table of one weight per class is 1 and 0 at the two extremes |
| Evaluation.CheckedRejectsTwelveClasses | model.py:134 | the checked score reports the twelve-class input as a mismatch of 12 classes against 10 weights |
| ClassScore.Names | model.py:171 | `index[ids]` succeeds exactly when every id is below the number of keys; it then gives `keys[id]` for every id, and otherwise reports an offending id |
| ClassScore.RankedColumn | model.py:174-177 | one column of the table: when it exists it has one cell per class; it fails only when names are wanted, reporting a class id at or past the number of keys |
| ClassScore.Columns | model.py:173-177 | the columns after the first `n` iterations, or the first error; its contract is stated by `ClassScore.ColumnsDefined` and `ClassScore.ColumnsMeaning` |
| ClassScore.Headers | model.py:178-181 | the column labels: the true labels' names, or the ids themselves; its contract is stated by `ClassScore.ClassScoreMeaning` |
| ClassScore.ClassScore | model.py:169-182 | what `class_score_df` returns or raises; its contract is stated by `ClassScore.ClassScoreMeaning` |
| ClassScore.AddColumn | model.py:174-177 | one iteration of the loop: either the record's ranked column is appended, or the error it raises is the outcome of the whole loop |
| ClassScore.ClassScoreDf | model.py:157-182 | the column-building loop returns the table, or raises the first error, as `ClassScore` specifies |
| ClassScore.ColumnsStep | model.py:173-177 | each loop iteration appends that record's column |
| ClassScore.ColumnsErrorPersists | model.py:173-177 | once a column cannot be built, the later records do not change the outcome |
| ClassScore.FirstIsMostProbable | model.py:175 | the head of any descending order is a most probable class |
| ClassScore.RankedColumnDefined | model.py:174-177 | a column exists unless names are wanted and the row has more classes than the map has keys |
| ClassScore.RankedColumnMeaning | model.py:174-177 | a column lists every class once by non-increasing probability, starting with a most probable one, as names or ids |
| ClassScore.ColumnsDefined | model.py:173-177 | all columns exist exactly when, if names are wanted, no row is wider than the keys |
| ClassScore.ColumnsMeaning | model.py:173-177 | the loop produces one column per record, in record order, each that record's ranking |
| ClassScore.ClassScoreMeaning | model.py:169-182 | the table exists exactly when every true label has a key, rows fit the keys when names are wanted, and there is one label per record; each column is then headed by its record's true label and holds its descending ranking |
| ClassScore.IdsOf | model.py:30 | one id per test record, and each id decodes through the insertion-ordered keys to that record's name |
| ClassScore.HeadersAreTrueNames | model.py:170-179 | with the map built from the data, every header names the record's true species |
| ClassScore.TrueLabelRankMirrorsScore | model.py:175-177 | in an id column the true label sits at `k-1-p`, where `p` is the ascending position that the score weighs |
| Dummies.ConcatRows | model.py:119 | stacking keeps the shared columns; the first block's rows come first and the second's follow |
| Dummies.HeadRows | model.py:123 | `iloc[:n, :]` keeps the columns and the first `n` rows, clamped to the frame |
| Dummies.TailRows | model.py:124 | `iloc[n:, :]` keeps the columns and the rows from `n` on, clamped to the frame |
| Dummies.HeadTailPartition | model.py:123-124 | the two cuts together are exactly the frame's rows |
| Dummies.SplitUndoesConcat | model.py:118-124 | cutting the stacked frame at the first block's length gives both blocks back |
| Dummies.EncodeThenSplit | model.py:118-124 | the encoded train and test blocks carry exactly the same columns, those of the encoded stacked frame |
| Dummies.EncodeThenSplitShape | model.py:118-124 | both encoded blocks share the encoded frame's columns and together hold its rows; if the encoder keeps one row per input row, the blocks have the partition sizes |
| Dummies.JointEncodingProjects | model.py:119-124 | when the encoder fixes its columns from the whole stacked frame and encodes row by row, each train and test row is encoded against that one column set |

## Left out

- `fill_na` and `scaling` (model.py:33-83) are not modelled. They are `SimpleImputer` and `StandardScaler` fitting over floats.
- `train_test_split` (model.py:94) is not modelled. It is a seeded, randomised library split; the partitions are inputs.
- `pd.get_dummies(..., drop_first=True)` (model.py:121) is a function parameter of `Dummies.EncodeThenSplit`. Its internals are not modelled.
- The classifiers, `predict_proba`, `cross_val_score` and `fit.score` (model.py:147, 207, 219-227) are not modelled. The probability matrix is an input.
- Which label id a probability column stands for is not modelled. A fitted classifier's `classes_` order is assumed to be the ids 0..k-1.
- Floating point is not modelled. Probabilities and weights are reals. Only the order of probabilities matters, and the sums are exact.
- Argsort tie-breaking is not modelled. `Ranking.Argsort` is one valid ascending order, and the lemmas hold for any valid one.
- `self.X_train`/`self.X_test` updates, `drop(columns=...)`, `iloc[:, 17:]` and `np.concatenate` (model.py:103-106, 130-131) are not modelled. They depend on the DataFrame's schema.
- `print` output, the CSV export and the global pandas warning switch (model.py:5, 93-128, 205-206, 228-231) are not modelled.
- Dummies.ConcatRows: requires both frames to have the same columns, as the two selections at model.py:98-99 do. pandas would otherwise fill the missing columns with NaN.
- ClassScore.ClassScoreDf: as written, model.py:169 reads `self.X_test.values`, but `prepare_df` has already replaced `X_test` by the numpy array of model.py:131, which has no `.values`, so the call raises AttributeError before the loop. The model starts from the probability matrix, as model.py:147 does by passing `X_test` directly.
- ClassScore.ClassScoreDf: columns of unequal length (rows with different numbers of classes) are kept as they are. pandas would pad the shorter ones with NaN.
- Evaluation.NewEvaluationScore: `target` holds the labels as natural numbers. `astype(int)` of a non-integral label is not modelled.
- Evaluation.NewEvaluationScore: rows with more classes than the table are not rejected up front. As in the code, they raise only when a position past the table is reached. `Evaluation.CheckedEvaluationScore` adds the check.

## Findings

| source | as written | input that shows it | evidently intended | confidence | as-written member | corrected member |
|---|---|---|---|---|---|---|
| model.py:134 | the default weight table `np.linspace(0,10,10)/10` always has 10 entries and is indexed by the true class's position at line 153, whatever the number of classes | one record, 12 classes with probabilities 0..11, true class 11: the lookup is at 11 and raises an index error; with 4 classes a perfect prediction scores 1/3 (`Evaluation.DefaultTableCapsFourClasses`) | one weight per class from 0 to 1, so that a perfect ranking scores 1 and the worst scores 0 | not executed | Evaluation.DefaultTableOverrunsTwelveClasses | Evaluation.CheckedEvaluationScore |

`Evaluation.CheckedEvaluationScore` rejects a table whose length differs from a row's
number of classes. `Evaluation.CheckedScoreSound` proves that it then never indexes past
the table, and `Evaluation.CheckedLinearScoreExtremes` proves the scores of 1 and 0 that
the docstring promises.
