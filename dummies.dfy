/**
 * The joint encode-then-split step of `Classifier.prepare_df` (model.py:118-124): the
 * imputed categorical frames of the train and test partitions are stacked, one-hot
 * encoded together, and cut again at the number of train rows. The encoding itself
 * (`pd.get_dummies`) is a parameter.
 */
module Dummies {

  /** A DataFrame: column names and rows of cells. */
  datatype Frame<T> = Frame(columns: seq<string>, rows: seq<seq<T>>)

  /** `pd.concat([top, bottom], axis=0, ignore_index=True)` of two frames with the same columns. */
  function ConcatRows<T>(top: Frame<T>, bottom: Frame<T>): (r: Frame<T>)
    requires top.columns == bottom.columns
    ensures r.columns == top.columns
    ensures |r.rows| == |top.rows| + |bottom.rows|
    ensures forall i :: 0 <= i < |top.rows| ==> r.rows[i] == top.rows[i]
    ensures forall j :: 0 <= j < |bottom.rows| ==> r.rows[|top.rows| + j] == bottom.rows[j]
  {
    Frame(top.columns, top.rows + bottom.rows)
  }

  /** `f.iloc[:n, :]`; pandas clamps a stop past the end. */
  function HeadRows<T>(f: Frame<T>, n: nat): (r: Frame<T>)
    ensures r.columns == f.columns
    ensures |r.rows| == if n <= |f.rows| then n else |f.rows|
    ensures forall i :: 0 <= i < |r.rows| ==> r.rows[i] == f.rows[i]
  {
    Frame(f.columns, f.rows[..if n <= |f.rows| then n else |f.rows|])
  }

  /** `f.iloc[n:, :]`; pandas clamps a start past the end. */
  function TailRows<T>(f: Frame<T>, n: nat): (r: Frame<T>)
    ensures r.columns == f.columns
    ensures |r.rows| == if n <= |f.rows| then |f.rows| - n else 0
    ensures forall j :: 0 <= j < |r.rows| ==> r.rows[j] == f.rows[n + j]
  {
    Frame(f.columns, f.rows[if n <= |f.rows| then n else |f.rows|..])
  }

  /** Cutting a frame anywhere loses and duplicates no row. */
  lemma HeadTailPartition<T>(f: Frame<T>, n: nat)
    ensures HeadRows(f, n).rows + TailRows(f, n).rows == f.rows
  {
    var k := if n <= |f.rows| then n else |f.rows|;
    assert f.rows[..k] + f.rows[k..] == f.rows;
  }

  /** Stacking two frames and cutting at the first one's length gives both back. */
  lemma SplitUndoesConcat<T>(top: Frame<T>, bottom: Frame<T>)
    requires top.columns == bottom.columns
    ensures HeadRows(ConcatRows(top, bottom), |top.rows|) == top
    ensures TailRows(ConcatRows(top, bottom), |top.rows|) == bottom
  {
    var c := ConcatRows(top, bottom);
    assert c.rows[..|top.rows|] == top.rows;
    assert c.rows[|top.rows|..] == bottom.rows;
  }

  /** Lines 118-124: `idx_split`, the stacked frame, its encoding, and the two blocks. */
  function EncodeThenSplit<T, U>(dummyTrain: Frame<T>, dummyTest: Frame<T>, getDummies: Frame<T> -> Frame<U>): (r: (Frame<U>, Frame<U>))
    requires dummyTrain.columns == dummyTest.columns
    ensures r.0.columns == r.1.columns == getDummies(ConcatRows(dummyTrain, dummyTest)).columns
  {
    var idxSplit := |dummyTrain.rows|;
    var completeDummy := ConcatRows(dummyTrain, dummyTest);
    var dummy := getDummies(completeDummy);
    (HeadRows(dummy, idxSplit), TailRows(dummy, idxSplit))
  }

  /**
   * Both blocks carry the encoded frame's one column set, together they are exactly its
   * rows, and when the encoding keeps one row per input row the blocks have the sizes
   * of the original partitions.
   */
  lemma EncodeThenSplitShape<T, U>(dummyTrain: Frame<T>, dummyTest: Frame<T>, getDummies: Frame<T> -> Frame<U>)
    requires dummyTrain.columns == dummyTest.columns
    ensures var (train, test) := EncodeThenSplit(dummyTrain, dummyTest, getDummies);
      var dummy := getDummies(ConcatRows(dummyTrain, dummyTest));
      && train.columns == test.columns == dummy.columns
      && train.rows + test.rows == dummy.rows
      && (|dummy.rows| == |dummyTrain.rows| + |dummyTest.rows| ==>
            |train.rows| == |dummyTrain.rows| && |test.rows| == |dummyTest.rows|)
  {
    HeadTailPartition(getDummies(ConcatRows(dummyTrain, dummyTest)), |dummyTrain.rows|);
  }

  /**
   * When the encoding fixes its columns from the levels of the whole stacked frame and
   * then encodes each row on its own, every train row and every test row is encoded
   * against that same column set: a level seen in only one partition still gets its
   * column in both.
   */
  lemma JointEncodingProjects<T, U>(
    dummyTrain: Frame<T>, dummyTest: Frame<T>, getDummies: Frame<T> -> Frame<U>,
    encodeRow: (seq<string>, seq<T>) -> seq<U>)
    requires dummyTrain.columns == dummyTest.columns
    requires var complete := ConcatRows(dummyTrain, dummyTest);
      var dummy := getDummies(complete);
      |dummy.rows| == |complete.rows| &&
      forall i :: 0 <= i < |complete.rows| ==> dummy.rows[i] == encodeRow(dummy.columns, complete.rows[i])
    ensures var (train, test) := EncodeThenSplit(dummyTrain, dummyTest, getDummies);
      && |train.rows| == |dummyTrain.rows| && |test.rows| == |dummyTest.rows|
      && (forall i :: 0 <= i < |train.rows| ==> train.rows[i] == encodeRow(train.columns, dummyTrain.rows[i]))
      && (forall j :: 0 <= j < |test.rows| ==> test.rows[j] == encodeRow(test.columns, dummyTest.rows[j]))
  {
    var complete := ConcatRows(dummyTrain, dummyTest);
    var n := |dummyTrain.rows|;
    var (train, test) := EncodeThenSplit(dummyTrain, dummyTest, getDummies);
    forall j | 0 <= j < |test.rows| ensures test.rows[j] == encodeRow(test.columns, dummyTest.rows[j]) {
      assert complete.rows[n + j] == dummyTest.rows[j];
    }
  }
}
