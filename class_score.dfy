/**
 * `Classifier.class_score_df` (model.py:157-182): for every test record, the classes by
 * descending predicted probability (`np.argsort(row)[::-1]`), as names looked up in the
 * label map's keys or as ids, under a header that is the record's true label.
 */
module ClassScore {
  import opened Wrappers
  import opened Ranking
  import LabelIndex

  /** A table cell or header: a label name or a label id. */
  datatype Cell = Name(name: string) | Id(id: nat)

  /** The DataFrame built by `class_score_df`: one column per test record. */
  datatype Table = Table(headers: seq<Cell>, columns: seq<seq<Cell>>)

  /** The exceptions the Python code can raise. */
  datatype TableError =
    | LabelOutOfRange(labelId: nat)             // index[y_test] at model.py:171
    | ClassOutOfRange(record: nat, classId: nat)  // index[argsort(row)[::-1]] at model.py:175
    | LengthMismatch(columns: nat, headers: nat) // assigning class_score.columns, model.py:179, 181

  /** `index[ids]` for the key array `index`; a numpy IndexError carries the offending id. */
  function Names(keys: seq<string>, ids: seq<nat>): (r: Result<seq<string>, nat>)
    ensures r.Ok? <==> forall i :: 0 <= i < |ids| ==> ids[i] < |keys|
    ensures r.Ok? ==> |r.value| == |ids| && forall i :: 0 <= i < |ids| ==> r.value[i] == keys[ids[i]]
    ensures r.Err? ==> r.error in ids && r.error >= |keys|
  {
    if ids == [] then Ok([])
    else if ids[0] >= |keys| then Err(ids[0])
    else match Names(keys, ids[1..])
      case Err(c) => Err(c)
      case Ok(rest) => Ok([keys[ids[0]]] + rest)
  }

  /** One column of the table: the classes of `row` by descending probability. */
  function RankedColumn(row: seq<real>, keys: seq<string>, realNames: bool, record: nat): (r: Result<seq<Cell>, TableError>)
    ensures r.Ok? ==> |r.value| == |row|
    ensures r.Err? ==> realNames && r.error.ClassOutOfRange? && r.error.record == record && |keys| <= r.error.classId < |row|
  {
    var descending := Reverse(Argsort(row));
    if realNames then
      match Names(keys, descending)
      case Err(c) => Err(ClassOutOfRange(record, c))
      case Ok(ns) => Ok(seq(|ns|, j requires 0 <= j < |ns| => Name(ns[j])))
    else Ok(seq(|descending|, j requires 0 <= j < |descending| => Id(descending[j])))
  }

  /** The columns after the first `n` iterations of the loop of model.py:173-177. */
  function Columns(probs: seq<seq<real>>, keys: seq<string>, realNames: bool, n: nat): (r: Result<seq<seq<Cell>>, TableError>)
    requires n <= |probs|
  {
    if n == 0 then Ok([])
    else match Columns(probs, keys, realNames, n - 1)
      case Err(e) => Err(e)
      case Ok(cs) =>
        match RankedColumn(probs[n - 1], keys, realNames, n - 1)
        case Err(e) => Err(e)
        case Ok(c) => Ok(cs + [c])
  }

  /** What `class_score_df` returns or raises, given the insertion-ordered keys of `id_class_map`. */
  function ClassScore(probs: seq<seq<real>>, yTest: seq<nat>, keys: seq<string>, realNames: bool): (r: Result<Table, TableError>)
  {
    match Names(keys, yTest)
    case Err(id) => Err(LabelOutOfRange(id))
    case Ok(columnNames) =>
      match Columns(probs, keys, realNames, |probs|)
      case Err(e) => Err(e)
      case Ok(cols) =>
        if |yTest| != |cols| then Err(LengthMismatch(|cols|, |yTest|))
        else Ok(Table(Headers(yTest, columnNames, realNames), cols))
  }

  /** The column labels assigned at model.py:178-181: the true labels' names, or their ids. */
  function Headers(yTest: seq<nat>, columnNames: seq<string>, realNames: bool): (h: seq<Cell>)
    requires |columnNames| == |yTest|
  {
    if realNames then seq(|yTest|, i requires 0 <= i < |yTest| => Name(columnNames[i]))
    else seq(|yTest|, i requires 0 <= i < |yTest| => Id(yTest[i]))
  }

  lemma {:induction false} ColumnsErrorPersists(probs: seq<seq<real>>, keys: seq<string>, realNames: bool, m: nat, n: nat)
    requires m <= n <= |probs|
    requires Columns(probs, keys, realNames, m).Err?
    ensures Columns(probs, keys, realNames, n) == Columns(probs, keys, realNames, m)
  {
    if m < n {
      ColumnsErrorPersists(probs, keys, realNames, m, n - 1);
    }
  }

  lemma ColumnsStep(probs: seq<seq<real>>, keys: seq<string>, realNames: bool, n: nat, cs: seq<seq<Cell>>, c: seq<Cell>)
    requires 0 < n <= |probs|
    requires Columns(probs, keys, realNames, n - 1) == Ok(cs)
    requires RankedColumn(probs[n - 1], keys, realNames, n - 1) == Ok(c)
    ensures Columns(probs, keys, realNames, n) == Ok(cs + [c])
  {
  }

  /** The loop of model.py:169-182: one column per record, then the headers. */
  method ClassScoreDf(probs: seq<seq<real>>, yTest: seq<nat>, idClassMap: LabelIndex.LabelMap, realNames: bool)
    returns (r: Result<Table, TableError>)
    ensures r == ClassScore(probs, yTest, idClassMap.keys, realNames)
  {
    var index := idClassMap.keys;
    var columnNames := Names(index, yTest);
    if columnNames.Err? {
      return Err(LabelOutOfRange(columnNames.error));
    }
    var classScore: seq<seq<Cell>> := [];
    var i := 0;
    while i < |probs|
      invariant i <= |probs|
      invariant Columns(probs, index, realNames, i) == Ok(classScore)
    {
      var step := AddColumn(probs, index, realNames, i, classScore);
      if step.Err? {
        return Err(step.error);
      }
      classScore := step.value;
      i := i + 1;
    }
    if |yTest| != |classScore| {
      return Err(LengthMismatch(|classScore|, |yTest|));
    }
    r := Ok(Table(Headers(yTest, columnNames.value, realNames), classScore));
  }

  /**
   * One iteration of the loop (model.py:174-177): either record `i`'s ranked column is
   * appended, or the IndexError it raises is the outcome of the whole loop.
   */
  method AddColumn(probs: seq<seq<real>>, index: seq<string>, realNames: bool, i: nat, classScore: seq<seq<Cell>>)
    returns (step: Result<seq<seq<Cell>>, TableError>)
    requires i < |probs|
    requires Columns(probs, index, realNames, i) == Ok(classScore)
    ensures step.Ok? ==> Columns(probs, index, realNames, i + 1) == Ok(step.value)
    ensures step.Err? ==> Columns(probs, index, realNames, |probs|) == Err(step.error)
  {
    var column := RankedColumn(probs[i], index, realNames, i);
    if column.Err? {
      ColumnsErrorPersists(probs, index, realNames, i + 1, |probs|);
      return Err(column.error);
    }
    ColumnsStep(probs, index, realNames, i + 1, classScore, column.value);
    step := Ok(classScore + [column.value]);
  }

  /** The cell for class `c`: its name among the keys, or its id. */
  function CellOf(keys: seq<string>, realNames: bool, c: nat): (cell: Cell)
    requires realNames ==> c < |keys|
  {
    if realNames then Name(keys[c]) else Id(c)
  }

  /**
   * A column exists unless names are wanted and the row has more classes than the map
   * has keys; it then lists every class once by non-increasing probability, starting
   * with a most probable one.
   */
  lemma RankedColumnMeaning(row: seq<real>, keys: seq<string>, realNames: bool, record: nat)
    ensures RankedColumn(row, keys, realNames, record).Ok? <==> (realNames ==> |row| <= |keys|)
    ensures RankedColumn(row, keys, realNames, record).Ok? ==>
      var col := RankedColumn(row, keys, realNames, record).value;
      var d := Reverse(Argsort(row));
      && IsDescendingOrder(row, d)
      && |col| == |row|
      && (forall j :: 0 <= j < |row| ==> (realNames ==> d[j] < |keys|) && col[j] == CellOf(keys, realNames, d[j]))
      && (|row| > 0 ==> forall c :: 0 <= c < |row| ==> row[c] <= row[d[0]])
  {
    RankedColumnDefined(row, keys, realNames, record);
    var r := RankedColumn(row, keys, realNames, record);
    if r.Ok? {
      var col := r.value;
      var d := Reverse(Argsort(row));
      ArgsortIsAscending(row);
      ReversedIsDescending(row, Argsort(row));
      assert |d| == |row|;
      if realNames {
        var ns := Names(keys, d).value;
        assert |ns| == |d| && col == seq(|ns|, j requires 0 <= j < |ns| => Name(ns[j]));
        forall j | 0 <= j < |row|
          ensures d[j] < |keys| && col[j] == CellOf(keys, realNames, d[j])
        {
          assert ns[j] == keys[d[j]];
        }
      } else {
        assert col == seq(|d|, j requires 0 <= j < |d| => Id(d[j]));
      }
      if |row| > 0 {
        FirstIsMostProbable(row, d);
      }
    }
  }

  /** The head of a descending order is a most probable class. */
  lemma FirstIsMostProbable(row: seq<real>, d: seq<nat>)
    requires IsDescendingOrder(row, d) && |row| > 0
    ensures forall c :: 0 <= c < |row| ==> row[c] <= row[d[0]]
  {
    forall c | 0 <= c < |row|
      ensures row[c] <= row[d[0]]
    {
      assert c in d;
      var q :| 0 <= q < |d| && d[q] == c;
      assert q == 0 || row[d[0]] >= row[d[q]];
    }
  }

  lemma RankedColumnDefined(row: seq<real>, keys: seq<string>, realNames: bool, record: nat)
    ensures RankedColumn(row, keys, realNames, record).Ok? <==> (realNames ==> |row| <= |keys|)
  {
    var d := Reverse(Argsort(row));
    ArgsortIsAscending(row);
    ReverseIsOrdering(Argsort(row), |row|);
    if realNames && |row| > |keys| {
      assert |keys| in d;
    }
  }

  /**
   * The table exists exactly when every true label has a key, names are wanted only for
   * rows no wider than the keys, and there is one true label per record. Each column is
   * then headed by its record's true label, as a name or as an id, and holds that
   * record's descending ranking.
   */
  lemma ClassScoreMeaning(probs: seq<seq<real>>, yTest: seq<nat>, keys: seq<string>, realNames: bool)
    ensures ClassScore(probs, yTest, keys, realNames).Ok? <==>
      && (forall i :: 0 <= i < |yTest| ==> yTest[i] < |keys|)
      && (realNames ==> forall i :: 0 <= i < |probs| ==> |probs[i]| <= |keys|)
      && |yTest| == |probs|
    ensures ClassScore(probs, yTest, keys, realNames).Ok? ==>
      var t := ClassScore(probs, yTest, keys, realNames).value;
      && |t.headers| == |t.columns| == |probs|
      && forall i :: 0 <= i < |probs| ==>
           && t.headers[i] == CellOf(keys, realNames, yTest[i])
           && Ok(t.columns[i]) == RankedColumn(probs[i], keys, realNames, i)
  {
    ColumnsDefined(probs, keys, realNames, |probs|);
    if Columns(probs, keys, realNames, |probs|).Ok? {
      ColumnsMeaning(probs, keys, realNames, |probs|);
    }
  }

  lemma ColumnsDefinedStep(probs: seq<seq<real>>, keys: seq<string>, realNames: bool, n: nat)
    requires 0 < n <= |probs|
    ensures Columns(probs, keys, realNames, n).Ok? <==>
      Columns(probs, keys, realNames, n - 1).Ok? && RankedColumn(probs[n - 1], keys, realNames, n - 1).Ok?
  {
  }

  lemma {:induction false} ColumnsDefined(probs: seq<seq<real>>, keys: seq<string>, realNames: bool, n: nat)
    requires n <= |probs|
    ensures Columns(probs, keys, realNames, n).Ok? <==>
      (realNames ==> forall i :: 0 <= i < n ==> |probs[i]| <= |keys|)
  {
    if n > 0 {
      ColumnsDefined(probs, keys, realNames, n - 1);
      RankedColumnDefined(probs[n - 1], keys, realNames, n - 1);
      ColumnsDefinedStep(probs, keys, realNames, n);
      assert (forall i :: 0 <= i < n ==> |probs[i]| <= |keys|) <==>
        (forall i :: 0 <= i < n - 1 ==> |probs[i]| <= |keys|) && |probs[n - 1]| <= |keys|;
    }
  }

  lemma {:induction false} ColumnsMeaning(probs: seq<seq<real>>, keys: seq<string>, realNames: bool, n: nat)
    requires n <= |probs|
    requires Columns(probs, keys, realNames, n).Ok?
    ensures var cs := Columns(probs, keys, realNames, n).value;
      |cs| == n && forall i :: 0 <= i < n ==> Ok(cs[i]) == RankedColumn(probs[i], keys, realNames, i)
  {
    if n > 0 {
      var prev := Columns(probs, keys, realNames, n - 1);
      var col := RankedColumn(probs[n - 1], keys, realNames, n - 1);
      assert prev.Ok? && col.Ok?;
      ColumnsMeaning(probs, keys, realNames, n - 1);
      ColumnsStep(probs, keys, realNames, n, prev.value, col.value);
      var cs := prev.value + [col.value];
      assert forall i :: 0 <= i < n - 1 ==> cs[i] == prev.value[i];
    }
  }

  /**
   * With the map built from the data (model.py:29) and ids of the test records' names,
   * every header names the record's true species (model.py:170-171, 179).
   */
  lemma HeadersAreTrueNames(names: seq<string>, probs: seq<seq<real>>, testNames: seq<string>)
    requires forall i :: 0 <= i < |testNames| ==> testNames[i] in names
    requires ClassScore(probs, IdsOf(names, testNames), LabelIndex.IdClass(names).keys, true).Ok?
    ensures var t := ClassScore(probs, IdsOf(names, testNames), LabelIndex.IdClass(names).keys, true).value;
      forall i :: 0 <= i < |testNames| ==> t.headers[i] == Name(testNames[i])
  {
    ClassScoreMeaning(probs, IdsOf(names, testNames), LabelIndex.IdClass(names).keys, true);
  }

  /** The labels of the test records, `self.y_test`, looked up in the map built from the data. */
  function IdsOf(names: seq<string>, testNames: seq<string>): (ids: seq<nat>)
    requires forall i :: 0 <= i < |testNames| ==> testNames[i] in names
    ensures |ids| == |testNames|
    ensures forall i :: 0 <= i < |testNames| ==>
      ids[i] < |LabelIndex.IdClass(names).keys| && LabelIndex.IdClass(names).keys[ids[i]] == testNames[i]
  {
    var m := LabelIndex.IdClass(names);
    LabelIndex.IdsDecode(names);
    seq(|testNames|, i requires 0 <= i < |testNames| => m.ids[testNames[i]])
  }

  /**
   * In a column of ids the true label sits at `k - 1 - p`, where `p` is the ascending
   * position that `new_evaluation_score` weighs: the two reports rank alike.
   */
  lemma TrueLabelRankMirrorsScore(row: seq<real>, t: nat, keys: seq<string>, record: nat)
    requires t < |row|
    ensures RankedColumn(row, keys, false, record).Ok?
    ensures Position(Argsort(row), t).Some?
    ensures var col := RankedColumn(row, keys, false, record).value;
      var p := Position(Argsort(row), t).value;
      p < |row| && col[|row| - 1 - p] == Id(t)
  {
    RankedColumnMeaning(row, keys, false, record);
    ArgsortIsAscending(row);
    ReversedPosition(Argsort(row), |row|, t);
  }
}
