/**
 * The feature schema the regression model was trained on, and the proof that
 * the form's feature row follows it position by position.
 *
 * At training time the categorical column is expanded by dummy encoding with
 * the first level dropped: the other columns keep their order, and one column
 * named `ocean_proximity_<level>` per remaining level is appended, levels in
 * ascending string order. The form builds its row by hand; nothing ties the
 * two together but the lemmas below.
 */
module Schema {
  import opened Wrappers
  import opened Encoder

  /** Lexicographic order by character code, the order Python sorts strings in. */
  predicate LexLess(a: string, b: string)
  {
    if a == [] then b != []
    else if b == [] then false
    else if a[0] != b[0] then a[0] < b[0]
    else LexLess(a[1..], b[1..])
  }

  /** Each string is lexicographically smaller than the next. */
  predicate Ascending(s: seq<string>)
  {
    forall i :: 0 <= i < |s| - 1 ==> LexLess(s[i], s[i + 1])
  }

  /**
   * The selector lists its options in ascending order, so the sorted levels
   * seen at training time are the selector's options in the same order, and
   * the dropped first level is the selector's first option.
   */
  lemma ChoicesAscending()
    ensures Ascending(CHOICES)
  {
  }

  /** The numeric columns of the training data, in file order. */
  const NUMERIC_COLUMNS: seq<string> :=
    ["longitude", "latitude", "housing_median_age", "total_rooms",
     "total_bedrooms", "population", "households", "median_income"]

  /** The regression target, dropped from the features. */
  const TARGET := "median_house_value"

  /** The categorical column that is dummy-encoded. */
  const CATEGORICAL := "ocean_proximity"

  /** The header of the training data. */
  const DATA_COLUMNS: seq<string> := NUMERIC_COLUMNS + [TARGET, CATEGORICAL]

  /** The columns of `cols` other than `name`, in their order. */
  function Without(cols: seq<string>, name: string): (r: seq<string>)
    ensures forall c :: c in r <==> c in cols && c != name
  {
    if cols == [] then []
    else if cols[0] == name then Without(cols[1..], name)
    else [cols[0]] + Without(cols[1..], name)
  }

  /** One `<prefix>_<level>` column name per level, in the levels' order. */
  function DummyNames(prefix: string, levels: seq<string>): (r: seq<string>)
    ensures |r| == |levels|
    ensures forall k :: 0 <= k < |levels| ==> r[k] == prefix + "_" + levels[k]
  {
    if levels == [] then [] else [prefix + "_" + levels[0]] + DummyNames(prefix, levels[1..])
  }

  /** No string is smaller than itself. */
  lemma {:induction false} LexLessIrreflexive(a: string)
    ensures !LexLess(a, a)
  {
    if a != [] {
      LexLessIrreflexive(a[1..]);
    }
  }

  lemma {:induction false} LexLessTransitive(a: string, b: string, c: string)
    requires LexLess(a, b) && LexLess(b, c)
    ensures LexLess(a, c)
  {
    if a != [] && a[0] == b[0] && b[0] == c[0] {
      LexLessTransitive(a[1..], b[1..], c[1..]);
    }
  }

  /** In an ascending list every level is smaller than every later one, so no level repeats the first. */
  lemma {:induction false} AscendingFirstSmallest(s: seq<string>, k: nat)
    requires Ascending(s) && 0 < k < |s|
    ensures LexLess(s[0], s[k]) && s[k] != s[0]
  {
    if k > 1 {
      AscendingFirstSmallest(s, k - 1);
      LexLessTransitive(s[0], s[k - 1], s[k]);
    }
    LexLessIrreflexive(s[0]);
  }

  /**
   * The column names after dummy-encoding `categorical` with its first level
   * dropped, given the column's distinct levels in ascending order: the other
   * columns in their order, then one flag column per level after the first,
   * in level order. The first level gets no flag column.
   */
  function DummyColumns(cols: seq<string>, categorical: string, sortedLevels: seq<string>): (r: seq<string>)
    requires Ascending(sortedLevels)
    ensures |Without(cols, categorical)| <= |r|
    ensures r[..|Without(cols, categorical)|] == Without(cols, categorical)
    ensures |r| == |Without(cols, categorical)| + (if sortedLevels == [] then 0 else |sortedLevels| - 1)
    ensures forall k :: 1 <= k < |sortedLevels| ==>
              r[|Without(cols, categorical)| + k - 1] == categorical + "_" + sortedLevels[k]
              && r[|Without(cols, categorical)| + k - 1] != categorical + "_" + sortedLevels[0]
  {
    var kept := Without(cols, categorical);
    var flags := DummyNames(categorical, if sortedLevels == [] then [] else sortedLevels[1..]);
    forall k | 1 <= k < |sortedLevels|
      ensures categorical + "_" + sortedLevels[k] != categorical + "_" + sortedLevels[0]
    {
      AscendingFirstSmallest(sortedLevels, k);
      var p := categorical + "_";
      assert (p + sortedLevels[k])[|p|..] == sortedLevels[k];
      assert (p + sortedLevels[0])[|p|..] == sortedLevels[0];
    }
    assert (kept + flags)[..|kept|] == kept;
    kept + flags
  }

  /** The feature columns the model and the scaler were fitted on, in order; neither the target nor the raw categorical column is among them. */
  function TrainingColumns(): (r: seq<string>)
    ensures TARGET !in r && CATEGORICAL !in r
  {
    ChoicesAscending();
    var encoded := DummyColumns(DATA_COLUMNS, CATEGORICAL, CHOICES);
    var kept := Without(DATA_COLUMNS, CATEGORICAL);
    forall i | |kept| <= i < |encoded| ensures encoded[i] != CATEGORICAL {
      assert |encoded[i]| > |CATEGORICAL|;
    }
    Without(encoded, TARGET)
  }

  /** The training columns are the eight numeric columns, then one flag column per non-reference level. */
  lemma TrainingColumnsLayout()
    ensures TrainingColumns() == NUMERIC_COLUMNS + DummyNames(CATEGORICAL, DUMMY_LEVELS)
    ensures |TrainingColumns()| == 12
  {
    ChoicesAscending();
    EncodedDataColumns();
    DropTarget();
  }

  /** Dummy encoding leaves the numeric columns and the target in place and appends the flag columns. */
  lemma EncodedDataColumns()
    ensures Ascending(CHOICES)
    ensures DummyColumns(DATA_COLUMNS, CATEGORICAL, CHOICES)
         == NUMERIC_COLUMNS + [TARGET] + DummyNames(CATEGORICAL, DUMMY_LEVELS)
  {
    ChoicesAscending();
    NotNumericColumn(CATEGORICAL);
    WithoutAbsent(NUMERIC_COLUMNS, CATEGORICAL);
    WithoutAppend(NUMERIC_COLUMNS, [TARGET, CATEGORICAL], CATEGORICAL);
    assert Without([TARGET, CATEGORICAL], CATEGORICAL) == [TARGET] by {
      assert TARGET != CATEGORICAL;
      assert [TARGET, CATEGORICAL][1..] == [CATEGORICAL];
      assert Without([CATEGORICAL], CATEGORICAL) == [];
    }
  }

  /** Dropping the target then leaves exactly the numeric and flag columns. */
  lemma DropTarget()
    ensures Without(NUMERIC_COLUMNS + [TARGET] + DummyNames(CATEGORICAL, DUMMY_LEVELS), TARGET)
         == NUMERIC_COLUMNS + DummyNames(CATEGORICAL, DUMMY_LEVELS)
  {
    var n, d := NUMERIC_COLUMNS, DummyNames(CATEGORICAL, DUMMY_LEVELS);
    var nt := n + [TARGET];
    NotNumericColumn(TARGET);
    FlagColumnsNotTarget();
    WithoutAppend(nt, d, TARGET);
    WithoutAppend(n, [TARGET], TARGET);
    WithoutAbsent(n, TARGET);
    WithoutAbsent(d, TARGET);
    assert Without([TARGET], TARGET) == [];
    assert Without(nt, TARGET) == n;
  }

  /** No flag column is named like the target. */
  lemma FlagColumnsNotTarget()
    ensures TARGET !in DummyNames(CATEGORICAL, DUMMY_LEVELS)
  {
  }

  /** The target and the categorical column are not among the numeric columns. */
  lemma NotNumericColumn(name: string)
    requires name == TARGET || name == CATEGORICAL
    ensures name !in NUMERIC_COLUMNS
  {
  }

  lemma {:induction false} WithoutAbsent(cols: seq<string>, name: string)
    requires name !in cols
    ensures Without(cols, name) == cols
  {
    if cols != [] {
      WithoutAbsent(cols[1..], name);
    }
  }

  lemma {:induction false} WithoutAppend(a: seq<string>, b: seq<string>, name: string)
    ensures Without(a + b, name) == Without(a, name) + Without(b, name)
  {
    if a == [] {
      assert a + b == b;
    } else {
      assert (a + b)[1..] == a[1..] + b;
      WithoutAppend(a[1..], b, name);
    }
  }

  /** Length of the `ocean_proximity_` prefix of a flag column's name. */
  const FLAG_PREFIX_LENGTH := |CATEGORICAL| + 1

  /**
   * What the model expects under each training column name, read off the raw
   * record: a numeric column carries its field, and the flag column of a level
   * is 1.0 exactly when the record's category is that level. None for a name
   * the model was not trained on.
   */
  function ColumnValue(h: HouseInputs, ocean: string, name: string): Option<real>
  {
    if name == "longitude" then Some(h.longitude)
    else if name == "latitude" then Some(h.latitude)
    else if name == "housing_median_age" then Some(h.housingMedianAge)
    else if name == "total_rooms" then Some(h.totalRooms)
    else if name == "total_bedrooms" then Some(h.totalBedrooms)
    else if name == "population" then Some(h.population)
    else if name == "households" then Some(h.households)
    else if name == "median_income" then Some(h.medianIncome)
    else if |name| > FLAG_PREFIX_LENGTH && name[..FLAG_PREFIX_LENGTH] == CATEGORICAL + "_"
            && name[FLAG_PREFIX_LENGTH..] in DUMMY_LEVELS
    then Some(if ocean == name[FLAG_PREFIX_LENGTH..] then 1.0 else 0.0)
    else None
  }

  /**
   * Training/inference symmetry: the row the form builds has one entry per
   * training column, and each entry is the value that column stands for.
   */
  lemma FeatureRowFollowsSchema(h: HouseInputs, ocean: string)
    ensures |FeatureRow(h, ocean)| == |TrainingColumns()|
    ensures forall i :: 0 <= i < |TrainingColumns()| ==>
              ColumnValue(h, ocean, TrainingColumns()[i]) == Some(FeatureRow(h, ocean)[i])
  {
    TrainingColumnsLayout();
    var names := TrainingColumns();
    var v := FeatureRow(h, ocean);
    forall i | 0 <= i < 12 ensures ColumnValue(h, ocean, names[i]) == Some(v[i]) {
      if i < 8 {
        assert names[i] == NUMERIC_COLUMNS[i];
        NumericColumnValue(h, ocean, i);
      } else {
        assert names[i] == CATEGORICAL + "_" + DUMMY_LEVELS[i - 8];
        FlagColumnValue(h, ocean, i - 8);
      }
    }
  }

  /** The i-th numeric column carries entry i of the row. */
  lemma NumericColumnValue(h: HouseInputs, ocean: string, i: nat)
    requires i < 8
    ensures ColumnValue(h, ocean, NUMERIC_COLUMNS[i]) == Some(FeatureRow(h, ocean)[i])
  {
  }

  /** The flag column of the k-th non-reference level carries entry 8+k of the row. */
  lemma FlagColumnValue(h: HouseInputs, ocean: string, k: nat)
    requires k < 4
    ensures ColumnValue(h, ocean, CATEGORICAL + "_" + DUMMY_LEVELS[k]) == Some(FeatureRow(h, ocean)[8 + k])
  {
  }
}
