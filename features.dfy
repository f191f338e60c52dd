/**
 * Aligning an arbitrary feature mapping onto the model's ordered list of
 * feature names (model_loader.py, lines 67-75).
 *
 * The one-row pandas DataFrame is modelled as a map from column name to the
 * value of that column in its only row.
 */
module Features {

  /** A feature value; `Missing` is the missing value (Python `None`). */
  datatype Value =
    | Missing
    | Number(x: real)
    | Text(s: string)
    | Flag(b: bool)

  /** A string-keyed feature mapping, and equally a one-row frame by column. */
  type FeatureMap = map<string, Value>

  /** What the aligned row holds for the expected feature `name`. */
  function Cell(features: FeatureMap, name: string): (v: Value) {
    if name in features then features[name] else Missing
  }

  /**
   * Reference definition of the aligned row: one cell per expected name,
   * in the order of `names`.
   */
  function AlignedRow(features: FeatureMap, names: seq<string>): (row: seq<Value>)
    ensures |row| == |names|
    ensures forall j :: 0 <= j < |names| ==> row[j] == Cell(features, names[j])
  {
    if names == [] then [] else [Cell(features, names[0])] + AlignedRow(features, names[1..])
  }

  /**
   * The loop that adds every expected column the frame lacks, with the
   * missing value (lines 70-72). The frame starts as the input mapping
   * (line 67).
   */
  method FillMissing(features: FeatureMap, names: seq<string>) returns (frame: FeatureMap)
    ensures frame.Keys == features.Keys + set n | n in names
    ensures forall k :: k in features ==> frame[k] == features[k]
    ensures forall k :: k in frame && k !in features ==> frame[k] == Missing
  {
    frame := features;
    for i := 0 to |names|
      invariant frame.Keys == features.Keys + set j | 0 <= j < i :: names[j]
      invariant forall k :: k in features ==> frame[k] == features[k]
      invariant forall k :: k in frame && k !in features ==> frame[k] == Missing
    {
      if names[i] !in frame {
        frame := frame[names[i] := Missing];
      }
    }
    assert (set j | 0 <= j < |names| :: names[j]) == set n | n in names by {
      forall n | n in names ensures n in set j | 0 <= j < |names| :: names[j] {
        var j :| 0 <= j < |names| && names[j] == n;
      }
    }
  }

  /**
   * Lines 67-75: build the frame, fill the missing columns, then keep only
   * the expected columns, in the expected order.
   */
  method AlignFeatures(features: FeatureMap, names: seq<string>) returns (row: seq<Value>)
    ensures |row| == |names|
    ensures forall j :: 0 <= j < |names| && names[j] in features ==> row[j] == features[names[j]]
    ensures forall j :: 0 <= j < |names| && names[j] !in features ==> row[j] == Missing
    ensures row == AlignedRow(features, names)
  {
    var frame := FillMissing(features, names);
    assert forall j :: 0 <= j < |names| ==> names[j] in frame;
    row := seq(|names|, j requires 0 <= j < |names| => frame[names[j]]);
  }

  /** An empty mapping is not an error: it aligns to a row of missing values. */
  lemma EmptyInputAlignsToMissing(names: seq<string>)
    ensures AlignedRow(map[], names) == seq(|names|, _ => Missing)
  {
  }

  /** A key that is not an expected name never reaches the row. */
  lemma UnknownKeyIsDropped(features: FeatureMap, names: seq<string>, k: string, v: Value)
    requires k !in names
    ensures AlignedRow(features[k := v], names) == AlignedRow(features, names)
  {
  }

  /** The row is that of the input restricted to the expected names. */
  lemma OnlyExpectedKeysMatter(features: FeatureMap, names: seq<string>)
    ensures AlignedRow(features, names)
         == AlignedRow(map k | k in features && k in names :: features[k], names)
  {
  }

  /**
   * Two inputs align to the same row exactly when they agree, present or
   * missing, on every expected name.
   */
  lemma SameRowIff(f1: FeatureMap, f2: FeatureMap, names: seq<string>)
    ensures AlignedRow(f1, names) == AlignedRow(f2, names)
        <==> forall n :: n in names ==> Cell(f1, n) == Cell(f2, n)
  {
  }
}
