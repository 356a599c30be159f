/**
 The labelled measurement table of a sample.

 Every measurement row is classified and projected to the four columns
 element, value, surpassed limit and limit value, in the input's order and
 without dropping any row. The final rendering into aligned text belongs to a
 table formatter outside this model and is passed in as a function.
 */
module ValueTable {
  import opened Options
  import opened Classifier

  /** One row of the labelled table: "elemento", "valor", "limite transgredido", "valor limite". */
  datatype LabelledRow = LabelledRow(element: string, value: real, kind: Label, limit: Option<real>)

  /** The formatter that turns a labelled table into text. */
  type Renderer = seq<LabelledRow> -> string

  /** Classifies one measurement and keeps only the four output columns. */
  function LabelRow(m: Measurement): (row: LabelledRow)
    ensures row.element == m.element && row.value == m.value
    ensures Classification(row.kind, row.limit) == FindLimitSurpassed(m)
  {
    var c := FindLimitSurpassed(m);
    LabelledRow(m.element, m.value, c.kind, c.limit)
  }

  /** The labelled table: one row per measurement, same order, none filtered out. */
  function LabelRows(ms: seq<Measurement>): (rows: seq<LabelledRow>)
    ensures |rows| == |ms|
    ensures forall i :: 0 <= i < |ms| ==>
      && rows[i].element == ms[i].element
      && rows[i].value == ms[i].value
      && Classification(rows[i].kind, rows[i].limit) == FindLimitSurpassed(ms[i])
  {
    if ms == [] then [] else [LabelRow(ms[0])] + LabelRows(ms[1..])
  }

  /** The text block describing a sample's measurements. */
  function ValuePrompt(render: Renderer, ms: seq<Measurement>): string {
    render(LabelRows(ms))
  }

  /** Labelling works row by row: labelling a concatenation is concatenating
      the labelled parts, so order is kept and rows never interact. */
  lemma {:induction false} LabelRowsAppend(a: seq<Measurement>, b: seq<Measurement>)
    ensures LabelRows(a + b) == LabelRows(a) + LabelRows(b)
  {
    if a == [] {
      assert a + b == b;
    } else {
      assert (a + b)[1..] == a[1..] + b;
      LabelRowsAppend(a[1..], b);
    }
  }

  /** The rendered block depends only on each row's element, value and
      classification: limits that are not reported never change the text. */
  lemma ValuePromptDependsOnClassification(render: Renderer, a: seq<Measurement>, b: seq<Measurement>)
    requires |a| == |b|
    requires forall i :: 0 <= i < |a| ==>
      a[i].element == b[i].element && a[i].value == b[i].value && FindLimitSurpassed(a[i]) == FindLimitSurpassed(b[i])
    ensures ValuePrompt(render, a) == ValuePrompt(render, b)
  {
    var ra, rb := LabelRows(a), LabelRows(b);
    forall i | 0 <= i < |a| ensures ra[i] == rb[i] {
    }
    assert ra == rb;
  }
}
