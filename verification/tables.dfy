/**
 The two source tables and the selection of one sample's rows.

 Both the component catalog and the values table are keyed by a sample id.
 Selecting a sample keeps the rows whose id equals the requested one, in
 table order, and drops the id column.
 */
module Tables {

  /** The eight identity columns of a component/machine pairing. */
  datatype ComponentRecord = ComponentRecord(
    component: string,
    componentBrand: string,
    componentModel: string,
    componentType: string,
    machine: string,
    machineType: string,
    machineBrand: string,
    machineModel: string)

  /** A table row tagged with the "id_sample" column. */
  datatype Keyed<T> = Keyed(idSample: int, row: T)

  /** Does any row of the table carry the id? */
  predicate HasSample<T>(rows: seq<Keyed<T>>, id: int) {
    exists i :: 0 <= i < |rows| && rows[i].idSample == id
  }

  /** The rows of sample `id`, in table order, without the id column. */
  function Select<T>(rows: seq<Keyed<T>>, id: int): (r: seq<T>)
    ensures |r| <= |rows|
    ensures r == [] <==> !HasSample(rows, id)
  {
    if rows == [] then []
    else
      var rest := Select(rows[1..], id);
      assert HasSample(rows, id) <==> rows[0].idSample == id || HasSample(rows[1..], id) by {
        if HasSample(rows[1..], id) {
          var i :| 0 <= i < |rows[1..]| && rows[1..][i].idSample == id;
          assert rows[i + 1].idSample == id;
        }
        if HasSample(rows, id) && rows[0].idSample != id {
          var i :| 0 <= i < |rows| && rows[i].idSample == id;
          assert rows[1..][i - 1].idSample == id;
        }
      }
      if rows[0].idSample == id then [rows[0].row] + rest else rest
  }

  /** `sel` is the subsequence of the table's `id` rows picked at the positions
      `idx`: the positions strictly increase, each picked row carries the id,
      and every row carrying the id is picked. */
  ghost predicate PickedAt<T>(rows: seq<Keyed<T>>, id: int, idx: seq<nat>, sel: seq<T>) {
    && |idx| == |sel|
    && (forall k :: 0 <= k < |idx| ==>
          idx[k] < |rows| && rows[idx[k]].idSample == id && rows[idx[k]].row == sel[k])
    && (forall k, l :: 0 <= k < l < |idx| ==> idx[k] < idx[l])
    && (forall i :: 0 <= i < |rows| && rows[i].idSample == id ==> i in idx)
  }

  /** Selection is exactly a subsequence: the rows of sample `id`, all of them,
      in table order. */
  lemma {:induction false} SelectIndices<T>(rows: seq<Keyed<T>>, id: int) returns (idx: seq<nat>)
    ensures PickedAt(rows, id, idx, Select(rows, id))
  {
    if rows == [] {
      return [];
    }
    var tail := SelectIndices(rows[1..], id);
    idx := PickedAtCons(rows, id, tail, Select(rows[1..], id));
  }

  /** One step of `SelectIndices`: positions in the tail, moved one place right,
      plus position 0 when the first row carries the id. */
  lemma PickedAtCons<T>(rows: seq<Keyed<T>>, id: int, tail: seq<nat>, sel: seq<T>) returns (idx: seq<nat>)
    requires rows != [] && PickedAt(rows[1..], id, tail, sel)
    ensures PickedAt(rows, id, idx, (if rows[0].idSample == id then [rows[0].row] else []) + sel)
  {
    var shifted := Shift(tail);
    ShiftedRowsPicked(rows, id, tail, sel);
    ShiftedOrdered(rows, id, tail, sel);
    ShiftedCovers(rows, id, tail, sel);
    if rows[0].idSample == id {
      idx := [0] + shifted;
      ConsPicks(rows, id, shifted, sel);
    } else {
      idx := shifted;
      SkipPicks(rows, id, shifted, sel);
      assert [] + sel == sel;
    }
  }

  /** Prepending position 0 to positions that pick `sel` from the rows after
      the first one picks the first row followed by `sel`. */
  lemma ConsPicks<T>(rows: seq<Keyed<T>>, id: int, shifted: seq<nat>, sel: seq<T>)
    requires rows != [] && rows[0].idSample == id && |shifted| == |sel|
    requires forall k :: 0 <= k < |sel| ==>
      0 < shifted[k] < |rows| && rows[shifted[k]].idSample == id && rows[shifted[k]].row == sel[k]
    requires forall k, l :: 0 <= k < l < |sel| ==> shifted[k] < shifted[l]
    requires forall i :: 1 <= i < |rows| && rows[i].idSample == id ==> i in shifted
    ensures PickedAt(rows, id, [0] + shifted, [rows[0].row] + sel)
  {
    var idx := [0] + shifted;
    var all := [rows[0].row] + sel;
    forall k | 0 <= k < |idx|
      ensures idx[k] < |rows| && rows[idx[k]].idSample == id && rows[idx[k]].row == all[k]
    {
      if k > 0 {
        assert idx[k] == shifted[k - 1] && all[k] == sel[k - 1];
      }
    }
    forall k, l | 0 <= k < l < |idx| ensures idx[k] < idx[l] {
      assert idx[l] == shifted[l - 1];
      if k > 0 {
        assert idx[k] == shifted[k - 1];
      }
    }
    forall i | 0 <= i < |rows| && rows[i].idSample == id ensures i in idx {
      if i > 0 {
        assert i in shifted;
      }
    }
  }

  /** When the first row does not carry the id, positions that pick `sel` from
      the rows after it pick `sel` from the whole table. */
  lemma SkipPicks<T>(rows: seq<Keyed<T>>, id: int, shifted: seq<nat>, sel: seq<T>)
    requires rows != [] && rows[0].idSample != id && |shifted| == |sel|
    requires forall k :: 0 <= k < |sel| ==>
      0 < shifted[k] < |rows| && rows[shifted[k]].idSample == id && rows[shifted[k]].row == sel[k]
    requires forall k, l :: 0 <= k < l < |sel| ==> shifted[k] < shifted[l]
    requires forall i :: 1 <= i < |rows| && rows[i].idSample == id ==> i in shifted
    ensures PickedAt(rows, id, shifted, sel)
  {
  }

  /** The tail's positions moved one place right pick the same rows from the whole table. */
  lemma ShiftedRowsPicked<T>(rows: seq<Keyed<T>>, id: int, tail: seq<nat>, sel: seq<T>)
    requires rows != [] && PickedAt(rows[1..], id, tail, sel)
    ensures |Shift(tail)| == |sel|
    ensures forall k :: 0 <= k < |sel| ==>
      0 < Shift(tail)[k] < |rows| && rows[Shift(tail)[k]].idSample == id && rows[Shift(tail)[k]].row == sel[k]
  {
    var shifted := Shift(tail);
    forall k | 0 <= k < |shifted|
      ensures 0 < shifted[k] < |rows| && rows[shifted[k]].idSample == id && rows[shifted[k]].row == sel[k]
    {
      assert rows[shifted[k]] == rows[1..][tail[k]];
    }
  }

  /** Moving positions one place right keeps them strictly increasing. */
  lemma ShiftedOrdered<T>(rows: seq<Keyed<T>>, id: int, tail: seq<nat>, sel: seq<T>)
    requires rows != [] && PickedAt(rows[1..], id, tail, sel)
    ensures forall k, l :: 0 <= k < l < |sel| ==> Shift(tail)[k] < Shift(tail)[l]
  {
  }

  /** The tail's positions moved one place right cover every row after the
      first that carries the id. */
  lemma ShiftedCovers<T>(rows: seq<Keyed<T>>, id: int, tail: seq<nat>, sel: seq<T>)
    requires rows != [] && PickedAt(rows[1..], id, tail, sel)
    ensures forall i :: 1 <= i < |rows| && rows[i].idSample == id ==> i in Shift(tail)
  {
    var shifted := Shift(tail);
    forall i | 1 <= i < |rows| && rows[i].idSample == id
      ensures i in shifted
    {
      assert rows[1..][i - 1].idSample == id;
      assert i - 1 in tail;
      var k :| 0 <= k < |tail| && tail[k] == i - 1;
      assert shifted[k] == i;
    }
  }

  /** Adds one to every position (the positions of a table's tail, seen from the table). */
  function Shift(ps: seq<nat>): (r: seq<nat>)
    ensures |r| == |ps|
    ensures forall k :: 0 <= k < |ps| ==> r[k] == ps[k] + 1
  {
    seq(|ps|, k requires 0 <= k < |ps| => ps[k] + 1)
  }

  /** Selecting from two concatenated tables concatenates the selections. */
  lemma {:induction false} SelectAppend<T>(a: seq<Keyed<T>>, b: seq<Keyed<T>>, id: int)
    ensures Select(a + b, id) == Select(a, id) + Select(b, id)
  {
    if a == [] {
      assert a + b == b;
    } else {
      assert (a + b)[1..] == a[1..] + b;
      SelectAppend(a[1..], b, id);
    }
  }
}
