/**
 * The batch loop of the upload handler: every record is sent to the plan
 * client once, in order; an output carrying an "error" key produces a warning
 * and no row, any other output produces one six-column report row.
 */
module Batch {
  import opened Wrappers
  import opened PlanClient

  /** One row of the uploaded table: column name to cell text. */
  type Record = map<string, string>

  const NotAvailable := "N/A"

  /** `m.get(key, "N/A")`. */
  function Get(m: map<string, string>, key: string): string {
    if key in m then m[key] else NotAvailable
  }

  /** One entry of `results`. */
  datatype ReportRow = ReportRow(
    patientId: string,
    condition: string,
    risk: string,
    initialPlan: string,
    adaptedPlan: string,
    finalPlan: string)

  /** The keys of a report row, in the order the dictionary literal inserts them. */
  const Header: seq<string> :=
    ["Patient ID", "Condition", "Risk Level", "Initial Plan", "Adapted Plan", "Final Plan"]

  /** The report row as the ordered dictionary the script builds. */
  function Columns(row: ReportRow): seq<(string, string)> {
    [ (Header[0], row.patientId), (Header[1], row.condition), (Header[2], row.risk),
      (Header[3], row.initialPlan), (Header[4], row.adaptedPlan), (Header[5], row.finalPlan) ]
  }

  /** Dictionary lookup in an ordered list of pairs: the first entry with that key. */
  function Lookup(pairs: seq<(string, string)>, key: string): Option<string> {
    if pairs == [] then None
    else if pairs[0].0 == key then Some(pairs[0].1)
    else Lookup(pairs[1..], key)
  }

  /** Lookup finds the value of the first pair whose key matches. */
  lemma {:induction false} LookupFirst(pairs: seq<(string, string)>, i: nat, key: string)
    requires i < |pairs| && pairs[i].0 == key
    requires forall j :: 0 <= j < i ==> pairs[j].0 != key
    ensures Lookup(pairs, key) == Some(pairs[i].1)
    decreases i
  {
    if i > 0 {
      LookupFirst(pairs[1..], i - 1, key);
    }
  }

  /** Lookup of a key no pair carries finds nothing. */
  lemma {:induction false} LookupMissing(pairs: seq<(string, string)>, key: string)
    requires forall j :: 0 <= j < |pairs| ==> pairs[j].0 != key
    ensures Lookup(pairs, key) == None
    decreases |pairs|
  {
    if pairs != [] {
      LookupMissing(pairs[1..], key);
    }
  }

  /**
   * A report row has exactly the six header keys, in header order, and each
   * key looks up its own field.
   */
  lemma ColumnsExact(row: ReportRow)
    ensures |Columns(row)| == |Header| == 6
    ensures forall i :: 0 <= i < 6 ==> Columns(row)[i].0 == Header[i]
    ensures forall i, j :: 0 <= i < j < 6 ==> Header[i] != Header[j]
    ensures Lookup(Columns(row), "Patient ID") == Some(row.patientId)
    ensures Lookup(Columns(row), "Condition") == Some(row.condition)
    ensures Lookup(Columns(row), "Risk Level") == Some(row.risk)
    ensures Lookup(Columns(row), "Initial Plan") == Some(row.initialPlan)
    ensures Lookup(Columns(row), "Adapted Plan") == Some(row.adaptedPlan)
    ensures Lookup(Columns(row), "Final Plan") == Some(row.finalPlan)
  {
    var c := Columns(row);
    LookupFirst(c, 0, "Patient ID");
    LookupFirst(c, 1, "Condition");
    LookupFirst(c, 2, "Risk Level");
    LookupFirst(c, 3, "Initial Plan");
    LookupFirst(c, 4, "Adapted Plan");
    LookupFirst(c, 5, "Final Plan");
  }

  /** A key outside the header is not a key of any report row. */
  lemma ColumnsOnlyHeader(row: ReportRow, key: string)
    requires key !in Header
    ensures Lookup(Columns(row), key) == None
  {
    LookupMissing(Columns(row), key);
  }

  /** The row appended for a record whose output has no "error" key. */
  function MakeRow(record: Record, output: Output): ReportRow {
    ReportRow(
      Get(record, "id"), Get(record, "condition"),
      Get(output, "risk"), Get(output, "initial_plan"),
      Get(output, "adapted_plan"), Get(output, "final_plan"))
  }

  /** The text passed to `st.warning` for a skipped record. */
  function WarningText(output: Output): string
    requires IsError(output)
  {
    "\U{274C} Error processing row: " + output[ErrorKey]
  }

  /** The dictionaries the plan client returns, one per call outcome. */
  function Outputs(outcomes: seq<CallOutcome>): seq<Output> {
    seq(|outcomes|, i requires 0 <= i < |outcomes| => Normalise(outcomes[i]))
  }

  /** The report table: the rows of the records whose outputs are not errors, in order. */
  function Report(records: seq<Record>, outputs: seq<Output>): seq<ReportRow>
    requires |records| == |outputs|
    decreases |records|
  {
    if |records| == 0 then []
    else
      var n := |records| - 1;
      Report(records[..n], outputs[..n])
      + (if IsError(outputs[n]) then [] else [MakeRow(records[n], outputs[n])])
  }

  /** The warnings issued, one per error output, in order. */
  function Warnings(outputs: seq<Output>): seq<string>
    decreases |outputs|
  {
    if |outputs| == 0 then []
    else
      var n := |outputs| - 1;
      Warnings(outputs[..n]) + (if IsError(outputs[n]) then [WarningText(outputs[n])] else [])
  }

  /** The ascending positions of the error outputs (`failed`) or of the others (`!failed`). */
  function Positions(outputs: seq<Output>, failed: bool): seq<nat>
    decreases |outputs|
  {
    if |outputs| == 0 then []
    else
      var n := |outputs| - 1;
      Positions(outputs[..n], failed) + (if IsError(outputs[n]) == failed then [n] else [])
  }

  /** The loop of the upload handler, over one call outcome per record. */
  method ProcessBatch(records: seq<Record>, outcomes: seq<CallOutcome>)
    returns (results: seq<ReportRow>, warnings: seq<string>)
    requires |records| == |outcomes|
    ensures results == Report(records, Outputs(outcomes))
    ensures warnings == Warnings(Outputs(outcomes))
  {
    ghost var outputs := Outputs(outcomes);
    results, warnings := [], [];
    for i := 0 to |records|
      invariant results == Report(records[..i], outputs[..i])
      invariant warnings == Warnings(outputs[..i])
    {
      var output := Normalise(outcomes[i]);
      assert records[..i + 1][..i] == records[..i];
      assert outputs[..i + 1][..i] == outputs[..i];
      assert outputs[..i + 1][i] == output;
      if IsError(output) {
        warnings := warnings + [WarningText(output)];
        continue;
      }
      results := results + [MakeRow(records[i], output)];
    }
    assert records[..|records|] == records;
    assert outputs[..|records|] == outputs;
  }

  /** Every listed position is in range and has the requested kind of output. */
  lemma {:induction false} PositionsSound(outputs: seq<Output>, failed: bool)
    ensures forall k :: 0 <= k < |Positions(outputs, failed)| ==>
      Positions(outputs, failed)[k] < |outputs| && IsError(outputs[Positions(outputs, failed)[k]]) == failed
    decreases |outputs|
  {
    if |outputs| > 0 {
      var n := |outputs| - 1;
      PositionsSound(outputs[..n], failed);
    }
  }

  /** The positions are listed in strictly increasing order, so input order is kept. */
  lemma {:induction false} PositionsIncreasing(outputs: seq<Output>, failed: bool)
    ensures forall k, l :: 0 <= k < l < |Positions(outputs, failed)| ==>
      Positions(outputs, failed)[k] < Positions(outputs, failed)[l]
    decreases |outputs|
  {
    if |outputs| > 0 {
      var n := |outputs| - 1;
      PositionsIncreasing(outputs[..n], failed);
      PositionsSound(outputs[..n], failed);
    }
  }

  /** Every index with the requested kind of output is listed. */
  lemma {:induction false} PositionsComplete(outputs: seq<Output>, failed: bool)
    ensures forall i :: 0 <= i < |outputs| && IsError(outputs[i]) == failed ==> i in Positions(outputs, failed)
    decreases |outputs|
  {
    if |outputs| > 0 {
      var n := |outputs| - 1;
      PositionsComplete(outputs[..n], failed);
      forall i | 0 <= i < n && IsError(outputs[i]) == failed
        ensures i in Positions(outputs, failed)
      {
        assert outputs[..n][i] == outputs[i];
      }
    }
  }

  /** Every record is either a success or a failure, never both. */
  lemma {:induction false} PositionsPartition(outputs: seq<Output>)
    ensures |Positions(outputs, false)| + |Positions(outputs, true)| == |outputs|
    decreases |outputs|
  {
    if |outputs| > 0 {
      PositionsPartition(outputs[..|outputs| - 1]);
    }
  }

  /** Row k of the report is the row of the k-th successful record. */
  lemma {:induction false} ReportAt(records: seq<Record>, outputs: seq<Output>)
    requires |records| == |outputs|
    ensures |Report(records, outputs)| == |Positions(outputs, false)|
    ensures forall k :: 0 <= k < |Report(records, outputs)| ==>
      Positions(outputs, false)[k] < |records| &&
      Report(records, outputs)[k] == MakeRow(records[Positions(outputs, false)[k]], outputs[Positions(outputs, false)[k]])
    decreases |records|
  {
    PositionsSound(outputs, false);
    if |records| > 0 {
      var n := |records| - 1;
      ReportAt(records[..n], outputs[..n]);
    }
  }

  /** Warning k is the warning of the k-th failed record. */
  lemma {:induction false} WarningsAt(outputs: seq<Output>)
    ensures |Warnings(outputs)| == |Positions(outputs, true)|
    ensures forall k :: 0 <= k < |Warnings(outputs)| ==>
      Positions(outputs, true)[k] < |outputs| && IsError(outputs[Positions(outputs, true)[k]]) &&
      Warnings(outputs)[k] == WarningText(outputs[Positions(outputs, true)[k]])
    decreases |outputs|
  {
    PositionsSound(outputs, true);
    if |outputs| > 0 {
      WarningsAt(outputs[..|outputs| - 1]);
    }
  }

  /** Each record is accounted for exactly once: as one row or as one warning. */
  lemma EachRecordOnce(records: seq<Record>, outputs: seq<Output>)
    requires |records| == |outputs|
    ensures |Report(records, outputs)| + |Warnings(outputs)| == |records|
  {
    ReportAt(records, outputs);
    WarningsAt(outputs);
    PositionsPartition(outputs);
  }

  /**
   * Default substitution: in row k, the identifier and condition come from the
   * record and the four plan fields from the output, "N/A" where the key is absent.
   */
  lemma ReportFields(records: seq<Record>, outputs: seq<Output>, k: nat)
    requires |records| == |outputs|
    requires k < |Positions(outputs, false)|
    ensures k < |Report(records, outputs)| && Positions(outputs, false)[k] < |records|
    ensures var p := Positions(outputs, false)[k];
      var row, rec, out := Report(records, outputs)[k], records[p], outputs[p];
      && !IsError(out)
      && row.patientId == (if "id" in rec then rec["id"] else "N/A")
      && row.condition == (if "condition" in rec then rec["condition"] else "N/A")
      && row.risk == (if "risk" in out then out["risk"] else "N/A")
      && row.initialPlan == (if "initial_plan" in out then out["initial_plan"] else "N/A")
      && row.adaptedPlan == (if "adapted_plan" in out then out["adapted_plan"] else "N/A")
      && row.finalPlan == (if "final_plan" in out then out["final_plan"] else "N/A")
  {
    ReportAt(records, outputs);
    PositionsSound(outputs, false);
  }

  /** One more record adds its row to the end of the report, or nothing if its output is an error. */
  lemma ReportSnoc(records: seq<Record>, outputs: seq<Output>, r: Record, o: Output)
    requires |records| == |outputs|
    ensures Report(records + [r], outputs + [o])
      == Report(records, outputs) + (if IsError(o) then [] else [MakeRow(r, o)])
  {
    assert (records + [r])[..|records|] == records;
    assert (outputs + [o])[..|outputs|] == outputs;
  }

  /** A batch split in two reports the rows of the first part, then those of the second. */
  lemma {:induction false} ReportAppend(r1: seq<Record>, o1: seq<Output>, r2: seq<Record>, o2: seq<Output>)
    requires |r1| == |o1| && |r2| == |o2|
    ensures Report(r1 + r2, o1 + o2) == Report(r1, o1) + Report(r2, o2)
    decreases |r2|
  {
    if |r2| > 0 {
      var n := |r2| - 1;
      ReportAppend(r1, o1, r2[..n], o2[..n]);
      assert r2 == r2[..n] + [r2[n]] && o2 == o2[..n] + [o2[n]];
      assert r1 + r2 == (r1 + r2[..n]) + [r2[n]];
      assert o1 + o2 == (o1 + o2[..n]) + [o2[n]];
      ReportSnoc(r1 + r2[..n], o1 + o2[..n], r2[n], o2[n]);
      ReportSnoc(r2[..n], o2[..n], r2[n], o2[n]);
      var a, b := Report(r1, o1), Report(r2[..n], o2[..n]);
      var last := if IsError(o2[n]) then [] else [MakeRow(r2[n], o2[n])];
      assert (a + b) + last == a + (b + last);
    } else {
      assert r1 + r2 == r1 && o1 + o2 == o1;
    }
  }

  lemma {:induction false} WarningsAppend(o1: seq<Output>, o2: seq<Output>)
    ensures Warnings(o1 + o2) == Warnings(o1) + Warnings(o2)
    decreases |o2|
  {
    if |o2| > 0 {
      var n := |o2| - 1;
      WarningsAppend(o1, o2[..n]);
      assert (o1 + o2)[..|o1| + n] == o1 + o2[..n];
    } else {
      assert o1 + o2 == o1;
    }
  }

  /**
   * Failure isolation: a record whose output is an error adds no row, and the
   * records after it are reported exactly as without it.
   */
  lemma FailureIsolated(r1: seq<Record>, o1: seq<Output>, r: Record, o: Output, r2: seq<Record>, o2: seq<Output>)
    requires |r1| == |o1| && |r2| == |o2|
    requires IsError(o)
    ensures Report(r1 + [r] + r2, o1 + [o] + o2) == Report(r1, o1) + Report(r2, o2)
  {
    var rs, os := r1 + [r], o1 + [o];
    assert rs[..|r1|] == r1 && os[..|o1|] == o1;
    assert Report(rs, os) == Report(r1, o1);
    ReportAppend(rs, os, r2, o2);
  }

  /** The same failed record adds exactly its own warning between the others. */
  lemma FailureWarned(o1: seq<Output>, o: Output, o2: seq<Output>)
    requires IsError(o)
    ensures Warnings(o1 + [o] + o2) == Warnings(o1) + [WarningText(o)] + Warnings(o2)
  {
    assert Warnings([o]) == [WarningText(o)] by {
      assert [o][..0] == [];
    }
    WarningsAppend(o1, [o]);
    WarningsAppend(o1 + [o], o2);
  }

  /** When every call fails the table is empty and there are as many warnings as records. */
  lemma {:induction false} AllFailed(records: seq<Record>, outputs: seq<Output>)
    requires |records| == |outputs|
    requires forall i :: 0 <= i < |outputs| ==> IsError(outputs[i])
    ensures Report(records, outputs) == []
    ensures |Warnings(outputs)| == |outputs|
    decreases |records|
  {
    if |records| > 0 {
      var n := |records| - 1;
      AllFailed(records[..n], outputs[..n]);
    }
  }

  /**
   * Three records where the second call times out: the table holds the rows
   * of the first and the third, in that order, and one warning names the timeout.
   */
  lemma TimeoutScenario(r1: Record, r2: Record, r3: Record, b1: Output, b3: Output, timeout: string)
    requires ErrorKey !in b1 && ErrorKey !in b3
    ensures var outs := Outputs([Http(200, b1), Raised(timeout), Http(200, b3)]);
      && Report([r1, r2, r3], outs) == [MakeRow(r1, b1), MakeRow(r3, b3)]
      && Warnings(outs) == ["\U{274C} Error processing row: " + timeout]
  {
    var outs := Outputs([Http(200, b1), Raised(timeout), Http(200, b3)]);
    var e := map[ErrorKey := timeout];
    assert outs == [b1, e, b3];
    assert [r1, r2, r3][..2] == [r1, r2] && [r1, r2][..1] == [r1] && [r1][..0] == [];
    assert outs[..2] == [b1, e] && [b1, e][..1] == [b1] && [b1][..0] == [];
    assert Report([r1], [b1]) == [MakeRow(r1, b1)];
    assert Report([r1, r2], [b1, e]) == [MakeRow(r1, b1)];
    assert Warnings([b1]) == [];
    assert Warnings([b1, e]) == [WarningText(e)];
  }

  /**
   * A record with neither `id` nor `condition`, whose call answers with only a
   * risk level, gives a row that is "N/A" everywhere but the risk level.
   */
  lemma MissingFieldsScenario(rec: Record, risk: string)
    requires "id" !in rec && "condition" !in rec
    ensures Report([rec], Outputs([Http(200, map["risk" := risk])]))
      == [ReportRow("N/A", "N/A", risk, "N/A", "N/A", "N/A")]
  {
    var outs := Outputs([Http(200, map["risk" := risk])]);
    assert outs == [map["risk" := risk]];
    assert [rec][..0] == [] && outs[..0] == [];
  }
}
