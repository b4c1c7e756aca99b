/**
 * The per-thread timing log (concur/TimeMeasurements.java): a process-wide
 * instance holding a row counter and the list of formatted CSV rows
 * "row_id,job_id,subject_id,number_admissions,time_milliseconds".
 */
module TimeMeasurements {
  import opened Wrappers
  import opened Text

  datatype Row = Row(rowId: int, jobId: int, subjectId: string, admissions: int, millis: int)

  /** The text of one row: `String.format("%d,%d,%s,%d,%d", ...)`. */
  function FormatRow(r: Row): (s: string)
    ensures r.rowId >= 0 ==> FirstField(s) == NatToString(r.rowId)
  {
    var rest := IntToString(r.jobId) + "," + r.subjectId + "," + IntToString(r.admissions) + "," + IntToString(r.millis);
    if r.rowId >= 0 then
      NatToStringHasNo(r.rowId, ',');
      FirstFieldOf(NatToString(r.rowId), rest);
      IntToString(r.rowId) + "," + rest
    else
      IntToString(r.rowId) + "," + rest
  }

  /** The text of a row up to its first comma. */
  function FirstField(s: string): string
  {
    if s == [] || s[0] == ',' then [] else [s[0]] + FirstField(s[1..])
  }

  lemma {:induction false} FirstFieldOf(a: string, b: string)
    requires NoChar(a, ',')
    ensures FirstField(a + "," + b) == a
  {
    if a != [] {
      assert (a + "," + b)[1..] == a[1..] + "," + b;
      FirstFieldOf(a[1..], b);
    }
  }

  class Timings {
    var rowId: int
    var timingTexts: seq<string>
    ghost var rows: seq<Row>

    /** Row i carries id i + 1 and is stored formatted; the counter equals the number of rows. */
    ghost predicate Valid()
      reads this
    {
      rowId == |rows| == |timingTexts|
      && forall i :: 0 <= i < |rows| ==> rows[i].rowId == i + 1 && timingTexts[i] == FormatRow(rows[i])
    }

    constructor ()
      ensures Valid() && rows == []
    {
      rowId := 0;
      timingTexts := [];
      rows := [];
    }

    /** Appends one row; its id is the next counter value and its job column is jobNumber + 1. */
    method AddTiming(jobNumber: int, patientSubjectId: string, numberAdmissions: int, timeMillis: int)
      requires Valid()
      modifies this
      ensures Valid()
      ensures rows == old(rows) + [Row(|old(rows)| + 1, jobNumber + 1, patientSubjectId, numberAdmissions, timeMillis)]
    {
      rowId := rowId + 1;
      var row := Row(rowId, jobNumber + 1, patientSubjectId, numberAdmissions, timeMillis);
      timingTexts := timingTexts + [FormatRow(row)];
      rows := rows + [row];
    }
  }

  /** The holder of the single instance. */
  class Registry {
    var instance: Option<Timings>

    ghost predicate Valid()
      reads this, if instance.Some? then {instance.value} else {}
    {
      instance.Some? ==> instance.value.Valid()
    }

    constructor ()
      ensures Valid() && instance == None
    {
      instance := None;
    }

    /** Creates the instance on the first call and returns that same object on every later one. */
    method GetInstance() returns (t: Timings)
      requires Valid()
      modifies this
      ensures Valid() && instance == Some(t) && t.Valid()
      ensures old(instance).Some? ==> t == old(instance).value
      ensures old(instance).None? ==> fresh(t) && t.rows == []
    {
      if instance.None? {
        var created := new Timings();
        instance := Some(created);
      }
      t := instance.value;
    }
  }

  /** Distinct rows of a valid log have distinct texts. */
  lemma RowTextsDistinct(rows: seq<Row>, texts: seq<string>, i: nat, j: nat)
    requires |rows| == |texts| && forall k :: 0 <= k < |rows| ==> rows[k].rowId == k + 1 && texts[k] == FormatRow(rows[k])
    requires i < j < |rows|
    ensures texts[i] != texts[j]
  {
    if texts[i] == texts[j] {
      NatToStringInjective(rows[i].rowId, rows[j].rowId);
    }
  }
}
