/**
 * `ConnectDB`: the parts of the database access that turn result rows into
 * records. The patient query returns one row per transfer, ordered by
 * admission; the rows are folded into the patient, its admissions and their
 * numbered transfers. Diagnoses, chart events and lab events are read per
 * admission, the events skipping rows without a value. Result sets are
 * sequences of rows; JDBC itself is not modelled.
 */
module ConnectDB {
  import opened Wrappers
  import opened Text
  import opened Records
  import M = MChartevent
  import LabeventManager
  import DiagnoseManager
  import AdmissionManager
  import ICD9MapperLookup

  /** The `keep` rows of `s`, in order. */
  function Filter<T(!new)>(s: seq<T>, keep: T -> bool): (r: seq<T>)
    ensures |r| <= |s|
    ensures forall k :: 0 <= k < |r| ==> keep(r[k])
  {
    if s == [] then []
    else Filter(s[..|s| - 1], keep) + if keep(s[|s| - 1]) then [s[|s| - 1]] else []
  }

  /** Filter keeps exactly the `keep` elements. */
  lemma {:induction false} FilterMembers<T(!new)>(s: seq<T>, keep: T -> bool)
    ensures forall x :: x in Filter(s, keep) <==> x in s && keep(x)
  {
    if s != [] {
      FilterMembers(s[..|s| - 1], keep);
      assert s == s[..|s| - 1] + [s[|s| - 1]];
    }
  }

  lemma FilterExtend<T(!new)>(s: seq<T>, i: nat, keep: T -> bool)
    requires i < |s|
    ensures Filter(s[..i + 1], keep) == Filter(s[..i], keep) + if keep(s[i]) then [s[i]] else []
  {
    assert s[..i + 1][..i] == s[..i];
  }

  // ---------------------------------------------------------------------------------------------
  // Transfers

  /** The transfer columns of a row. */
  datatype TransferRow = TransferRow(transferId: Option<string>, eventType: Option<string>, careUnit: Option<string>,
                                     intime: int, outtime: int)

  /** The k-th transfer of an admission (counted from 1) gets the id "<transfer_id>-<k>". */
  function TransferOf(t: TransferRow, k: nat): (r: TransferRecord)
    ensures r.eventType == t.eventType && r.careUnit == t.careUnit && r.intime == t.intime && r.outtime == t.outtime
  {
    TransferRecord(JavaString(t.transferId) + "-" + NatToString(k), t.eventType, t.careUnit, t.intime, t.outtime)
  }

  /** Transfers numbered 1, 2, … in row order. */
  function Numbered(ts: seq<TransferRow>): (r: seq<TransferRecord>)
    ensures |r| == |ts|
  {
    seq(|ts|, k requires 0 <= k < |ts| => TransferOf(ts[k], k + 1))
  }

  /** The number after the last dash of "<a>-<m>" can be read back. */
  lemma DashNumberInjective(a: string, m: nat, b: string, n: nat)
    requires a + "-" + NatToString(m) == b + "-" + NatToString(n)
    ensures m == n
  {
    NatToStringHasNo(m, '-');
    NatToStringHasNo(n, '-');
    assert a + "-" + NatToString(m) == a + ['-'] + NatToString(m);
    assert b + "-" + NatToString(n) == b + ['-'] + NatToString(n);
    SplitAtLast(a, NatToString(m), b, NatToString(n), '-');
    NatToStringInjective(m, n);
  }

  /** Two transfers with different positions get different ids, whatever their own transfer ids are. */
  lemma TransferIdsDistinct(ts: seq<TransferRow>, j: nat, k: nat)
    requires j < k < |ts|
    ensures Numbered(ts)[j].transferId != Numbered(ts)[k].transferId
  {
    var x, y := TransferOf(ts[j], j + 1), TransferOf(ts[k], k + 1);
    assert Numbered(ts)[j] == x && Numbered(ts)[k] == y;
    if x.transferId == y.transferId {
      DashNumberInjective(JavaString(ts[j].transferId), j + 1, JavaString(ts[k].transferId), k + 1);
    }
  }

  /** `getTransfers`: the transfer rows of one admission, numbered from 1. */
  method GetTransfers(rows: seq<TransferRow>) returns (transfers: seq<TransferRecord>)
    ensures transfers == Numbered(rows)
  {
    transfers := [];
    var index := 0;
    while index < |rows|
      invariant 0 <= index <= |rows|
      invariant transfers == Numbered(rows[..index])
    {
      assert Numbered(rows[..index + 1]) == Numbered(rows[..index]) + [TransferOf(rows[index], index + 1)];
      index := index + 1;
      transfers := transfers + [TransferOf(rows[index - 1], index)];
    }
    assert rows[..index] == rows;
  }

  // ---------------------------------------------------------------------------------------------
  // Diagnoses

  /** One row of the diagnoses query. */
  datatype DiagnoseRow = DiagnoseRow(seqNumber: nat, icdCode: string, icdVersion: string, longTitle: Option<string>)

  /** A diagnosis as `getDiagnoses` fills it: the ICD code is overwritten with the admission id, encId stays null. */
  function DiagnoseAsWritten(patId: Option<string>, admissionId: string, row: DiagnoseRow): (d: Diagnose)
    ensures d.icdCode == admissionId && d.encId.None?
    ensures d.icdVersion == row.icdVersion && d.longTitle == row.longTitle
    ensures d.seqNumber == row.seqNumber && d.patId == patId
  {
    Diagnose(admissionId, row.icdVersion, row.longTitle, row.seqNumber, patId, None)
  }

  /** A diagnosis as evidently intended: the row's ICD code, and the admission id as encounter id. */
  function DiagnoseOf(patId: Option<string>, admissionId: string, row: DiagnoseRow): (d: Diagnose)
    ensures d.icdCode == row.icdCode && d.icdVersion == row.icdVersion && d.longTitle == row.longTitle
    ensures d.seqNumber == row.seqNumber && d.patId == patId && d.encId == Some(admissionId)
  {
    Diagnose(row.icdCode, row.icdVersion, row.longTitle, row.seqNumber, patId, Some(admissionId))
  }

  /** The diagnoses of an admission's rows, as written or as intended. */
  function DiagnosesOf(patId: Option<string>, admissionId: string, rows: seq<DiagnoseRow>, asWritten: bool): (r: seq<Diagnose>)
    ensures |r| == |rows|
  {
    seq(|rows|, k requires 0 <= k < |rows| =>
      if asWritten then DiagnoseAsWritten(patId, admissionId, rows[k]) else DiagnoseOf(patId, admissionId, rows[k]))
  }

  /** `getDiagnoses` as written. */
  method GetDiagnosesAsWritten(patId: Option<string>, admissionId: string, rows: seq<DiagnoseRow>)
    returns (diagnoses: seq<Diagnose>)
    ensures |diagnoses| == |rows|
    ensures forall k :: 0 <= k < |rows| ==> diagnoses[k] == DiagnoseAsWritten(patId, admissionId, rows[k])
    ensures diagnoses == DiagnosesOf(patId, admissionId, rows, true)
  {
    diagnoses := [];
    for i := 0 to |rows|
      invariant |diagnoses| == i
      invariant forall k :: 0 <= k < i ==> diagnoses[k] == DiagnoseAsWritten(patId, admissionId, rows[k])
    {
      diagnoses := diagnoses + [DiagnoseAsWritten(patId, admissionId, rows[i])];
    }
  }

  /** `getDiagnoses` with the encounter id set; the patient fold uses this one. */
  method GetDiagnoses(patId: Option<string>, admissionId: string, rows: seq<DiagnoseRow>)
    returns (diagnoses: seq<Diagnose>)
    ensures diagnoses == DiagnosesOf(patId, admissionId, rows, false)
  {
    diagnoses := [];
    for i := 0 to |rows|
      invariant diagnoses == DiagnosesOf(patId, admissionId, rows[..i], false)
    {
      assert DiagnosesOf(patId, admissionId, rows[..i + 1], false)
          == DiagnosesOf(patId, admissionId, rows[..i], false) + [DiagnoseOf(patId, admissionId, rows[i])];
      diagnoses := diagnoses + [DiagnoseOf(patId, admissionId, rows[i])];
    }
    assert rows[..|rows|] == rows;
  }

  /**
   * As written, every Condition is identified as "null_<seq>": two admissions'
   * diagnoses with the same sequence number share an identifier, and the
   * coding is computed from the admission id instead of the ICD code.
   */
  lemma AsWrittenIdentifierIgnoresAdmission(patId: Option<string>, admissionId: string, row: DiagnoseRow,
                                            version: ModelVersion, uuid: string,
                                            snomed: ICD9MapperLookup.Answer, icd10gm: ICD9MapperLookup.Answer)
    requires DiagnoseManager.CreateCondition(DiagnoseAsWritten(patId, admissionId, row), version, uuid, snomed, icd10gm).Some?
    ensures DiagnoseManager.CreateCondition(DiagnoseAsWritten(patId, admissionId, row), version, uuid, snomed, icd10gm)
              .value.identifierValue == Joined("null", row.seqNumber)
    ensures DiagnoseAsWritten(patId, admissionId, row).icdCode == admissionId
  {
    assert JavaString(None) == "null";
  }

  /**
   * With the encounter id set, a Condition's identifier is the reference the
   * admission's Encounter lists, and diagnoses of different admissions never
   * share an identifier.
   */
  lemma ConditionIdentifierNamesAdmission(patId: Option<string>, admissionId: string, row: DiagnoseRow,
                                          version: ModelVersion, uuid: string,
                                          snomed: ICD9MapperLookup.Answer, icd10gm: ICD9MapperLookup.Answer,
                                          otherAdmission: string, otherRow: DiagnoseRow)
    requires DiagnoseManager.CreateCondition(DiagnoseOf(patId, admissionId, row), version, uuid, snomed, icd10gm).Some?
    ensures DiagnoseManager.CreateCondition(DiagnoseOf(patId, admissionId, row), version, uuid, snomed, icd10gm)
              .value.identifierValue == AdmissionManager.ConditionRef(admissionId, DiagnoseOf(patId, admissionId, row))
    ensures otherAdmission != admissionId ==>
      AdmissionManager.ConditionRef(admissionId, DiagnoseOf(patId, admissionId, row))
        != AdmissionManager.ConditionRef(otherAdmission, DiagnoseOf(patId, otherAdmission, otherRow))
  {
    var d := DiagnoseOf(patId, admissionId, row);
    var e := DiagnoseOf(patId, otherAdmission, otherRow);
    DiagnoseManager.IdentifierMatchesEncounter(d, admissionId, version, uuid, snomed, icd10gm);
    if Joined(admissionId, d.seqNumber) == Joined(otherAdmission, e.seqNumber) {
      JoinedInjective(admissionId, d.seqNumber, otherAdmission, e.seqNumber);
    }
  }

  // ---------------------------------------------------------------------------------------------
  // Chart and lab events

  /** One row of the chart-events query. */
  datatype ChartRow = ChartRow(recordDate: Option<int>, value: Option<string>, valueNum: Option<real>,
                               unit: Option<string>, itemLabel: Option<string>)

  predicate HasNumber(r: ChartRow)
  {
    r.valueNum.Some?
  }

  /** The chart event a row becomes: its columns, the numeric value and the patient and admission ids. */
  predicate ChartEventOf(e: M.MChartevent, r: ChartRow, patId: string, admissionId: string)
    reads e
  {
    r.valueNum.Some? && e.numValue == r.valueNum.value && e.hasNumVal &&
    e.recordDate == r.recordDate && e.measurementType == r.itemLabel && e.value == r.value && e.unit == r.unit &&
    e.storeDate.None? && e.patId == Some(patId) && e.encId == Some(admissionId)
  }

  /**
   * `getChartEvents`: a fresh event per row with a numeric value, in row
   * order; rows without one are skipped, so every event is numeric.
   */
  method GetChartEvents(rows: seq<ChartRow>, patId: string, admissionId: string) returns (events: seq<M.MChartevent>)
    ensures |events| == |Filter(rows, HasNumber)|
    ensures forall k :: 0 <= k < |events| ==>
      fresh(events[k]) && ChartEventOf(events[k], Filter(rows, HasNumber)[k], patId, admissionId)
  {
    events := [];
    for i := 0 to |rows|
      invariant |events| == |Filter(rows[..i], HasNumber)|
      invariant forall k :: 0 <= k < |events| ==>
        fresh(events[k]) && ChartEventOf(events[k], Filter(rows[..i], HasNumber)[k], patId, admissionId)
    {
      var row := rows[i];
      FilterExtend(rows, i, HasNumber);
      if row.valueNum.Some? {
        var event := NewChartEvent(row, patId, admissionId);
        events := events + [event];
      }
    }
    assert rows[..|rows|] == rows;
  }

  /** The body of the loop for a row with a number: a new event with the row's columns. */
  method NewChartEvent(row: ChartRow, patId: string, admissionId: string) returns (event: M.MChartevent)
    requires row.valueNum.Some?
    ensures fresh(event) && ChartEventOf(event, row, patId, admissionId)
  {
    event := new M.MChartevent();
    event.recordDate := row.recordDate;
    event.measurementType := row.itemLabel;
    event.value := row.value;
    event.SetNumValue(row.valueNum.value);
    event.unit := row.unit;
    event.patId := Some(patId);
    event.encId := Some(admissionId);
  }

  /** One row of the lab-events query. */
  datatype LabRow = LabRow(acquisitionDate: Option<int>, value: Option<string>, valueNum: Option<real>,
                           unit: Option<string>, flag: Option<string>, itemLabel: Option<string>,
                           loinc: Option<string>, labeventId: int, comments: Option<string>)

  predicate HasValue(r: LabRow)
  {
    r.value.Some?
  }

  /** The lab event of a row, with the abnormal flag as decided by the caller. */
  function LabeventWith(r: LabRow, patId: string, admissionId: string, abnormal: bool): (e: LabeventManager.Labevent)
    ensures e.value == r.value && e.unit == r.unit && e.abnormal == abnormal
    ensures e.hasNumVal <==> r.valueNum.Some?
    ensures e.patId == Some(patId) && e.encId == Some(admissionId)
  {
    LabeventManager.Labevent(r.labeventId, r.acquisitionDate, r.itemLabel, r.value, r.unit,
                             if r.valueNum.Some? then r.valueNum.value else 0.0, r.valueNum.Some?,
                             abnormal, r.loinc, r.comments, Some(patId), Some(admissionId))
  }

  /**
   * The lab event as written: the flag is compared with the literal by
   * reference, and a string read from the database is never that literal,
   * so no event is marked abnormal.
   */
  function LabeventAsWritten(r: LabRow, patId: string, admissionId: string): (e: LabeventManager.Labevent)
    ensures !e.abnormal
    ensures e.value == r.value && e.unit == r.unit && (e.hasNumVal <==> r.valueNum.Some?)
    ensures e.patId == Some(patId) && e.encId == Some(admissionId)
  {
    LabeventWith(r, patId, admissionId, false)
  }

  /** The lab event with the flag compared by value. */
  function LabeventOf(r: LabRow, patId: string, admissionId: string): (e: LabeventManager.Labevent)
    ensures e.abnormal <==> r.flag == Some("abnormal")
  {
    LabeventWith(r, patId, admissionId, r.flag == Some("abnormal"))
  }

  /** As written, an event flagged "abnormal" gets no interpretation; compared by value it gets "A". */
  lemma AbnormalFlagLost(r: LabRow, patId: string, admissionId: string, version: ModelVersion)
    requires r.flag == Some("abnormal")
    ensures LabeventManager.CreateResource(LabeventAsWritten(r, patId, admissionId), version).interpretation == []
    ensures LabeventManager.CreateResource(LabeventOf(r, patId, admissionId), version).interpretation
         == [LabeventManager.Abnormal]
  {
  }

  /** The lab event of one row, with the flag compared as written (by reference) or by value. */
  function LabeventFor(r: LabRow, patId: string, admissionId: string, asWritten: bool): (e: LabeventManager.Labevent)
    ensures e.abnormal <==> !asWritten && r.flag == Some("abnormal")
    ensures e == LabeventWith(r, patId, admissionId, e.abnormal)
  {
    if asWritten then LabeventAsWritten(r, patId, admissionId) else LabeventOf(r, patId, admissionId)
  }

  function LabeventsOf(rows: seq<LabRow>, patId: string, admissionId: string, asWritten: bool)
    : (r: seq<LabeventManager.Labevent>)
    ensures |r| == |rows|
  {
    seq(|rows|, k requires 0 <= k < |rows| => LabeventFor(rows[k], patId, admissionId, asWritten))
  }

  /**
   * `getLabEvents`: one event per row with a value, in row order; rows
   * without a value are skipped. As written, no event is abnormal.
   */
  method GetLabEvents(rows: seq<LabRow>, patId: string, admissionId: string, asWritten: bool)
    returns (events: seq<LabeventManager.Labevent>)
    ensures events == LabeventsOf(Filter(rows, HasValue), patId, admissionId, asWritten)
    ensures forall k :: 0 <= k < |events| ==> events[k].value.Some?
    ensures asWritten ==> forall k :: 0 <= k < |events| ==> !events[k].abnormal
  {
    events := [];
    for i := 0 to |rows|
      invariant events == LabeventsOf(Filter(rows[..i], HasValue), patId, admissionId, asWritten)
    {
      FilterExtend(rows, i, HasValue);
      if rows[i].value.Some? {
        assert LabeventsOf(Filter(rows[..i + 1], HasValue), patId, admissionId, asWritten)
            == events + [LabeventFor(rows[i], patId, admissionId, asWritten)];
        events := events + [LabeventFor(rows[i], patId, admissionId, asWritten)];
      } else {
        assert Filter(rows[..i + 1], HasValue) == Filter(rows[..i], HasValue);
      }
    }
    assert rows[..|rows|] == rows;
  }

  // ---------------------------------------------------------------------------------------------
  // The patient fold

  /** One row of the patient view: patient columns, admission columns (null without admission), transfer columns. */
  datatype PatientRow = PatientRow(
    subjectId: Option<string>, gender: Option<string>, deathDate: Option<int>,
    hadmId: Option<string>, admitTime: int, dischTime: int, admissionType: Option<string>,
    dischargeLocation: Option<string>, maritalStatus: Option<string>, language: Option<string>,
    admissionLocation: Option<string>, transfer: TransferRow)

  /** MAdmission as the fold fills it. */
  datatype Admission = Admission(
    admissionId: string, admissionTime: int, dischargeTime: int, admissionType: Option<string>,
    dischargeLocation: Option<string>, maritalStatus: Option<string>, language: Option<string>,
    admissionLocation: Option<string>, diagnoses: seq<Diagnose>, transfers: seq<TransferRecord>)

  /** MPatient as the fold fills it. */
  datatype Patient = Patient(subjectId: Option<string>, gender: Option<string>, deathDate: Option<int>,
                             admissions: seq<Admission>)

  predicate IsAdmitted(r: PatientRow)
  {
    r.hadmId.Some?
  }

  /**
   * The maximal runs of consecutive rows with the same admission id: each
   * run is one admission, however the ids repeat further on.
   */
  function Runs(rows: seq<PatientRow>): (r: seq<seq<PatientRow>>)
    ensures |r| == 0 <==> rows == []
    ensures forall k :: 0 <= k < |r| ==> r[k] != []
  {
    if rows == [] then []
    else
      var init := Runs(rows[..|rows| - 1]);
      var row := rows[|rows| - 1];
      if init != [] && init[|init| - 1][0].hadmId == row.hadmId then
        init[..|init| - 1] + [init[|init| - 1] + [row]]
      else
        init + [[row]]
  }

  /** One more row either extends the last run or starts a new one. */
  lemma RunsSnoc(s: seq<PatientRow>, row: PatientRow)
    ensures var init := Runs(s);
      Runs(s + [row]) == if init != [] && init[|init| - 1][0].hadmId == row.hadmId
                         then init[..|init| - 1] + [init[|init| - 1] + [row]]
                         else init + [[row]]
  {
    assert (s + [row])[..|s|] == s;
  }

  /** Within each run all rows share the admission id of its first row. */
  ghost predicate Uniform(r: seq<seq<PatientRow>>)
  {
    forall k, j :: 0 <= k < |r| && 0 <= j < |r[k]| ==> r[k][j].hadmId == r[k][0].hadmId
  }

  lemma UniformExtend(init: seq<seq<PatientRow>>, row: PatientRow)
    requires Uniform(init) && init != [] && init[|init| - 1] != [] && init[|init| - 1][0].hadmId == row.hadmId
    ensures Uniform(init[..|init| - 1] + [init[|init| - 1] + [row]])
  {
    var last: seq<PatientRow> := init[|init| - 1];
    var r: seq<seq<PatientRow>> := init[..|init| - 1] + [last + [row]];
    forall k, j | 0 <= k < |r| && 0 <= j < |r[k]|
      ensures r[k][j].hadmId == r[k][0].hadmId
    {
      if k < |init| - 1 {
        assert r[k] == init[k];
      } else {
        assert r[k] == last + [row];
        if j < |last| {
          assert r[k][j] == last[j];
        }
      }
    }
  }

  lemma UniformNew(init: seq<seq<PatientRow>>, row: PatientRow)
    requires Uniform(init)
    ensures Uniform(init + [[row]])
  {
    var r: seq<seq<PatientRow>> := init + [[row]];
    forall k, j | 0 <= k < |r| && 0 <= j < |r[k]|
      ensures r[k][j].hadmId == r[k][0].hadmId
    {
      if k < |init| {
        assert r[k] == init[k];
      }
    }
  }

  /** Within a run all rows share the admission id. */
  lemma {:induction false} RunsUniform(rows: seq<PatientRow>)
    ensures Uniform(Runs(rows))
  {
    if rows != [] {
      var front := rows[..|rows| - 1];
      var row := rows[|rows| - 1];
      RunsUniform(front);
      assert front + [row] == rows;
      RunsSnoc(front, row);
      var init: seq<seq<PatientRow>> := Runs(front);
      if init != [] && init[|init| - 1][0].hadmId == row.hadmId {
        UniformExtend(init, row);
      } else {
        UniformNew(init, row);
      }
    }
  }

  /** Neighbouring runs have different admission ids. */
  lemma {:induction false} RunsAlternate(rows: seq<PatientRow>)
    ensures var r := Runs(rows);
      forall k :: 0 <= k < |r| - 1 ==> r[k][0].hadmId != r[k + 1][0].hadmId
  {
    if rows != [] {
      var front := rows[..|rows| - 1];
      var row := rows[|rows| - 1];
      RunsAlternate(front);
      assert front + [row] == rows;
      RunsSnoc(front, row);
      var init: seq<seq<PatientRow>> := Runs(front);
      var r: seq<seq<PatientRow>> := Runs(rows);
      forall k | 0 <= k < |r| - 1
        ensures r[k][0].hadmId != r[k + 1][0].hadmId
      {
        assert r[k] == init[k];
        if k + 1 < |init| {
          assert r[k + 1][0] == init[k + 1][0];
        }
      }
    }
  }

  /** Within a run all rows share the admission id; neighbouring runs have different ones. */
  lemma RunsAreAdmissions(rows: seq<PatientRow>)
    ensures var r := Runs(rows);
      (forall k, j :: 0 <= k < |r| && 0 <= j < |r[k]| ==> r[k][j].hadmId == r[k][0].hadmId) &&
      (forall k :: 0 <= k < |r| - 1 ==> r[k][0].hadmId != r[k + 1][0].hadmId)
  {
    RunsUniform(rows);
    RunsAlternate(rows);
  }

  /** The runs of admitted rows all start with an admitted row. */
  lemma {:induction false} RunsOfAdmitted(rows: seq<PatientRow>)
    requires forall k :: 0 <= k < |rows| ==> rows[k].hadmId.Some?
    ensures forall k :: 0 <= k < |Runs(rows)| ==> Runs(rows)[k][0].hadmId.Some?
  {
    if rows != [] {
      var front := rows[..|rows| - 1];
      var row := rows[|rows| - 1];
      RunsOfAdmitted(front);
      assert front + [row] == rows;
      RunsSnoc(front, row);
    }
  }

  function Flatten<T>(runs: seq<seq<T>>): seq<T>
  {
    if runs == [] then [] else Flatten(runs[..|runs| - 1]) + runs[|runs| - 1]
  }

  lemma FlattenAppend<T>(runs: seq<seq<T>>, last: seq<T>)
    ensures Flatten(runs + [last]) == Flatten(runs) + last
  {
    assert (runs + [last])[..|runs|] == runs;
  }

  /** The runs are a partition of the rows: concatenated, they give back the rows in order. */
  lemma {:induction false} RunsFlatten(rows: seq<PatientRow>)
    ensures Flatten(Runs(rows)) == rows
  {
    if rows != [] {
      var front := rows[..|rows| - 1];
      var init: seq<seq<PatientRow>> := Runs(front);
      var row := rows[|rows| - 1];
      RunsFlatten(front);
      assert front + [row] == rows;
      RunsSnoc(front, row);
      if init != [] && init[|init| - 1][0].hadmId == row.hadmId {
        var n := |init|;
        assert init == init[..n - 1] + [init[n - 1]];
        FlattenAppend(init[..n - 1], init[n - 1]);
        FlattenAppend(init[..n - 1], init[n - 1] + [row]);
      } else {
        FlattenAppend(init, [row]);
      }
    }
  }

  /** Rows that all carry the same admission id form one run. */
  lemma {:induction false} SameAdmissionIsOneRun(rows: seq<PatientRow>, h: string)
    requires rows != []
    requires forall k :: 0 <= k < |rows| ==> rows[k].hadmId == Some(h)
    ensures |Runs(rows)| == 1 && Runs(rows)[0][0] == rows[0]
  {
    var front := rows[..|rows| - 1];
    assert front + [rows[|rows| - 1]] == rows;
    RunsSnoc(front, rows[|rows| - 1]);
    if |rows| > 1 {
      SameAdmissionIsOneRun(front, h);
    }
  }

  /** The subject of the patient: taken from the first row only. */
  function SubjectOf(rows: seq<PatientRow>): Option<string>
  {
    if rows == [] then None else rows[0].subjectId
  }

  function TransferRows(run: seq<PatientRow>): (r: seq<TransferRow>)
    ensures |r| == |run|
  {
    seq(|run|, k requires 0 <= k < |run| => run[k].transfer)
  }

  /**
   * The admission one run becomes: its columns come from the run's first row,
   * its diagnoses from the diagnoses query, its transfers from every row.
   */
  function AdmissionOf(run: seq<PatientRow>, subject: Option<string>, diagnosisRows: string -> seq<DiagnoseRow>, asWritten: bool)
    : (a: Admission)
    requires run != []
    ensures a.admissionId == JavaString(run[0].hadmId) && a.admissionType == run[0].admissionType
    ensures a.transfers == Numbered(TransferRows(run))
    ensures a.diagnoses == DiagnosesOf(subject, a.admissionId, diagnosisRows(a.admissionId), asWritten)
  {
    var first := run[0];
    var id := JavaString(first.hadmId);
    Admission(id, first.admitTime, first.dischTime, first.admissionType, first.dischargeLocation,
              first.maritalStatus, first.language, first.admissionLocation,
              DiagnosesOf(subject, id, diagnosisRows(id), asWritten), Numbered(TransferRows(run)))
  }

  /** One more row of the same admission adds one transfer, numbered after the others. */
  lemma AdmissionGrows(run: seq<PatientRow>, row: PatientRow, subject: Option<string>,
                       diagnosisRows: string -> seq<DiagnoseRow>, asWritten: bool)
    requires run != []
    ensures var a := AdmissionOf(run, subject, diagnosisRows, asWritten);
      AdmissionOf(run + [row], subject, diagnosisRows, asWritten) == a.(transfers := a.transfers + [TransferOf(row.transfer, |run| + 1)])
  {
    assert (run + [row])[0] == run[0];
    assert TransferRows(run + [row]) == TransferRows(run) + [row.transfer];
  }

  /** The first row of an admission gives its columns, its diagnoses and transfer number 1. */
  lemma AdmissionStarts(row: PatientRow, subject: Option<string>, diagnosisRows: string -> seq<DiagnoseRow>, asWritten: bool)
    requires row.hadmId.Some?
    ensures var id := row.hadmId.value;
      AdmissionOf([row], subject, diagnosisRows, asWritten)
        == Admission(id, row.admitTime, row.dischTime, row.admissionType, row.dischargeLocation, row.maritalStatus,
                     row.language, row.admissionLocation, DiagnosesOf(subject, id, diagnosisRows(id), asWritten),
                     [TransferOf(row.transfer, 1)])
  {
    assert Numbered(TransferRows([row])) == [TransferOf(row.transfer, 1)];
  }

  function AdmissionsOf(runs: seq<seq<PatientRow>>, subject: Option<string>, diagnosisRows: string -> seq<DiagnoseRow>, asWritten: bool)
    : (r: seq<Admission>)
    requires forall k :: 0 <= k < |runs| ==> runs[k] != []
    ensures |r| == |runs|
  {
    seq(|runs|, k requires 0 <= k < |runs| => AdmissionOf(runs[k], subject, diagnosisRows, asWritten))
  }

  lemma AdmissionsSnoc(runs: seq<seq<PatientRow>>, run: seq<PatientRow>, subject: Option<string>,
                       diagnosisRows: string -> seq<DiagnoseRow>, asWritten: bool)
    requires forall k :: 0 <= k < |runs| ==> runs[k] != []
    requires run != []
    ensures AdmissionsOf(runs + [run], subject, diagnosisRows, asWritten)
         == AdmissionsOf(runs, subject, diagnosisRows, asWritten) + [AdmissionOf(run, subject, diagnosisRows, asWritten)]
  {
    var l := AdmissionsOf(runs + [run], subject, diagnosisRows, asWritten);
    var r := AdmissionsOf(runs, subject, diagnosisRows, asWritten) + [AdmissionOf(run, subject, diagnosisRows, asWritten)];
    forall k | 0 <= k < |l|
      ensures l[k] == r[k]
    {
      if k < |runs| {
        assert (runs + [run])[k] == runs[k];
      }
    }
  }

  /** One admission per run of admitted rows, with the diagnoses as written or as intended. */
  function Admissions(rows: seq<PatientRow>, diagnosisRows: string -> seq<DiagnoseRow>, asWritten: bool): (r: seq<Admission>)
    ensures |r| == |Runs(Filter(rows, IsAdmitted))|
  {
    AdmissionsOf(Runs(Filter(rows, IsAdmitted)), SubjectOf(rows), diagnosisRows, asWritten)
  }

  /**
   * The admissions `getPatientBySubjectId` returns: every run but the last,
   * each with its diagnoses as `getDiagnoses` fills them.
   */
  function AdmissionsAsWritten(rows: seq<PatientRow>, diagnosisRows: string -> seq<DiagnoseRow>): (r: seq<Admission>)
    ensures Admissions(rows, diagnosisRows, true) == [] ==> r == []
    ensures Admissions(rows, diagnosisRows, true) != [] ==>
      r == Admissions(rows, diagnosisRows, true)[..|Admissions(rows, diagnosisRows, true)| - 1]
  {
    var all := Admissions(rows, diagnosisRows, true);
    if all == [] then [] else all[..|all| - 1]
  }

  /**
   * A patient whose rows all belong to one admission has that admission, yet
   * `getPatientBySubjectId` as written returns none.
   */
  lemma SingleAdmissionIsDropped(rows: seq<PatientRow>, h: string, diagnosisRows: string -> seq<DiagnoseRow>)
    requires rows != []
    requires forall k :: 0 <= k < |rows| ==> rows[k].hadmId == Some(h)
    ensures |Admissions(rows, diagnosisRows, false)| == 1
    ensures Admissions(rows, diagnosisRows, false)[0].admissionId == h
    ensures AdmissionsAsWritten(rows, diagnosisRows) == []
  {
    var admitted: seq<PatientRow> := Filter(rows, IsAdmitted);
    FilterMembers(rows, IsAdmitted);
    assert rows[0] in admitted;
    forall k | 0 <= k < |admitted|
      ensures admitted[k].hadmId == Some(h)
    {
      assert admitted[k] in rows;
    }
    SameAdmissionIsOneRun(admitted, h);
  }

  /**
   * Every admitted row is a transfer of exactly one admission: the
   * admissions' transfer rows, concatenated, are the admitted rows in order.
   */
  lemma NoTransferLost(rows: seq<PatientRow>)
    ensures Flatten(Runs(Filter(rows, IsAdmitted))) == Filter(rows, IsAdmitted)
  {
    RunsFlatten(Filter(rows, IsAdmitted));
  }

  /** Consecutive admissions of a patient have different admission ids. */
  lemma NeighbouringAdmissionsDiffer(rows: seq<PatientRow>, diagnosisRows: string -> seq<DiagnoseRow>, asWritten: bool, k: nat)
    requires k + 1 < |Admissions(rows, diagnosisRows, asWritten)|
    ensures Admissions(rows, diagnosisRows, asWritten)[k].admissionId != Admissions(rows, diagnosisRows, asWritten)[k + 1].admissionId
  {
    var admitted: seq<PatientRow> := Filter(rows, IsAdmitted);
    var runs: seq<seq<PatientRow>> := Runs(admitted);
    RunsAreAdmissions(admitted);
    RunsOfAdmitted(admitted);
    assert k < |runs| - 1;
    assert runs == Runs(admitted);
    assert forall j :: 0 <= j < |runs| - 1 ==> runs[j][0].hadmId != runs[j + 1][0].hadmId;
    var a, b := runs[k][0].hadmId, runs[k + 1][0].hadmId;
    assert a != b;
    assert a.Some? && b.Some?;
  }

  /**
   * The state of the fold after the admitted rows that form `runs`: every run
   * but the last is pushed, the last is the admission under construction,
   * and the previous admission id and transfer index describe that last run.
   */
  ghost predicate Folded(runs: seq<seq<PatientRow>>, previousHadmId: Option<string>, transferIndex: int,
                         pushed: seq<Admission>, current: Option<Admission>, subject: Option<string>,
                         diagnosisRows: string -> seq<DiagnoseRow>, asWritten: bool)
  {
    (forall k :: 0 <= k < |runs| ==> runs[k] != []) &&
    (runs == [] ==> pushed == [] && current.None? && previousHadmId.None?) &&
    (runs != [] ==>
      previousHadmId == runs[|runs| - 1][0].hadmId && previousHadmId.Some? &&
      transferIndex == |runs[|runs| - 1]| &&
      current == Some(AdmissionOf(runs[|runs| - 1], subject, diagnosisRows, asWritten)) &&
      pushed == AdmissionsOf(runs[..|runs| - 1], subject, diagnosisRows, asWritten))
  }

  /** A row with a new admission id pushes the admission under construction and starts another. */
  lemma NewAdmissionKeepsFolded(runs: seq<seq<PatientRow>>, previousHadmId: Option<string>, transferIndex: int,
                                pushed: seq<Admission>, current: Option<Admission>, subject: Option<string>,
                                diagnosisRows: string -> seq<DiagnoseRow>, asWritten: bool, row: PatientRow)
    requires Folded(runs, previousHadmId, transferIndex, pushed, current, subject, diagnosisRows, asWritten)
    requires row.hadmId.Some? && row.hadmId != previousHadmId
    ensures Folded(runs + [[row]], row.hadmId, 1, if previousHadmId.Some? then pushed + [current.value] else pushed,
                   Some(AdmissionOf([row], subject, diagnosisRows, asWritten)), subject, diagnosisRows, asWritten)
  {
    var next := runs + [[row]];
    assert next[..|next| - 1] == runs;
    if runs != [] {
      AdmissionsSnoc(runs[..|runs| - 1], runs[|runs| - 1], subject, diagnosisRows, asWritten);
      assert runs[..|runs| - 1] + [runs[|runs| - 1]] == runs;
    }
  }

  /** A row with the same admission id adds the next transfer to the admission under construction. */
  lemma SameAdmissionKeepsFolded(runs: seq<seq<PatientRow>>, previousHadmId: Option<string>, transferIndex: int,
                                 pushed: seq<Admission>, current: Option<Admission>, subject: Option<string>,
                                 diagnosisRows: string -> seq<DiagnoseRow>, asWritten: bool, row: PatientRow)
    requires Folded(runs, previousHadmId, transferIndex, pushed, current, subject, diagnosisRows, asWritten)
    requires row.hadmId.Some? && row.hadmId == previousHadmId
    ensures runs != [] && current.Some?
    ensures Folded(runs[..|runs| - 1] + [runs[|runs| - 1] + [row]], previousHadmId, transferIndex + 1, pushed,
                   Some(current.value.(transfers := current.value.transfers + [TransferOf(row.transfer, transferIndex + 1)])),
                   subject, diagnosisRows, asWritten)
  {
    var last := runs[|runs| - 1];
    var next := runs[..|runs| - 1] + [last + [row]];
    assert next[..|next| - 1] == runs[..|runs| - 1];
    assert next[|next| - 1] == last + [row];
    AdmissionGrows(last, row, subject, diagnosisRows, asWritten);
  }

  /** The admission a row with a new admission id starts: its columns, its diagnoses and transfer number 1. */
  method StartAdmission(row: PatientRow, subject: Option<string>, diagnosisRows: string -> seq<DiagnoseRow>,
                        asWritten: bool) returns (a: Admission)
    requires row.hadmId.Some?
    ensures a == AdmissionOf([row], subject, diagnosisRows, asWritten)
  {
    var id := row.hadmId.value;
    var diagnoses;
    if asWritten {
      diagnoses := GetDiagnosesAsWritten(subject, id, diagnosisRows(id));
    } else {
      diagnoses := GetDiagnoses(subject, id, diagnosisRows(id));
    }
    a := Admission(id, row.admitTime, row.dischTime, row.admissionType, row.dischargeLocation,
                   row.maritalStatus, row.language, row.admissionLocation, diagnoses, []);
    AdmissionStarts(row, subject, diagnosisRows, asWritten);
    a := a.(transfers := a.transfers + [TransferOf(row.transfer, 1)]);
    assert a.transfers == [TransferOf(row.transfer, 1)];
  }

  /** The loop body of `getPatientBySubjectId` for a row with an admission id. */
  method FoldAdmittedRow(row: PatientRow, previousHadmId: Option<string>, transferIndex: int,
                         pushed: seq<Admission>, current: Option<Admission>, subject: Option<string>,
                         diagnosisRows: string -> seq<DiagnoseRow>, asWritten: bool, ghost admitted: seq<PatientRow>,
                         ghost runs: seq<seq<PatientRow>>)
    returns (previousHadmId': Option<string>, transferIndex': int, pushed': seq<Admission>,
             current': Option<Admission>, ghost runs': seq<seq<PatientRow>>)
    requires row.hadmId.Some? && runs == Runs(admitted)
    requires Folded(runs, previousHadmId, transferIndex, pushed, current, subject, diagnosisRows, asWritten)
    ensures runs' == Runs(admitted + [row]) && previousHadmId' == row.hadmId
    ensures Folded(runs', previousHadmId', transferIndex', pushed', current', subject, diagnosisRows, asWritten)
  {
    RunsSnoc(admitted, row);
    pushed' := pushed;
    if row.hadmId != previousHadmId {
      NewAdmissionKeepsFolded(runs, previousHadmId, transferIndex, pushed, current, subject, diagnosisRows, asWritten, row);
      if previousHadmId.Some? {
        pushed' := pushed + [current.value];
      }
      var started := StartAdmission(row, subject, diagnosisRows, asWritten);
      runs' := runs + [[row]];
      transferIndex' := 1;
      current' := Some(started);
    } else {
      SameAdmissionKeepsFolded(runs, previousHadmId, transferIndex, pushed, current, subject, diagnosisRows, asWritten, row);
      runs' := runs[..|runs| - 1] + [runs[|runs| - 1] + [row]];
      transferIndex' := transferIndex + 1;
      current' := Some(current.value.(transfers := current.value.transfers + [TransferOf(row.transfer, transferIndex')]));
    }
    previousHadmId' := row.hadmId;
  }

  /**
   * The loop of `getPatientBySubjectId`: the patient columns of the first
   * row, the admissions pushed so far and the admission still under
   * construction when the rows run out.
   */
  method FoldRows(rows: seq<PatientRow>, diagnosisRows: string -> seq<DiagnoseRow>, asWritten: bool)
    returns (subject: Option<string>, gender: Option<string>, deathDate: Option<int>,
             pushed: seq<Admission>, current: Option<Admission>)
    ensures rows != [] ==> subject == rows[0].subjectId && gender == rows[0].gender && deathDate == rows[0].deathDate
    ensures rows == [] ==> subject.None? && gender.None? && deathDate.None?
    ensures current.None? <==> Admissions(rows, diagnosisRows, asWritten) == []
    ensures current.Some? ==> pushed + [current.value] == Admissions(rows, diagnosisRows, asWritten)
    ensures current.None? ==> pushed == []
  {
    subject, gender, deathDate := None, None, None;
    var hasGottenPatientData := false;
    var previousHadmId: Option<string> := None;
    var transferIndex := 0;
    pushed, current := [], None;
    ghost var runs: seq<seq<PatientRow>> := [];
    for i := 0 to |rows|
      invariant hasGottenPatientData <==> i > 0
      invariant i > 0 ==> subject == rows[0].subjectId && gender == rows[0].gender && deathDate == rows[0].deathDate
      invariant i == 0 ==> subject.None? && gender.None? && deathDate.None?
      invariant runs == Runs(Filter(rows[..i], IsAdmitted))
      invariant Folded(runs, previousHadmId, transferIndex, pushed, current, subject, diagnosisRows, asWritten)
    {
      var row := rows[i];
      if !hasGottenPatientData {
        subject, gender, deathDate := row.subjectId, row.gender, row.deathDate;
        hasGottenPatientData := true;
      }
      ghost var admitted := Filter(rows[..i], IsAdmitted);
      FilterExtend(rows, i, IsAdmitted);
      if row.hadmId.Some? {
        previousHadmId, transferIndex, pushed, current, runs :=
          FoldAdmittedRow(row, previousHadmId, transferIndex, pushed, current, subject, diagnosisRows, asWritten, admitted, runs);
      } else {
        assert Filter(rows[..i + 1], IsAdmitted) == admitted;
      }
    }
    assert rows[..|rows|] == rows;
    if runs != [] {
      assert subject == SubjectOf(rows);
      AdmissionsSnoc(runs[..|runs| - 1], runs[|runs| - 1], subject, diagnosisRows, asWritten);
      assert runs[..|runs| - 1] + [runs[|runs| - 1]] == runs;
    }
  }

  /**
   * `getPatientBySubjectId` as written: the admission under construction at
   * the end is never added, and the diagnoses are those `getDiagnoses` fills.
   */
  method GetPatientBySubjectIdAsWritten(rows: seq<PatientRow>, diagnosisRows: string -> seq<DiagnoseRow>)
    returns (p: Patient)
    ensures p.subjectId == SubjectOf(rows)
    ensures rows != [] ==> p.gender == rows[0].gender && p.deathDate == rows[0].deathDate
    ensures p.admissions == AdmissionsAsWritten(rows, diagnosisRows)
  {
    var subject, gender, deathDate, pushed, current := FoldRows(rows, diagnosisRows, true);
    p := Patient(subject, gender, deathDate, pushed);
  }

  /**
   * `getPatientBySubjectId` with the last admission added after the loop and
   * the diagnoses keeping their ICD codes: one admission per run of rows.
   */
  method GetPatientBySubjectId(rows: seq<PatientRow>, diagnosisRows: string -> seq<DiagnoseRow>)
    returns (p: Patient)
    ensures p.subjectId == SubjectOf(rows)
    ensures rows != [] ==> p.gender == rows[0].gender && p.deathDate == rows[0].deathDate
    ensures p.admissions == Admissions(rows, diagnosisRows, false)
  {
    var subject, gender, deathDate, pushed, current := FoldRows(rows, diagnosisRows, false);
    var admissions := pushed;
    if current.Some? {
      admissions := admissions + [current.value];
    }
    p := Patient(subject, gender, deathDate, admissions);
  }
}
