/**
 * The two entry points of the converter (Mimic4Fhir.java): `start` converts
 * the patients one after the other with one shared converter and finally
 * publishes the END message; `startWithThread` gives every patient its own
 * converter (a task of the thread pool, concur/ConversionThread.java),
 * records a timing row per task, and publishes no END message.
 */
module Mimic4Fhir {
  import opened Wrappers
  import opened BundleControl
  import opened Transformer
  import Receiver
  import TimeMeasurements
  import FHIRComm

  /** topPatients == 0 stands for all patients in the database. */
  function NumberOfAllPatients(topPatients: nat, numberOfPatients: nat): (n: nat)
    ensures topPatients != 0 ==> n == topPatients
    ensures topPatients == 0 ==> n == numberOfPatients
  {
    if topPatients == 0 then numberOfPatients else topPatients
  }

  /** The message that ends the consumer. */
  const EndMessage := Receiver.Delivery("0", "END")

  /** The JSON messages put on the queue: label and serialized bundle. */
  function Deliveries(encode: Bundle -> string, ms: seq<Message>): (ds: seq<Receiver.Delivery>)
    ensures |ds| == |ms|
    ensures forall i :: 0 <= i < |ms| ==> ds[i] == Receiver.Delivery(ms[i].number, encode(ms[i].bundle))
  {
    if ms == [] then []
    else Deliveries(encode, ms[..|ms| - 1]) + [Receiver.Delivery(ms[|ms| - 1].number, encode(ms[|ms| - 1].bundle))]
  }

  /** Admission `a` of patient `numPat` has a flush in `fs`. */
  ghost predicate Covered(fs: seq<Flush>, numPat: nat, a: nat)
  {
    exists k :: 0 <= k < |fs| && fs[k].patient == numPat && fs[k].admission == Some(a)
  }

  /** Every admission that the first `n` patients send before their failures has a flush in `fs`. */
  ghost predicate AllCovered(fs: seq<Flush>, patients: seq<Patient>, failureOf: nat -> Option<Failure>, n: nat)
    requires n <= |patients|
  {
    forall q, a :: 0 <= q < n && 1 <= a <= AdmissionsSent(patients[q], failureOf(q)) ==> Covered(fs, q, a)
  }

  /** Flushes of patients before `n` only. */
  ghost predicate PatientsBelow(fs: seq<Flush>, n: nat)
  {
    forall k :: 0 <= k < |fs| ==> fs[k].patient < n
  }

  lemma CoveredStep(fs: seq<Flush>, fs': seq<Flush>, patients: seq<Patient>, failureOf: nat -> Option<Failure>, i: nat, imaging: bool)
    requires i < |patients| && AllCovered(fs, patients, failureOf, i) && PatientsBelow(fs, i)
    requires PatientFlushes(fs, fs', i, AdmissionsSent(patients[i], failureOf(i)), imaging)
    ensures AllCovered(fs', patients, failureOf, i + 1) && PatientsBelow(fs', i + 1)
  {
    forall q, a | 0 <= q < i + 1 && 1 <= a <= AdmissionsSent(patients[q], failureOf(q))
      ensures Covered(fs', q, a)
    {
      if q == i {
        assert HasAdmission(fs', |fs|, a);
        var k :| |fs| <= k < |fs'| && fs'[k].admission == Some(a);
        assert fs'[k].patient == i;
      } else {
        assert Covered(fs, q, a);
        var k :| 0 <= k < |fs| && fs[k].patient == q && fs[k].admission == Some(a);
        assert fs'[k] == fs'[..|fs|][k];
      }
    }
    forall k | 0 <= k < |fs'|
      ensures fs'[k].patient < i + 1
    {
      if k < |fs| {
        assert fs'[k] == fs'[..|fs|][k];
      }
    }
  }

  /** Patients that complete send all their admissions. */
  lemma CompletedAreCovered(fs: seq<Flush>, patients: seq<Patient>, failureOf: nat -> Option<Failure>, n: nat, m: nat)
    requires m <= n <= |patients| && AllCovered(fs, patients, failureOf, n)
    requires forall q :: 0 <= q < m ==> Completes(patients[q], failureOf(q))
    ensures forall q, a :: 0 <= q < m && 1 <= a <= |patients[q].admissions| ==> Covered(fs, q, a)
  {
    forall q, a | 0 <= q < m && 1 <= a <= |patients[q].admissions|
      ensures Covered(fs, q, a)
    {
      CompletesSendsAll(patients[q], failureOf(q));
    }
  }

  /** Appending the flushes of a later patient keeps the order. */
  lemma IncreasingConcat(fs: seq<Flush>, gs: seq<Flush>, i: nat)
    requires Increasing(fs) && Increasing(gs) && PatientsBelow(fs, i)
    requires forall k :: 0 <= k < |gs| ==> gs[k].patient == i
    ensures Increasing(fs + gs) && PatientsBelow(fs + gs, i + 1)
  {
    var all := fs + gs;
    forall k | 0 < k < |all|
      ensures Before(all[k - 1], all[k])
    {
      if k < |fs| {
        assert Before(fs[k - 1], fs[k]);
      } else if k > |fs| {
        assert Before(gs[k - 1 - |fs|], gs[k - |fs|]);
      }
    }
  }

  /** The first `n` patients complete. */
  ghost predicate AllComplete(patients: seq<Patient>, failureOf: nat -> Option<Failure>, n: nat)
    requires n <= |patients|
  {
    forall q :: 0 <= q < n ==> Completes(patients[q], failureOf(q))
  }

  /** How far the sequential run got: the completed patients and the one whose conversion threw, if any. */
  function Reached(converted: nat, n: nat, patientCount: nat): (r: nat)
    ensures converted < n && converted < patientCount ==> r == converted + 1
    ensures converted >= n || converted >= patientCount ==> r == converted
  {
    if converted < n && converted < patientCount then converted + 1 else converted
  }

  /**
   * The sequential run: one converter for all patients, patient indexes
   * 0 .. n-1 in order, then the END message. The queue carries one message
   * per flush, labelled by it, pairwise differently and never "0"; only
   * the last message is END. Nothing catches an exception: the first
   * patient whose conversion fails (`failureOf`), or a patient index past
   * the fetched ids, ends the run after the bundles sent so far and
   * without the END message.
   */
  method Start(patients: seq<Patient>, failureOf: nat -> Option<Failure>, topPatients: nat, numberOfPatients: nat,
               isKds: bool, useCxr: bool, hospitalId: string, encounterIds: EncounterIds, encode: Bundle -> string)
    returns (queue: seq<Receiver.Delivery>, ghost flushes: seq<Flush>, converted: nat)
    requires forall b :: encode(b) != "END"
    ensures converted <= NumberOfAllPatients(topPatients, numberOfPatients) && converted <= |patients|
    ensures forall q :: 0 <= q < converted ==> Completes(patients[q], failureOf(q))
    ensures converted < NumberOfAllPatients(topPatients, numberOfPatients) && converted < |patients| ==>
              !Completes(patients[converted], failureOf(converted))
    ensures |queue| == |flushes| + (if converted == NumberOfAllPatients(topPatients, numberOfPatients) then 1 else 0)
    ensures converted == NumberOfAllPatients(topPatients, numberOfPatients) ==> queue[|queue| - 1] == EndMessage
    ensures forall i :: 0 <= i < |flushes| ==> queue[i].number == Label(flushes[i]) && !Receiver.IsEnd(queue[i])
    ensures forall i, j :: 0 <= i < j < |flushes| ==> queue[i].number != queue[j].number
    ensures forall i :: 0 <= i < |flushes| ==> queue[i].number != "0"
    ensures var reached := Reached(converted, NumberOfAllPatients(topPatients, numberOfPatients), |patients|);
            Increasing(flushes) && PatientsBelow(flushes, reached) && AllCovered(flushes, patients, failureOf, reached)
    ensures forall q, a :: 0 <= q < converted && 1 <= a <= |patients[q].admissions| ==> Covered(flushes, q, a)
  {
    var n := NumberOfAllPatients(topPatients, numberOfPatients);
    var conv := new Converter(isKds, useCxr, hospitalId, encounterIds);
    converted := 0;
    var aborted := false;
    while converted < n && !aborted
      invariant converted <= n && converted <= |patients|
      invariant aborted ==> converted < n
      invariant fresh(conv) && fresh(conv.bundleC)
      invariant conv.Valid() && conv.Idle() && (!aborted ==> conv.FreshFor(converted))
      invariant AllComplete(patients, failureOf, converted)
      invariant aborted && converted < |patients| ==> !Completes(patients[converted], failureOf(converted))
      invariant var reached := if aborted then Reached(converted, n, |patients|) else converted;
                PatientsBelow(conv.flushes, reached) && AllCovered(conv.flushes, patients, failureOf, reached)
      decreases n - converted, !aborted
    {
      converted, aborted := StartStep(conv, patients, failureOf, n, converted);
    }
    flushes := conv.flushes;
    CompletedAreCovered(flushes, patients, failureOf, Reached(converted, n, |patients|), converted);
    LabelsDistinct(flushes);
    forall k | 0 <= k < |flushes|
      ensures Label(flushes[k]) != "0"
    {
      LabelIsNotZero(flushes[k]);
    }
    queue := Deliveries(encode, conv.sent);
    if !aborted {
      queue := queue + [EndMessage];
    }
  }

  /**
   * One iteration of the sequential loop: patient `i` with the shared
   * converter, or the exception of indexing past the fetched ids.
   */
  method StartStep(conv: Converter, patients: seq<Patient>, failureOf: nat -> Option<Failure>, n: nat, i: nat)
    returns (next: nat, aborted: bool)
    requires i < n && i <= |patients|
    requires conv.Valid() && conv.Idle() && conv.FreshFor(i)
    requires AllComplete(patients, failureOf, i) && PatientsBelow(conv.flushes, i) && AllCovered(conv.flushes, patients, failureOf, i)
    modifies conv`sent, conv`flushes, conv`encounterDiagnosis, conv`encounterLocation,
             conv`locationsInBundle, conv`caregiversInBundle, conv`medicationInBundle, conv.bundleC
    ensures aborted ==> next == i
    ensures !aborted ==> next == i + 1
    ensures next <= |patients| && conv.Valid() && conv.Idle()
    ensures !aborted ==> conv.FreshFor(next)
    ensures AllComplete(patients, failureOf, next)
    ensures aborted && next < |patients| ==> !Completes(patients[next], failureOf(next))
    ensures var reached := if aborted then Reached(next, n, |patients|) else next;
            PatientsBelow(conv.flushes, reached) && AllCovered(conv.flushes, patients, failureOf, reached)
  {
    if i >= |patients| {
      // the id array holds fewer than n subjects: indexing it throws
      return i, true;
    }
    ghost var fs := conv.flushes;
    var completed := conv.ConvertPatient(patients[i], i, failureOf(i));
    CoveredStep(fs, conv.flushes, patients, failureOf, i, ReportsSent(patients[i], conv.useCxr, failureOf(i)));
    if completed {
      next, aborted := i + 1, false;
      assert AllComplete(patients, failureOf, next) by {
        assert forall q :: 0 <= q < i ==> Completes(patients[q], failureOf(q));
      }
    } else {
      next, aborted := i, true;
    }
  }

  /** Message k is data and carries the label of flush k. */
  ghost predicate LabelledQueue(queue: seq<Receiver.Delivery>, flushes: seq<Flush>)
  {
    |queue| == |flushes| && forall k :: 0 <= k < |flushes| ==> queue[k].number == Label(flushes[k]) && !Receiver.IsEnd(queue[k])
  }

  lemma LabelledQueueConcat(q: seq<Receiver.Delivery>, fs: seq<Flush>, q': seq<Receiver.Delivery>, fs': seq<Flush>)
    requires LabelledQueue(q, fs) && LabelledQueue(q', fs')
    ensures LabelledQueue(q + q', fs + fs')
  {
    var qs, all := q + q', fs + fs';
    forall k | 0 <= k < |all|
      ensures qs[k].number == Label(all[k]) && !Receiver.IsEnd(qs[k])
    {
      if k < |fs| {
        assert qs[k] == q[k] && all[k] == fs[k];
      } else {
        assert qs[k] == q'[k - |fs|] && all[k] == fs'[k - |fs|];
      }
    }
  }

  /**
   * The timing rows of the first `n` tasks, after `start` earlier rows: one
   * per task that completes, in task order, numbered on from `start`.
   */
  ghost function CompletedRows(start: nat, subjectIds: seq<string>, patients: seq<Patient>,
                               failureOf: nat -> Option<Failure>, durationOf: nat -> int, n: nat): seq<TimeMeasurements.Row>
    requires n <= |subjectIds| && n <= |patients|
  {
    if n == 0 then []
    else
      var rows := CompletedRows(start, subjectIds, patients, failureOf, durationOf, n - 1);
      rows + TaskRow(start + |rows|, n - 1, subjectIds[n - 1], patients[n - 1], durationOf(n - 1), failureOf(n - 1))
  }

  /** The timing row task `numPat` adds after `count` rows: one when it completes, none when it throws. */
  function TaskRow(count: nat, numPat: nat, subjectId: string, p: Patient, duration: int, failure: Option<Failure>): seq<TimeMeasurements.Row>
  {
    if Completes(p, failure) then [TimeMeasurements.Row(count + 1, numPat + 1, subjectId, |p.admissions|, duration)] else []
  }

  /**
   * Each timing row is a completed task: rows are numbered on from `start`,
   * their job numbers increase strictly, and the row of job j carries the
   * subject, admission count and duration of task j - 1.
   */
  lemma {:induction false} CompletedRowsAreTasks(start: nat, subjectIds: seq<string>, patients: seq<Patient>,
                                                 failureOf: nat -> Option<Failure>, durationOf: nat -> int, n: nat)
    requires n <= |subjectIds| && n <= |patients|
    ensures var rows := CompletedRows(start, subjectIds, patients, failureOf, durationOf, n);
            |rows| <= n
            && (forall k :: 0 <= k < |rows| ==> rows[k].rowId == start + k + 1 && 1 <= rows[k].jobId <= n)
            && (forall k :: 0 <= k < |rows| ==>
                  var t := rows[k].jobId - 1;
                  Completes(patients[t], failureOf(t))
                  && rows[k] == TimeMeasurements.Row(start + k + 1, t + 1, subjectIds[t], |patients[t].admissions|, durationOf(t)))
            && (forall k, l :: 0 <= k < l < |rows| ==> rows[k].jobId < rows[l].jobId)
  {
    if n > 0 {
      var prev := CompletedRows(start, subjectIds, patients, failureOf, durationOf, n - 1);
      var last := TaskRow(start + |prev|, n - 1, subjectIds[n - 1], patients[n - 1], durationOf(n - 1), failureOf(n - 1));
      CompletedRowsAreTasks(start, subjectIds, patients, failureOf, durationOf, n - 1);
      var rows := prev + last;
      assert CompletedRows(start, subjectIds, patients, failureOf, durationOf, n) == rows;
      forall k | 0 <= k < |prev|
        ensures rows[k] == prev[k]
      {
      }
    }
  }

  /** When every task completes, row k is task k's. */
  lemma {:induction false} AllTasksTimed(start: nat, subjectIds: seq<string>, patients: seq<Patient>,
                                         failureOf: nat -> Option<Failure>, durationOf: nat -> int, n: nat)
    requires n <= |subjectIds| && n <= |patients|
    requires forall q :: 0 <= q < n ==> Completes(patients[q], failureOf(q))
    ensures var rows := CompletedRows(start, subjectIds, patients, failureOf, durationOf, n);
            |rows| == n
            && forall k :: 0 <= k < n ==>
                 rows[k] == TimeMeasurements.Row(start + k + 1, k + 1, subjectIds[k], |patients[k].admissions|, durationOf(k))
  {
    if n > 0 {
      AllTasksTimed(start, subjectIds, patients, failureOf, durationOf, n - 1);
    }
  }

  /**
   * One task of the pool (ConversionThread.run): a fresh converter for one
   * patient, then its timing row. A task whose conversion throws ends there:
   * the executor keeps the exception and no timing row is written.
   */
  method ConversionThread(p: Patient, numPat: nat, subjectId: string, useCxr: bool, hospitalId: string, encounterIds: EncounterIds,
                          duration: int,
                          encode: Bundle -> string, timings: TimeMeasurements.Timings, failure: Option<Failure>)
    returns (queue: seq<Receiver.Delivery>, ghost flushes: seq<Flush>, completed: bool)
    requires forall b :: encode(b) != "END"
    requires timings.Valid()
    modifies timings
    ensures completed <==> Completes(p, failure)
    ensures LabelledQueue(queue, flushes) && Increasing(flushes)
    ensures PatientFlushes([], flushes, numPat, AdmissionsSent(p, failure), ReportsSent(p, useCxr, failure))
    ensures timings.Valid()
    ensures completed ==>
              timings.rows == old(timings.rows) + [TimeMeasurements.Row(|old(timings.rows)| + 1, numPat + 1, subjectId, |p.admissions|, duration)]
    ensures !completed ==> timings.rows == old(timings.rows)
    ensures timings.rows == old(timings.rows) + TaskRow(|old(timings.rows)|, numPat, subjectId, p, duration, failure)
  {
    var transformer := new Converter(true, useCxr, hospitalId, encounterIds);
    completed := transformer.ProcessPatient(p, numPat, hospitalId, failure);
    flushes := transformer.flushes;
    queue := Deliveries(encode, transformer.sent);
    if completed {
      timings.AddTiming(numPat, subjectId, |p.admissions|, duration);
    }
  }

  /**
   * The threaded run, taken one task after the other: a task per patient
   * index 0 .. topPatients-1, each with its own converter and hospital, and
   * a timing row per completed task. Every message is data; none ends the
   * consumer. A task that throws ends only itself; an index past the
   * fetched ids throws in the submitting loop, after the earlier tasks were
   * submitted.
   */
  method StartWithThread(patients: seq<Patient>, subjectIds: seq<string>, failureOf: nat -> Option<Failure>, topPatients: nat,
                         useCxr: bool, hospitalIdOf: nat -> string, encounterIds: EncounterIds, durationOf: nat -> int,
                         encode: Bundle -> string,
                         timings: TimeMeasurements.Timings)
    returns (queue: seq<Receiver.Delivery>, ghost flushes: seq<Flush>, ghost submitted: nat)
    requires |subjectIds| == |patients|
    requires forall b :: encode(b) != "END"
    requires timings.Valid()
    modifies timings
    ensures submitted == if topPatients <= |patients| then topPatients else |patients|
    ensures !Receiver.HasEnd(queue)
    ensures LabelledQueue(queue, flushes)
    ensures forall i, j :: 0 <= i < j < |queue| ==> queue[i].number != queue[j].number
    ensures Increasing(flushes) && PatientsBelow(flushes, submitted) && AllCovered(flushes, patients, failureOf, submitted)
    ensures timings.Valid()
    ensures timings.rows == old(timings.rows) + CompletedRows(|old(timings.rows)|, subjectIds, patients, failureOf, durationOf, submitted)
  {
    queue := [];
    flushes := [];
    var i := 0;
    while i < topPatients
      invariant 0 <= i <= topPatients && i <= |patients|
      invariant LabelledQueue(queue, flushes)
      invariant Increasing(flushes) && PatientsBelow(flushes, i) && AllCovered(flushes, patients, failureOf, i)
      invariant timings.Valid()
      invariant timings.rows == old(timings.rows) + CompletedRows(|old(timings.rows)|, subjectIds, patients, failureOf, durationOf, i)
    {
      if i >= |patients| {
        // the id array holds fewer than topPatients subjects: indexing it throws
        break;
      }
      queue, flushes := ThreadStep(patients, subjectIds, failureOf, useCxr, hospitalIdOf, encounterIds, durationOf, encode, timings,
                                   i, queue, flushes, old(timings.rows));
      i := i + 1;
    }
    submitted := i;
    LabelsDistinct(flushes);
  }

  /** The timing rows after task `i`, which adds its row exactly when it completes. */
  lemma RowsStep(rows0: seq<TimeMeasurements.Row>, rows: seq<TimeMeasurements.Row>, rows': seq<TimeMeasurements.Row>,
                 subjectIds: seq<string>, patients: seq<Patient>, failureOf: nat -> Option<Failure>, durationOf: nat -> int, i: nat)
    requires i < |subjectIds| && i < |patients|
    requires rows == rows0 + CompletedRows(|rows0|, subjectIds, patients, failureOf, durationOf, i)
    requires rows' == rows + TaskRow(|rows|, i, subjectIds[i], patients[i], durationOf(i), failureOf(i))
    ensures rows' == rows0 + CompletedRows(|rows0|, subjectIds, patients, failureOf, durationOf, i + 1)
  {
  }

  /** The messages and flushes of task `i` appended to those of the earlier tasks. */
  lemma TaskStep(queue: seq<Receiver.Delivery>, flushes: seq<Flush>, q: seq<Receiver.Delivery>, gs: seq<Flush>,
                 patients: seq<Patient>, failureOf: nat -> Option<Failure>, i: nat, imaging: bool)
    requires i < |patients|
    requires LabelledQueue(queue, flushes) && Increasing(flushes)
    requires PatientsBelow(flushes, i) && AllCovered(flushes, patients, failureOf, i)
    requires LabelledQueue(q, gs) && Increasing(gs)
    requires PatientFlushes([], gs, i, AdmissionsSent(patients[i], failureOf(i)), imaging)
    ensures LabelledQueue(queue + q, flushes + gs) && Increasing(flushes + gs)
    ensures PatientsBelow(flushes + gs, i + 1) && AllCovered(flushes + gs, patients, failureOf, i + 1)
  {
    PatientFlushesFresh(gs, i, AdmissionsSent(patients[i], failureOf(i)), imaging);
    CoveredStep(flushes, flushes + gs, patients, failureOf, i, imaging);
    IncreasingConcat(flushes, gs, i);
    LabelledQueueConcat(queue, flushes, q, gs);
  }

  /** One task of the threaded run, appended to what the earlier tasks sent and timed. */
  method ThreadStep(patients: seq<Patient>, subjectIds: seq<string>, failureOf: nat -> Option<Failure>, useCxr: bool,
                    hospitalIdOf: nat -> string, encounterIds: EncounterIds, durationOf: nat -> int, encode: Bundle -> string,
                    timings: TimeMeasurements.Timings, i: nat, queue: seq<Receiver.Delivery>, ghost flushes: seq<Flush>,
                    ghost rows0: seq<TimeMeasurements.Row>)
    returns (queue': seq<Receiver.Delivery>, ghost flushes': seq<Flush>)
    requires i < |patients| && |subjectIds| == |patients|
    requires forall b :: encode(b) != "END"
    requires LabelledQueue(queue, flushes) && Increasing(flushes)
    requires PatientsBelow(flushes, i) && AllCovered(flushes, patients, failureOf, i)
    requires timings.Valid() && timings.rows == rows0 + CompletedRows(|rows0|, subjectIds, patients, failureOf, durationOf, i)
    modifies timings
    ensures LabelledQueue(queue', flushes') && Increasing(flushes')
    ensures PatientsBelow(flushes', i + 1) && AllCovered(flushes', patients, failureOf, i + 1)
    ensures timings.Valid() && timings.rows == rows0 + CompletedRows(|rows0|, subjectIds, patients, failureOf, durationOf, i + 1)
  {
    ghost var rows := timings.rows;
    var q, gs, completed := ConversionThread(patients[i], i, subjectIds[i], useCxr, hospitalIdOf(i), encounterIds, durationOf(i),
                                             encode, timings, failureOf(i));
    RowsStep(rows0, rows, timings.rows, subjectIds, patients, failureOf, durationOf, i);
    TaskStep(queue, flushes, q, gs, patients, failureOf, i, ReportsSent(patients[i], useCxr, failureOf(i)));
    queue', flushes' := queue + q, flushes + gs;
  }

  /** A fresh converter's patient flushes, seen after any earlier log. */
  lemma PatientFlushesFresh(gs: seq<Flush>, i: nat, admissions: nat, imaging: bool)
    requires PatientFlushes([], gs, i, admissions, imaging)
    ensures forall fs :: PatientFlushes(fs, fs + gs, i, admissions, imaging)
  {
    forall fs
      ensures PatientFlushes(fs, fs + gs, i, admissions, imaging)
    {
      var all := fs + gs;
      assert all[..|fs|] == fs;
      forall k | |fs| <= k < |all|
        ensures all[k] == gs[k - |fs|]
      {
      }
      forall a | 1 <= a <= admissions
        ensures HasAdmission(all, |fs|, a)
      {
        assert HasAdmission(gs, 0, a);
        var k :| 0 <= k < |gs| && gs[k].admission == Some(a);
        assert all[|fs| + k] == gs[k];
      }
    }
  }

  /**
   * The queue of the sequential run, consumed in file mode: the consumer is
   * closed by the last message; every other message whose file was written
   * is in its own file, and one that failed leaves no file behind.
   */
  lemma SequentialQueueWritesEachBundle(dir: string, fault: Receiver.Delivery -> Receiver.Fault, q: seq<Receiver.Delivery>)
    requires |q| >= 1 && q[|q| - 1] == EndMessage
    requires forall i :: 0 <= i < |q| - 1 ==> !Receiver.IsEnd(q[i]) && q[i].number != "0"
    requires forall i, j :: 0 <= i < j < |q| - 1 ==> q[i].number != q[j].number
    ensures Receiver.HasEnd(q)
    ensures var out := Receiver.Run(Receiver.PRINT_FILE, dir, fault, Receiver.NoOutputs, q);
            forall i :: 0 <= i < |q| - 1 ==>
              if Receiver.FileWritten(fault(q[i])) then
                FHIRComm.BundleFilePath(dir, q[i].number) in out.files
                && out.files[FHIRComm.BundleFilePath(dir, q[i].number)] == q[i].bundle
              else FHIRComm.BundleFilePath(dir, q[i].number) !in out.files
  {
    var pre := q[..|q| - 1];
    assert q == pre + [EndMessage] + [];
    assert Receiver.IsEnd(q[|q| - 1]);
    Receiver.RunStopsAtEnd(Receiver.PRINT_FILE, dir, fault, Receiver.NoOutputs, pre, EndMessage, []);
    Receiver.FilesHoldEachBundle(dir, fault, Receiver.NoOutputs, pre);
  }
}
