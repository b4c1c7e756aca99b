/**
 * The per-patient conversion driver (concur/FHIRTransformer.java; the
 * sequential copy in Mimic4Fhir.java differs only where noted): for every
 * admission it assembles a transaction bundle of conditional creates for the
 * identity resources, the medications and their administrations, then the
 * observations, flushing to the queue whenever the bundle holds more than
 * 15000 resources, and once more at the end of the admission.
 */
module Transformer {
  import opened Wrappers
  import opened Text
  import opened BundleControl
  import Dedup

  /** A bundle holding more resources than this is flushed before the next observation. */
  const BundleLimit: int := 15000

  datatype Identifier = Identifier(system: string, value: string)

  /** Search condition of a conditional create on an identifier: "identifier=<system>|<value>". */
  function IdentifierCondition(i: Identifier): string
  {
    "identifier=" + i.system + "|" + i.value
  }

  /** The first identifier of a resource that has none: both parts are null and print as "null". */
  const MissingIdentifier := Identifier("null", "null")

  /** The identifier of the top-level hospital Organization. */
  const HospitalIdentifier := Identifier("http://www.imi-mimic.de", "hospital")

  /** A Condition or Procedure built for the admission, with the sequence number of its source row. */
  datatype Ranked = Ranked(id: string, identifier: Identifier, seqNumber: int)

  /**
   * One prescription: the Medication built for it (id and first code) and its
   * MedicationAdministration. A Medication without codes has the Java null as
   * its first code, which prints as "null" in the condition "code=null"; the
   * caller passes that text as `code`.
   */
  datatype Prescription = Prescription(medicationId: string, code: string, administrationId: string)

  /** One transfer: the Location of its ward and the ward's identifier. */
  datatype Transfer = Transfer(locationId: string, ward: Identifier)

  /** A build of the basic part: the patient index and the number of the bundle it starts. */
  datatype Round = Round(patient: nat, bundleNumber: nat)

  /**
   * The id `IdDt.newRandomUuid` gives a transfer's Encounter. A new Encounter
   * is built for every transfer each time the basic part is built, so the id
   * depends on that build as well as on the transfer.
   */
  type EncounterIds = (Round, Transfer) -> string

  /** The resources built for one admission. */
  datatype Admission = Admission(
    encounterId: string,
    encounterIdentifier: Identifier,
    conditions: seq<Ranked>,
    procedures: seq<Ranked>,
    prescriptions: seq<Prescription>,
    chartObservations: seq<string>,
    labObservations: seq<string>,
    transfers: seq<Transfer>)

  /** The resources built for one patient: the Patient, its chest X-ray DiagnosticReports and its admissions. */
  datatype Patient = Patient(id: string, identifier: Identifier, diagnosticReports: seq<string>, admissions: seq<Admission>)

  /** A diagnosis component of the admission Encounter. */
  datatype DiagnosisComponent = DiagnosisComponent(condition: string, rank: int)

  /** A queue message: the label and the bundle. */
  datatype Message = Message(number: string, bundle: Bundle)

  /** What identifies a flush: patient index, admission index (none for the imaging bundle), bundle number. */
  datatype Flush = Flush(patient: nat, admission: Option<nat>, bundleNumber: nat)

  /**
   * The queue label of a flush: "<numPat>_<bundleNumber>" for the imaging
   * bundle, "<numPat>_<admissionIndex>_<bundleNumber>" (the admission's
   * patNumber, "_", the bundle number) for an admission bundle.
   */
  function Label(f: Flush): string
  {
    NatToString(f.patient) + "_" + LabelTail(f)
  }

  function LabelTail(f: Flush): string
  {
    match f.admission
    case None => NatToString(f.bundleNumber)
    case Some(a) => NatToString(a) + "_" + NatToString(f.bundleNumber)
  }

  /** The part after the patient number holds a second underscore exactly for admission bundles. */
  lemma TailUnderscore(f: Flush)
    ensures !NoChar(LabelTail(f), '_') <==> f.admission.Some?
  {
    match f.admission
    case None => NatToStringHasNo(f.bundleNumber, '_');
    case Some(a) => assert LabelTail(f)[|NatToString(a)|] == '_';
  }

  /** A label determines its flush. */
  lemma LabelInjective(f: Flush, g: Flush)
    requires Label(f) == Label(g)
    ensures f == g
  {
    NatToStringHasNo(f.patient, '_');
    NatToStringHasNo(g.patient, '_');
    SplitAtFirst(NatToString(f.patient), LabelTail(f), NatToString(g.patient), LabelTail(g), '_');
    NatToStringInjective(f.patient, g.patient);
    TailUnderscore(f);
    TailUnderscore(g);
    match f.admission
    case None =>
      NatToStringInjective(f.bundleNumber, g.bundleNumber);
    case Some(a) =>
      var c := g.admission.value;
      NatToStringHasNo(a, '_');
      NatToStringHasNo(c, '_');
      SplitAtFirst(NatToString(a), NatToString(f.bundleNumber), NatToString(c), NatToString(g.bundleNumber), '_');
      NatToStringInjective(a, c);
      NatToStringInjective(f.bundleNumber, g.bundleNumber);
  }

  /** Flush `f` comes before flush `g`: an earlier patient, or the same patient and a lower bundle number. */
  predicate Before(f: Flush, g: Flush)
  {
    f.patient < g.patient || (f.patient == g.patient && f.bundleNumber < g.bundleNumber)
  }

  predicate Increasing(fs: seq<Flush>)
  {
    forall i :: 0 < i < |fs| ==> Before(fs[i - 1], fs[i])
  }

  lemma {:induction false} IncreasingOrdered(fs: seq<Flush>, i: nat, j: nat)
    requires Increasing(fs) && i < j < |fs|
    ensures Before(fs[i], fs[j])
    decreases j - i
  {
    if i + 1 < j {
      IncreasingOrdered(fs, i, j - 1);
    }
  }

  /** Flushes in increasing order carry pairwise different labels. */
  lemma LabelsDistinct(fs: seq<Flush>)
    requires Increasing(fs)
    ensures forall i, j :: 0 <= i < j < |fs| ==> Label(fs[i]) != Label(fs[j])
  {
    forall i, j | 0 <= i < j < |fs|
      ensures Label(fs[i]) != Label(fs[j])
    {
      IncreasingOrdered(fs, i, j);
      if Label(fs[i]) == Label(fs[j]) {
        LabelInjective(fs[i], fs[j]);
      }
    }
  }

  /** Every label holds an underscore, so none equals the "0" of the end message. */
  lemma LabelIsNotZero(f: Flush)
    ensures Label(f) != "0"
  {
    assert Label(f)[|NatToString(f.patient)|] == '_';
  }

  lemma IncreasingAppend(fs: seq<Flush>, f: Flush)
    requires Increasing(fs) && (fs == [] || Before(fs[|fs| - 1], f))
    ensures Increasing(fs + [f])
  {
  }

  /** Message `i` carries the label of flush `i`. */
  predicate Labelled(sent: seq<Message>, flushes: seq<Flush>)
  {
    |sent| == |flushes| && forall i :: 0 <= i < |sent| ==> sent[i].number == Label(flushes[i])
  }

  lemma LabelledAppend(sent: seq<Message>, flushes: seq<Flush>, f: Flush, b: Bundle)
    requires Labelled(sent, flushes)
    ensures Labelled(sent + [Message(Label(f), b)], flushes + [f])
  {
  }

  function WardKey(t: Transfer): string { t.ward.value }
  function LocationId(t: Transfer): string { t.locationId }
  function MedicationCode(p: Prescription): string { p.code }
  function MedicationId(p: Prescription): string { p.medicationId }

  /** Entries of the chest X-ray DiagnosticReports: plain creates. */
  function ReportEntries(ids: seq<string>): seq<Entry>
  {
    if ids == [] then []
    else ReportEntries(ids[..|ids| - 1]) + [PlainEntry(Resource("DiagnosticReport", ids[|ids| - 1], None))]
  }

  function RankedEntry(fhirType: string, r: Ranked): Entry
  {
    ConditionalEntry(Resource(fhirType, r.id, None), IdentifierCondition(r.identifier))
  }

  /** Conditional creates of Conditions or Procedures, in order. */
  function RankedEntries(fhirType: string, rs: seq<Ranked>): seq<Entry>
  {
    if rs == [] then [] else RankedEntries(fhirType, rs[..|rs| - 1]) + [RankedEntry(fhirType, rs[|rs| - 1])]
  }

  /** Diagnosis components referencing each Condition or Procedure, ranked by its sequence number. */
  function Components(rs: seq<Ranked>): seq<DiagnosisComponent>
  {
    if rs == [] then [] else Components(rs[..|rs| - 1]) + [DiagnosisComponent(rs[|rs| - 1].id, rs[|rs| - 1].seqNumber)]
  }

  /** The diagnosis list of the admission Encounter after the basic bundle was built. */
  function Diagnoses(adm: Admission): seq<DiagnosisComponent>
  {
    Components(adm.conditions) + Components(adm.procedures)
  }

  /** The transfer Encounter built for `t` in build `r`; it has no identifier. */
  function TransferEncounter(ids: EncounterIds, r: Round, t: Transfer): Entry
  {
    ConditionalEntry(Resource("Encounter", ids(r, t), None), IdentifierCondition(MissingIdentifier))
  }

  /** Each ward's Location and its transfer Encounter, as built in build `r`. */
  function WardEntries(ws: seq<Transfer>, ids: EncounterIds, r: Round): seq<Entry>
  {
    if ws == [] then []
    else
      var t := ws[|ws| - 1];
      WardEntries(ws[..|ws| - 1], ids, r)
      + [ConditionalEntry(Resource("Location", t.locationId, None), IdentifierCondition(t.ward)), TransferEncounter(ids, r, t)]
  }

  /**
   * Ward `i` adds entries `2 * i` and `2 * i + 1`: its Location, then its
   * transfer Encounter with the id drawn for it in build `r`.
   */
  lemma {:induction false} WardEntriesAt(ws: seq<Transfer>, ids: EncounterIds, r: Round, i: nat)
    requires i < |ws|
    ensures |WardEntries(ws, ids, r)| == 2 * |ws|
    ensures WardEntries(ws, ids, r)[2 * i] == ConditionalEntry(Resource("Location", ws[i].locationId, None), IdentifierCondition(ws[i].ward))
    ensures WardEntries(ws, ids, r)[2 * i + 1].resource == Resource("Encounter", ids(r, ws[i]), None)
    decreases |ws|
  {
    var init := ws[..|ws| - 1];
    if i < |init| {
      WardEntriesAt(init, ids, r, i);
      assert init[i] == ws[i];
    } else if init != [] {
      WardEntriesAt(init, ids, r, 0);
    }
  }

  /** Medication conditional creates on "code=<code>". */
  function MedicationEntries(ps: seq<Prescription>): seq<Entry>
  {
    if ps == [] then []
    else
      var p := ps[|ps| - 1];
      MedicationEntries(ps[..|ps| - 1]) + [ConditionalEntry(Resource("Medication", p.medicationId, None), "code=" + p.code)]
  }

  /** `HashMap.get`: null for an absent key. */
  function Lookup(m: map<string, string>, k: string): Option<string>
  {
    if k in m then Some(m[k]) else None
  }

  /** MedicationAdministration creates, each referencing the id stored for its medication code. */
  function AdministrationEntries(ps: seq<Prescription>, m: map<string, string>): seq<Entry>
  {
    if ps == [] then []
    else
      var p := ps[|ps| - 1];
      AdministrationEntries(ps[..|ps| - 1], m)
      + [UuidEntry(Resource("MedicationAdministration", p.administrationId, Lookup(m, p.code)))]
  }

  /**
   * The identity part of every bundle of an admission: Patient, hospital,
   * Conditions, Procedures, the wards not yet in `seen` (when transfers are
   * part of the basic bundle) and finally the admission Encounter.
   */
  function BasicEntries(p: Patient, hospitalId: string, adm: Admission, seen: map<string, string>, withTransfers: bool,
                        ids: EncounterIds, r: Round): seq<Entry>
  {
    IdentityEntries(p, hospitalId, adm)
    + TransferChain(adm.transfers, seen, withTransfers, ids, r)
    + [ConditionalEntry(Resource("Encounter", adm.encounterId, None), IdentifierCondition(adm.encounterIdentifier))]
  }

  /** The Locations and transfer Encounters of the wards not in `seen`, when the chain is built at all. */
  function TransferChain(ts: seq<Transfer>, seen: map<string, string>, withTransfers: bool, ids: EncounterIds, r: Round): seq<Entry>
  {
    if withTransfers then WardEntries(Dedup.FirstSightings(ts, WardKey, LocationId, seen), ids, r) else []
  }

  /** The ward memory after the transfer chain was built. */
  function ChainMemory(ts: seq<Transfer>, seen: map<string, string>, withTransfers: bool): map<string, string>
  {
    if withTransfers then Dedup.Remember(ts, WardKey, LocationId, seen) else seen
  }

  /** Patient, hospital, Conditions and Procedures. */
  function IdentityEntries(p: Patient, hospitalId: string, adm: Admission): seq<Entry>
  {
    [ConditionalEntry(Resource("Patient", p.id, None), IdentifierCondition(p.identifier)),
     ConditionalEntry(Resource("Organization", hospitalId, None), IdentifierCondition(HospitalIdentifier))]
    + RankedEntries("Condition", adm.conditions)
    + RankedEntries("Procedure", adm.procedures)
  }

  /** The start of the first bundle of an admission: the basic entries, each new medication, every administration. */
  function FirstBundle(p: Patient, hospitalId: string, adm: Admission, withTransfers: bool, ids: EncounterIds, r: Round): seq<Entry>
  {
    var ps := adm.prescriptions;
    BasicEntries(p, hospitalId, adm, map[], withTransfers, ids, r)
    + MedicationEntries(Dedup.FirstSightings(ps, MedicationCode, MedicationId, map[]))
    + AdministrationEntries(ps, Dedup.Remember(ps, MedicationCode, MedicationId, map[]))
  }

  lemma EntriesAssoc(a: seq<Entry>, b: seq<Entry>, c: seq<Entry>)
    ensures (a + b) + c == a + (b + c)
  {
  }

  /**
   * The basic part replayed into bundle `n` of patient `numPat`, with a fresh
   * memory: its transfer Encounters carry the ids drawn in that build.
   */
  function Replay(p: Patient, hospitalId: string, adm: Admission, withTransfers: bool, ids: EncounterIds, numPat: nat): nat -> seq<Entry>
  {
    (n: nat) => BasicEntries(p, hospitalId, adm, map[], withTransfers, ids, Round(numPat, n))
  }

  /** One more transfer of the chain, as the loop of `AddTransfers` takes it. */
  lemma WardStep(ts: seq<Transfer>, i: nat, m0: map<string, string>, ids: EncounterIds, r: Round)
    requires i < |ts|
    ensures var before := Dedup.Remember(ts[..i], WardKey, LocationId, m0);
            ts[i].ward.value in before ==>
              && Dedup.Remember(ts[..i + 1], WardKey, LocationId, m0) == before
              && Dedup.FirstSightings(ts[..i + 1], WardKey, LocationId, m0) == Dedup.FirstSightings(ts[..i], WardKey, LocationId, m0)
    ensures var before := Dedup.Remember(ts[..i], WardKey, LocationId, m0);
            var t := ts[i];
            t.ward.value !in before ==>
              && Dedup.Remember(ts[..i + 1], WardKey, LocationId, m0) == before[t.ward.value := t.locationId]
              && WardEntries(Dedup.FirstSightings(ts[..i + 1], WardKey, LocationId, m0), ids, r)
                 == WardEntries(Dedup.FirstSightings(ts[..i], WardKey, LocationId, m0), ids, r)
                    + [ConditionalEntry(Resource("Location", t.locationId, None), IdentifierCondition(t.ward)), TransferEncounter(ids, r, t)]
  {
    var t := ts[i];
    assert ts[..i + 1] == ts[..i] + [t];
    Dedup.VisitOneMore(ts[..i], t, WardKey, LocationId, m0);
    var ws := Dedup.FirstSightings(ts[..i], WardKey, LocationId, m0);
    assert (ws + [t])[..|ws|] == ws;
  }

  /** One more prescription, as the loop of `AddMedications` takes it. */
  lemma MedicationStep(ps: seq<Prescription>, i: nat, m0: map<string, string>)
    requires i < |ps|
    ensures var before := Dedup.Remember(ps[..i], MedicationCode, MedicationId, m0);
            ps[i].code in before ==>
              && Dedup.Remember(ps[..i + 1], MedicationCode, MedicationId, m0) == before
              && Dedup.FirstSightings(ps[..i + 1], MedicationCode, MedicationId, m0)
                 == Dedup.FirstSightings(ps[..i], MedicationCode, MedicationId, m0)
    ensures var before := Dedup.Remember(ps[..i], MedicationCode, MedicationId, m0);
            var p := ps[i];
            p.code !in before ==>
              && Dedup.Remember(ps[..i + 1], MedicationCode, MedicationId, m0) == before[p.code := p.medicationId]
              && MedicationEntries(Dedup.FirstSightings(ps[..i + 1], MedicationCode, MedicationId, m0))
                 == MedicationEntries(Dedup.FirstSightings(ps[..i], MedicationCode, MedicationId, m0))
                    + [ConditionalEntry(Resource("Medication", p.medicationId, None), "code=" + p.code)]
  {
    var p := ps[i];
    assert ps[..i + 1] == ps[..i] + [p];
    Dedup.VisitOneMore(ps[..i], p, MedicationCode, MedicationId, m0);
    var ms := Dedup.FirstSightings(ps[..i], MedicationCode, MedicationId, m0);
    assert (ms + [p])[..|ms|] == ms;
  }

  lemma Regroup<T>(a: seq<T>, b: seq<T>, c: seq<T>, d: seq<T>, e: seq<T>)
    ensures a + b + c + d + e == a + (b + c + d + e)
  {
  }

  /**
   * The messages `log` sent since `log0` while a bundle numbered `n0` and
   * starting as `e0` was filled: each was over the limit, the first continues
   * `e0`, and every later one and the bundle `current` still open start with
   * `basic` of their own bundle number, which counts up from `n0`.
   */
  ghost predicate Continues(log0: seq<Message>, e0: seq<Entry>, basic: nat -> seq<Entry>, n0: nat, log: seq<Message>, current: seq<Entry>)
  {
    && |log| >= |log0| && log[..|log0|] == log0
    && (forall k :: |log0| <= k < |log| ==> |log[k].bundle.entry| > BundleLimit)
    && (|log| == |log0| ==> e0 <= current)
    && (|log| > |log0| ==> e0 <= log[|log0|].bundle.entry && basic(n0 + |log| - |log0|) <= current)
    && (forall k :: |log0| < k < |log| ==> basic(n0 + k - |log0|) <= log[k].bundle.entry)
  }

  lemma ContinuesAppend(log0: seq<Message>, e0: seq<Entry>, basic: nat -> seq<Entry>, n0: nat, log: seq<Message>, current: seq<Entry>, e: Entry)
    requires Continues(log0, e0, basic, n0, log, current)
    ensures Continues(log0, e0, basic, n0, log, current + [e])
  {
  }

  lemma ContinuesFlush(log0: seq<Message>, e0: seq<Entry>, basic: nat -> seq<Entry>, n0: nat, log: seq<Message>, current: seq<Entry>, tag: string)
    requires Continues(log0, e0, basic, n0, log, current) && |current| > BundleLimit
    ensures Continues(log0, e0, basic, n0, log + [Message(tag, Bundle(TRANSACTION, current))], basic(n0 + |log| + 1 - |log0|))
  {
    var log' := log + [Message(tag, Bundle(TRANSACTION, current))];
    assert log'[..|log0|] == log[..|log0|];
  }

  /** The flushes made since `fs0`, all of patient `numPat` and admission `admissionIndex`. */
  ghost predicate FlushesOf(fs0: seq<Flush>, fs: seq<Flush>, numPat: nat, admissionIndex: nat)
  {
    |fs| >= |fs0| && fs[..|fs0|] == fs0
    && forall k :: |fs0| <= k < |fs| ==> fs[k].patient == numPat && fs[k].admission == Some(admissionIndex)
  }

  lemma FlushesOfAppend(fs0: seq<Flush>, fs: seq<Flush>, numPat: nat, admissionIndex: nat, f: Flush)
    requires FlushesOf(fs0, fs, numPat, admissionIndex)
    requires f.patient == numPat && f.admission == Some(admissionIndex)
    ensures FlushesOf(fs0, fs + [f], numPat, admissionIndex)
  {
    assert (fs + [f])[..|fs0|] == fs[..|fs0|];
  }

  /**
   * The messages of one admission, sent after `log0` from bundle number `n0`
   * on: at least one; the first starts with `first`, every later one with
   * `basic` of its own bundle number, and all but the last were sent because
   * they were over the limit.
   */
  ghost predicate AdmissionMessages(log0: seq<Message>, log: seq<Message>, first: seq<Entry>, basic: nat -> seq<Entry>, n0: nat)
  {
    && |log| > |log0| && log[..|log0|] == log0
    && first <= log[|log0|].bundle.entry
    && (forall k :: |log0| < k < |log| ==> basic(n0 + k - |log0|) <= log[k].bundle.entry)
    && (forall k :: |log0| <= k < |log| - 1 ==> |log[k].bundle.entry| > BundleLimit)
  }

  lemma ContinuesClose(log0: seq<Message>, e0: seq<Entry>, basic: nat -> seq<Entry>, n0: nat, log: seq<Message>, current: seq<Entry>, tag: string)
    requires Continues(log0, e0, basic, n0, log, current)
    ensures AdmissionMessages(log0, log + [Message(tag, Bundle(TRANSACTION, current))], e0, basic, n0)
  {
    var log' := log + [Message(tag, Bundle(TRANSACTION, current))];
    assert log'[..|log0|] == log[..|log0|];
  }

  /**
   * The flushes of one patient made after `fs0` while its first `admissions`
   * admissions were converted: all of that patient, the imaging bundle (if
   * any) first and only there, every admission with at least one flush.
   */
  ghost predicate PatientFlushes(fs0: seq<Flush>, fs: seq<Flush>, numPat: nat, admissions: nat, imaging: bool)
  {
    && |fs| >= |fs0| && fs[..|fs0|] == fs0
    && (forall k :: |fs0| <= k < |fs| ==> fs[k].patient == numPat)
    && (forall k :: |fs0| <= k < |fs| && fs[k].admission.None? ==> k == |fs0| && imaging)
    && (forall k :: |fs0| <= k < |fs| && fs[k].admission.Some? ==> 1 <= fs[k].admission.value <= admissions)
    && (forall a :: 1 <= a <= admissions ==> HasAdmission(fs, |fs0|, a))
    && (imaging ==> |fs| > |fs0| && fs[|fs0|].admission == None)
  }

  lemma PatientFlushesStart(fs0: seq<Flush>, numPat: nat)
    ensures PatientFlushes(fs0, fs0, numPat, 0, false)
  {
    assert fs0[..|fs0|] == fs0;
  }

  lemma PatientFlushesImaging(fs0: seq<Flush>, numPat: nat, f: Flush)
    requires f.patient == numPat && f.admission == None
    ensures PatientFlushes(fs0, fs0 + [f], numPat, 0, true)
  {
    assert (fs0 + [f])[..|fs0|] == fs0;
  }

  /** The imaging bundle a patient sends first, if any. */
  function ImagingBundle(p: Patient, useCxr: bool): Option<seq<Entry>>
  {
    if useCxr && |p.diagnosticReports| > 0 then Some(ReportEntries(p.diagnosticReports)) else None
  }

  /**
   * Where the conversion of a patient throws: the Patient resource, a
   * DiagnosticReport or the loading of the patient (`PatientFails`, nothing
   * is sent), or one of the resources of the admission with 0-based index
   * `index` (`AdmissionFails`). Every resource of an admission is built
   * before the admission touches the bundle, so the earlier admissions are
   * sent in full and nothing of this one is.
   */
  datatype Failure = PatientFails | AdmissionFails(index: nat)

  /** How many admissions of `p` are sent before the failure, if any, ends the conversion. */
  function AdmissionsSent(p: Patient, failure: Option<Failure>): (n: nat)
    ensures n <= |p.admissions|
  {
    match failure
    case None => |p.admissions|
    case Some(PatientFails) => 0
    case Some(AdmissionFails(k)) => if k < |p.admissions| then k else |p.admissions|
  }

  /** The conversion of `p` runs to its end: no failure, or one at an admission `p` does not have. */
  predicate Completes(p: Patient, failure: Option<Failure>)
  {
    failure.None? || (failure.value.AdmissionFails? && failure.value.index >= |p.admissions|)
  }

  /** The imaging bundle is sent: reports present and enabled, and the patient got that far. */
  predicate ReportsSent(p: Patient, useCxr: bool, failure: Option<Failure>)
  {
    useCxr && |p.diagnosticReports| > 0 && failure != Some(PatientFails)
  }

  /** A failure ends the patient early exactly when it is not one that never happens. */
  lemma CompletesSendsAll(p: Patient, failure: Option<Failure>)
    ensures Completes(p, failure) ==> AdmissionsSent(p, failure) == |p.admissions|
    ensures !Completes(p, failure) ==> AdmissionsSent(p, failure) < |p.admissions| || failure == Some(PatientFails)
  {
  }

  /** `log` extends `log0`, and its first new message holds `first`, when given. */
  ghost predicate Extends(log0: seq<Message>, log: seq<Message>, first: Option<seq<Entry>>)
  {
    |log| >= |log0| && log[..|log0|] == log0
    && (first.Some? ==> |log| > |log0| && log[|log0|].bundle.entry == first.value)
  }

  lemma ExtendsMore(log0: seq<Message>, log: seq<Message>, log': seq<Message>, first: Option<seq<Entry>>)
    requires Extends(log0, log, first) && |log'| >= |log| && log'[..|log|] == log
    ensures Extends(log0, log', first)
  {
    assert log'[..|log0|] == log'[..|log|][..|log0|];
    if first.Some? {
      assert log'[|log0|] == log'[..|log|][|log0|];
    }
  }

  ghost predicate HasAdmission(fs: seq<Flush>, from: nat, a: nat)
  {
    exists k :: from <= k < |fs| && fs[k].admission == Some(a)
  }

  lemma PatientFlushesStep(fs0: seq<Flush>, fs: seq<Flush>, fs': seq<Flush>, numPat: nat, done: nat, imaging: bool)
    requires PatientFlushes(fs0, fs, numPat, done, imaging)
    requires FlushesOf(fs, fs', numPat, done + 1) && |fs'| > |fs|
    ensures PatientFlushes(fs0, fs', numPat, done + 1, imaging)
  {
    assert fs'[..|fs0|] == fs[..|fs0|];
    forall a | 1 <= a <= done + 1
      ensures HasAdmission(fs', |fs0|, a)
    {
      if a == done + 1 {
        assert fs'[|fs|].admission == Some(a);
      } else {
        assert HasAdmission(fs, |fs0|, a);
        var k :| |fs0| <= k < |fs| && fs[k].admission == Some(a);
        assert fs'[k] == fs'[..|fs|][k];
      }
    }
  }

  /** The Practitioner and, when present, the PractitionerRole of a caregiver. */
  function CaregiverEntries(pr: Practitioner, role: Option<Role>): seq<Entry>
  {
    [ConditionalEntry(Resource("Practitioner", pr.id, None), IdentifierCondition(pr.identifier))]
    + match role
      case None => []
      case Some(r) => [ConditionalEntry(Resource("PractitionerRole", r.id, None), IdentifierCondition(r.identifier))]
  }

  /** A Practitioner as built from a caregiver. */
  datatype Practitioner = Practitioner(id: string, identifier: Identifier)

  /** A PractitionerRole as built from a caregiver (when one was found). */
  datatype Role = Role(id: string, identifier: Identifier)

  class Converter {
    const bundleC: Controller
    /** FHIRTransformer always adds the transfer chain; Mimic4Fhir only under the KDS specification. */
    const transfersInBasicBundle: bool
    const useCxr: bool
    /** The ids drawn for transfer Encounters, an input of the model. */
    const encounterIds: EncounterIds
    var hospitalId: string
    /** The messages handed to the queue sender, in order. */
    var sent: seq<Message>
    ghost var flushes: seq<Flush>
    var locationsInBundle: map<string, string>
    var caregiversInBundle: map<string, string>
    var medicationInBundle: map<string, string>
    /** The diagnosis and location lists of the current admission Encounter. */
    var encounterDiagnosis: seq<DiagnosisComponent>
    var encounterLocation: seq<string>

    /** Every message is labelled by its flush, and the flushes are in increasing order. */
    ghost predicate Valid()
      reads this`sent, this`flushes, bundleC
    {
      bundleC.Valid() && Labelled(sent, flushes) && Increasing(flushes)
    }

    /** A flush of patient `numPat` with the current bundle number would come after every earlier one. */
    ghost predicate FreshFor(numPat: nat)
      reads this`flushes, bundleC`internalBundleNumber
    {
      flushes == []
      || flushes[|flushes| - 1].patient < numPat
      || (flushes[|flushes| - 1].patient == numPat
          && flushes[|flushes| - 1].bundleNumber < bundleC.internalBundleNumber)
    }

    /** Between admissions: an empty bundle and empty memory maps. */
    ghost predicate Idle()
      reads this, bundleC
    {
      bundleC.transactionBundle.entry == []
      && locationsInBundle == map[] && caregiversInBundle == map[] && medicationInBundle == map[]
    }

    constructor (transfersInBasicBundle: bool, useCxr: bool, hospitalId: string, encounterIds: EncounterIds)
      ensures Valid() && Idle() && fresh(bundleC)
      ensures this.transfersInBasicBundle == transfersInBasicBundle && this.useCxr == useCxr
      ensures this.hospitalId == hospitalId && this.encounterIds == encounterIds
      ensures sent == [] && flushes == [] && bundleC.internalBundleNumber == 1
    {
      bundleC := new Controller();
      this.transfersInBasicBundle := transfersInBasicBundle;
      this.useCxr := useCxr;
      this.hospitalId := hospitalId;
      this.encounterIds := encounterIds;
      sent := [];
      flushes := [];
      locationsInBundle := map[];
      caregiversInBundle := map[];
      medicationInBundle := map[];
      encounterDiagnosis := [];
      encounterLocation := [];
    }

    method ResetMemoryLists()
      modifies this`caregiversInBundle, this`locationsInBundle, this`medicationInBundle
      ensures caregiversInBundle == map[] && locationsInBundle == map[] && medicationInBundle == map[]
    {
      caregiversInBundle := map[];
      locationsInBundle := map[];
      medicationInBundle := map[];
    }

    /** Sends the current bundle labelled by its flush and starts a new bundle. */
    method FlushBundle(numPat: nat, admissionIndex: Option<nat>)
      requires Valid() && FreshFor(numPat)
      modifies this`sent, this`flushes, bundleC
      ensures Valid() && FreshFor(numPat)
      ensures flushes == old(flushes) + [Flush(numPat, admissionIndex, old(bundleC.internalBundleNumber))]
      ensures sent == old(sent) + [Message(Label(flushes[|flushes| - 1]), old(bundleC.transactionBundle))]
      ensures bundleC.transactionBundle.entry == []
      ensures bundleC.internalBundleNumber == old(bundleC.internalBundleNumber) + 1
    {
      var n := bundleC.GetInternalBundleNumber();
      var b := bundleC.GetTransactionBundle();
      var f := Flush(numPat, admissionIndex, n);
      IncreasingAppend(flushes, f);
      LabelledAppend(sent, flushes, f, b);
      sent := sent + [Message(Label(f), b)];
      flushes := flushes + [f];
      bundleC.ResetBundle();
    }

    method AddRankedResources(fhirType: string, rs: seq<Ranked>)
      requires bundleC.Valid()
      modifies bundleC, this`encounterDiagnosis
      ensures bundleC.Valid()
      ensures bundleC.transactionBundle.entry == old(bundleC.transactionBundle.entry) + RankedEntries(fhirType, rs)
      ensures encounterDiagnosis == old(encounterDiagnosis) + Components(rs)
      ensures bundleC.internalBundleNumber == old(bundleC.internalBundleNumber)
    {
      var i := 0;
      while i < |rs|
        invariant 0 <= i <= |rs|
        invariant bundleC.Valid()
        invariant bundleC.transactionBundle.entry == old(bundleC.transactionBundle.entry) + RankedEntries(fhirType, rs[..i])
        invariant encounterDiagnosis == old(encounterDiagnosis) + Components(rs[..i])
        invariant bundleC.internalBundleNumber == old(bundleC.internalBundleNumber)
      {
        var r := rs[i];
        encounterDiagnosis := encounterDiagnosis + [DiagnosisComponent(r.id, r.seqNumber)];
        bundleC.AddUuidResourceWithConditionToBundle(Resource(fhirType, r.id, None), IdentifierCondition(r.identifier));
        assert rs[..i + 1][..i] == rs[..i];
        i := i + 1;
      }
      assert rs[..|rs|] == rs;
    }

    /**
     * The transfer chain of build `r`: a ward seen for the first time in this
     * bundle adds its Location and the transfer Encounter built for it now.
     */
    method AddTransfers(ts: seq<Transfer>, r: Round)
      requires bundleC.Valid()
      modifies bundleC, this`locationsInBundle
      ensures bundleC.Valid()
      ensures bundleC.transactionBundle.entry
              == old(bundleC.transactionBundle.entry) + WardEntries(Dedup.FirstSightings(ts, WardKey, LocationId, old(locationsInBundle)), encounterIds, r)
      ensures locationsInBundle == Dedup.Remember(ts, WardKey, LocationId, old(locationsInBundle))
      ensures bundleC.internalBundleNumber == old(bundleC.internalBundleNumber)
    {
      ghost var m0 := locationsInBundle;
      var i := 0;
      while i < |ts|
        invariant 0 <= i <= |ts|
        invariant bundleC.Valid()
        invariant bundleC.transactionBundle.entry
                  == old(bundleC.transactionBundle.entry) + WardEntries(Dedup.FirstSightings(ts[..i], WardKey, LocationId, m0), encounterIds, r)
        invariant locationsInBundle == Dedup.Remember(ts[..i], WardKey, LocationId, m0)
        invariant bundleC.internalBundleNumber == old(bundleC.internalBundleNumber)
      {
        var t := ts[i];
        WardStep(ts, i, m0, encounterIds, r);
        if t.ward.value !in locationsInBundle {
          ghost var w := WardEntries(Dedup.FirstSightings(ts[..i], WardKey, LocationId, m0), encounterIds, r);
          locationsInBundle := locationsInBundle[t.ward.value := t.locationId];
          var location := Resource("Location", t.locationId, None);
          var encounter := Resource("Encounter", encounterIds(r, t), None);
          bundleC.AddUuidResourceWithConditionToBundle(location, IdentifierCondition(t.ward));
          bundleC.AddUuidResourceWithConditionToBundle(encounter, IdentifierCondition(MissingIdentifier));
          ghost var added := [ConditionalEntry(location, IdentifierCondition(t.ward)),
                              ConditionalEntry(encounter, IdentifierCondition(MissingIdentifier))];
          EntriesAssoc(old(bundleC.transactionBundle.entry), w, added);
        }
        i := i + 1;
      }
      assert ts[..|ts|] == ts;
    }

    method AddIdentity(p: Patient, adm: Admission)
      requires bundleC.Valid()
      modifies bundleC, this`encounterDiagnosis
      ensures bundleC.Valid()
      ensures bundleC.transactionBundle.entry == old(bundleC.transactionBundle.entry) + IdentityEntries(p, hospitalId, adm)
      ensures bundleC.internalBundleNumber == old(bundleC.internalBundleNumber)
      ensures encounterDiagnosis == Diagnoses(adm)
    {
      ghost var e0 := bundleC.transactionBundle.entry;
      bundleC.AddUuidResourceWithConditionToBundle(Resource("Patient", p.id, None), IdentifierCondition(p.identifier));
      bundleC.AddUuidResourceWithConditionToBundle(Resource("Organization", hospitalId, None), IdentifierCondition(HospitalIdentifier));
      encounterDiagnosis := [];
      AddRankedResources("Condition", adm.conditions);
      AddRankedResources("Procedure", adm.procedures);
      assert [] + Components(adm.conditions) == Components(adm.conditions);
      Regroup(e0, IdentityEntries(p, hospitalId, adm)[..2], RankedEntries("Condition", adm.conditions),
              RankedEntries("Procedure", adm.procedures), []);
    }

    method AddTransferChain(ts: seq<Transfer>, r: Round)
      requires bundleC.Valid()
      modifies bundleC, this`locationsInBundle
      ensures bundleC.Valid()
      ensures bundleC.transactionBundle.entry
              == old(bundleC.transactionBundle.entry) + TransferChain(ts, old(locationsInBundle), transfersInBasicBundle, encounterIds, r)
      ensures locationsInBundle == ChainMemory(ts, old(locationsInBundle), transfersInBasicBundle)
      ensures bundleC.internalBundleNumber == old(bundleC.internalBundleNumber)
    {
      if transfersInBasicBundle {
        AddTransfers(ts, r);
      }
    }

    /**
     * Builds the identity part of bundle number `internalBundleNumber` of
     * patient `numPat`; the Encounter's diagnosis list is rebuilt and its
     * location list emptied.
     */
    method CreateBasicBundle(p: Patient, adm: Admission, numPat: nat)
      requires bundleC.Valid()
      modifies bundleC, this`encounterDiagnosis, this`encounterLocation, this`locationsInBundle
      ensures bundleC.Valid()
      ensures bundleC.transactionBundle.entry
              == old(bundleC.transactionBundle.entry)
                 + BasicEntries(p, hospitalId, adm, old(locationsInBundle), transfersInBasicBundle, encounterIds, Round(numPat, bundleC.internalBundleNumber))
      ensures bundleC.internalBundleNumber == old(bundleC.internalBundleNumber)
      ensures locationsInBundle == ChainMemory(adm.transfers, old(locationsInBundle), transfersInBasicBundle)
      ensures encounterDiagnosis == Diagnoses(adm) && encounterLocation == []
    {
      ghost var e0 := bundleC.transactionBundle.entry;
      var number := bundleC.GetInternalBundleNumber();
      var r := Round(numPat, number);
      ghost var chain := TransferChain(adm.transfers, locationsInBundle, transfersInBasicBundle, encounterIds, r);
      encounterLocation := [];
      AddIdentity(p, adm);
      AddTransferChain(adm.transfers, r);
      var encounter := Resource("Encounter", adm.encounterId, None);
      bundleC.AddUuidResourceWithConditionToBundle(encounter, IdentifierCondition(adm.encounterIdentifier));
      Regroup(e0, IdentityEntries(p, hospitalId, adm), chain, [ConditionalEntry(encounter, IdentifierCondition(adm.encounterIdentifier))], []);
    }

    /** Adds each medication whose code is not yet in this bundle, as a conditional create on its code. */
    method AddMedications(ps: seq<Prescription>)
      requires bundleC.Valid()
      modifies bundleC, this`medicationInBundle
      ensures bundleC.Valid()
      ensures bundleC.transactionBundle.entry
              == old(bundleC.transactionBundle.entry) + MedicationEntries(Dedup.FirstSightings(ps, MedicationCode, MedicationId, old(medicationInBundle)))
      ensures medicationInBundle == Dedup.Remember(ps, MedicationCode, MedicationId, old(medicationInBundle))
      ensures bundleC.internalBundleNumber == old(bundleC.internalBundleNumber)
    {
      ghost var m0 := medicationInBundle;
      var i := 0;
      while i < |ps|
        invariant 0 <= i <= |ps|
        invariant bundleC.Valid()
        invariant bundleC.transactionBundle.entry
                  == old(bundleC.transactionBundle.entry) + MedicationEntries(Dedup.FirstSightings(ps[..i], MedicationCode, MedicationId, m0))
        invariant medicationInBundle == Dedup.Remember(ps[..i], MedicationCode, MedicationId, m0)
        invariant bundleC.internalBundleNumber == old(bundleC.internalBundleNumber)
      {
        var med := ps[i];
        MedicationStep(ps, i, m0);
        if med.code !in medicationInBundle {
          ghost var w := MedicationEntries(Dedup.FirstSightings(ps[..i], MedicationCode, MedicationId, m0));
          var medication := Resource("Medication", med.medicationId, None);
          bundleC.AddUuidResourceWithConditionToBundle(medication, "code=" + med.code);
          medicationInBundle := medicationInBundle[med.code := med.medicationId];
          assert bundleC.transactionBundle.entry
              == old(bundleC.transactionBundle.entry) + (w + [ConditionalEntry(medication, "code=" + med.code)]);
        }
        i := i + 1;
      }
      assert ps[..|ps|] == ps;
    }

    /** Adds every administration, referencing the Medication id stored for its code. */
    method AddAdministrations(ps: seq<Prescription>)
      requires bundleC.Valid()
      modifies bundleC
      ensures bundleC.Valid()
      ensures bundleC.transactionBundle.entry
              == old(bundleC.transactionBundle.entry) + AdministrationEntries(ps, medicationInBundle)
      ensures bundleC.internalBundleNumber == old(bundleC.internalBundleNumber)
    {
      var i := 0;
      while i < |ps|
        invariant 0 <= i <= |ps|
        invariant bundleC.Valid()
        invariant bundleC.transactionBundle.entry
                  == old(bundleC.transactionBundle.entry) + AdministrationEntries(ps[..i], medicationInBundle)
        invariant bundleC.internalBundleNumber == old(bundleC.internalBundleNumber)
      {
        var madm := ps[i];
        var medId := Lookup(medicationInBundle, madm.code);
        bundleC.AddUuidResourceToBundle(Resource("MedicationAdministration", madm.administrationId, medId));
        assert ps[..i + 1][..i] == ps[..i];
        i := i + 1;
      }
      assert ps[..|ps|] == ps;
    }
  
    /** A bundle over the limit is sent, memory is cleared and the basic part of the admission replayed into a new bundle. */
    method CheckBundleLimit(numPat: nat, admissionIndex: nat, p: Patient, adm: Admission)
      requires Valid() && FreshFor(numPat)
      modifies this`sent, this`flushes, this`encounterDiagnosis, this`encounterLocation,
               this`locationsInBundle, this`caregiversInBundle, this`medicationInBundle, bundleC
      ensures Valid() && FreshFor(numPat)
      ensures old(bundleC.numberOfResources) <= BundleLimit ==>
                sent == old(sent) && flushes == old(flushes)
                && bundleC.transactionBundle == old(bundleC.transactionBundle)
                && bundleC.internalBundleNumber == old(bundleC.internalBundleNumber)
                && locationsInBundle == old(locationsInBundle) && caregiversInBundle == old(caregiversInBundle)
                && medicationInBundle == old(medicationInBundle)
      ensures old(bundleC.numberOfResources) > BundleLimit ==>
                && flushes == old(flushes) + [Flush(numPat, Some(admissionIndex), old(bundleC.internalBundleNumber))]
                && sent == old(sent) + [Message(Label(flushes[|flushes| - 1]), old(bundleC.transactionBundle))]
                && bundleC.internalBundleNumber == old(bundleC.internalBundleNumber) + 1
                && bundleC.transactionBundle.entry
                   == BasicEntries(p, hospitalId, adm, map[], transfersInBasicBundle, encounterIds, Round(numPat, bundleC.internalBundleNumber))
                && locationsInBundle == ChainMemory(adm.transfers, map[], transfersInBasicBundle)
                && medicationInBundle == map[] && caregiversInBundle == map[]
    {
      var n := bundleC.GetNumberOfResources();
      if n > BundleLimit {
        FlushBundle(numPat, Some(admissionIndex));
        ResetMemoryLists();
        CreateBasicBundle(p, adm, numPat);
      }
    }

    /** One observation of the loops: the limit check, then the observation itself. */
    method AddObservation(numPat: nat, admissionIndex: nat, p: Patient, adm: Admission, id: string,
                          ghost log0: seq<Message>, ghost e0: seq<Entry>, ghost basic: nat -> seq<Entry>, ghost n0: nat,
                          ghost fs0: seq<Flush>)
      requires Valid() && FreshFor(numPat)
      requires basic == Replay(p, hospitalId, adm, transfersInBasicBundle, encounterIds, numPat)
      requires Continues(log0, e0, basic, n0, sent, bundleC.transactionBundle.entry)
      requires bundleC.internalBundleNumber == n0 + |sent| - |log0|
      requires FlushesOf(fs0, flushes, numPat, admissionIndex)
      modifies this`sent, this`flushes, this`encounterDiagnosis, this`encounterLocation,
               this`locationsInBundle, this`caregiversInBundle, this`medicationInBundle, bundleC
      ensures Valid() && FreshFor(numPat)
      ensures Continues(log0, e0, basic, n0, sent, bundleC.transactionBundle.entry)
      ensures bundleC.internalBundleNumber == n0 + |sent| - |log0|
      ensures FlushesOf(fs0, flushes, numPat, admissionIndex)
    {
      ghost var log, fs, current := sent, flushes, bundleC.transactionBundle.entry;
      CheckBundleLimit(numPat, admissionIndex, p, adm);
      if |sent| != |log| {
        assert basic(n0 + |log| + 1 - |log0|) == bundleC.transactionBundle.entry;
        ContinuesFlush(log0, e0, basic, n0, log, current, sent[|log|].number);
        FlushesOfAppend(fs0, fs, numPat, admissionIndex, flushes[|fs|]);
      }
      AppendObservation(numPat, id, log0, e0, basic, n0);
    }

    /** The observation itself, after the limit check. */
    method AppendObservation(numPat: nat, id: string, ghost log0: seq<Message>, ghost e0: seq<Entry>, ghost basic: nat -> seq<Entry>,
                             ghost n0: nat)
      requires Valid() && FreshFor(numPat)
      requires Continues(log0, e0, basic, n0, sent, bundleC.transactionBundle.entry)
      modifies bundleC
      ensures Valid() && FreshFor(numPat)
      ensures Continues(log0, e0, basic, n0, sent, bundleC.transactionBundle.entry)
      ensures bundleC.internalBundleNumber == old(bundleC.internalBundleNumber)
    {
      ghost var checked := bundleC.transactionBundle.entry;
      var o := Resource("Observation", id, None);
      bundleC.AddResourceToBundle(o);
      ContinuesAppend(log0, e0, basic, n0, sent, checked, PlainEntry(o));
    }

    /**
     * The observation loops: each observation first checks the limit and is
     * then appended. Every bundle sent on the way is over the limit, the
     * first continues the bundle the loop started with, and each later one
     * and the bundle left open begin with the basic part replayed into it.
     */
    method AddObservations(numPat: nat, admissionIndex: nat, p: Patient, adm: Admission, ids: seq<string>)
      requires Valid() && FreshFor(numPat)
      modifies this`sent, this`flushes, this`encounterDiagnosis, this`encounterLocation,
               this`locationsInBundle, this`caregiversInBundle, this`medicationInBundle, bundleC
      ensures Valid() && FreshFor(numPat)
      ensures Continues(old(sent), old(bundleC.transactionBundle.entry),
                        Replay(p, hospitalId, adm, transfersInBasicBundle, encounterIds, numPat), old(bundleC.internalBundleNumber),
                        sent, bundleC.transactionBundle.entry)
      ensures bundleC.internalBundleNumber == old(bundleC.internalBundleNumber) + |sent| - old(|sent|)
      ensures FlushesOf(old(flushes), flushes, numPat, admissionIndex)
    {
      ghost var e0 := bundleC.transactionBundle.entry;
      ghost var n0: nat := bundleC.internalBundleNumber;
      ghost var basic := Replay(p, hospitalId, adm, transfersInBasicBundle, encounterIds, numPat);
      var i := 0;
      while i < |ids|
        invariant 0 <= i <= |ids|
        invariant Valid() && FreshFor(numPat)
        invariant Continues(old(sent), e0, basic, n0, sent, bundleC.transactionBundle.entry)
        invariant bundleC.internalBundleNumber == n0 + |sent| - old(|sent|)
        invariant FlushesOf(old(flushes), flushes, numPat, admissionIndex)
      {
        AddObservation(numPat, admissionIndex, p, adm, ids[i], old(sent), e0, basic, n0, old(flushes));
        i := i + 1;
      }
    }

    /** The part of an admission's first bundle (of patient `numPat`) that precedes the observations. */
    method StartAdmission(p: Patient, adm: Admission, numPat: nat)
      requires Valid() && Idle()
      modifies this`encounterDiagnosis, this`encounterLocation, this`locationsInBundle, this`medicationInBundle, bundleC
      ensures Valid()
      ensures bundleC.internalBundleNumber == old(bundleC.internalBundleNumber)
      ensures bundleC.transactionBundle.entry
              == FirstBundle(p, hospitalId, adm, transfersInBasicBundle, encounterIds, Round(numPat, bundleC.internalBundleNumber))
    {
      var ps := adm.prescriptions;
      ghost var basic := BasicEntries(p, hospitalId, adm, map[], transfersInBasicBundle, encounterIds, Round(numPat, bundleC.internalBundleNumber));
      ghost var meds := MedicationEntries(Dedup.FirstSightings(ps, MedicationCode, MedicationId, map[]));
      ghost var admins := AdministrationEntries(ps, Dedup.Remember(ps, MedicationCode, MedicationId, map[]));
      CreateBasicBundle(p, adm, numPat);
      assert bundleC.transactionBundle.entry == basic;
      AddMedications(ps);
      assert bundleC.transactionBundle.entry == basic + meds;
      AddAdministrations(ps);
      assert bundleC.transactionBundle.entry == basic + meds + admins;
    }

    /** One admission: basic part, medications, administrations, observations, and the final flush. */
    method ProcessAdmission(p: Patient, adm: Admission, numPat: nat, admissionIndex: nat)
      requires Valid() && Idle() && FreshFor(numPat)
      modifies this`sent, this`flushes, this`encounterDiagnosis, this`encounterLocation,
               this`locationsInBundle, this`caregiversInBundle, this`medicationInBundle, bundleC
      ensures Valid() && Idle() && FreshFor(numPat)
      ensures FlushesOf(old(flushes), flushes, numPat, admissionIndex) && |flushes| > old(|flushes|)
      ensures AdmissionMessages(old(sent), sent,
                                FirstBundle(p, hospitalId, adm, transfersInBasicBundle, encounterIds, Round(numPat, old(bundleC.internalBundleNumber))),
                                Replay(p, hospitalId, adm, transfersInBasicBundle, encounterIds, numPat), old(bundleC.internalBundleNumber))
    {
      ghost var n0: nat := bundleC.internalBundleNumber;
      StartAdmission(p, adm, numPat);
      ghost var first := bundleC.transactionBundle.entry;
      // the chart observations and then the lab observations, each behind a limit check
      AddObservations(numPat, admissionIndex, p, adm, adm.chartObservations + adm.labObservations);
      CloseAdmission(numPat, admissionIndex, old(sent), first, Replay(p, hospitalId, adm, transfersInBasicBundle, encounterIds, numPat), n0,
                     old(flushes));
    }

    /** The end of an admission: its last bundle is sent whatever its size, and the memory maps are cleared. */
    method CloseAdmission(numPat: nat, admissionIndex: nat, ghost log0: seq<Message>, ghost first: seq<Entry>,
                          ghost basic: nat -> seq<Entry>, ghost n0: nat, ghost fs0: seq<Flush>)
      requires Valid() && FreshFor(numPat)
      requires Continues(log0, first, basic, n0, sent, bundleC.transactionBundle.entry)
      requires FlushesOf(fs0, flushes, numPat, admissionIndex)
      modifies this`sent, this`flushes, this`locationsInBundle, this`caregiversInBundle, this`medicationInBundle, bundleC
      ensures Valid() && Idle() && FreshFor(numPat)
      ensures FlushesOf(fs0, flushes, numPat, admissionIndex) && |flushes| == old(|flushes|) + 1
      ensures AdmissionMessages(log0, sent, first, basic, n0)
    {
      ghost var log, fs, current := sent, flushes, bundleC.transactionBundle.entry;
      FlushBundle(numPat, Some(admissionIndex));
      ContinuesClose(log0, first, basic, n0, log, current, sent[|log|].number);
      FlushesOfAppend(fs0, fs, numPat, admissionIndex, flushes[|fs|]);
      ResetMemoryLists();
    }

    method AddReports(reports: seq<string>)
      requires bundleC.Valid()
      modifies bundleC
      ensures bundleC.Valid()
      ensures bundleC.transactionBundle.entry == old(bundleC.transactionBundle.entry) + ReportEntries(reports)
      ensures bundleC.internalBundleNumber == old(bundleC.internalBundleNumber)
    {
      var i := 0;
      while i < |reports|
        invariant 0 <= i <= |reports|
        invariant bundleC.Valid()
        invariant bundleC.transactionBundle.entry == old(bundleC.transactionBundle.entry) + ReportEntries(reports[..i])
        invariant bundleC.internalBundleNumber == old(bundleC.internalBundleNumber)
      {
        bundleC.AddResourceToBundle(Resource("DiagnosticReport", reports[i], None));
        assert reports[..i + 1][..i] == reports[..i];
        i := i + 1;
      }
      assert reports[..i] == reports;
    }

    /** The chest X-ray reports of a patient go to the queue in a bundle of their own, when enabled and present. */
    method SendReports(p: Patient, numPat: nat)
      requires Valid() && Idle() && FreshFor(numPat)
      modifies this`sent, this`flushes, bundleC
      ensures Valid() && Idle() && FreshFor(numPat)
      ensures PatientFlushes(old(flushes), flushes, numPat, 0, useCxr && |p.diagnosticReports| > 0)
      ensures Extends(old(sent), sent, ImagingBundle(p, useCxr))
    {
      if useCxr && |p.diagnosticReports| > 0 {
        AddReports(p.diagnosticReports);
        assert bundleC.transactionBundle.entry == ReportEntries(p.diagnosticReports);
        assert Valid() && FreshFor(numPat);
        FlushBundle(numPat, None);
        assert Idle();
        PatientFlushesImaging(old(flushes), numPat, flushes[|flushes| - 1]);
        assert sent[..old(|sent|)] == old(sent);
      } else {
        PatientFlushesStart(flushes, numPat);
        assert sent[..|sent|] == sent;
      }
    }

    /** The admission after the first `done` ones, keeping what has been sent for the patient so far. */
    method NextAdmission(p: Patient, numPat: nat, done: nat, ghost fs0: seq<Flush>, ghost log0: seq<Message>, imaging: bool,
                         ghost first: Option<seq<Entry>>)
      requires done < |p.admissions|
      requires Valid() && Idle() && FreshFor(numPat)
      requires PatientFlushes(fs0, flushes, numPat, done, imaging) && Extends(log0, sent, first)
      modifies this`sent, this`flushes, this`encounterDiagnosis, this`encounterLocation,
               this`locationsInBundle, this`caregiversInBundle, this`medicationInBundle, bundleC
      ensures Valid() && Idle() && FreshFor(numPat)
      ensures PatientFlushes(fs0, flushes, numPat, done + 1, imaging) && Extends(log0, sent, first)
    {
      ghost var fs, log := flushes, sent;
      ProcessAdmission(p, p.admissions[done], numPat, done + 1);
      PatientFlushesStep(fs0, fs, flushes, numPat, done, imaging);
      ExtendsMore(log0, log, sent, first);
    }

    /** The admission loop of a patient, with indexes 1, 2, ..., over its first `count` admissions. */
    method ConvertAdmissions(p: Patient, numPat: nat, count: nat, ghost fs0: seq<Flush>, ghost log0: seq<Message>, imaging: bool,
                             ghost first: Option<seq<Entry>>)
      requires count <= |p.admissions|
      requires Valid() && Idle() && FreshFor(numPat)
      requires PatientFlushes(fs0, flushes, numPat, 0, imaging) && Extends(log0, sent, first)
      modifies this`sent, this`flushes, this`encounterDiagnosis, this`encounterLocation,
               this`locationsInBundle, this`caregiversInBundle, this`medicationInBundle, bundleC
      ensures Valid() && Idle() && FreshFor(numPat)
      ensures PatientFlushes(fs0, flushes, numPat, count, imaging) && Extends(log0, sent, first)
    {
      var admissionIndex := 0;
      while admissionIndex < count
        invariant 0 <= admissionIndex <= count
        invariant Valid() && Idle() && FreshFor(numPat)
        invariant PatientFlushes(fs0, flushes, numPat, admissionIndex, imaging)
        invariant Extends(log0, sent, first)
      {
        NextAdmission(p, numPat, admissionIndex, fs0, log0, imaging, first);
        admissionIndex := admissionIndex + 1;
      }
    }

    /**
     * All bundles of one patient: the chest X-ray reports in a bundle of
     * their own (when enabled and present), then every admission with
     * indexes 1, 2, ...; the bundle number restarts at 1 for the next patient.
     * Nothing catches an exception here: a `failure` ends the conversion
     * where it happens, with the bundles sent so far, and the bundle number
     * is not reset.
     */
    method ConvertPatient(p: Patient, numPat: nat, failure: Option<Failure>) returns (completed: bool)
      requires Valid() && Idle() && FreshFor(numPat)
      modifies this`sent, this`flushes, this`encounterDiagnosis, this`encounterLocation,
               this`locationsInBundle, this`caregiversInBundle, this`medicationInBundle, bundleC
      ensures completed <==> Completes(p, failure)
      ensures Valid() && Idle() && FreshFor(numPat + 1)
      ensures completed ==> bundleC.internalBundleNumber == 1
      ensures PatientFlushes(old(flushes), flushes, numPat, AdmissionsSent(p, failure), ReportsSent(p, useCxr, failure))
      ensures failure != Some(PatientFails) ==> Extends(old(sent), sent, ImagingBundle(p, useCxr))
      ensures failure == Some(PatientFails) ==> sent == old(sent) && flushes == old(flushes)
    {
      if failure == Some(PatientFails) {
        PatientFlushesStart(flushes, numPat);
        return false;
      }
      var imaging := useCxr && |p.diagnosticReports| > 0;
      SendReports(p, numPat);
      var count := AdmissionsSent(p, failure);
      ConvertAdmissions(p, numPat, count, old(flushes), old(sent), imaging, ImagingBundle(p, useCxr));
      completed := Completes(p, failure);
      if completed {
        bundleC.ResetInternalBundleNumber();
      }
    }

    /** The per-thread conversion: fresh memory maps and hospital, then the same per-patient conversion. */
    method ProcessPatient(p: Patient, numPat: nat, hospital: string, failure: Option<Failure>) returns (completed: bool)
      requires Valid() && FreshFor(numPat) && bundleC.transactionBundle.entry == []
      modifies this`sent, this`flushes, this`encounterDiagnosis, this`encounterLocation, this`hospitalId,
               this`locationsInBundle, this`caregiversInBundle, this`medicationInBundle, bundleC
      ensures completed <==> Completes(p, failure)
      ensures Valid() && Idle() && FreshFor(numPat + 1)
      ensures completed ==> bundleC.internalBundleNumber == 1
      ensures hospitalId == hospital
      ensures PatientFlushes(old(flushes), flushes, numPat, AdmissionsSent(p, failure), ReportsSent(p, useCxr, failure))
      ensures failure != Some(PatientFails) ==> Extends(old(sent), sent, ImagingBundle(p, useCxr))
      ensures failure == Some(PatientFails) ==> sent == old(sent) && flushes == old(flushes)
    {
      locationsInBundle := map[];
      caregiversInBundle := map[];
      medicationInBundle := map[];
      hospitalId := hospital;
      completed := ConvertPatient(p, numPat, failure);
    }

    /**
     * A caregiver's Practitioner (and PractitionerRole, when it has one) is
     * added on the first sighting of its identifier in this bundle; later
     * sightings add nothing and yield the id stored the first time.
     */
    method ProcessCaregiver(pr: Practitioner, role: Option<Role>) returns (id: string)
      requires bundleC.Valid()
      modifies bundleC, this`caregiversInBundle
      ensures bundleC.Valid() && bundleC.internalBundleNumber == old(bundleC.internalBundleNumber)
      ensures pr.identifier.value in old(caregiversInBundle) ==>
                id == old(caregiversInBundle)[pr.identifier.value]
                && caregiversInBundle == old(caregiversInBundle)
                && bundleC.transactionBundle == old(bundleC.transactionBundle)
      ensures pr.identifier.value !in old(caregiversInBundle) ==>
                id == pr.id
                && caregiversInBundle == old(caregiversInBundle)[pr.identifier.value := pr.id]
                && bundleC.transactionBundle.entry == old(bundleC.transactionBundle.entry) + CaregiverEntries(pr, role)
    {
      var identifier := pr.identifier.value;
      if identifier !in caregiversInBundle {
        caregiversInBundle := caregiversInBundle[identifier := pr.id];
        id := pr.id;
        bundleC.AddUuidResourceWithConditionToBundle(Resource("Practitioner", pr.id, None), IdentifierCondition(pr.identifier));
        if role.Some? {
          bundleC.AddUuidResourceWithConditionToBundle(Resource("PractitionerRole", role.value.id, None),
                                                       IdentifierCondition(role.value.identifier));
        }
      } else {
        id := caregiversInBundle[identifier];
      }
    }
}
}
