/**
 * The plain data holders read from the database (MPatient, MAdmission,
 * MDiagnose, MProcedure, MTransfer, ...) and the small FHIR value types the
 * resource managers share. Dates are integers; a Java null is None where the
 * code tests for it.
 */
module Records {
  import opened Wrappers
  import opened Text

  /** Which profile set the converter produces: plain FHIR R4 or the German core data set (KDS). */
  datatype ModelVersion = R4 | KDS

  datatype Coding = Coding(system: string, code: Option<string>, display: Option<string>)

  const DataAbsentReason: string := "http://hl7.org/fhir/StructureDefinition/data-absent-reason"

  /** How Java prints a possibly-null string in a concatenation. */
  function JavaString(s: Option<string>): (r: string)
    ensures s.Some? ==> r == s.value
    ensures s.None? ==> r == "null"
  {
    if s.Some? then s.value else "null"
  }

  /** The identifier pattern "<prefix>_<number>" used for conditions, procedures and administrations. */
  function Joined(prefix: string, n: nat): (r: string)
    ensures |r| > |prefix| + 1 && r[..|prefix|] == prefix && r[|prefix|] == '_'
  {
    prefix + "_" + NatToString(n)
  }

  /** Different (prefix, number) pairs give different identifiers. */
  lemma JoinedInjective(a: string, m: nat, b: string, n: nat)
    requires Joined(a, m) == Joined(b, n)
    ensures a == b && m == n
  {
    NatToStringHasNo(m, '_');
    NatToStringHasNo(n, '_');
    SplitAtLast(a, NatToString(m), b, NatToString(n), '_');
    NatToStringInjective(m, n);
  }

  /** MDiagnose. */
  datatype Diagnose = Diagnose(icdCode: string, icdVersion: string, longTitle: Option<string>,
                               seqNumber: nat, patId: Option<string>, encId: Option<string>)

  datatype ProcedureVersion = ICD9PROC | ICD10PROC
  {
    /** `IcdVersion.valueOf()`. */
    function Value(): string
    {
      match this
      case ICD9PROC => "9"
      case ICD10PROC => "10"
    }
  }

  /** MProcedure. */
  datatype ProcedureRecord = ProcedureRecord(icdCode: string, longTitle: Option<string>, seqNumber: nat,
                                             icdVersion: ProcedureVersion, patId: string, encId: string)

  /** MTransfer. */
  datatype TransferRecord = TransferRecord(transferId: string, eventType: Option<string>, careUnit: Option<string>,
                                           intime: int, outtime: int)

  /** MAdmission, restricted to the fields the Encounter and the Patient are built from. */
  datatype AdmissionRecord = AdmissionRecord(
    admissionId: string, patId: string, admissionTime: int, dischargeTime: int,
    admissionType: string, dischargeLocation: Option<string>, admissionLocation: Option<string>,
    maritalStatus: Option<string>, language: Option<string>,
    diagnoses: seq<Diagnose>, transfers: seq<TransferRecord>)

  /** MPatient. */
  datatype PatientRecord = PatientRecord(patientSubjectId: string, birthDate: int, gender: Option<string>,
                                         deathDate: Option<int>, admissions: seq<AdmissionRecord>)
}
