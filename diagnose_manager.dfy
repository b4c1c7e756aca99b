/**
 * `DiagnoseManager.createResource`: one FHIR Condition per diagnosis. Under
 * KDS an ICD-9 diagnosis is coded through the SNOMED and ICD-10-GM mappings
 * of ICD9MapperLookup; any other ICD version is taken as ICD-10-GM after
 * conformIcdString. Under plain R4 the raw code is kept as ICD-9-CM.
 */
module DiagnoseManager {
  import opened Wrappers
  import opened Text
  import opened Records
  import StringManipulator
  import ICD9MapperLookup
  import AdmissionManager

  const DiagnoseProfile: string := "https://www.medizininformatik-initiative.de/fhir/core/modul-diagnose/StructureDefinition/Diagnose"
  const DiagsSystem: string := "http://www.imi-mimic.de/diags"
  const SnomedSystem: string := "http://snomed.info/sct"
  const Icd10GmSystem: string := "http://fhir.de/CodeSystem/dimdi/icd-10-gm"
  const Icd9CmSystem: string := "http://hl7.org/fhir/sid/icd-9-cm"
  const Icd10GmVersion: string := "2020"

  /** A Coding as the manager fills it: system, code, display and code-system version. */
  datatype ConditionCoding = ConditionCoding(system: string, code: Option<string>, display: Option<string>,
                                             version: Option<string>)

  datatype Condition = Condition(
    id: string,
    profile: Option<string>,
    recordedDateAbsentReason: Option<string>,
    subject: Option<string>,
    identifierSystem: string,
    identifierValue: string,
    code: seq<ConditionCoding>)

  /** What a mapping getter returned, read as the possibly-null string `returnCode`. */
  function ReturnCode(a: ICD9MapperLookup.Answer): (r: Option<string>)
    ensures r.Some? <==> a.Code?
    ensures r.Some? ==> r.value == a.code
  {
    if a.Code? then Some(a.code) else None
  }

  /**
   * The codings of the Condition, given the answers of the SNOMED and the
   * ICD-10-GM getters (consulted only under KDS for ICD version "9"). A getter
   * that throws makes the whole conversion fail: None.
   */
  function Codings(d: Diagnose, version: ModelVersion,
                   snomed: ICD9MapperLookup.Answer, icd10gm: ICD9MapperLookup.Answer): (r: Option<seq<ConditionCoding>>)
    ensures r.None? <==> version.KDS? && d.icdVersion == "9" && (snomed.Failure? || icd10gm.Failure?)
    ensures r.Some? && version.KDS? && d.icdVersion == "9" ==>
      |r.value| == (if icd10gm.Code? then 2 else 1) &&
      r.value[0] == ConditionCoding(SnomedSystem, ReturnCode(snomed), None, None) &&
      (icd10gm.Code? ==> r.value[1] == ConditionCoding(Icd10GmSystem, Some(icd10gm.code), d.longTitle, Some(Icd10GmVersion)))
    ensures r.Some? && version.KDS? && d.icdVersion != "9" ==>
      |r.value| == 1 && r.value[0].system == Icd10GmSystem &&
      r.value[0].code == Some(StringManipulator.ConformIcdString(d.icdCode)) &&
      r.value[0].display == d.longTitle && r.value[0].version == Some(Icd10GmVersion)
    ensures version.R4? ==>
      r.Some? && |r.value| == 1 && r.value[0].system == Icd9CmSystem &&
      r.value[0].code == Some(d.icdCode) && r.value[0].display == d.longTitle && r.value[0].version.None?
  {
    if version.KDS? then
      if d.icdVersion == "9" then
        if snomed.Failure? || icd10gm.Failure? then None
        else
          var first := ConditionCoding(SnomedSystem, ReturnCode(snomed), None, None);
          var gm := ReturnCode(icd10gm);
          if gm.Some? then Some([first, ConditionCoding(Icd10GmSystem, gm, d.longTitle, Some(Icd10GmVersion))])
          else Some([first])
      else
        Some([ConditionCoding(Icd10GmSystem, Some(StringManipulator.ConformIcdString(d.icdCode)), d.longTitle,
                              Some(Icd10GmVersion))])
    else
      Some([ConditionCoding(Icd9CmSystem, Some(d.icdCode), d.longTitle, None)])
  }

  /** `createResource` with the lookup answers and the fresh id given. */
  function CreateCondition(d: Diagnose, version: ModelVersion, uuid: string,
                           snomed: ICD9MapperLookup.Answer, icd10gm: ICD9MapperLookup.Answer): (r: Option<Condition>)
    ensures r.Some? <==> Codings(d, version, snomed, icd10gm).Some?
    ensures r.Some? ==>
      r.value.id == uuid && r.value.subject == d.patId &&
      r.value.identifierSystem == DiagsSystem &&
      r.value.identifierValue == Joined(JavaString(d.encId), d.seqNumber) &&
      r.value.code == Codings(d, version, snomed, icd10gm).value
    ensures r.Some? ==> (r.value.profile.Some? <==> version.KDS?) && (r.value.recordedDateAbsentReason.Some? <==> version.KDS?)
    ensures r.Some? && version.KDS? ==> r.value.profile == Some(DiagnoseProfile) && r.value.recordedDateAbsentReason == Some("unknown")
  {
    var codings := Codings(d, version, snomed, icd10gm);
    if codings.None? then None
    else
      var kds := version.KDS?;
      Some(Condition(uuid, if kds then Some(DiagnoseProfile) else None, if kds then Some("unknown") else None,
                     d.patId, DiagsSystem, Joined(JavaString(d.encId), d.seqNumber), codings.value))
  }

  /**
   * `createResource` against the shared mapper: under KDS an ICD-9 code is
   * stripped of whitespace and looked up for SNOMED, then for ICD-10-GM; the
   * caches are updated as the getters do.
   */
  method CreateResource(d: Diagnose, version: ModelVersion, uuid: string, lookup: ICD9MapperLookup.Mapper)
    returns (r: Option<Condition>)
    modifies lookup`snomedLookupTable, lookup`icd10gmLookupTable
    ensures !(version.KDS? && d.icdVersion == "9") ==>
      r == CreateCondition(d, version, uuid, ICD9MapperLookup.Null, ICD9MapperLookup.Null) &&
      lookup.snomedLookupTable == old(lookup.snomedLookupTable) && lookup.icd10gmLookupTable == old(lookup.icd10gmLookupTable)
    ensures version.KDS? && d.icdVersion == "9" ==>
      var key := StripSpaces(d.icdCode);
      var s := ICD9MapperLookup.GetSNOMED(old(lookup.snomedLookupTable), lookup.translateSnomed, key);
      lookup.snomedLookupTable == s.table &&
      if s.answer.Failure? then
        r.None? && lookup.icd10gmLookupTable == old(lookup.icd10gmLookupTable)
      else
        var g := ICD9MapperLookup.GetICD10GM(old(lookup.icd10gmLookupTable), lookup.translateIcd10gm, key);
        lookup.icd10gmLookupTable == g.table && r == CreateCondition(d, version, uuid, s.answer, g.answer)
  {
    if version.KDS? && d.icdVersion == "9" {
      var icdCode := StripSpaces(d.icdCode);
      var snomed := lookup.GetSNOMEDCode(icdCode);
      if snomed.Failure? {
        return None;
      }
      var icd10gm := lookup.GetICD10GMCode(icdCode);
      r := CreateCondition(d, version, uuid, snomed, icd10gm);
    } else {
      r := CreateCondition(d, version, uuid, ICD9MapperLookup.Null, ICD9MapperLookup.Null);
    }
  }

  /** Stripping whitespace before the lookups changes nothing: the getters normalise the key with conformIcdString anyway. */
  lemma StrippingBeforeLookupIsRedundant(snomedTable: map<string, string>, gmTable: map<string, string>,
                                         translateGm: string -> ICD9MapperLookup.Reply<seq<string>>,
                                         translateSnomed: string -> ICD9MapperLookup.Reply<Option<string>>, icdCode: string)
    ensures ICD9MapperLookup.GetSNOMED(snomedTable, translateSnomed, StripSpaces(icdCode))
         == ICD9MapperLookup.GetSNOMED(snomedTable, translateSnomed, icdCode)
    ensures ICD9MapperLookup.GetICD10GM(gmTable, translateGm, StripSpaces(icdCode))
         == ICD9MapperLookup.GetICD10GM(gmTable, translateGm, icdCode)
  {
    StripSpacesIdempotent(icdCode);
    ICD9MapperLookup.KeyIgnoresSpaces(snomedTable, translateGm, translateSnomed, StripSpaces(icdCode), icdCode);
    ICD9MapperLookup.KeyIgnoresSpaces(gmTable, translateGm, translateSnomed, StripSpaces(icdCode), icdCode);
  }

  /**
   * The ICD-10-GM code of a non-ICD-9 diagnosis under KDS carries no
   * whitespace, and deleting its inserted dot gives back the raw code without
   * whitespace.
   */
  lemma KdsIcd10CodeRecoversRawCode(d: Diagnose, snomed: ICD9MapperLookup.Answer, icd10gm: ICD9MapperLookup.Answer)
    requires d.icdVersion != "9"
    ensures var r := Codings(d, KDS, snomed, icd10gm);
      r.Some? && r.value[0].code.Some? &&
      var c := r.value[0].code.value;
      (forall i :: 0 <= i < |c| ==> !IsSpace(c[i])) &&
      (|c| <= 3 ==> c == StripSpaces(d.icdCode)) &&
      (|c| > 3 ==> c[3] == '.' && c[..3] + c[4..] == StripSpaces(d.icdCode))
  {
    var c := StringManipulator.ConformIcdString(d.icdCode);
    if |StripSpaces(d.icdCode)| > 3 {
      StringManipulator.DeleteDotRoundTrip(d.icdCode);
    }
  }

  /**
   * A diagnosis whose encounter id is the admission id is identified by the
   * same "<admissionId>_<seq>" string the admission's Encounter lists among
   * its diagnoses.
   */
  lemma IdentifierMatchesEncounter(d: Diagnose, admissionId: string, version: ModelVersion, uuid: string,
                                   snomed: ICD9MapperLookup.Answer, icd10gm: ICD9MapperLookup.Answer)
    requires d.encId == Some(admissionId)
    requires CreateCondition(d, version, uuid, snomed, icd10gm).Some?
    ensures CreateCondition(d, version, uuid, snomed, icd10gm).value.identifierValue
         == AdmissionManager.ConditionRef(admissionId, d)
  {
  }

  /** Two diagnoses get the same identifier only when both encounter ids and sequence numbers agree. */
  lemma IdentifiersDistinguish(d1: Diagnose, d2: Diagnose, version: ModelVersion, uuid1: string, uuid2: string,
                               snomed1: ICD9MapperLookup.Answer, icd10gm1: ICD9MapperLookup.Answer,
                               snomed2: ICD9MapperLookup.Answer, icd10gm2: ICD9MapperLookup.Answer)
    requires CreateCondition(d1, version, uuid1, snomed1, icd10gm1).Some?
    requires CreateCondition(d2, version, uuid2, snomed2, icd10gm2).Some?
    ensures CreateCondition(d1, version, uuid1, snomed1, icd10gm1).value.identifierValue
         == CreateCondition(d2, version, uuid2, snomed2, icd10gm2).value.identifierValue
        <==> JavaString(d1.encId) == JavaString(d2.encId) && d1.seqNumber == d2.seqNumber
  {
    if Joined(JavaString(d1.encId), d1.seqNumber) == Joined(JavaString(d2.encId), d2.seqNumber) {
      JoinedInjective(JavaString(d1.encId), d1.seqNumber, JavaString(d2.encId), d2.seqNumber);
    }
  }
}
