/**
 * `ProcedureManager.createResource`: one FHIR Procedure per procedure row.
 * Under KDS the ICD code is translated to SNOMED CT through
 * ProcedureSNOMEDLookup (the ICD-9 or the ICD-10 table by the row's version);
 * an empty translation is recorded with an absent-reason and an explanatory
 * text. Under plain R4 the raw code is kept as one ICD-9-CM coding.
 */
module ProcedureManager {
  import opened Wrappers
  import opened Text
  import opened Records
  import MemoCache
  import ProcedureSNOMEDLookup

  const ProcedureProfile: string := "https://www.medizininformatik-initiative.de/fhir/core/modul-prozedur/StructureDefinition/Procedure"
  const ProcsSystem: string := "http://www.imi-mimic.de/procs"
  const SnomedSystem: string := "http://snomed.info/sct"
  const Icd9CmSystem: string := "http://hl7.org/fhir/sid/icd-9-cm"

  datatype ProcedureStatus = Completed

  /** The procedure code: its codings, its text and a data-absent-reason extension. */
  datatype ProcedureCode = ProcedureCode(coding: seq<Coding>, text: Option<string>, absentReason: Option<string>)

  datatype Procedure = Procedure(
    id: string,
    subject: string,
    encounter: string,
    profile: string,
    identifierSystem: string,
    identifierValue: string,
    status: ProcedureStatus,
    code: ProcedureCode,
    performedAbsentReason: Option<string>)

  /** One SNOMED coding per translated code, in the order the lookup returned them. */
  function SnomedCodings(codes: seq<string>): (r: seq<Coding>)
    ensures |r| == |codes|
    ensures forall i :: 0 <= i < |r| ==> r[i] == Coding(SnomedSystem, Some(codes[i]), None)
  {
    if codes == [] then []
    else SnomedCodings(codes[..|codes| - 1]) + [Coding(SnomedSystem, Some(codes[|codes| - 1]), None)]
  }

  /** The text recorded when no SNOMED code was found. */
  function MissingText(p: ProcedureRecord): string
  {
    "No SNOMEDCT code could be found for ICD" + p.icdVersion.Value() + " code '" + p.icdCode + "'"
  }

  /** The KDS code for a translation result. */
  function KdsCode(p: ProcedureRecord, codes: seq<string>): (c: ProcedureCode)
    ensures codes == [] ==> c.coding == [] && c.absentReason == Some("asked-unknown") && c.text == Some(MissingText(p))
    ensures codes != [] ==> c.coding == SnomedCodings(codes) && c.absentReason.None? && c.text == p.longTitle
  {
    if codes == [] then ProcedureCode([], Some(MissingText(p)), Some("asked-unknown"))
    else ProcedureCode(SnomedCodings(codes), p.longTitle, None)
  }

  /**
   * `createResource` with the fresh id and, under KDS, the lookup result
   * given; None as lookup result stands for the exception the ICD-9 key
   * raises on a code shorter than two characters, which aborts the call.
   */
  function CreateProcedure(p: ProcedureRecord, version: ModelVersion, uuid: string,
                           found: Option<seq<string>>): (r: Option<Procedure>)
    ensures r.None? <==> version.KDS? && found.None?
    ensures r.Some? ==>
      r.value.id == uuid && r.value.subject == p.patId && r.value.encounter == p.encId &&
      r.value.profile == ProcedureProfile && r.value.status == Completed &&
      r.value.identifierSystem == ProcsSystem && r.value.identifierValue == Joined(p.encId, p.seqNumber)
    ensures r.Some? && version.KDS? ==>
      r.value.code == KdsCode(p, found.value) && r.value.performedAbsentReason == Some("unknown")
    ensures r.Some? && version.R4? ==>
      r.value.code == ProcedureCode([Coding(Icd9CmSystem, Some(p.icdCode), p.longTitle)], None, None) &&
      r.value.performedAbsentReason.None?
  {
    if version.KDS? then
      if found.None? then None
      else
        Some(Procedure(uuid, p.patId, p.encId, ProcedureProfile, ProcsSystem, Joined(p.encId, p.seqNumber),
                       Completed, KdsCode(p, found.value), Some("unknown")))
    else
      Some(Procedure(uuid, p.patId, p.encId, ProcedureProfile, ProcsSystem, Joined(p.encId, p.seqNumber),
                     Completed, ProcedureCode([Coding(Icd9CmSystem, Some(p.icdCode), p.longTitle)], None, None), None))
  }

  /** What the KDS branch asks the shared lookup for, by the row's ICD version. */
  function Found(p: ProcedureRecord, icd9Table: map<string, seq<string>>, icd10Table: map<string, seq<string>>,
                 findIcd9: string -> seq<string>, findIcd10: string -> seq<string>): (r: Option<seq<string>>)
    ensures r.None? <==> p.icdVersion.ICD9PROC? && ProcedureSNOMEDLookup.Icd9Key(p.icdCode).None?
    ensures p.icdVersion.ICD9PROC? && r.Some? && (forall k :: k in icd9Table ==> icd9Table[k] == findIcd9(k)) ==>
      r.value == findIcd9(ProcedureSNOMEDLookup.Icd9Key(p.icdCode).value)
    ensures p.icdVersion.ICD10PROC? && (forall k :: k in icd10Table ==> icd10Table[k] == findIcd10(k)) ==>
      r == Some(findIcd10(Trim(p.icdCode)))
  {
    match p.icdVersion
    case ICD9PROC =>
      var key := ProcedureSNOMEDLookup.Icd9Key(p.icdCode);
      if key.None? then None else Some(MemoCache.Lookup(icd9Table, findIcd9, key.value).value)
    case ICD10PROC =>
      Some(MemoCache.Lookup(icd10Table, findIcd10, Trim(p.icdCode)).value)
  }

  /** The coding loop of the KDS branch. */
  method AddSnomedCodings(codes: seq<string>) returns (coding: seq<Coding>)
    ensures coding == SnomedCodings(codes)
  {
    coding := [];
    var i := 0;
    while i < |codes|
      invariant 0 <= i <= |codes|
      invariant coding == SnomedCodings(codes[..i])
    {
      assert codes[..i + 1][..i] == codes[..i];
      coding := coding + [Coding(SnomedSystem, Some(codes[i]), None)];
      i := i + 1;
    }
    assert codes[..i] == codes;
  }

  /** `createResource` against the shared SNOMED lookup, whose caches it fills as the getters do. */
  method CreateResource(p: ProcedureRecord, version: ModelVersion, uuid: string, lookup: ProcedureSNOMEDLookup.Lookup)
    returns (r: Option<Procedure>)
    modifies lookup`icd9SnomedLookupTable, lookup`icd10SnomedLookupTable
    ensures version.R4? ==>
      r == CreateProcedure(p, version, uuid, None) &&
      lookup.icd9SnomedLookupTable == old(lookup.icd9SnomedLookupTable) &&
      lookup.icd10SnomedLookupTable == old(lookup.icd10SnomedLookupTable)
    ensures version.KDS? ==> r == CreateProcedure(p, version, uuid,
      Found(p, old(lookup.icd9SnomedLookupTable), old(lookup.icd10SnomedLookupTable), lookup.findIcd9, lookup.findIcd10))
  {
    if version.R4? {
      r := CreateProcedure(p, version, uuid, None);
      return;
    }
    var snomedCodes: seq<string>;
    match p.icdVersion {
      case ICD9PROC =>
        var found := lookup.GetSnomedForIcd9(p.icdCode);
        if found.None? {
          return None;
        }
        snomedCodes := found.value;
      case ICD10PROC =>
        snomedCodes := lookup.GetSnomedForIcd10(p.icdCode);
    }
    var code: ProcedureCode;
    if |snomedCodes| == 0 {
      code := ProcedureCode([], Some(MissingText(p)), Some("asked-unknown"));
    } else {
      var coding := AddSnomedCodings(snomedCodes);
      code := ProcedureCode(coding, p.longTitle, None);
    }
    r := Some(Procedure(uuid, p.patId, p.encId, ProcedureProfile, ProcsSystem, Joined(p.encId, p.seqNumber),
                        Completed, code, Some("unknown")));
  }

  /** The translated codes can be read back from the codings, in order. */
  lemma SnomedCodesReadBack(codes: seq<string>)
    ensures var r := SnomedCodings(codes);
      forall i :: 0 <= i < |r| ==> r[i].system == SnomedSystem && r[i].code.Some? && r[i].code.value == codes[i]
    ensures var r := SnomedCodings(codes);
      seq(|r|, i requires 0 <= i < |r| => r[i].code.value) == codes
  {
    var r := SnomedCodings(codes);
    assert forall i :: 0 <= i < |r| ==> r[i].code == Some(codes[i]);
  }

  /** Under KDS the code either carries codings or the absent-reason, never both and never neither. */
  lemma KdsCodeIsCodedOrAbsent(p: ProcedureRecord, uuid: string, codes: seq<string>)
    ensures var r := CreateProcedure(p, KDS, uuid, Some(codes));
      r.Some? && (r.value.code.coding != [] <==> codes != []) &&
      (r.value.code.absentReason.Some? <==> r.value.code.coding == [])
  {
  }

  /** Under R4 the ICD version plays no part: ICD-10 codes are labelled ICD-9-CM as well. */
  lemma R4IgnoresVersion(p: ProcedureRecord, uuid: string, found1: Option<seq<string>>, found2: Option<seq<string>>)
    ensures CreateProcedure(p, R4, uuid, found1) == CreateProcedure(p.(icdVersion := ICD9PROC), R4, uuid, found2)
    ensures CreateProcedure(p, R4, uuid, found1) == CreateProcedure(p.(icdVersion := ICD10PROC), R4, uuid, found2)
  {
  }

  /** A KDS ICD-9 procedure whose trimmed code is shorter than two characters cannot be converted. */
  lemma ShortIcd9CodeFails(p: ProcedureRecord, icd9Table: map<string, seq<string>>, icd10Table: map<string, seq<string>>,
                           findIcd9: string -> seq<string>, findIcd10: string -> seq<string>, uuid: string)
    requires p.icdVersion == ICD9PROC
    ensures CreateProcedure(p, KDS, uuid, Found(p, icd9Table, icd10Table, findIcd9, findIcd10)).None?
        <==> |Trim(p.icdCode)| < 2
  {
  }

  /** Procedures of one encounter with different sequence numbers have different identifiers. */
  lemma IdentifiersDistinguish(p1: ProcedureRecord, p2: ProcedureRecord, version: ModelVersion, uuid1: string,
                               uuid2: string, found1: Option<seq<string>>, found2: Option<seq<string>>)
    requires CreateProcedure(p1, version, uuid1, found1).Some? && CreateProcedure(p2, version, uuid2, found2).Some?
    ensures CreateProcedure(p1, version, uuid1, found1).value.identifierValue
         == CreateProcedure(p2, version, uuid2, found2).value.identifierValue
        <==> p1.encId == p2.encId && p1.seqNumber == p2.seqNumber
  {
    if Joined(p1.encId, p1.seqNumber) == Joined(p2.encId, p2.seqNumber) {
      JoinedInjective(p1.encId, p1.seqNumber, p2.encId, p2.seqNumber);
    }
  }
}
