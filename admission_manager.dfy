/**
 * `AdmissionManager.createAdmission`: the Encounter of one hospital stay.
 * The admission type, discharge location and admission location are mapped
 * through three code tables; the stay's diagnoses and transfers become
 * ordered diagnosis and location components, each location being the
 * memoised Location of the transfer's station. The Encounter's id is a
 * fresh UUID, and so are the ids of Locations and Organizations created on
 * the way; all of them are parameters.
 */
module AdmissionManager {
  import opened Wrappers
  import opened Text
  import opened Records
  import opened JavaSwitch
  import StationManager

  const EncounterSystem: string := "http://www.imi-mimic.de/encs"
  const IdentifierTypeSystem: string := "http://terminology.hl7.org/CodeSystem/v2-0203"
  const EncounterProfile: string :=
    "https://www.medizininformatik-initiative.de/fhir/core/modul-fall/StructureDefinition/KontaktGesundheitseinrichtung"
  const EncounterClassSystem: string := "https://www.medizininformatik-initiative.de/fhir/core/ValueSet/EncounterClassDE"
  const DischargeSystem: string := "https://www.medizininformatik-initiative.de/fhir/core/modul-fall/CodeSystem/Entlassungsgrund"
  const AdmitSourceSystem: string := "https://www.medizininformatik-initiative.de/fhir/core/modul-fall/CodeSystem/Aufnahmeanlass"

  datatype DiagnosisComponent = DiagnosisComponent(condition: string, rank: nat)

  datatype LocationComponent = LocationComponent(location: string, status: string, physicalType: string,
                                                 start: int, end: int)

  datatype Encounter = Encounter(
    id: string, identifierSystem: string, identifierValue: string, identifierType: Coding,
    profile: string, subject: string, start: int, end: int, status: string,
    encounterClass: Coding, diagnosis: seq<DiagnosisComponent>,
    dischargeDisposition: seq<Coding>, admitSource: Option<seq<Coding>>,
    location: seq<LocationComponent>)

  function ClassCoding(code: string, display: string): Coding
  {
    Coding(EncounterClassSystem, Some(code), Some(display))
  }

  const Operation: Coding := ClassCoding("operation", "Operation")
  const Examination: Coding := ClassCoding("ub", "Untersuchung und Behandlung")
  const Inpatient: Coding := ClassCoding("normalstationaer", "Normalstationaer")
  const Ambulatory: Coding := ClassCoding("O", "ambulant")
  const Emergency: Coding := ClassCoding("E", "Notfall")
  const Obstetrics: Coding := ClassCoding("B", "Geburtshilfe")
  const NotApplicable: Coding := ClassCoding("N", "Segment nicht anwendbar")

  /** The admission-type switch as written: the first two cases have no `break`, and "ELECTIVE" is misspelt. */
  const ClassArmsAsWritten: seq<Arm<Coding>> := [
    Arm(["SURGICAL SAME DAY ADMISSION"], Operation, false),
    Arm(["OBSERVATION ADMIT"], Examination, false),
    Arm(["ELECTIVCE"], Inpatient, true),
    Arm(["URGENT", "AMBULATORY OBSERVATION"], Ambulatory, true),
    Arm(["EMERGENCY", "DIRECT EMER.", "EW EMER."], Emergency, true),
    Arm(["NEWBORN"], Obstetrics, true)
  ]

  /** The same table with every case ending in `break` and the MIMIC-IV spelling "ELECTIVE". */
  const ClassArms: seq<Arm<Coding>> := [
    Arm(["SURGICAL SAME DAY ADMISSION"], Operation, true),
    Arm(["OBSERVATION ADMIT"], Examination, true),
    Arm(["ELECTIVE"], Inpatient, true),
    Arm(["URGENT", "AMBULATORY OBSERVATION"], Ambulatory, true),
    Arm(["EMERGENCY", "DIRECT EMER.", "EW EMER."], Emergency, true),
    Arm(["NEWBORN"], Obstetrics, true)
  ]

  /** A coding of the German encounter-class value set, with code and display. */
  predicate IsClassCoding(c: Coding)
  {
    c.system == EncounterClassSystem && c.code.Some? && c.display.Some?
  }

  /** The Encounter class exactly as the source computes it. */
  function EncounterClassAsWritten(admissionType: string): (c: Coding)
    ensures c.system == EncounterClassSystem && c.code.Some? && c.display.Some?
  {
    SwitchKeeps(ClassArmsAsWritten, NotApplicable, admissionType, IsClassCoding);
    Switch(ClassArmsAsWritten, NotApplicable, admissionType)
  }

  /** The Encounter class the table evidently means. */
  function EncounterClass(admissionType: string): (c: Coding)
    ensures c.system == EncounterClassSystem && c.code.Some? && c.display.Some?
  {
    SwitchKeeps(ClassArms, NotApplicable, admissionType, IsClassCoding);
    Switch(ClassArms, NotApplicable, admissionType)
  }

  /** As written, a same-day surgery and an observation admission both end up "normalstationaer". */
  lemma ClassFallsThrough()
    ensures EncounterClassAsWritten("SURGICAL SAME DAY ADMISSION") == Inpatient
    ensures EncounterClassAsWritten("OBSERVATION ADMIT") == Inpatient
    ensures EncounterClassAsWritten("ELECTIVCE") == Inpatient
  {
    var all := ClassArmsAsWritten + [Arm([], NotApplicable, true)];
    SwitchEntersAt(ClassArmsAsWritten, NotApplicable, "SURGICAL SAME DAY ADMISSION", 0);
    SwitchEntersAt(ClassArmsAsWritten, NotApplicable, "OBSERVATION ADMIT", 1);
    SwitchEntersAt(ClassArmsAsWritten, NotApplicable, "ELECTIVCE", 2);
    FallsInto(all, 0, 2);
    FallsInto(all, 1, 2);
  }

  /** As written, an elective admission (MIMIC-IV spelling) reaches the default "N". */
  lemma ElectiveIsUnmatched()
    ensures EncounterClassAsWritten("ELECTIVE") == NotApplicable
  {
    SwitchUnlisted(ClassArmsAsWritten, NotApplicable, "ELECTIVE");
  }

  /** The intended table: each listed type gets its own class, any other type "N". */
  lemma ClassTable(t: string)
    ensures t == "SURGICAL SAME DAY ADMISSION" ==> EncounterClass(t) == Operation
    ensures t == "OBSERVATION ADMIT" ==> EncounterClass(t) == Examination
    ensures t == "ELECTIVE" ==> EncounterClass(t) == Inpatient
    ensures t in ["URGENT", "AMBULATORY OBSERVATION"] ==> EncounterClass(t) == Ambulatory
    ensures t in ["EMERGENCY", "DIRECT EMER.", "EW EMER."] ==> EncounterClass(t) == Emergency
    ensures t == "NEWBORN" ==> EncounterClass(t) == Obstetrics
    ensures Unlisted(ClassArms, t) ==> EncounterClass(t) == NotApplicable
  {
    assert AllBreak(ClassArms);
    if t == "SURGICAL SAME DAY ADMISSION" {
      SwitchBreaksAt(ClassArms, NotApplicable, t, 0);
    } else if t == "OBSERVATION ADMIT" {
      SwitchBreaksAt(ClassArms, NotApplicable, t, 1);
    } else if t == "ELECTIVE" {
      SwitchBreaksAt(ClassArms, NotApplicable, t, 2);
    } else if t in ["URGENT", "AMBULATORY OBSERVATION"] {
      SwitchBreaksAt(ClassArms, NotApplicable, t, 3);
    } else if t in ["EMERGENCY", "DIRECT EMER.", "EW EMER."] {
      SwitchBreaksAt(ClassArms, NotApplicable, t, 4);
    } else if t == "NEWBORN" {
      SwitchBreaksAt(ClassArms, NotApplicable, t, 5);
    } else if Unlisted(ClassArms, t) {
      SwitchUnlisted(ClassArms, NotApplicable, t);
    }
  }

  /** The source and the intended table differ only on the three types the first cases name. */
  lemma ClassAgreesElsewhere(t: string)
    requires t !in ["SURGICAL SAME DAY ADMISSION", "OBSERVATION ADMIT", "ELECTIVCE", "ELECTIVE"]
    ensures EncounterClassAsWritten(t) == EncounterClass(t)
  {
    forall j | 3 <= j < 6
      ensures ClassArmsAsWritten[j] == ClassArms[j]
    {
    }
    SwitchAgreeAfter(ClassArmsAsWritten, ClassArms, NotApplicable, t, 3);
  }

  function DischargeCoding(code: string, display: string): Coding
  {
    Coding(DischargeSystem, Some(code), Some(display))
  }

  const NoInformation: Coding := DischargeCoding("039", "Behandlung aus sonstigen Gruenden beendet, keine Angabe")

  const DischargeArms: seq<Arm<Coding>> := [
    Arm(["HOME", "HOME WITH HOME IV PROVIDR", "HOME HEALTH CARE"],
        DischargeCoding("019", "Behandlung regulaer beendet, keine Angabe"), true),
    Arm(["HOSPICE-MEDICAL FACILITY", "HOSPICE-HOME"], DischargeCoding("119", "Entlassung in ein Hospiz"), true),
    Arm(["REHAB/DISTINCT PART HOSP"], DischargeCoding("099", "Entlassung in eine Rehabilitationseinrichtung"), true),
    Arm(["DISC-TRAN CANCER/CHLDRN H", "OTHER FACILITY", "DISC-TRAN TO FEDERAL HC", "SHORT TERM HOSPITAL", "ICF"],
        DischargeCoding("069", "Verlegung in ein anderes Krankenhaus"), true),
    Arm(["DISCH-TRAN TO PSYCH HOSP"], DischargeCoding("13", "externe Verlegung zur psychiatrischen Behandlung"), true),
    Arm(["DEAD/EXPIRED"], DischargeCoding("079", "Tod"), true),
    Arm(["LEFT AGAINST MEDICAL ADVI"], DischargeCoding("049", "Behandlung gegen aerztlichen Rat beendet, keine Angabe"), true),
    Arm(["LONG TERM CARE HOSPITAL", "SNF", "SNF-MEDICAID ONLY CERTIF"],
        DischargeCoding("109", "Entlassung in eine Pflegeeinrichtung"), true)
  ]

  /** The discharge disposition's codings: always exactly one, "039" when the location is null. */
  function DischargeDisposition(dischargeLocation: Option<string>): (r: seq<Coding>)
    ensures |r| == 1 && r[0].system == DischargeSystem
    ensures dischargeLocation.None? ==> r == [NoInformation]
  {
    if dischargeLocation.None? then [NoInformation]
    else
      var c := Switch(DischargeArms, NoInformation, dischargeLocation.value);
      assert c == NoInformation || c in (set i | 0 <= i < |DischargeArms| :: DischargeArms[i].value) by {
        SwitchResult(DischargeArms, NoInformation, dischargeLocation.value);
      }
      [c]
  }

  /** The grouped discharge codes; a location no case names gives "039" like a null one. */
  lemma DischargeTable(loc: string)
    ensures loc in ["HOME", "HOME WITH HOME IV PROVIDR", "HOME HEALTH CARE"] ==> DischargeDisposition(Some(loc))[0].code == Some("019")
    ensures loc in ["HOSPICE-MEDICAL FACILITY", "HOSPICE-HOME"] ==> DischargeDisposition(Some(loc))[0].code == Some("119")
    ensures loc == "DEAD/EXPIRED" ==> DischargeDisposition(Some(loc))[0].code == Some("079")
    ensures loc in ["LONG TERM CARE HOSPITAL", "SNF", "SNF-MEDICAID ONLY CERTIF"] ==> DischargeDisposition(Some(loc))[0].code == Some("109")
    ensures Unlisted(DischargeArms, loc) ==> DischargeDisposition(Some(loc)) == [NoInformation]
  {
    assert AllBreak(DischargeArms);
    if loc in ["HOME", "HOME WITH HOME IV PROVIDR", "HOME HEALTH CARE"] {
      SwitchBreaksAt(DischargeArms, NoInformation, loc, 0);
    } else if loc in ["HOSPICE-MEDICAL FACILITY", "HOSPICE-HOME"] {
      SwitchBreaksAt(DischargeArms, NoInformation, loc, 1);
    } else if loc == "DEAD/EXPIRED" {
      SwitchBreaksAt(DischargeArms, NoInformation, loc, 5);
    } else if loc in ["LONG TERM CARE HOSPITAL", "SNF", "SNF-MEDICAID ONLY CERTIF"] {
      SwitchBreaksAt(DischargeArms, NoInformation, loc, 7);
    } else if Unlisted(DischargeArms, loc) {
      SwitchUnlisted(DischargeArms, NoInformation, loc);
    }
  }

  function AdmitSourceCoding(code: string, display: string): Coding
  {
    Coding(AdmitSourceSystem, Some(code), Some(display))
  }

  const NotAvailable: string := "** INFO NOT AVAILABLE **"

  /** None is "no admit source"; Some(codings) is an admit source with those codings. */
  const AdmitSourceArms: seq<Arm<Option<seq<Coding>>>> := [
    Arm(["PHYS REFERRAL/NORMAL DELI", "HMO REFERRAL/SICK"], Some([AdmitSourceCoding("E", "Einweisung durch einen Arzt")]), true),
    Arm(["TRSF WITHIN THIS FACILITY", "TRANSFER FROM OTHER HEALT"], Some([AdmitSourceCoding("other", "Other")]), true),
    Arm(["TRANSFER FROM SKILLED NUR"],
        Some([AdmitSourceCoding("R", "Aufnahme nach vorausgehender Behandlung in einer Rehabilitationseinrichtung")]), true),
    Arm([NotAvailable], None, true),
    Arm(["CLINIC REFERRAL/PREMATURE", "TRANSFER FROM HOSP/EXTRAM"],
        Some([AdmitSourceCoding("hosp-trans", "Transferred from other hospital")]), true),
    Arm(["EMERGENCY ROOM ADMIT"], Some([AdmitSourceCoding("N", "Notfall")]), true)
  ]

  /** The admit source: absent for a null location or "** INFO NOT AVAILABLE **", otherwise at most one coding. */
  function AdmitSource(admissionLocation: Option<string>): (r: Option<seq<Coding>>)
    ensures r.Some? ==> |r.value| <= 1
    ensures admissionLocation.None? ==> r.None?
  {
    if admissionLocation.None? then None
    else
      var r := Switch(AdmitSourceArms, Some([]), admissionLocation.value);
      assert r.Some? ==> |r.value| <= 1 by {
        SwitchResult(AdmitSourceArms, Some([]), admissionLocation.value);
      }
      r
  }

  /** Absent exactly for null and the not-available marker; an unlisted location keeps an empty admit source. */
  lemma AdmitSourceCases(loc: Option<string>)
    ensures AdmitSource(loc).None? <==> loc.None? || loc.value == NotAvailable
    ensures loc.Some? && Unlisted(AdmitSourceArms, loc.value) ==> AdmitSource(loc) == Some([])
    ensures loc == Some("EMERGENCY ROOM ADMIT") ==> AdmitSource(loc) == Some([AdmitSourceCoding("N", "Notfall")])
  {
    if loc.Some? {
      var x := loc.value;
      assert AllBreak(AdmitSourceArms);
      SwitchWithBreaks(AdmitSourceArms, Some([]), x);
      var e := EntryFrom(AdmitSourceArms, x, 0);
      if x == NotAvailable {
        EntryIs(AdmitSourceArms, x, 3);
      } else if e.Some? {
        assert e.value != 3;
        assert AdmitSourceArms[e.value].value.Some?;
      }
      if x == "EMERGENCY ROOM ADMIT" {
        EntryIs(AdmitSourceArms, x, 5);
      }
    }
  }

  /** The reference to the Condition a diagnosis becomes: "<admissionId>_<seqNumber>". */
  function ConditionRef(admissionId: string, d: Diagnose): string
  {
    Joined(admissionId, d.seqNumber)
  }

  /** The care unit a transfer's station is looked up under. */
  function StationKey(careUnit: Option<string>): string
  {
    if careUnit.Some? then careUnit.value else "Unknown"
  }

  /** Every transfer's care unit names a known station (otherwise `getLocation(null)` throws). */
  predicate KnownStations(stationMap: map<string, StationManager.Station>, transfers: seq<TransferRecord>)
  {
    forall i :: 0 <= i < |transfers| ==> StationKey(transfers[i].careUnit) in stationMap
  }

  /** The location component of a transfer, given the Locations stored per station. */
  ghost predicate LocationsMatch(locations: seq<LocationComponent>, transfers: seq<TransferRecord>,
                                 locationMap: map<StationManager.Station, StationManager.Location>)
  {
    |locations| == |transfers| &&
    forall i :: 0 <= i < |transfers| ==>
      var station := StationManager.Station(StationKey(transfers[i].careUnit));
      station in locationMap &&
      locations[i] == LocationComponent(locationMap[station].id, "completed", "wa", transfers[i].intime, transfers[i].outtime)
  }

  /** One diagnosis component per diagnosis, in order, referencing its Condition and ranked by sequence number. */
  method DiagnosisComponents(admissionId: string, diagnoses: seq<Diagnose>) returns (diagnosis: seq<DiagnosisComponent>)
    ensures |diagnosis| == |diagnoses|
    ensures forall i :: 0 <= i < |diagnoses| ==>
      diagnosis[i] == DiagnosisComponent(ConditionRef(admissionId, diagnoses[i]), diagnoses[i].seqNumber)
  {
    diagnosis := [];
    var i := 0;
    while i < |diagnoses|
      invariant 0 <= i <= |diagnoses| && |diagnosis| == i
      invariant forall j :: 0 <= j < i ==>
        diagnosis[j] == DiagnosisComponent(ConditionRef(admissionId, diagnoses[j]), diagnoses[j].seqNumber)
    {
      var d := diagnoses[i];
      diagnosis := diagnosis + [DiagnosisComponent(Joined(admissionId, d.seqNumber), d.seqNumber)];
      i := i + 1;
    }
  }

  /**
   * One location component per transfer, in order, each pointing at the
   * memoised Location of the transfer's station. None where the source
   * throws: a care unit that names no station.
   */
  method LocationComponents(transfers: seq<TransferRecord>, stations: StationManager.Manager,
                            locationUuids: seq<string>, organizationUuids: seq<string>)
    returns (locations: Option<seq<LocationComponent>>)
    requires stations.Valid()
    requires |locationUuids| == |organizationUuids| == |transfers|
    modifies stations`orgaMap, stations`locationMap
    ensures stations.Valid()
    ensures forall s :: s in old(stations.locationMap) ==>
      s in stations.locationMap && stations.locationMap[s] == old(stations.locationMap)[s]
    ensures locations.Some? <==> KnownStations(stations.stationMap, transfers)
    ensures locations.Some? ==> LocationsMatch(locations.value, transfers, stations.locationMap)
  {
    var result := [];
    var k := 0;
    while k < |transfers|
      invariant 0 <= k <= |transfers|
      invariant stations.Valid() && stations.stationMap == old(stations.stationMap)
      invariant forall s :: s in old(stations.locationMap) ==>
        s in stations.locationMap && stations.locationMap[s] == old(stations.locationMap)[s]
      invariant KnownStations(stations.stationMap, transfers[..k])
      invariant LocationsMatch(result, transfers[..k], stations.locationMap)
    {
      ghost var before := stations.locationMap;
      var component := TransferLocation(transfers[k], stations, locationUuids[k], organizationUuids[k]);
      if component.None? {
        return None;
      }
      LocationsMatchExtend(result, transfers, k, before, stations.locationMap, component.value);
      KnownStationsExtend(stations.stationMap, transfers, k);
      result := result + [component.value];
      k := k + 1;
    }
    assert transfers[..k] == transfers;
    locations := Some(result);
  }

  /** The location component of one transfer; None when its care unit names no station. */
  method TransferLocation(transfer: TransferRecord, stations: StationManager.Manager,
                          locationUuid: string, organizationUuid: string) returns (component: Option<LocationComponent>)
    requires stations.Valid()
    modifies stations`orgaMap, stations`locationMap
    ensures stations.Valid()
    ensures forall s :: s in old(stations.locationMap) ==>
      s in stations.locationMap && stations.locationMap[s] == old(stations.locationMap)[s]
    ensures component.Some? <==> StationKey(transfer.careUnit) in stations.stationMap
    ensures component.Some? ==>
      var station := StationManager.Station(StationKey(transfer.careUnit));
      station in stations.locationMap &&
      component.value == LocationComponent(stations.locationMap[station].id, "completed", "wa",
                                           transfer.intime, transfer.outtime)
  {
    var station := stations.GetStation(transfer.careUnit);
    if station.None? {
      return None;
    }
    var location := stations.GetLocation(station.value, locationUuid, organizationUuid);
    component := Some(LocationComponent(location.id, "completed", location.physicalType, transfer.intime, transfer.outtime));
  }

  lemma LocationsMatchExtend(result: seq<LocationComponent>, transfers: seq<TransferRecord>, k: nat,
                              before: map<StationManager.Station, StationManager.Location>,
                              after: map<StationManager.Station, StationManager.Location>,
                              component: LocationComponent)
    requires k < |transfers|
    requires LocationsMatch(result, transfers[..k], before)
    requires forall s :: s in before ==> s in after && after[s] == before[s]
    requires var station := StationManager.Station(StationKey(transfers[k].careUnit));
      station in after &&
      component == LocationComponent(after[station].id, "completed", "wa", transfers[k].intime, transfers[k].outtime)
    ensures LocationsMatch(result + [component], transfers[..k + 1], after)
  {
    assert transfers[..k + 1] == transfers[..k] + [transfers[k]];
  }

  lemma KnownStationsExtend(stationMap: map<string, StationManager.Station>, transfers: seq<TransferRecord>, k: nat)
    requires k < |transfers|
    requires KnownStations(stationMap, transfers[..k])
    requires StationKey(transfers[k].careUnit) in stationMap
    ensures KnownStations(stationMap, transfers[..k + 1])
  {
    assert transfers[..k + 1] == transfers[..k] + [transfers[k]];
  }

  /**
   * `createAdmission`. Returns None where the source throws: a transfer whose
   * station is unknown. `locationUuids[i]`/`organizationUuids[i]` are the ids
   * the i-th transfer's Location and Organization get if they are new. With
   * `asWritten` the class comes from the switch as the source has it
   * (fall-through and misspelt label included); without, from the intended table.
   */
  method CreateAdmission(a: AdmissionRecord, stations: StationManager.Manager, uuid: string,
                         locationUuids: seq<string>, organizationUuids: seq<string>, asWritten: bool)
    returns (enc: Option<Encounter>)
    requires stations.Valid()
    requires |locationUuids| == |organizationUuids| == |a.transfers|
    modifies stations`orgaMap, stations`locationMap
    ensures stations.Valid()
    ensures forall s :: s in old(stations.locationMap) ==>
      s in stations.locationMap && stations.locationMap[s] == old(stations.locationMap)[s]
    ensures enc.Some? <==> KnownStations(stations.stationMap, a.transfers)
    ensures enc.Some? ==>
      var e := enc.value;
      e.id == uuid && e.identifierSystem == EncounterSystem && e.identifierValue == a.admissionId &&
      e.identifierType == Coding(IdentifierTypeSystem, Some("VN"), None) &&
      e.profile == EncounterProfile && e.subject == a.patId &&
      e.start == a.admissionTime && e.end == a.dischargeTime && e.status == "finished" &&
      e.encounterClass == (if asWritten then EncounterClassAsWritten(a.admissionType) else EncounterClass(a.admissionType)) &&
      e.dischargeDisposition == DischargeDisposition(a.dischargeLocation) &&
      e.admitSource == AdmitSource(a.admissionLocation) &&
      |e.diagnosis| == |a.diagnoses| &&
      (forall i :: 0 <= i < |a.diagnoses| ==>
        e.diagnosis[i] == DiagnosisComponent(ConditionRef(a.admissionId, a.diagnoses[i]), a.diagnoses[i].seqNumber)) &&
      LocationsMatch(e.location, a.transfers, stations.locationMap)
  {
    var diagnosis := DiagnosisComponents(a.admissionId, a.diagnoses);
    var locations := LocationComponents(a.transfers, stations, locationUuids, organizationUuids);
    if locations.None? {
      return None;
    }
    var encounterClass := if asWritten then EncounterClassAsWritten(a.admissionType) else EncounterClass(a.admissionType);
    enc := Some(Encounter(uuid, EncounterSystem, a.admissionId, Coding(IdentifierTypeSystem, Some("VN"), None),
                          EncounterProfile, a.patId, a.admissionTime, a.dischargeTime, "finished",
                          encounterClass, diagnosis,
                          DischargeDisposition(a.dischargeLocation), AdmitSource(a.admissionLocation), locations.value));
  }

  /** Diagnoses with distinct sequence numbers are referenced by distinct conditions. */
  lemma ConditionRefsDistinct(admissionId: string, d1: Diagnose, d2: Diagnose)
    requires d1.seqNumber != d2.seqNumber
    ensures ConditionRef(admissionId, d1) != ConditionRef(admissionId, d2)
  {
    if ConditionRef(admissionId, d1) == ConditionRef(admissionId, d2) {
      JoinedInjective(admissionId, d1.seqNumber, admissionId, d2.seqNumber);
    }
  }
}
