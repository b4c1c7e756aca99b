/**
 * `LabeventManager.createResource`: the Observation of one lab event. Under
 * KDS it follows the ObservationLab profile, with an identifier and, for a
 * non-numeric event, a data-absent-reason instead of a value; under R4 it is
 * a laboratory observation whose non-numeric value is a string with the unit
 * appended.
 */
module LabeventManager {
  import opened Wrappers
  import opened Text
  import opened Records
  import opened Observations

  /** MLabevent, the fields read by the conversion; the numeric value is a Java double. */
  datatype Labevent = Labevent(
    labeventId: int,
    acquisitionDate: Option<int>,
    measurementType: Option<string>,
    value: Option<string>,
    unit: Option<string>,
    numValue: real,
    hasNumVal: bool,
    abnormal: bool,
    loinc: Option<string>,
    comments: Option<string>,
    patId: Option<string>,
    encId: Option<string>)

  const LabProfile: string := "https://www.medizininformatik-initiative.de/fhir/core/modul-labor/StructureDefinition/ObservationLab"
  const LabeventsSystem: string := "http://www.imi-mimic.de/labevents"
  const ObiType: Coding := Coding("http://terminology.hl7.org/CodeSystem/v2-0203", Some("OBI"), Some("Optometrist license number"))
  const LaboratoryCategory: Coding := Coding(CategorySystem, Some("laboratory"), Some("Laboratory"))
  const LaboratoryStudies: Coding := Coding(LoincSystem, Some("26436-6"), Some("Laboratory studies"))
  const AskedUnknown: Coding :=
    Coding("http://terminology.hl7.org/CodeSystem/data-absent-reason", Some("asked-unknown"), Some("Asked But Unknown"))
  const Abnormal: Coding := Coding("http://hl7.org/fhir/v2/0078", Some("A"), Some("Abnormal"))

  /** The KDS category concept the conversion assembles; it is never added to the observation. */
  const KdsCategoryCodings: seq<Coding> := [LaboratoryCategory, LaboratoryStudies]

  /** A Java string that is non-null and not empty. */
  predicate Filled(s: Option<string>)
  {
    s.Some? && |s.value| > 0
  }

  /** The R4 value of a non-numeric event: the value, with " (<unit>)" appended when there is a unit. */
  function R4Text(e: Labevent): (t: Option<string>)
    ensures !Filled(e.unit) ==> t == e.value
    ensures Filled(e.unit) ==> t.Some? && |t.value| == |JavaString(e.value)| + |e.unit.value| + 3
  {
    if Filled(e.unit) then Some(JavaString(e.value) + " (" + e.unit.value + ")") else e.value
  }

  /** The code: a LOINC coding only when the event has a LOINC code; the text is always the measurement type. */
  function LabCode(e: Labevent): (c: Concept)
    ensures c.text == e.measurementType
    ensures e.loinc.None? <==> c.coding == []
    ensures e.loinc.Some? ==> c.coding == [Coding(LoincSystem, e.loinc, None)]
  {
    Concept(if e.loinc.Some? then [Coding(LoincSystem, e.loinc, None)] else [], e.measurementType)
  }

  function CreateResource(e: Labevent, version: ModelVersion): (o: Observation)
    ensures o.status == Final && o.code == LabCode(e)
    ensures o.subject == e.patId && o.partOf == e.encId && o.effective == e.acquisitionDate
    ensures o.interpretation != [] <==> e.abnormal
    ensures e.abnormal ==> o.interpretation == [Abnormal]
    ensures o.note != [] <==> Filled(e.comments)
    ensures Filled(e.comments) ==> o.note == [e.comments]
    ensures e.hasNumVal ==> o.value == QuantityValue(e.numValue, e.unit) && o.dataAbsentReason.None?
    ensures version.KDS? ==>
      o.profile == Some(LabProfile) && o.category == [] &&
      o.identifier == Some(Identifier("usual", ObiType, LabeventsSystem, IntToString(e.labeventId), e.patId)) &&
      (!e.hasNumVal ==> o.value == NoValue && o.dataAbsentReason == Some(AskedUnknown))
    ensures version.R4? ==>
      o.profile.None? && o.identifier.None? && o.category == [LaboratoryCategory] && o.dataAbsentReason.None? &&
      (!e.hasNumVal ==> o.value == StringValue(R4Text(e)))
  {
    var interpretation := if e.abnormal then [Abnormal] else [];
    var note := if Filled(e.comments) then [e.comments] else [];
    if version.KDS? then
      var identifier := Identifier("usual", ObiType, LabeventsSystem, IntToString(e.labeventId), e.patId);
      Observation(Final, Some(LabProfile), Some(identifier), [], LabCode(e),
                  if e.hasNumVal then QuantityValue(e.numValue, e.unit) else NoValue,
                  if e.hasNumVal then None else Some(AskedUnknown),
                  interpretation, note, e.patId, e.encId, e.acquisitionDate)
    else
      Observation(Final, None, None, [LaboratoryCategory], LabCode(e),
                  if e.hasNumVal then QuantityValue(e.numValue, e.unit) else StringValue(R4Text(e)),
                  None, interpretation, note, e.patId, e.encId, e.acquisitionDate)
  }

  /** The value and the unit can be read back from the R4 string value of a non-numeric event. */
  lemma R4TextRoundTrip(e: Labevent)
    requires Filled(e.unit)
    ensures var t := R4Text(e).value;
      var n := |JavaString(e.value)|;
      t[..n] == JavaString(e.value) && t[n..n + 2] == " (" && t[n + 2..|t| - 1] == e.unit.value && t[|t| - 1] == ')'
  {
    var v, u := JavaString(e.value), e.unit.value;
    var t := v + " (" + u + ")";
    assert t[..|v|] == v;
    assert t[|v|..|v| + 2] == " (";
    assert t[|v| + 2..|t| - 1] == u;
  }

  /** Two non-numeric events with the same unit get the same R4 string only when their values print the same. */
  lemma R4TextDistinguishes(e1: Labevent, e2: Labevent)
    requires Filled(e1.unit) && e1.unit == e2.unit
    requires R4Text(e1) == R4Text(e2)
    ensures JavaString(e1.value) == JavaString(e2.value)
  {
    R4TextRoundTrip(e1);
    R4TextRoundTrip(e2);
  }

  /** KDS identifiers of lab events differ whenever their event ids differ. */
  lemma KdsIdentifiersDistinguish(e1: Labevent, e2: Labevent)
    requires CreateResource(e1, KDS).identifier == CreateResource(e2, KDS).identifier
    ensures e1.labeventId == e2.labeventId
  {
    IntToStringInjective(e1.labeventId, e2.labeventId);
  }
}
