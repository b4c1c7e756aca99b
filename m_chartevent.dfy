/**
 * `MChartevent`: one row of the chart-events table, and the LOINC code the
 * KDS conversion picks for its measurement label. The same label table is
 * written out in `MChartevent.getFhirObservation` and in
 * `CharteventManager.createResource`; it is defined once here.
 */
module MChartevent {
  import opened Wrappers
  import opened Records
  import opened JavaSwitch
  import opened Observations

  const VitalstatusProfile: string := "https://www.medizininformatik-initiative.de/fhir/core/modul-person/StructureDefinition/Vitalstatus"

  /** The mandatory KDS category slice. */
  const SurveyCategory: Coding :=
    Coding("http://terminology.hl7.org/CodeSystem/observation-category", Some("survey"), Some("Survey"))
  const VitalSignsCategory: Coding := Coding(CategorySystem, Some("vital_signs"), Some("Vital Signs"))

  /** The fixed KDS value of an event with a numeric value. */
  const VitalstatusUnknown: Coding :=
    Coding("https://www.medizininformatik-initiative.de/fhir/core/CodeSystem/Vitalstatus", Some("X"), Some("unbekannt"))

  function LoincCoding(code: string, display: string): Coding
  {
    Coding(LoincSystem, Some(code), Some(display))
  }

  const OxygenLabel: string := "PAR-Oxygen saturation"
  const RespiratoryRate: Coding := LoincCoding("9279-1", "Respiratory Rate")
  const HeartRate: Coding := LoincCoding("8867-4", "Heart Rate")
  const OxygenSaturation: Coding := LoincCoding("2708-6", "Oxygen Saturation")
  const BodyTemperature: Coding := LoincCoding("8310-5", "Body Temperature")
  const BodyHeight: Coding := LoincCoding("8302-2", "Body Height")
  const DiastolicPressure: Coding := LoincCoding("8480-6", "Diastolic Blood Pressure")
  const SystolicPressure: Coding := LoincCoding("8462-4", "Systolic Blood Pressure")
  /** The default: a general vital sign. */
  const VitalSign: Coding := LoincCoding("75186-7", "Vital Sign")

  const RespiratoryLabels: seq<string> :=
    ["Respiratory Rate", "Respiratory Rate (Set)", "Respiratory Rate (spontaneous)", "Respiratory Rate (Total)"]
  const TemperatureLabels: seq<string> := ["Temp ApacheIIValue", "LLE Temp", "LUE Temp", "RLE Temp", "RUE Temp"]
  const HeightLabels: seq<string> := ["Height", "Height (cm)"]
  const DiastolicLabels: seq<string> := [
    "Manual Blood Pressure Diastolic Left", "Manual Blood Pressure Diastolic Right",
    "Non Invasive Blood Pressure diastolic", "Pulmonary Artery Pressure diastolic",
    "ART BP Diastolic", "Arterial Blood Pressure diastolic"]
  const SystolicLabels: seq<string> := [
    "Manual Blood Pressure Systolic Left", "Manual Blood Pressure Systolic Right",
    "Non Invasive Blood Pressure systolic", "Pulmonary Artery Pressure systolic",
    "ART BP Systolic", "Arterial Blood Pressure systolic"]

  /** The label switch; `oxygenBreaks` says whether the oxygen case ends with `break`. */
  function LoincArmsWith(oxygenBreaks: bool): seq<Arm<Coding>>
  {
    [Arm(RespiratoryLabels, RespiratoryRate, true),
     Arm(["Heart Rate"], HeartRate, true),
     Arm([OxygenLabel], OxygenSaturation, oxygenBreaks),
     Arm(TemperatureLabels, BodyTemperature, true),
     Arm(HeightLabels, BodyHeight, true),
     Arm(DiastolicLabels, DiastolicPressure, true),
     Arm(SystolicLabels, SystolicPressure, true)]
  }

  /** A LOINC coding with code and display. */
  predicate IsLoincCoding(c: Coding)
  {
    c.system == LoincSystem && c.code.Some? && c.display.Some?
  }

  /** The switch as written: the oxygen case has no `break`. */
  function LoincAsWritten(name: string): (c: Coding)
    ensures c.system == LoincSystem && c.code.Some? && c.display.Some?
  {
    SwitchKeeps(LoincArmsWith(false), VitalSign, name, IsLoincCoding);
    Switch(LoincArmsWith(false), VitalSign, name)
  }

  /** The switch with the oxygen case closed by a `break`. */
  function Loinc(name: string): (c: Coding)
    ensures c.system == LoincSystem && c.code.Some? && c.display.Some?
  {
    SwitchWithBreaks(LoincArmsWith(true), VitalSign, name);
    Switch(LoincArmsWith(true), VitalSign, name)
  }

  /** As written, the oxygen label falls through into the temperature case and is coded as body temperature. */
  lemma OxygenFallsThrough()
    ensures LoincAsWritten(OxygenLabel) == BodyTemperature
  {
    var arms := LoincArmsWith(false);
    var all := arms + [Arm([], VitalSign, true)];
    SwitchEntersAt(arms, VitalSign, OxygenLabel, 2);
    assert all[2] == arms[2] && all[3] == arms[3];
    FallsInto(all, 2, 3);
  }

  /** With the `break`, the oxygen label gets its own LOINC code. */
  lemma OxygenCoded()
    ensures Loinc(OxygenLabel) == OxygenSaturation
  {
    SwitchBreaksAt(LoincArmsWith(true), VitalSign, OxygenLabel, 2);
  }

  /** The missing `break` changes the code of no other label. */
  lemma FallThroughOnlyAffectsOxygen(name: string)
    requires name != OxygenLabel
    ensures LoincAsWritten(name) == Loinc(name)
  {
    var a, b := LoincArmsWith(false), LoincArmsWith(true);
    var d := Arm([], VitalSign, true);
    if name in a[0].labels {
      SwitchEntersAt(a, VitalSign, name, 0);
      SwitchEntersAt(b, VitalSign, name, 0);
      assert (a + [d])[0] == a[0] && (b + [d])[0] == b[0];
    } else if name in a[1].labels {
      SwitchEntersAt(a, VitalSign, name, 1);
      SwitchEntersAt(b, VitalSign, name, 1);
      assert (a + [d])[1] == a[1] && (b + [d])[1] == b[1];
    } else {
      SwitchAgreeAfter(a, b, VitalSign, name, 3);
    }
  }

  /**
   * The coding the conversions use: the switch as written, or with the
   * oxygen `break`. The two differ on the oxygen label alone.
   */
  function LoincOf(name: string, asWritten: bool): (c: Coding)
    ensures !asWritten || name != OxygenLabel ==> c == Loinc(name)
    ensures asWritten && name == OxygenLabel ==> c == BodyTemperature
  {
    if asWritten then
      if name == OxygenLabel then OxygenFallsThrough(); LoincAsWritten(name)
      else FallThroughOnlyAffectsOxygen(name); LoincAsWritten(name)
    else Loinc(name)
  }

  /** Each respiratory-rate label is coded 9279-1. */
  lemma RespiratoryRateCode(name: string)
    requires name in RespiratoryLabels
    ensures Loinc(name) == RespiratoryRate
  {
    SwitchBreaksAt(LoincArmsWith(true), VitalSign, name, 0);
  }

  lemma HeartRateCode()
    ensures Loinc("Heart Rate") == HeartRate
  {
    SwitchBreaksAt(LoincArmsWith(true), VitalSign, "Heart Rate", 1);
  }

  /** Each temperature label is coded 8310-5. */
  lemma TemperatureCode(name: string)
    requires name in TemperatureLabels
    ensures Loinc(name) == BodyTemperature
  {
    SwitchBreaksAt(LoincArmsWith(true), VitalSign, name, 3);
  }

  lemma HeightCode(name: string)
    requires name in HeightLabels
    ensures Loinc(name) == BodyHeight
  {
    SwitchBreaksAt(LoincArmsWith(true), VitalSign, name, 4);
  }

  lemma DiastolicCode(name: string)
    requires name in DiastolicLabels
    ensures Loinc(name) == DiastolicPressure
  {
    SwitchBreaksAt(LoincArmsWith(true), VitalSign, name, 5);
  }

  lemma SystolicCode(name: string)
    requires name in SystolicLabels
    ensures Loinc(name) == SystolicPressure
  {
    SwitchBreaksAt(LoincArmsWith(true), VitalSign, name, 6);
  }

  /** Every label the table does not list is coded as a general vital sign. */
  lemma OtherLabelsAreVitalSigns(name: string)
    requires Unlisted(LoincArmsWith(true), name)
    ensures Loinc(name) == VitalSign
  {
    SwitchUnlisted(LoincArmsWith(true), VitalSign, name);
  }

  /** One chart-event row. The numeric value is a Java double; dates are integers. */
  class MChartevent {
    var recordDate: Option<int>
    var measurementType: Option<string>
    var value: Option<string>
    var unit: Option<string>
    var numValue: real
    var hasNumVal: bool
    var storeDate: Option<int>
    var patId: Option<string>
    var encId: Option<string>

    /** A fresh row: every reference null, no numeric value. */
    constructor()
      ensures recordDate.None? && measurementType.None? && value.None? && unit.None? && storeDate.None?
      ensures patId.None? && encId.None?
      ensures numValue == 0.0 && !hasNumVal
    {
      recordDate, measurementType, value, unit, storeDate := None, None, None, None, None;
      patId, encId := None, None;
      numValue, hasNumVal := 0.0, false;
    }

    /** Storing a numeric value also marks the row as numeric. */
    method SetNumValue(v: real)
      modifies this`numValue, this`hasNumVal
      ensures numValue == v && hasNumVal
    {
      hasNumVal := true;
      numValue := v;
    }

    /** The flag can also be set on its own, independently of the stored number. */
    method SetHasNumVal(b: bool)
      modifies this`hasNumVal
      ensures hasNumVal == b
    {
      hasNumVal := b;
    }

    /**
     * `getFhirObservation`: the KDS Vitalstatus observation for the given
     * Patient and Encounter ids. None is the exception of a switch on a
     * null name. `asWritten` selects the LOINC switch as the source has it.
     */
    function GetFhirObservation(patId: Option<string>, encId: Option<string>, asWritten: bool): (r: Option<Observation>)
      reads this
      ensures r.None? <==> measurementType.None?
      ensures r.Some? ==>
        r.value.status == Final && r.value.profile == Some(VitalstatusProfile) &&
        r.value.category == [SurveyCategory, VitalSignsCategory] &&
        r.value.code == Concept([LoincOf(measurementType.value, asWritten)], None) &&
        r.value.subject == patId && r.value.partOf == encId && r.value.effective == recordDate
      ensures r.Some? ==> (r.value.value != NoValue <==> hasNumVal)
      ensures r.Some? && hasNumVal ==> r.value.value == CodedValue(VitalstatusUnknown)
    {
      if measurementType.None? then None
      else
        Some(Observation(Final, Some(VitalstatusProfile), None, [SurveyCategory, VitalSignsCategory],
                         Concept([LoincOf(measurementType.value, asWritten)], None),
                         if hasNumVal then CodedValue(VitalstatusUnknown) else NoValue,
                         None, [], [], patId, encId, recordDate))
    }
  }
}
