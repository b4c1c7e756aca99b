/**
 * `CharteventManager.createResource`: the Observation of one chart event.
 * Under KDS it is the Vitalstatus observation with one LOINC coding chosen by
 * the measurement label; under R4 the label is plain text and the value is
 * the numeric quantity or the raw string.
 */
module CharteventManager {
  import opened Wrappers
  import opened Records
  import opened Observations
  import M = MChartevent

  /**
   * The Observation of a chart event. The Patient and Encounter references
   * are the event's own patId and encId. None is the exception of the KDS
   * switch on a null label. `asWritten` selects the LOINC switch as the
   * source has it.
   */
  function CreateResource(e: M.MChartevent, version: ModelVersion, asWritten: bool): (r: Option<Observation>)
    reads e
    ensures r.None? <==> version.KDS? && e.measurementType.None?
    ensures r.Some? ==>
      r.value.status == Final && r.value.subject == e.patId && r.value.partOf == e.encId &&
      r.value.effective == e.recordDate && r.value.identifier.None? &&
      r.value.interpretation == [] && r.value.note == []
    ensures r.Some? && version.KDS? ==>
      r.value.profile == Some(M.VitalstatusProfile) &&
      r.value.category == [M.SurveyCategory, M.VitalSignsCategory] &&
      |r.value.code.coding| == 1 && r.value.code.coding[0] == M.LoincOf(e.measurementType.value, asWritten) &&
      (r.value.value != NoValue <==> e.hasNumVal)
    ensures version.R4? ==>
      r.Some? && r.value.profile.None? && r.value.category == [] &&
      r.value.code == Concept([], e.measurementType) &&
      r.value.value == if e.hasNumVal then QuantityValue(e.numValue, e.unit) else StringValue(e.value)
  {
    if version.KDS? then
      if e.measurementType.None? then None
      else
        var code := Concept([M.LoincOf(e.measurementType.value, asWritten)], None);
        var value := if e.hasNumVal then CodedValue(M.VitalstatusUnknown) else NoValue;
        Some(Observation(Final, Some(M.VitalstatusProfile), None, [M.SurveyCategory, M.VitalSignsCategory], code, value,
                         None, [], [], e.patId, e.encId, e.recordDate))
    else
      var value := if e.hasNumVal then QuantityValue(e.numValue, e.unit) else StringValue(e.value);
      Some(Observation(Final, None, None, [], Concept([], e.measurementType), value, None, [], [],
                       e.patId, e.encId, e.recordDate))
  }

  /**
   * Under KDS the manager builds the same observation as the row's own
   * `getFhirObservation` called with the row's patient and encounter ids.
   */
  lemma KdsAgreesWithRowConversion(e: M.MChartevent, asWritten: bool)
    ensures CreateResource(e, KDS, asWritten) == e.GetFhirObservation(e.patId, e.encId, asWritten)
  {
  }

  /** A KDS chart event with a numeric value is recorded as Vitalstatus "X", whatever the number. */
  lemma KdsValueIgnoresNumber(e: M.MChartevent, asWritten: bool)
    requires e.measurementType.Some? && e.hasNumVal
    ensures CreateResource(e, KDS, asWritten).value.value == CodedValue(M.VitalstatusUnknown)
  {
  }

  /** The R4 observation of a numeric event carries the number and unit; otherwise the raw value as a string. */
  lemma R4ValueKinds(e: M.MChartevent, asWritten: bool)
    ensures CreateResource(e, R4, asWritten).value.value.QuantityValue? <==> e.hasNumVal
    ensures CreateResource(e, R4, asWritten).value.value.StringValue? <==> !e.hasNumVal
  {
  }

  /**
   * Under KDS an oxygen-saturation event is coded as body temperature by the
   * switch as written, and as oxygen saturation once the case has its `break`.
   */
  lemma KdsOxygenCoding(e: M.MChartevent)
    requires e.measurementType == Some(M.OxygenLabel)
    ensures CreateResource(e, KDS, true).value.code.coding == [M.BodyTemperature]
    ensures CreateResource(e, KDS, false).value.code.coding == [M.OxygenSaturation]
  {
    M.OxygenCoded();
  }
}
