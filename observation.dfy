/**
 * The parts of a FHIR Observation that the chart-event, lab-event and
 * note-event conversions fill. A CodeableConcept that carries one coding is
 * kept as that coding.
 */
module Observations {
  import opened Wrappers
  import opened Records

  const CategorySystem: string := "http://hl7.org/fhir/observation-category"
  const LoincSystem: string := "http://loinc.org"

  datatype ObservationStatus = Final | EnteredInError

  datatype Concept = Concept(coding: seq<Coding>, text: Option<string>)

  /** `Observation.value[x]`: unset, a coded value, a quantity (a Java double) or a string. */
  datatype Value = NoValue | CodedValue(coding: Coding) | QuantityValue(amount: real, unit: Option<string>)
                 | StringValue(text: Option<string>)

  /** An identifier with its type, as the lab conversion writes it. */
  datatype Identifier = Identifier(use: string, typeCoding: Coding, system: string, value: string, assigner: Option<string>)

  datatype Observation = Observation(
    status: ObservationStatus,
    profile: Option<string>,
    identifier: Option<Identifier>,
    category: seq<Coding>,
    code: Concept,
    value: Value,
    dataAbsentReason: Option<Coding>,
    interpretation: seq<Coding>,
    note: seq<Option<string>>,
    subject: Option<string>,
    partOf: Option<string>,
    effective: Option<int>)
}
