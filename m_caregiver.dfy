/**
 * `MCaregiver`: one caregiver row, its Practitioner and its PractitionerRole.
 * The role is chosen from the description and, when that says nothing
 * usable, from the label; a caregiver matching neither gets no role.
 */
module MCaregiver {
  import opened Wrappers
  import opened Text
  import opened Records
  import opened JavaSwitch

  const PractitionerSystem: string := "http://www.imi-mimic.de/practitioner"
  const RoleSystem: string := "http://www.imi-mimic.de/pracRole"
  const RoleCodeSystem: string := "http://hl7.org/fhir/practitioner-role"

  const Researcher: Coding := Coding(RoleCodeSystem, Some("researcher"), Some("Researcher"))
  const Pharmacist: Coding := Coding(RoleCodeSystem, Some("pharmacist"), Some("Pharmacist"))
  const Ict: Coding := Coding(RoleCodeSystem, Some("ict"), Some("ICT professional"))
  const Doctor: Coding := Coding(RoleCodeSystem, Some("doctor"), Some("Doctor"))
  const Nurse: Coding := Coding(RoleCodeSystem, Some("nurse"), Some("Nurse"))

  /** The description switch; its default falls back to the label. */
  const DescriptionArms: seq<Arm<Option<Coding>>> := [
    Arm(["RN", "Research Assistant"], Some(Researcher), true),
    Arm(["Pharmacist"], Some(Pharmacist), true),
    Arm(["Administrator"], Some(Ict), true),
    Arm(["IMD"], Some(Doctor), true)
  ]

  const MdSpellings: seq<string> := ["md", "Md", "MD", "MD,PhD", "Mds", "MDs", "MDS"]

  /** The label switch; its default leaves the caregiver without a role. */
  const LabelArms: seq<Arm<Option<Coding>>> := [
    Arm(["Admin"], Some(Ict), true),
    Arm(["RN"], Some(Researcher), true),
    Arm(["Res"], Some(Nurse), true),
    Arm(MdSpellings, Some(Doctor), true)
  ]

  /** The Practitioner: identifier, family name and narrative all carry the caregiver id. */
  datatype Practitioner = Practitioner(id: string, identifierSystem: string, identifierValue: string, family: string,
                                       narrative: string)

  /** The PractitionerRole: identifier and one code with one coding. */
  datatype PractitionerRole = PractitionerRole(identifierSystem: string, identifierValue: string, code: seq<seq<Coding>>)

  /** The role code for a description and a label: the description is consulted first, the label only as fallback. */
  function RoleCoding(description: Option<string>, labelText: Option<string>): (r: Option<Coding>)
    ensures description.None? && labelText.None? ==> r.None?
    ensures description.Some? && !Unlisted(DescriptionArms, description.value) ==>
      r == Switch(DescriptionArms, None, description.value)
    ensures description.Some? && Unlisted(DescriptionArms, description.value) ==>
      r == if labelText.Some? then Switch(LabelArms, None, labelText.value) else None
    ensures r.Some? ==> r.value.system == RoleCodeSystem
  {
    var check := if description.Some? then description else labelText;
    if check.None? then None
    else
      SwitchSetsIffListed(DescriptionArms, check.value);
      SwitchWithBreaks(DescriptionArms, None, check.value);
      SwitchWithBreaks(LabelArms, None, if labelText.Some? then labelText.value else "");
      var byDescription := Switch(DescriptionArms, None, check.value);
      if byDescription.Some? then byDescription
      else if labelText.Some? then Switch(LabelArms, None, labelText.value)
      else None
  }

  /**
   * A role is found exactly when the description is listed, or else the label
   * is listed in the label table; a missing description lets the label be
   * looked up in the description table first.
   */
  lemma RoleFoundIffListed(description: Option<string>, labelText: Option<string>)
    ensures RoleCoding(description, labelText).Some? <==>
      (description.Some? && !Unlisted(DescriptionArms, description.value)) ||
      (description.Some? && Unlisted(DescriptionArms, description.value) &&
       labelText.Some? && !Unlisted(LabelArms, labelText.value)) ||
      (description.None? && labelText.Some? &&
       (!Unlisted(DescriptionArms, labelText.value) || !Unlisted(LabelArms, labelText.value)))
  {
    if labelText.Some? {
      SwitchSetsIffListed(DescriptionArms, labelText.value);
      SwitchSetsIffListed(LabelArms, labelText.value);
    }
    if description.Some? {
      SwitchSetsIffListed(DescriptionArms, description.value);
    } else if labelText.Some? {
      var byDescription := Switch(DescriptionArms, None, labelText.value);
      assert RoleCoding(description, labelText)
          == if byDescription.Some? then byDescription else Switch(LabelArms, None, labelText.value);
    }
  }

  /** Every MD spelling of the label gives the doctor role. */
  lemma MdSpellingsAreDoctors(labelText: string)
    requires labelText in MdSpellings
    ensures Switch(LabelArms, None, labelText) == Some(Doctor)
  {
    assert AllBreak(LabelArms);
    SwitchBreaksAt(LabelArms, None, labelText, 3);
  }

  /** A caregiver with an MD label and an unlisted description is a doctor. */
  lemma MdCaregiverIsDoctor(description: Option<string>, labelText: string)
    requires labelText in MdSpellings
    requires description.None? || Unlisted(DescriptionArms, description.value)
    ensures RoleCoding(description, Some(labelText)) == Some(Doctor)
  {
    MdSpellingsAreDoctors(labelText);
    if description.None? {
      SwitchUnlisted(DescriptionArms, None, labelText);
    }
  }

  /** "Res" (residents, fellows, assistants) is read as nurse; "RN" as researcher, from either field. */
  lemma LabelCodes()
    ensures Switch(LabelArms, None, "Res") == Some(Nurse)
    ensures Switch(LabelArms, None, "RN") == Switch(DescriptionArms, None, "RN") == Some(Researcher)
  {
    assert AllBreak(LabelArms) && AllBreak(DescriptionArms);
    SwitchBreaksAt(LabelArms, None, "Res", 2);
    SwitchBreaksAt(LabelArms, None, "RN", 1);
    SwitchBreaksAt(DescriptionArms, None, "RN", 0);
  }

  class MCaregiver {
    var caregiverId: int
    var labelText: Option<string>
    var description: Option<string>

    constructor()
      ensures caregiverId == 0 && labelText.None? && description.None?
    {
      caregiverId, labelText, description := 0, None, None;
    }

    /** `getFhirRepresentation`, with the fresh id given. */
    function GetFhirRepresentation(uuid: string): (p: Practitioner)
      reads this
      ensures p.id == uuid && p.identifierSystem == PractitionerSystem
      ensures p.identifierValue == IntToString(caregiverId)
      ensures p.family == "Caregiver " + p.identifierValue
      ensures p.narrative == "<div>Caregiver with Id " + p.identifierValue + "</div>"
    {
      var id := IntToString(caregiverId);
      Practitioner(uuid, PractitionerSystem, id, "Caregiver " + id, "<div>Caregiver with Id " + id + "</div>")
    }

    /** `getFhirRepresentationRole`: no role when no role code is found. */
    function GetFhirRepresentationRole(): (r: Option<PractitionerRole>)
      reads this
      ensures r.Some? <==> RoleCoding(description, labelText).Some?
      ensures r.Some? ==>
        r.value.identifierSystem == RoleSystem && r.value.identifierValue == IntToString(caregiverId) &&
        r.value.code == [[RoleCoding(description, labelText).value]]
    {
      var coding := RoleCoding(description, labelText);
      if coding.None? then None
      else Some(PractitionerRole(RoleSystem, IntToString(caregiverId), [[coding.value]]))
    }
  }

  /** Caregivers with different ids get different Practitioner identifiers. */
  lemma PractitionerIdentifiersDistinguish(c1: MCaregiver, c2: MCaregiver, uuid1: string, uuid2: string)
    requires c1.GetFhirRepresentation(uuid1).identifierValue == c2.GetFhirRepresentation(uuid2).identifierValue
    ensures c1.caregiverId == c2.caregiverId
  {
    IntToStringInjective(c1.caregiverId, c2.caregiverId);
  }
}
