/**
 * `MWard`: a ward taken from the transfers, and its FHIR Location. The care
 * unit defaults to "NORMAL"; the location type comes from a table of care
 * units.
 */
module MWard {
  import opened Wrappers
  import opened Text
  import opened Records
  import opened JavaSwitch

  const WardsSystem: string := "http://www.imi-mimic.de/wards"
  const RoleCodeSystem: string := "http://hl7.org/fhir/v3/RoleCode"

  const HospitalUnit: Coding := Coding(RoleCodeSystem, Some("HU"), Some("Hospital unit"))
  const CoronaryCareUnit: Coding := Coding(RoleCodeSystem, Some("CCU"), Some("Coronary care unit"))
  const IntensiveCareUnit: Coding := Coding(RoleCodeSystem, Some("ICU"), Some("Intensive care unit"))
  const NeonatalIntensiveCare: Coding := Coding(RoleCodeSystem, Some("PEDNICU"), Some("Pediatric neonatal intensive care unit"))

  /** The care-unit switch; it has no default, so an unlisted unit adds no coding. */
  const TypeArms: seq<Arm<Option<Coding>>> := [
    Arm(["NORMAL", "NWARD"], Some(HospitalUnit), true),
    Arm(["CCU"], Some(CoronaryCareUnit), true),
    Arm(["CSRU", "MICU", "SICU", "TSICU"], Some(IntensiveCareUnit), true),
    Arm(["NICU"], Some(NeonatalIntensiveCare), true)
  ]

  /** A Location: id, identifier, name and one type concept (possibly without a coding). */
  datatype Location = Location(id: string, identifierSystem: string, identifierValue: string, name: string,
                               typeCoding: seq<Coding>)

  /** The codings of the location type for a care unit: one for a listed unit, none otherwise. */
  function TypeCodings(careUnit: string): (r: seq<Coding>)
    ensures |r| <= 1
    ensures |r| == 1 <==> !Unlisted(TypeArms, careUnit)
  {
    SwitchSetsIffListed(TypeArms, careUnit);
    match Switch(TypeArms, None, careUnit)
    case Some(c) => [c]
    case None => []
  }

  lemma HospitalUnits(careUnit: string)
    requires careUnit in ["NORMAL", "NWARD"]
    ensures TypeCodings(careUnit) == [HospitalUnit]
  {
    SwitchBreaksAt(TypeArms, None, careUnit, 0);
  }

  lemma CoronaryCare()
    ensures TypeCodings("CCU") == [CoronaryCareUnit]
  {
    SwitchBreaksAt(TypeArms, None, "CCU", 1);
  }

  lemma IntensiveCareUnits(careUnit: string)
    requires careUnit in ["CSRU", "MICU", "SICU", "TSICU"]
    ensures TypeCodings(careUnit) == [IntensiveCareUnit]
  {
    SwitchBreaksAt(TypeArms, None, careUnit, 2);
  }

  lemma NeonatalCare()
    ensures TypeCodings("NICU") == [NeonatalIntensiveCare]
  {
    SwitchBreaksAt(TypeArms, None, "NICU", 3);
  }

  class MWard {
    var wardId: int
    var careUnit: Option<string>

    /** A fresh ward: id 0 and no care unit yet. */
    constructor()
      ensures wardId == 0 && careUnit.None?
    {
      wardId, careUnit := 0, None;
    }

    /** A null care unit is stored as "NORMAL". */
    method SetCareUnit(unit: Option<string>)
      modifies this`careUnit
      ensures careUnit.Some?
      ensures unit.Some? ==> careUnit == unit
      ensures unit.None? ==> careUnit == Some("NORMAL")
    {
      if unit.None? {
        careUnit := Some("NORMAL");
      } else {
        careUnit := unit;
      }
    }

    method SetWardId(id: int)
      modifies this`wardId
      ensures wardId == id
    {
      wardId := id;
    }

    /** "Ward <wardId> (<careUnit>)". */
    function GetWardName(): (n: string)
      reads this
      ensures n == "Ward " + IntToString(wardId) + " (" + JavaString(careUnit) + ")"
    {
      "Ward " + IntToString(wardId) + " (" + JavaString(careUnit) + ")"
    }

    /** `getFhirLocation`, with the fresh id given; None is the exception of a switch on a null care unit. */
    function GetFhirLocation(uuid: string): (r: Option<Location>)
      reads this
      ensures r.Some? <==> careUnit.Some?
      ensures r.Some? ==>
        r.value.id == uuid && r.value.identifierSystem == WardsSystem &&
        r.value.identifierValue == IntToString(wardId) + "_" + careUnit.value &&
        r.value.name == GetWardName() && r.value.typeCoding == TypeCodings(careUnit.value)
    {
      if careUnit.None? then None
      else Some(Location(uuid, WardsSystem, IntToString(wardId) + "_" + careUnit.value, GetWardName(),
                         TypeCodings(careUnit.value)))
    }
  }

  /** The location identifier "<wardId>_<careUnit>" determines both the ward id and the care unit. */
  lemma LocationIdentifierInjective(w1: int, u1: string, w2: int, u2: string)
    requires IntToString(w1) + "_" + u1 == IntToString(w2) + "_" + u2
    ensures w1 == w2 && u1 == u2
  {
    IntToStringHasNo(w1, '_');
    IntToStringHasNo(w2, '_');
    SplitAtFirst(IntToString(w1), u1, IntToString(w2), u2, '_');
    IntToStringInjective(w1, w2);
  }

  /** The stored care unit can be read back from the ward name, just before its closing parenthesis. */
  lemma NameShowsCareUnit(w: MWard)
    requires w.careUnit.Some?
    ensures var n := w.GetWardName(); var u := w.careUnit.value;
      n[|n| - |u| - 1..|n| - 1] == u
  {
  }
}
