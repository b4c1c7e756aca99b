/**
 * `PrescriptionManager`: the Medication of a prescription (`createResource`)
 * and its MedicationAdministration (`createAdministration`).
 *
 * Under KDS the Medication is coded by the ATC codes of the NDC's ingredients
 * (from the shared RxNorm lookup), its form comes from a fixed table and each
 * ingredient becomes a component; under R4 it is coded by RxNorm concepts of
 * the NDC or, failing that, of the GSN codes, through a lookup created for the
 * call. The administration's dosage (route, dose, text) is assembled under
 * both specifications but attached only under R4.
 */
module PrescriptionManager {
  import opened Wrappers
  import opened Text
  import opened Records
  import opened JavaSwitch
  import RxNormLookup

  /** MPrescription, restricted to the fields the two resources are built from; dates are integers. */
  datatype PrescriptionRecord = PrescriptionRecord(
    medId: string,
    start: Option<int>, end: Option<int>,
    drug: Option<string>, formularyDrugCd: Option<string>, gsn: Option<string>, ndc: Option<string>,
    prodStrength: Option<string>, formRx: Option<string>,
    doseValRx: Option<string>, doseUnitRx: Option<string>, formValDisp: Option<string>, formUnitDisp: Option<string>,
    route: Option<string>, patId: string, encId: string)

  const MedicationProfile: string := "https://www.medizininformatik-initiative.de/fhir/core/modul-medikation/StructureDefinition/Medication"
  const AdministrationProfile: string := "https://www.medizininformatik-initiative.de/fhir/core/modul-medikation/StructureDefinition/MedicationAdministration"
  const AtcSystem: string := "http://www.whocc.no/atc"
  const UniiSystem: string := "http://fdasis.nlm.nih.gov"
  const SnomedSystem: string := "http://snomed.info/sct"
  const RxNormSystem: string := "http://www.nlm.nih.gov/research/umls/rxnorm"
  const UcumSystem: string := "http://unitsofmeasure.org"
  const PrescriptionsSystem: string := "http://www.imi-mimic.de/prescriptions"

  /** A Coding whose system, code and display may each be unset. */
  datatype MedCoding = MedCoding(system: Option<string>, code: Option<string>, display: Option<string>)

  datatype Concept = Concept(coding: seq<MedCoding>, text: Option<string>)

  /** An ingredient component: its item, the substance-type extension, or only a data-absent-reason. */
  datatype MedIngredient = MedIngredient(item: Option<Concept>, substanceType: Option<string>, absentReason: Option<string>)

  datatype Medication = Medication(id: string, profile: Option<string>, code: Option<Concept>, form: Option<Concept>,
                                   ingredient: seq<MedIngredient>)

  // ---------------------------------------------------------------- form table

  datatype FormCode = FormCode(code: string, display: string)

  function FormArm(labels: seq<string>, code: string, display: string): Arm<Option<FormCode>>
  {
    Arm(labels, Some(FormCode(code, display)), true)
  }

  const FormArmsA: seq<Arm<Option<FormCode>>> := [
    FormArm(["AMP"], "30001000", "Ampulle"),
    FormArm(["BOTTLE"], "30008000", "Flasche"),
    FormArm(["CART"], "300014000", "Patrone"),
    FormArm(["CRE", "CREA"], "10502000", "Creme"),
    FormArm(["DROPS"], "10307000", "Tropfen zur Anwendug in der Mundhöhle"),
    FormArm(["EPI PEN", "PEN"], "13114000", "Pen"),
    FormArm(["GEL", "GELS"], "1053000", "Gel"),
    FormArm(["GRAN"], "10204000", "Granulat"),
    FormArm(["IMP"], "11301000", "Implantat"),
    FormArm(["INH"], "30026500", "Inhalator")
  ]

  const FormArmsB: seq<Arm<Option<FormCode>>> := [
    FormArm(["INJ", "SYRI"], "30029000", "Injektionsspritze"),
    FormArm(["LOZ"], "10321000", "Lutschtablette"),
    FormArm(["OINT"], "10504000", "Salbe"),
    FormArm(["OOINT"], "10214005", "Salbe zur Anwendung in der Mundhoehle"),
    FormArm(["PUMP"], "30035000", "Dosierpumpe"),
    FormArm(["SUPP"], "11013000", "Zäpfchen"),
    FormArm(["SYRP"], "11017000", "Sirup"),
    FormArm(["TAB", "TABLET"], "10219000", "Tablette"),
    FormArm(["TUBE"], "30067000", "Tube"),
    FormArm(["VIAL"], "30069000", "Durchstechflasche")
  ]

  /** The `switch` on formRx; `default` clears `matchesAny`. */
  const FormArms: seq<Arm<Option<FormCode>>> := FormArmsA + FormArmsB

  /** The Medication form: set only for a listed form code, as one coding without a system. */
  function FormOf(formRx: Option<string>): (r: Option<Concept>)
    ensures r.Some? <==> formRx.Some? && !Unlisted(FormArms, formRx.value)
    ensures r.Some? ==> |r.value.coding| == 1 && r.value.coding[0].system.None? && r.value.coding[0].code.Some?
  {
    if formRx.None? then None
    else
      SwitchSetsIffListed(FormArms, formRx.value);
      match Switch(FormArms, None, formRx.value)
      case None => None
      case Some(f) => Some(Concept([MedCoding(None, Some(f.code), Some(f.display))], None))
  }

  /** Both spellings of a cream give the same form. */
  lemma CreamForm()
    ensures FormOf(Some("CRE")) == FormOf(Some("CREA"))
         == Some(Concept([MedCoding(None, Some("10502000"), Some("Creme"))], None))
  {
    assert AllBreak(FormArms);
    SwitchBreaksAt(FormArms, None, "CRE", 3);
    SwitchBreaksAt(FormArms, None, "CREA", 3);
  }

  lemma TabletInSecondHalf(x: string)
    requires x in {"TAB", "TABLET"}
    ensures Switch(FormArmsB, None, x) == Some(FormCode("10219000", "Tablette"))
  {
    assert AllBreak(FormArmsB);
    SwitchBreaksAt(FormArmsB, None, x, 7);
  }

  /** Both spellings of a tablet give the same form. */
  lemma TabletForm(x: string)
    requires x in {"TAB", "TABLET"}
    ensures FormOf(Some(x)) == Some(Concept([MedCoding(None, Some("10219000"), Some("Tablette"))], None))
  {
    SwitchSkip(FormArmsA, FormArmsB, None, x);
    TabletInSecondHalf(x);
  }

  /** A form code the table does not list (a solution, say) gives no form. */
  lemma UnlistedForm()
    ensures FormOf(Some("SOLN")).None? && FormOf(None).None?
  {
    SwitchUnlisted(FormArms, None, "SOLN");
  }

  // ---------------------------------------------------------------- KDS medication

  /** One coding of the given system per code, in order. */
  function SystemCodings(system: string, codes: seq<string>, display: Option<string>): (r: seq<MedCoding>)
    ensures |r| == |codes|
    ensures forall i :: 0 <= i < |r| ==> r[i] == MedCoding(Some(system), Some(codes[i]), display)
  {
    if codes == [] then []
    else SystemCodings(system, codes[..|codes| - 1], display) + [MedCoding(Some(system), Some(codes[|codes| - 1]), display)]
  }

  /** The Medication code under KDS: every ATC code of every ingredient, displayed with the ingredient's name. */
  function AtcCodings(ings: seq<RxNormLookup.IngredientInfo>): seq<MedCoding>
  {
    if ings == [] then []
    else
      var last := ings[|ings| - 1];
      AtcCodings(ings[..|ings| - 1]) + SystemCodings(AtcSystem, last.atcCodes, Some(last.name))
  }

  /** A coding is in the code exactly when it is an ATC code of some ingredient, shown with that ingredient's name. */
  lemma {:induction false} AtcCodingsMembers(ings: seq<RxNormLookup.IngredientInfo>, c: MedCoding)
    ensures c in AtcCodings(ings) <==>
      exists i, j :: 0 <= i < |ings| && 0 <= j < |ings[i].atcCodes| &&
        c == MedCoding(Some(AtcSystem), Some(ings[i].atcCodes[j]), Some(ings[i].name))
  {
    if ings != [] {
      var init, last := ings[..|ings| - 1], ings[|ings| - 1];
      AtcCodingsMembers(init, c);
      var tail := SystemCodings(AtcSystem, last.atcCodes, Some(last.name));
      if c in tail {
        var j :| 0 <= j < |tail| && tail[j] == c;
        assert 0 <= |ings| - 1 < |ings| && 0 <= j < |ings[|ings| - 1].atcCodes|;
      }
      if exists i, j :: 0 <= i < |ings| && 0 <= j < |ings[i].atcCodes| &&
           c == MedCoding(Some(AtcSystem), Some(ings[i].atcCodes[j]), Some(ings[i].name)) {
        var i, j :| 0 <= i < |ings| && 0 <= j < |ings[i].atcCodes| &&
           c == MedCoding(Some(AtcSystem), Some(ings[i].atcCodes[j]), Some(ings[i].name));
        if i < |init| {
          assert init[i] == ings[i];
        } else {
          assert tail[j] == c;
        }
      }
    }
  }

  /** The code is set exactly when some ingredient has an ATC code. */
  lemma AtcCodingsEmpty(ings: seq<RxNormLookup.IngredientInfo>)
    ensures AtcCodings(ings) != [] <==> exists i :: 0 <= i < |ings| && ings[i].atcCodes != []
  {
    if AtcCodings(ings) != [] {
      AtcCodingsMembers(ings, AtcCodings(ings)[0]);
    }
    if exists i :: 0 <= i < |ings| && ings[i].atcCodes != [] {
      var i :| 0 <= i < |ings| && ings[i].atcCodes != [];
      AtcCodingsMembers(ings, MedCoding(Some(AtcSystem), Some(ings[i].atcCodes[0]), Some(ings[i].name)));
    }
  }

  /** One ingredient component: UNII codings, then SNOMED codings, text = the ingredient's name, type "IN". */
  function IngredientComponent(ing: RxNormLookup.IngredientInfo): MedIngredient
  {
    MedIngredient(Some(Concept(SystemCodings(UniiSystem, ing.uniiCodes, None) + SystemCodings(SnomedSystem, ing.snomedCodes, None),
                               Some(ing.name))), Some("IN"), None)
  }

  function IngredientComponents(ings: seq<RxNormLookup.IngredientInfo>): (r: seq<MedIngredient>)
    ensures |r| == |ings|
    ensures forall i :: 0 <= i < |r| ==> r[i] == IngredientComponent(ings[i])
  {
    if ings == [] then []
    else IngredientComponents(ings[..|ings| - 1]) + [IngredientComponent(ings[|ings| - 1])]
  }

  /** The prescription has an NDC worth looking up: present and not "0". */
  predicate NdcUsable(p: PrescriptionRecord)
  {
    p.ndc.Some? && p.ndc.value != "0"
  }

  /** What the KDS branch gets from the shared lookup: nothing without a usable NDC. */
  function KdsIngredients(p: PrescriptionRecord, table: map<string, RxNormLookup.OptionalCacheResult<RxNormLookup.IngredientInfo>>,
                          findRxNormForNdc: string -> seq<RxNormLookup.RxNormConcept>,
                          findIngredients: string -> seq<RxNormLookup.IngredientInfo>): Option<seq<RxNormLookup.IngredientInfo>>
  {
    if NdcUsable(p) then
      RxNormLookup.Unwrap(RxNormLookup.Cached(table, RxNormLookup.IngredientFetch(findRxNormForNdc, findIngredients),
                                              RxNormLookup.Ingredient, p.ndc.value).value)
    else None
  }

  /** The ingredients as the KDS branch sees them: a null result counts as none. */
  function Present(ingredients: Option<seq<RxNormLookup.IngredientInfo>>): seq<RxNormLookup.IngredientInfo>
  {
    if ingredients.Some? then ingredients.value else []
  }

  /** The KDS Medication for the ingredients the lookup returned. */
  function KdsMedication(p: PrescriptionRecord, ingredients: Option<seq<RxNormLookup.IngredientInfo>>): (m: Medication)
    ensures m.id == p.medId && m.profile == Some(MedicationProfile) && m.form == FormOf(p.formRx)
    ensures m.code.Some? <==> exists i :: 0 <= i < |Present(ingredients)| && Present(ingredients)[i].atcCodes != []
    ensures m.code.Some? ==> m.code.value.coding == AtcCodings(Present(ingredients)) && m.code.value.text.None?
    ensures Present(ingredients) != [] ==> m.ingredient == IngredientComponents(Present(ingredients))
    ensures Present(ingredients) == [] ==>
      m.ingredient == [MedIngredient(None, None, Some(if NdcUsable(p) then "asked-unknown" else "unknown"))]
  {
    var ings := Present(ingredients);
    var atc := AtcCodings(ings);
    AtcCodingsEmpty(ings);
    Medication(p.medId, Some(MedicationProfile), if atc != [] then Some(Concept(atc, None)) else None,
               FormOf(p.formRx),
               if ings != [] then IngredientComponents(ings)
               else [MedIngredient(None, None, Some(if NdcUsable(p) then "asked-unknown" else "unknown"))])
  }

  // ---------------------------------------------------------------- R4 medication

  /** The GSN field holds several codes separated by spaces; each is trimmed. */
  function GsnSingles(gsn: string): (r: seq<string>)
    ensures |r| == |JavaSplit(gsn, ' ')|
  {
    var parts := JavaSplit(gsn, ' ');
    seq(|parts|, i requires 0 <= i < |parts| => Trim(parts[i]))
  }

  /** The concepts of several GSN codes, in order; a code without concepts contributes nothing. */
  function GsnConcepts(fetch: string -> seq<RxNormLookup.RxNormConcept>, keys: seq<string>): (r: seq<RxNormLookup.RxNormConcept>)
    ensures forall i, c :: 0 <= i < |keys| && c in fetch(keys[i]) ==> c in r
    ensures forall c :: c in r ==> exists i :: 0 <= i < |keys| && c in fetch(keys[i])
  {
    if keys == [] then []
    else
      var init := keys[..|keys| - 1];
      assert forall i :: 0 <= i < |init| ==> init[i] == keys[i];
      GsnConcepts(fetch, init) + fetch(keys[|keys| - 1])
  }

  /**
   * The GSN loop as written: `addAll` of the getter's null answer for a code
   * without concepts throws, which aborts the whole conversion (None).
   */
  function GsnConceptsAsWritten(fetch: string -> seq<RxNormLookup.RxNormConcept>, keys: seq<string>)
    : (r: Option<seq<RxNormLookup.RxNormConcept>>)
    ensures r.Some? ==> |r.value| >= |keys|
  {
    if keys == [] then Some([])
    else
      var init := GsnConceptsAsWritten(fetch, keys[..|keys| - 1]);
      if init.None? || |fetch(keys[|keys| - 1])| == 0 then None
      else Some(init.value + fetch(keys[|keys| - 1]))
  }

  /** Where the loop as written completes, it agrees with the corrected one; it completes exactly when every code has concepts. */
  lemma {:induction false} GsnAsWrittenAgrees(fetch: string -> seq<RxNormLookup.RxNormConcept>, keys: seq<string>)
    ensures GsnConceptsAsWritten(fetch, keys).Some? <==> forall i :: 0 <= i < |keys| ==> |fetch(keys[i])| > 0
    ensures GsnConceptsAsWritten(fetch, keys).Some? ==> GsnConceptsAsWritten(fetch, keys).value == GsnConcepts(fetch, keys)
  {
    if keys != [] {
      var init := keys[..|keys| - 1];
      GsnAsWrittenAgrees(fetch, init);
      assert forall i :: 0 <= i < |init| ==> init[i] == keys[i];
    }
  }

  /** A GSN list whose second code has no RxNorm concept aborts the conversion as written, while the first code's concept is available. */
  lemma GsnWithoutConceptAborts()
    ensures var c := RxNormLookup.RxNormConcept("198211", None);
      var fetch := (k: string) => if k == "1" then [c] else [];
      GsnConceptsAsWritten(fetch, ["1", "2"]).None? && GsnConcepts(fetch, ["1", "2"]) == [c]
  {
    var c := RxNormLookup.RxNormConcept("198211", None);
    var fetch := (k: string) => if k == "1" then [c] else [];
    assert ["1", "2"][..1] == ["1"];
    assert ["1"][..0] == [];
  }

  /**
   * What the fresh R4 lookup yields, with codes without concepts skipped:
   * the NDC's concepts if any, else (with a GSN) those of the GSN codes.
   */
  function R4Concepts(p: PrescriptionRecord, findRxNormForNdc: string -> seq<RxNormLookup.RxNormConcept>,
                      findRxNormForGsn: string -> seq<RxNormLookup.RxNormConcept>): (r: Option<seq<RxNormLookup.RxNormConcept>>)
    ensures NdcUsable(p) && |findRxNormForNdc(p.ndc.value)| > 0 ==> r == Some(findRxNormForNdc(p.ndc.value))
    ensures !(NdcUsable(p) && |findRxNormForNdc(p.ndc.value)| > 0) ==>
      (r.Some? <==> p.gsn.Some?) && (r.Some? ==> r.value == GsnConcepts(findRxNormForGsn, GsnSingles(p.gsn.value)))
  {
    var ndc := if NdcUsable(p) && |findRxNormForNdc(p.ndc.value)| > 0 then Some(findRxNormForNdc(p.ndc.value)) else None;
    if ndc.None? && p.gsn.Some? then Some(GsnConcepts(findRxNormForGsn, GsnSingles(p.gsn.value))) else ndc
  }

  /** One RxNorm coding per concept, in order. */
  function RxCodings(concepts: seq<RxNormLookup.RxNormConcept>): (r: seq<MedCoding>)
    ensures |r| == |concepts|
    ensures forall i :: 0 <= i < |r| ==> r[i] == MedCoding(Some(RxNormSystem), Some(concepts[i].cui), concepts[i].name)
  {
    if concepts == [] then []
    else
      var last := concepts[|concepts| - 1];
      RxCodings(concepts[..|concepts| - 1]) + [MedCoding(Some(RxNormSystem), Some(last.cui), last.name)]
  }

  /** The code remembered for the text-only coding: the usable NDC, else the GSN, else the drug name marked "(Text Only)". */
  function ExistingCode(p: PrescriptionRecord): string
  {
    if NdcUsable(p) then p.ndc.value
    else if p.gsn.Some? then p.gsn.value
    else JavaString(p.drug) + "(Text Only)"
  }

  /**
   * The R4 Medication code. Without concepts, a formulary code selects a
   * coding that holds the form code (formRx), not the formulary code.
   */
  function R4Code(p: PrescriptionRecord, concepts: Option<seq<RxNormLookup.RxNormConcept>>): (c: Concept)
    ensures c.text == p.drug && |c.coding| >= 1
    ensures concepts.Some? && concepts.value != [] ==> c.coding == RxCodings(concepts.value)
    ensures !(concepts.Some? && concepts.value != []) ==>
      |c.coding| == 1 && c.coding[0].system.None? &&
      c.coding[0].code == if p.formularyDrugCd.Some? then p.formRx else Some(ExistingCode(p))
  {
    if concepts.Some? && concepts.value != [] then Concept(RxCodings(concepts.value), p.drug)
    else if p.formularyDrugCd.Some? then Concept([MedCoding(None, p.formRx, None)], p.drug)
    else Concept([MedCoding(None, Some(ExistingCode(p)), None)], p.drug)
  }

  /** The R4 Medication: a fresh id instead of medId, no profile, no form, the strength as the only ingredient. */
  function R4Medication(p: PrescriptionRecord, uuid: string, findRxNormForNdc: string -> seq<RxNormLookup.RxNormConcept>,
                        findRxNormForGsn: string -> seq<RxNormLookup.RxNormConcept>): (m: Medication)
    ensures m.id == uuid && m.profile.None? && m.form.None?
    ensures m.code == Some(R4Code(p, R4Concepts(p, findRxNormForNdc, findRxNormForGsn)))
    ensures p.prodStrength.None? ==> m.ingredient == []
    ensures p.prodStrength.Some? ==> m.ingredient == [MedIngredient(Some(Concept([], p.prodStrength)), None, None)]
  {
    Medication(uuid, None, Some(R4Code(p, R4Concepts(p, findRxNormForNdc, findRxNormForGsn))), None,
               if p.prodStrength.Some? then [MedIngredient(Some(Concept([], p.prodStrength)), None, None)] else [])
  }

  /** The R4 lookup reaches the GSN loop: no usable NDC with concepts, and a GSN. */
  predicate ReachesGsnLoop(p: PrescriptionRecord, findRxNormForNdc: string -> seq<RxNormLookup.RxNormConcept>)
  {
    !(NdcUsable(p) && |findRxNormForNdc(p.ndc.value)| > 0) && p.gsn.Some?
  }

  /**
   * The R4 Medication as the source computes it: the GSN loop aborts the
   * conversion (None) when one of the codes has no concept; otherwise the
   * result is the Medication of the corrected loop.
   */
  function R4MedicationAsWritten(p: PrescriptionRecord, uuid: string,
                                 findRxNormForNdc: string -> seq<RxNormLookup.RxNormConcept>,
                                 findRxNormForGsn: string -> seq<RxNormLookup.RxNormConcept>): (m: Option<Medication>)
    ensures m.None? <==>
      ReachesGsnLoop(p, findRxNormForNdc) &&
      exists i :: 0 <= i < |GsnSingles(p.gsn.value)| && |findRxNormForGsn(GsnSingles(p.gsn.value)[i])| == 0
    ensures m.Some? ==> m.value == R4Medication(p, uuid, findRxNormForNdc, findRxNormForGsn)
  {
    var ingredient := if p.prodStrength.Some? then [MedIngredient(Some(Concept([], p.prodStrength)), None, None)] else [];
    if ReachesGsnLoop(p, findRxNormForNdc) then
      var keys := GsnSingles(p.gsn.value);
      var gsn := GsnConceptsAsWritten(findRxNormForGsn, keys);
      GsnAsWrittenAgrees(findRxNormForGsn, keys);
      if gsn.None? then None
      else Some(Medication(uuid, None, Some(R4Code(p, Some(gsn.value))), None, ingredient))
    else Some(R4Medication(p, uuid, findRxNormForNdc, findRxNormForGsn))
  }

  // ---------------------------------------------------------------- loops

  /** Appends one coding of the system per code. */
  method AddCodings(coding: seq<MedCoding>, system: string, codes: seq<string>, display: Option<string>)
    returns (out: seq<MedCoding>)
    ensures out == coding + SystemCodings(system, codes, display)
  {
    out := coding;
    var j := 0;
    while j < |codes|
      invariant 0 <= j <= |codes|
      invariant out == coding + SystemCodings(system, codes[..j], display)
    {
      assert codes[..j + 1][..j] == codes[..j];
      out := out + [MedCoding(Some(system), Some(codes[j]), display)];
      j := j + 1;
    }
    assert codes[..j] == codes;
  }

  /** The nested loop over ingredients and their ATC codes. */
  method CollectAtcCodings(ings: seq<RxNormLookup.IngredientInfo>) returns (coding: seq<MedCoding>)
    ensures coding == AtcCodings(ings)
  {
    coding := [];
    var i := 0;
    while i < |ings|
      invariant 0 <= i <= |ings|
      invariant coding == AtcCodings(ings[..i])
    {
      assert ings[..i + 1][..i] == ings[..i];
      coding := AddCodings(coding, AtcSystem, ings[i].atcCodes, Some(ings[i].name));
      i := i + 1;
    }
    assert ings[..i] == ings;
  }

  /** The loop adding one component per ingredient. */
  method CollectIngredients(ings: seq<RxNormLookup.IngredientInfo>) returns (components: seq<MedIngredient>)
    ensures components == IngredientComponents(ings)
  {
    components := [];
    var i := 0;
    while i < |ings|
      invariant 0 <= i <= |ings|
      invariant components == IngredientComponents(ings[..i])
    {
      assert ings[..i + 1][..i] == ings[..i];
      var item := AddCodings([], UniiSystem, ings[i].uniiCodes, None);
      assert item == SystemCodings(UniiSystem, ings[i].uniiCodes, None);
      item := AddCodings(item, SnomedSystem, ings[i].snomedCodes, None);
      components := components + [MedIngredient(Some(Concept(item, Some(ings[i].name))), Some("IN"), None)];
      assert components[i] == IngredientComponent(ings[i]);
      i := i + 1;
    }
    assert ings[..i] == ings;
  }

  /** The loop adding one RxNorm coding per concept. */
  method CollectRxCodings(concepts: seq<RxNormLookup.RxNormConcept>) returns (coding: seq<MedCoding>)
    ensures coding == RxCodings(concepts)
  {
    coding := [];
    var i := 0;
    while i < |concepts|
      invariant 0 <= i <= |concepts|
      invariant coding == RxCodings(concepts[..i])
    {
      assert concepts[..i + 1][..i] == concepts[..i];
      coding := coding + [MedCoding(Some(RxNormSystem), Some(concepts[i].cui), concepts[i].name)];
      i := i + 1;
    }
    assert concepts[..i] == concepts;
  }

  /** Every cached GSN entry is what a fresh fetch would store. */
  ghost predicate GsnCacheFaithful(rx: RxNormLookup.Lookup)
    reads rx
  {
    forall k :: k in rx.rdxLookupGsn ==> rx.rdxLookupGsn[k] == RxNormLookup.Wrap(RxNormLookup.Gsn, rx.findRxNormForGsn(k))
  }

  /**
   * The GSN loop: each code's concepts are appended. As written, a code
   * without concepts makes `addAll` throw (None); otherwise it is skipped.
   */
  method CollectGsnConcepts(rx: RxNormLookup.Lookup, keys: seq<string>, asWritten: bool)
    returns (concepts: Option<seq<RxNormLookup.RxNormConcept>>)
    requires rx.Valid() && GsnCacheFaithful(rx)
    modifies rx`rdxLookupGsn
    ensures rx.Valid() && GsnCacheFaithful(rx)
    ensures asWritten ==> concepts == GsnConceptsAsWritten(rx.findRxNormForGsn, keys)
    ensures !asWritten ==> concepts == Some(GsnConcepts(rx.findRxNormForGsn, keys))
  {
    var acc := [];
    var i := 0;
    while i < |keys|
      invariant 0 <= i <= |keys|
      invariant rx.Valid() && GsnCacheFaithful(rx)
      invariant acc == GsnConcepts(rx.findRxNormForGsn, keys[..i])
      invariant asWritten ==> forall j :: 0 <= j < i ==> |rx.findRxNormForGsn(keys[j])| > 0
    {
      assert keys[..i + 1][..i] == keys[..i];
      var found := rx.GetRxNormForGsn(keys[i]);
      RxNormLookup.UnwrapWrap(RxNormLookup.Gsn, rx.findRxNormForGsn(keys[i]));
      if found.Some? {
        acc := acc + found.value;
      } else if asWritten {
        GsnAsWrittenAgrees(rx.findRxNormForGsn, keys);
        return None;
      }
      i := i + 1;
    }
    assert keys[..i] == keys;
    if asWritten {
      GsnAsWrittenAgrees(rx.findRxNormForGsn, keys);
    }
    concepts := Some(acc);
  }

  /**
   * `createResource`. Under KDS the ingredients come from the shared lookup,
   * whose ingredient map is filled as its getter does; under R4 a fresh
   * lookup over the same server is created for the call.
   */
  method CreateResource(p: PrescriptionRecord, version: ModelVersion, uuid: string, shared: RxNormLookup.Lookup,
                        asWritten: bool) returns (m: Option<Medication>)
    requires shared.Valid()
    modifies shared`ingredientLookupNdc
    ensures shared.Valid()
    ensures version.KDS? ==>
      m == Some(KdsMedication(p, KdsIngredients(p, old(shared.ingredientLookupNdc), shared.findRxNormForNdc,
                                                shared.findIngredients)))
    ensures version.R4? ==> shared.ingredientLookupNdc == old(shared.ingredientLookupNdc)
    ensures version.R4? && asWritten ==> m == R4MedicationAsWritten(p, uuid, shared.findRxNormForNdc, shared.findRxNormForGsn)
    ensures version.R4? && !asWritten ==> m == Some(R4Medication(p, uuid, shared.findRxNormForNdc, shared.findRxNormForGsn))
  {
    if version.KDS? {
      var kds := CreateKdsMedication(p, shared);
      m := Some(kds);
    } else {
      m := CreateR4Medication(p, uuid, shared, asWritten);
    }
  }

  /** The KDS branch of `createResource`, which shares the ingredient cache. */
  method CreateKdsMedication(p: PrescriptionRecord, shared: RxNormLookup.Lookup) returns (m: Medication)
    requires shared.Valid()
    modifies shared`ingredientLookupNdc
    ensures shared.Valid()
    ensures m == KdsMedication(p, KdsIngredients(p, old(shared.ingredientLookupNdc), shared.findRxNormForNdc, shared.findIngredients))
  {
    var ingredients: Option<seq<RxNormLookup.IngredientInfo>> := None;
    if p.ndc.Some? && p.ndc.value != "0" {
      ingredients := shared.GetIngredientsForNdc(p.ndc.value);
    }
    var ings := if ingredients.Some? then ingredients.value else [];
    var atc := CollectAtcCodings(ings);
    var code := if |atc| > 0 then Some(Concept(atc, None)) else None;
    var components;
    if |ings| > 0 {
      components := CollectIngredients(ings);
    } else if p.ndc.None? || p.ndc.value == "0" {
      components := [MedIngredient(None, None, Some("unknown"))];
    } else {
      components := [MedIngredient(None, None, Some("asked-unknown"))];
    }
    m := Medication(p.medId, Some(MedicationProfile), code, FormOf(p.formRx), components);
  }

  /** The R4 branch of `createResource`, with a lookup of its own; as written, the GSN loop may abort (None). */
  method CreateR4Medication(p: PrescriptionRecord, uuid: string, shared: RxNormLookup.Lookup, asWritten: bool)
    returns (m: Option<Medication>)
    requires shared.Valid()
    ensures asWritten ==> m == R4MedicationAsWritten(p, uuid, shared.findRxNormForNdc, shared.findRxNormForGsn)
    ensures !asWritten ==> m == Some(R4Medication(p, uuid, shared.findRxNormForNdc, shared.findRxNormForGsn))
  {
    var rx := new RxNormLookup.Lookup(shared.findRxNormForNdc, shared.findRxNormForGsn, shared.findIngredients);
    var rxNorm: Option<seq<RxNormLookup.RxNormConcept>> := None;
    if p.ndc.Some? && p.ndc.value != "0" {
      rxNorm := rx.GetRxNormForNdc(p.ndc.value);
      RxNormLookup.UnwrapWrap(RxNormLookup.Ndc, rx.findRxNormForNdc(p.ndc.value));
    }
    if rxNorm.None? && p.gsn.Some? {
      rxNorm := CollectGsnConcepts(rx, GsnSingles(p.gsn.value), asWritten);
      if rxNorm.None? {
        return None;
      }
    }
    var code;
    if rxNorm.Some? && |rxNorm.value| > 0 {
      var coding := CollectRxCodings(rxNorm.value);
      code := Concept(coding, p.drug);
    } else if p.formularyDrugCd.Some? {
      code := Concept([MedCoding(None, p.formRx, None)], p.drug);
    } else {
      code := Concept([MedCoding(None, Some(ExistingCode(p)), None)], p.drug);
    }
    var ingredient := if p.prodStrength.Some? then [MedIngredient(Some(Concept([], p.prodStrength)), None, None)] else [];
    m := Some(Medication(uuid, None, Some(code), None, ingredient));
  }

  // ---------------------------------------------------------------- administration

  datatype AdministrationStatus = Completed

  /** The effective period: both ends, or only a data-absent-reason. */
  datatype Period = Period(start: int, end: int) | AbsentPeriod(reason: string)

  /** A dose quantity; the number is the Java double `Double.parseDouble` read from the dose text. */
  datatype Quantity = Quantity(value: real, unit: Option<string>, system: Option<string>, code: Option<string>)

  datatype Dosage = Dosage(route: Option<Concept>, text: Option<string>, dose: Option<Quantity>)

  datatype Administration = Administration(
    identifierSystem: string,
    identifierValue: string,
    profile: string,
    status: AdministrationStatus,
    medication: string,
    subject: string,
    context: string,
    effective: Option<Period>,
    dosage: Option<Dosage>)

  /** The KDS effective period, with start and end swapped when the end lies before the start. */
  function EffectivePeriod(start: Option<int>, end: Option<int>): (r: Period)
    ensures start.Some? && end.Some? ==>
      r.Period? && r.start <= r.end && multiset{r.start, r.end} == multiset{start.value, end.value}
    ensures !(start.Some? && end.Some?) ==> r == AbsentPeriod("unknown")
  {
    if start.Some? && end.Some? then
      if end.value < start.value then Period(end.value, start.value) else Period(start.value, end.value)
    else AbsentPeriod("unknown")
  }

  /** The SNOMED route and its EDQM counterpart, as the KDS branch looks them up. */
  datatype RouteEntry = RouteEntry(snomedDisplay: string, snomedCode: string, edqmDisplay: string, edqmCode: string)

  function RouteArm(labels: seq<string>, snomedDisplay: string, snomedCode: string, edqmDisplay: string, edqmCode: string)
    : Arm<Option<RouteEntry>>
  {
    Arm(labels, Some(RouteEntry(snomedDisplay, snomedCode, edqmDisplay, edqmCode)), true)
  }

  const RouteArmsA: seq<Arm<Option<RouteEntry>>> := [
    RouteArm(["IV", "IV BOLUS", "IV DRIP", "IVPCA", "IVS", "PB"], "Intravenous route", "47625008", "Intravenous use", "20045000"),
    RouteArm(["PO", "PO/OG", "ORAL", "PO OR ENTERAL TUBE"], "Oral Route", "26643006", "Oral use", "20053000"),
    RouteArm(["PO/NG", "NG/OG", "NG"], "Nasogastric route", "127492001", "Nasal use", "20049000"),
    RouteArm(["PR", "RECTAL"], "Per rectum", "37161004", "Rectal use", "20061000"),
    RouteArm(["INTRAPERICARDIAL"], "Intrapericardial route", "445771006", "Intrapericardial use", "20037000"),
    RouteArm(["RIGHT EYE", "LEFT EYE", "BOTH EYES", "OS", "OD", "OU"], "Ophthalmic route", "54485002", "Ocular use", "20051000"),
    RouteArm(["SC", "SUBCUT"], "Subcutaneous route", "34206005", "Subcutaneous use", "20066000"),
    RouteArm(["IH", "AERO", "INHALATION", "NEB"], "Respiratory tract route", "447694001", "Inhalation use", "20020000")
  ]

  const RouteArmsB: seq<Arm<Option<RouteEntry>>> := [
    RouteArm(["ID"], "Intradermal use", "372464004", "Intradermal use", "20030000"),
    RouteArm(["LEFT EAR", "RIGHT EAR", "BOTH EARS"], "Otic route", "10547007", "Auricular use", "20001000"),
    RouteArm(["IC"], "Intracardiac use", "372460008", "Intracardiac use", "20026000"),
    RouteArm(["IN", "NAS", "NU"], "Nasal route", "46713006", "Nasal use", "20049000"),
    RouteArm(["IM"], "Intramuscular route", "78421000", "Intramuscular use", "20035000"),
    RouteArm(["BUCCAL", "BU"], "Buccal route", "54471007", "Buccal use", "20002500"),
    RouteArm(["TP"], "Topical route", "6064005", "Route of administration not applicable", "20062000"),
    RouteArm(["ED"], "Epidural route", "404820008", "Epidural use", "20009000")
  ]

  const RouteArmsC: seq<Arm<Option<RouteEntry>>> := [
    RouteArm(["TD"], "Transdermal route", "45890007", "Transdermal use", "20070000"),
    RouteArm(["IT"], "Intrathecal route", "72607000", "Intrathecal use", "20042000"),
    RouteArm(["SL"], "Sublingual route", "37839007", "Sublingual use", "20067000"),
    RouteArm(["G TUBE"], "Gastrostomy route", "127490009", "Gastric use", "20013500"),
    RouteArm(["VG"], "Per vagina", "16857009", "Vaginal use", "20072000"),
    RouteArm(["IP"], "Intraperitoneal route", "38239002", "Intraperitoneal use", "20038000"),
    RouteArm(["J TUBE"], "Jejunostomy route", "127491008", "Intestinal use", "20021000"),
    RouteArm(["ET"], "Intratracheal route", "404818005", "Endotracheopulmonary use", "20008000")
  ]

  /** The route switch; both specifications list the same abbreviations with the same SNOMED codes. */
  const RouteArms: seq<Arm<Option<RouteEntry>>> := RouteArmsA + (RouteArmsB + RouteArmsC)

  /** The SNOMED and EDQM codings the KDS branch computes for a route (never attached). */
  function KdsRouteCodings(route: string): (r: (MedCoding, MedCoding))
    ensures !Unlisted(RouteArms, route) <==> r.0.code.Some?
    ensures r.0.system == Some(SnomedSystem)
    ensures Unlisted(RouteArms, route) ==> r.1 == MedCoding(None, Some("20062000"), Some("Route of administration not applicable"))
  {
    SwitchSetsIffListed(RouteArms, route);
    match Switch(RouteArms, None, route)
    case Some(e) => (MedCoding(Some(SnomedSystem), Some(e.snomedCode), Some(e.snomedDisplay)),
                     MedCoding(None, Some(e.edqmCode), Some(e.edqmDisplay)))
    case None => (MedCoding(Some(SnomedSystem), None, None),
                  MedCoding(None, Some("20062000"), Some("Route of administration not applicable")))
  }

  /** The R4 switch writes the transdermal display with a trailing tab; every other display is the shared one. */
  function R4SnomedDisplay(e: RouteEntry): string
  {
    if e.snomedCode == "45890007" then "Transdermal route\t" else e.snomedDisplay
  }

  /** The R4 route: one SNOMED coding for a listed abbreviation, the route as text otherwise. */
  function R4Route(route: string): (c: Concept)
    ensures !Unlisted(RouteArms, route) <==> |c.coding| == 1
    ensures !Unlisted(RouteArms, route) ==> c.coding[0].system == Some(SnomedSystem) && c.text.None?
    ensures Unlisted(RouteArms, route) ==> c == Concept([], Some(route))
  {
    SwitchSetsIffListed(RouteArms, route);
    match Switch(RouteArms, None, route)
    case Some(e) => Concept([MedCoding(Some(SnomedSystem), Some(e.snomedCode), Some(R4SnomedDisplay(e)))], None)
    case None => Concept([], Some(route))
  }

  /** The KDS route: only the text, whatever the table says. */
  function KdsRoute(route: string): (c: Concept)
    ensures c.coding == [] && c.text == Some(route)
  {
    Concept([], Some(route))
  }

  /** Every intravenous variant gets the one intravenous SNOMED route. */
  lemma IntravenousRoute(x: string)
    requires x in {"IV", "IV BOLUS", "IV DRIP", "IVPCA", "IVS", "PB"}
    ensures R4Route(x) == Concept([MedCoding(Some(SnomedSystem), Some("47625008"), Some("Intravenous route"))], None)
    ensures KdsRoute(x).coding == []
  {
    assert AllBreak(RouteArms);
    SwitchBreaksAt(RouteArms, None, x, 0);
  }

  lemma TransdermalInLastCases()
    ensures Switch(RouteArmsC, None, "TD") == Some(RouteEntry("Transdermal route", "45890007", "Transdermal use", "20070000"))
  {
    assert AllBreak(RouteArmsC);
    SwitchBreaksAt(RouteArmsC, None, "TD", 0);
  }

  /** The transdermal display differs between the specifications: R4 writes a trailing tab. */
  lemma TransdermalTabQuirk()
    ensures R4Route("TD") == Concept([MedCoding(Some(SnomedSystem), Some("45890007"), Some("Transdermal route\t"))], None)
    ensures KdsRouteCodings("TD").0 == MedCoding(Some(SnomedSystem), Some("45890007"), Some("Transdermal route"))
    ensures KdsRouteCodings("TD").1 == MedCoding(None, Some("20070000"), Some("Transdermal use"))
  {
    SwitchSkip(RouteArmsA, RouteArmsB + RouteArmsC, None, "TD");
    SwitchSkip(RouteArmsB, RouteArmsC, None, "TD");
    TransdermalInLastCases();
  }

  /** An unlisted route is kept as text under R4 and gets the EDQM "not applicable" code under KDS. */
  lemma UnlistedRoute()
    ensures R4Route("XYZ") == Concept([], Some("XYZ"))
    ensures KdsRouteCodings("XYZ").1 == MedCoding(None, Some("20062000"), Some("Route of administration not applicable"))
  {
  }

  // ---------------------------------------------------------------- doses

  function UcumArm(labels: seq<string>, unit: string): Arm<Option<string>>
  {
    Arm(labels, Some(unit), true)
  }

  const UcumArmsA: seq<Arm<Option<string>>> := [
    UcumArm(["g"], "g"), UcumArm(["gm"], "g.m"), UcumArm(["gtt"], "[drp]"), UcumArm(["mcg"], "ug"),
    UcumArm(["mcg/h", "mcg/hr"], "ug/h"), UcumArm(["mcg/kg"], "ug/kg"), UcumArm(["mcg/kg/hr"], "ug/kg/hr"),
    UcumArm(["mcg/kg/min"], "ug/kg/min"), UcumArm(["mcg/ml", "mcg/mL"], "ug/mL")
  ]

  const UcumArmsB: seq<Arm<Option<string>>> := [
    UcumArm(["mEq"], "meq"), UcumArm(["mg"], "mg"), UcumArm(["mg/100 mL"], "mg/(100.mL)"),
    UcumArm(["mg/24h"], "mg/(24.h)"), UcumArm(["mg/250 ml", "mg/250 mL"], "mg/(250.mL)"),
    UcumArm(["mg /40 mg", "mg/40mg"], "mg/(40.mg)"), UcumArm(["mg/500 ml"], "mg/(500.mL)"),
    UcumArm(["mg/50 ml", "mg/50 mL"], "mg/(50.mL)"), UcumArm(["mg/day"], "mg/d")
  ]

  const UcumArmsC: seq<Arm<Option<string>>> := [
    UcumArm(["mg/hr"], "mg/h"), UcumArm(["mg/kg"], "mg/kg"), UcumArm(["mg/kg/hr"], "mg/kg/h"),
    UcumArm(["mg/m2"], "mg/m2"), UcumArm(["mg/ml", "mg/mL"], "mg/mL"),
    UcumArm(["Million Cells", "million units", "Million Units"], "10*6"), UcumArm(["ml", "mL"], "mL"),
    UcumArm(["ml/day", "mL/Day"], "mL/d"), UcumArm(["ml/hr", "mL/hr"], "mL/h")
  ]

  const UcumArmsD: seq<Arm<Option<string>>> := [
    UcumArm(["mL/kg"], "mL/kg"), UcumArm(["mmol"], "mmol"), UcumArm(["nanogram"], "ng"),
    UcumArm(["nanograms/kg/minute"], "ng/kg/min"), UcumArm(["UNIT/HR"], "/h"),
    UcumArm(["UNIT/KG", "Units/kg"], "/kg"), UcumArm(["Units/Liter"], "/L")
  ]

  /** The dose-unit switch: the UCUM unit (also used as code) for each listed unit. */
  const UcumArms: seq<Arm<Option<string>>> := UcumArmsA + (UcumArmsB + (UcumArmsC + UcumArmsD))

  function UcumUnit(unit: string): (r: Option<string>)
    ensures r.Some? <==> !Unlisted(UcumArms, unit)
  {
    SwitchSetsIffListed(UcumArms, unit);
    Switch(UcumArms, None, unit)
  }

  lemma MicrogramUnit()
    ensures UcumUnit("mcg") == Some("ug")
  {
    assert AllBreak(UcumArms);
    SwitchBreaksAt(UcumArms, None, "mcg", 3);
  }

  lemma MillilitrePerHourInThirdPart(x: string)
    requires x in {"ml/hr", "mL/hr"}
    ensures Switch(UcumArmsC + UcumArmsD, None, x) == Some("mL/h")
  {
    assert AllBreak(UcumArmsC + UcumArmsD);
    SwitchBreaksAt(UcumArmsC + UcumArmsD, None, x, 8);
  }

  /** Both spellings of millilitres per hour map to the one UCUM unit. */
  lemma MillilitrePerHourUnit(x: string)
    requires x in {"ml/hr", "mL/hr"}
    ensures UcumUnit(x) == Some("mL/h")
  {
    SwitchSkip(UcumArmsA, UcumArmsB + (UcumArmsC + UcumArmsD), None, x);
    SwitchSkip(UcumArmsB, UcumArmsC + UcumArmsD, None, x);
    MillilitrePerHourInThirdPart(x);
  }

  /** A unit the table does not list (tablets, say) gives no KDS dose. */
  lemma UnlistedUnit()
    ensures UcumUnit("tab").None?
  {
  }

  /**
   * The last "-"-separated piece of the trimmed dose value. None stands for
   * the out-of-range index when the split yields no piece at all.
   */
  function DoseSegment(doseVal: string): (r: Option<string>)
    ensures r.Some? ==> NoChar(r.value, '-')
    ensures '-' !in Trim(doseVal) ==> r == Some(Trim(doseVal))
  {
    var parts := JavaSplit(Trim(doseVal), '-');
    if parts == [] then None else Some(parts[|parts| - 1])
  }

  lemma TrimKeeps(s: string)
    requires |s| > 0 && !IsTrimmed(s[0]) && !IsTrimmed(s[|s| - 1])
    ensures Trim(s) == s
  {
  }

  /** A dose range "<lo>-<hi>" such as "10-20" is dosed by its upper end. */
  lemma RangeDosedByUpperEnd(lo: string, hi: string)
    requires '-' !in lo && '-' !in hi && hi != []
    requires (lo == [] || !IsTrimmed(lo[0])) && !IsTrimmed(hi[|hi| - 1])
    ensures DoseSegment(lo + "-" + hi) == Some(hi)
  {
    var v := lo + "-" + hi;
    assert v == lo + ['-'] + hi;
    PiecesAround(lo, hi, '-');
    assert v[|lo|] == '-';
    assert v[0] == (if lo == [] then '-' else lo[0]);
    assert v[|v| - 1] == hi[|hi| - 1];
    TrimKeeps(v);
    var parts := [lo, hi];
    assert parts[|parts| - 1] != [];
    assert JavaSplit(v, '-') == parts;
  }

  lemma DashSplitsIntoNothing()
    ensures JavaSplit("-", '-') == []
  {
    assert "-"[1..] == "";
    var pieces := Pieces("-", '-');
    assert pieces == ["", ""];
    var one: seq<string> := [""];
    assert one[..0] == [];
    assert pieces[..1] == one;
    assert '-' in "-";
  }

  /** A value made of a dash only splits into no piece at all. */
  lemma DashHasNoSegment()
    ensures DoseSegment("-").None?
  {
    TrimKeeps("-");
    DashSplitsIntoNothing();
  }

  /** The dose value and unit when both are present: both needed for a KDS dose and for the first half of the dose text. */
  predicate HasDose(p: PrescriptionRecord)
  {
    p.doseValRx.Some? && p.doseUnitRx.Some?
  }

  predicate HasForm(p: PrescriptionRecord)
  {
    p.formValDisp.Some? && p.formUnitDisp.Some?
  }

  /** The KDS dose raises the index exception (aborting the call) when the trimmed value splits into nothing. */
  predicate KdsDoseAborts(p: PrescriptionRecord)
    ensures HasDose(p) && p.doseValRx.value == "-" ==> KdsDoseAborts(p)
    ensures HasDose(p) && '-' !in Trim(p.doseValRx.value) ==> !KdsDoseAborts(p)
  {
    DashHasNoSegment();
    HasDose(p) && DoseSegment(p.doseValRx.value).None?
  }

  /**
   * The KDS dose: set only when the last piece parses as a number and the unit
   * is in the UCUM table. `parse` is `Double.parseDouble`, None where it throws.
   */
  function KdsDose(p: PrescriptionRecord, parse: string -> Option<real>): (r: Option<Quantity>)
    ensures r.Some? <==>
      HasDose(p) && DoseSegment(p.doseValRx.value).Some? &&
      parse(DoseSegment(p.doseValRx.value).value).Some? && UcumUnit(p.doseUnitRx.value).Some?
    ensures r.Some? ==>
      r.value.value == parse(DoseSegment(p.doseValRx.value).value).value &&
      r.value.system == Some(UcumSystem) && r.value.unit == r.value.code == UcumUnit(p.doseUnitRx.value)
  {
    if !HasDose(p) then None
    else
      var segment := DoseSegment(p.doseValRx.value);
      var unit := UcumUnit(p.doseUnitRx.value);
      var val := if segment.Some? then parse(segment.value) else None;
      if val.Some? && unit.Some? then
        Some(Quantity(val.value, unit, Some(UcumSystem), unit))
      else None
  }

  /** The R4 dose: the whole value parsed, if it parses, with the unit as given (possibly null) and no system. */
  function R4Dose(p: PrescriptionRecord, parse: string -> Option<real>): (r: Option<Quantity>)
    ensures r.Some? <==> p.doseValRx.Some? && parse(p.doseValRx.value).Some?
    ensures r.Some? ==> r.value == Quantity(parse(p.doseValRx.value).value, p.doseUnitRx, None, None)
  {
    var val := if p.doseValRx.Some? then parse(p.doseValRx.value) else None;
    if val.Some? then Some(Quantity(val.value, p.doseUnitRx, None, None))
    else None
  }

  /** A trimmed dose value without a dash is read whole by both branches: both doses carry the same number. */
  lemma DosesAgree(p: PrescriptionRecord, parse: string -> Option<real>)
    requires HasDose(p) && Trim(p.doseValRx.value) == p.doseValRx.value && '-' !in p.doseValRx.value
    requires UcumUnit(p.doseUnitRx.value).Some?
    ensures KdsDose(p, parse).Some? <==> R4Dose(p, parse).Some?
    ensures R4Dose(p, parse).Some? ==> KdsDose(p, parse).value.value == R4Dose(p, parse).value.value
  {
    var v := p.doseValRx.value;
    assert DoseSegment(v) == Some(v);
  }

  /** One part of the dose text: KDS removes the whitespace inside it, R4 keeps it. */
  function Part(s: string, strip: bool): string
  {
    if strip then StripSpaces(s) else s
  }

  /** "val unit", then " (formVal formUnit)" when the form is known too; just "formVal formUnit" without a dose. */
  function DoseText(p: PrescriptionRecord, strip: bool): (t: string)
    ensures t == [] <==> !HasDose(p) && !HasForm(p)
    ensures HasDose(p) ==> Part(p.doseValRx.value, strip) + " " <= t
    ensures !HasDose(p) && HasForm(p) ==> Part(p.formValDisp.value, strip) + " " <= t
    ensures t != [] ==> (t[|t| - 1] == ')' <== HasDose(p) && HasForm(p))
  {
    var dose := if HasDose(p) then Part(p.doseValRx.value, strip) + " " + Part(p.doseUnitRx.value, strip) else "";
    if HasForm(p) then
      var form := Part(p.formValDisp.value, strip) + " " + Part(p.formUnitDisp.value, strip);
      if |dose| > 0 then dose + " (" + form + ")" else form
    else dose
  }

  /** The dose text built step by step, as the source concatenates it. */
  method BuildDoseText(p: PrescriptionRecord, strip: bool) returns (doseText: string)
    ensures doseText == DoseText(p, strip)
  {
    doseText := "";
    if p.doseValRx.Some? && p.doseUnitRx.Some? {
      doseText := Part(p.doseValRx.value, strip) + " " + Part(p.doseUnitRx.value, strip);
    }
    if p.formValDisp.Some? && p.formUnitDisp.Some? {
      var formValDisp := Part(p.formValDisp.value, strip);
      var formUnitDisp := Part(p.formUnitDisp.value, strip);
      if |doseText| > 0 {
        doseText := doseText + " (" + formValDisp + " " + formUnitDisp + ")";
      } else {
        doseText := formValDisp + " " + formUnitDisp;
      }
    }
  }

  /** Without whitespace inside the four fields, the two specifications write the same dose text. */
  lemma DoseTextStripAgrees(p: PrescriptionRecord)
    requires forall s :: s in [p.doseValRx, p.doseUnitRx, p.formValDisp, p.formUnitDisp] && s.Some? ==>
      forall i :: 0 <= i < |s.value| ==> !IsSpace(s.value[i])
    ensures DoseText(p, true) == DoseText(p, false)
  {
    if p.doseValRx.Some? { StripSpacesKeepsClean(p.doseValRx.value); }
    if p.doseUnitRx.Some? { StripSpacesKeepsClean(p.doseUnitRx.value); }
    if p.formValDisp.Some? { StripSpacesKeepsClean(p.formValDisp.value); }
    if p.formUnitDisp.Some? { StripSpacesKeepsClean(p.formUnitDisp.value); }
  }

  /** The dosage the KDS branch assembles: route as text only, the UCUM dose and the stripped dose text. */
  function KdsDosage(p: PrescriptionRecord, parse: string -> Option<real>): (d: Dosage)
    ensures d.route.Some? <==> p.route.Some?
    ensures d.route.Some? ==> d.route.value.coding == [] && d.route.value.text == p.route
    ensures d.text.Some? <==> HasDose(p) || HasForm(p)
    ensures d.dose.Some? ==> HasDose(p) && d.dose.value.system == Some(UcumSystem) && d.dose.value.unit.Some?
  {
    Dosage(if p.route.Some? then Some(KdsRoute(p.route.value)) else None,
           if |DoseText(p, true)| > 0 then Some(DoseText(p, true)) else None,
           KdsDose(p, parse))
  }

  /**
   * `createAdministration`. `parse` is `Double.parseDouble`, None where it
   * throws. None is the exception of a KDS dose value with no piece.
   */
  method CreateAdministration(p: PrescriptionRecord, seqNum: nat, version: ModelVersion, parse: string -> Option<real>)
    returns (r: Option<Administration>)
    ensures r.None? <==> version.KDS? && KdsDoseAborts(p)
    ensures r.Some? ==>
      r.value.identifierSystem == PrescriptionsSystem && r.value.identifierValue == Joined(p.encId, seqNum) &&
      r.value.profile == AdministrationProfile && r.value.status == Completed &&
      r.value.medication == p.medId && r.value.subject == p.patId && r.value.context == p.encId
    ensures r.Some? && version.KDS? ==>
      r.value.effective == Some(EffectivePeriod(p.start, p.end)) && r.value.dosage.None?
    ensures r.Some? && version.R4? ==>
      r.value.effective.None? && r.value.dosage.Some? &&
      r.value.dosage.value.route == (if p.route.Some? then Some(R4Route(p.route.value)) else None) &&
      r.value.dosage.value.text == (if |DoseText(p, false)| > 0 then Some(DoseText(p, false)) else None) &&
      r.value.dosage.value.dose == R4Dose(p, parse)
  {
    var identifierValue := Joined(p.encId, seqNum);
    var effective: Option<Period> := None;
    var dosage: Option<Dosage> := None;
    if version.KDS? {
      effective := Some(EffectivePeriod(p.start, p.end));
      if KdsDoseAborts(p) {
        return None;
      }
      var doseText := BuildDoseText(p, true);
      // The KDS dosage is assembled here but never set on the administration.
      var mad := Dosage(if p.route.Some? then Some(KdsRoute(p.route.value)) else None,
                        if |doseText| > 0 then Some(doseText) else None, KdsDose(p, parse));
    } else {
      var doseText := BuildDoseText(p, false);
      dosage := Some(Dosage(if p.route.Some? then Some(R4Route(p.route.value)) else None,
                            if |doseText| > 0 then Some(doseText) else None, R4Dose(p, parse)));
    }
    r := Some(Administration(PrescriptionsSystem, identifierValue, AdministrationProfile, Completed,
                             p.medId, p.patId, p.encId, effective, dosage));
  }
}
