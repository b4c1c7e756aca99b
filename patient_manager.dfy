/**
 * `PatientManager.createResource`: the Patient resource of one MIMIC-IV
 * subject. Identifier and name depend on the profile set; birth date always
 * carries the absent-reason "masked"; gender, marital status and language
 * are code tables, the latter two read from the patient's first admission.
 * The resource id is a fresh UUID, passed in as a parameter.
 */
module PatientManager {
  import opened Wrappers
  import opened Records
  import opened JavaSwitch

  const PatientSystem: string := "http://www.imi-mimic.de/patients"
  const PatientProfile: string := "https://www.medizininformatik-initiative.de/fhir/core/modul-person/StructureDefinition/Patient"
  const IdentifierTypeSystem: string := "http://terminology.hl7.org/CodeSystem/v2-0203"
  const MaritalSystem: string := "http://hl7.org/fhir/ValueSet/marital-status"
  const LanguageSystem: string := "http://hl7.org/fhir/ValueSet/languages"
  const GenderAmtlichSystem: string := "http://fhir.de/CodeSystem/gender-amtlich-de"

  datatype Gender = Male | Female | OtherGender | UnknownGender

  datatype Deceased = DeceasedDateTime(date: int) | DeceasedBoolean(flag: bool)

  datatype Identifier = Identifier(system: string, value: string, use: Option<string>, identifierType: Option<Coding>)

  /** A human name; `ownName` is the KDS "humanname-own-name" extension on the family name. */
  datatype HumanName = HumanName(use: string, family: string, given: seq<string>, ownName: Option<string>)

  datatype Address = Address(addressType: string, line: string, streetName: string, houseNumber: string,
                             city: string, postalCode: string, country: string)

  datatype Patient = Patient(
    id: string, profile: Option<string>, identifier: Identifier, name: HumanName,
    birthDate: int, birthDateAbsentReason: string, deceased: Deceased,
    gender: Option<Gender>, genderExtension: Option<Coding>, address: seq<Address>,
    maritalStatus: Option<Coding>, communication: seq<Coding>)

  /** The example address the KDS profile requires, as no address is recorded. */
  const ExampleAddress: Address := Address("postal", "Musterstrasse 1", "Musterstrasse", "1", "Berlin", "12043", "DE")

  /** The administrative gender and, for "O" under KDS, the German "X" extension; None where no gender is set. */
  function GenderOf(version: ModelVersion, gender: string): (r: (Option<Gender>, Option<Coding>))
    ensures r.1.Some? ==> r.0 == Some(OtherGender)
    ensures r.0.None? <==> gender == "O" && version == R4
  {
    if gender == "M" then (Some(Male), None)
    else if gender == "F" then (Some(Female), None)
    else if gender == "O" then
      if version.KDS? then (Some(OtherGender), Some(Coding(GenderAmtlichSystem, Some("X"), Some("unbestimmt"))))
      else (None, None)
    else (Some(UnknownGender), None)
  }

  /** The gender table: M and F in both profile sets, O only under KDS, every other value unknown. */
  lemma GenderTable(version: ModelVersion, g: string)
    ensures GenderOf(version, g).0 == Some(Male) <==> g == "M"
    ensures GenderOf(version, g).0 == Some(Female) <==> g == "F"
    ensures GenderOf(version, g).0 == Some(OtherGender) <==> g == "O" && version == KDS
    ensures GenderOf(version, g).0 == Some(UnknownGender) <==> g !in ["M", "F", "O"]
  {
  }

  function MaritalCoding(code: string, display: string): Coding
  {
    Coding(MaritalSystem, Some(code), Some(display))
  }

  const MaritalArms: seq<Arm<Coding>> := [
    Arm(["MARRIED"], MaritalCoding("M", "Married"), true),
    Arm(["SINGLE"], MaritalCoding("S", "Never Married"), true),
    Arm(["WIDOWED"], MaritalCoding("W", "Widowed"), true),
    Arm(["DIVORCED"], MaritalCoding("D", "Divorced"), true),
    Arm(["SEPARATED"], MaritalCoding("L", "Legally Separated"), true)
  ]

  const UnknownStatus: Coding := MaritalCoding("UNK", "Unknown")

  /** The marital status: none for null, otherwise exactly one coding from the table. */
  function MaritalStatus(status: Option<string>): (r: Option<Coding>)
    ensures r.Some? <==> status.Some?
  {
    if status.None? then None else Some(Switch(MaritalArms, UnknownStatus, status.value))
  }

  lemma MaritalTable(s: string)
    ensures s == "MARRIED" ==> MaritalStatus(Some(s)) == Some(MaritalCoding("M", "Married"))
    ensures s == "SINGLE" ==> MaritalStatus(Some(s)) == Some(MaritalCoding("S", "Never Married"))
    ensures s == "WIDOWED" ==> MaritalStatus(Some(s)) == Some(MaritalCoding("W", "Widowed"))
    ensures s == "DIVORCED" ==> MaritalStatus(Some(s)) == Some(MaritalCoding("D", "Divorced"))
    ensures s == "SEPARATED" ==> MaritalStatus(Some(s)) == Some(MaritalCoding("L", "Legally Separated"))
    ensures s !in ["MARRIED", "SINGLE", "WIDOWED", "DIVORCED", "SEPARATED"] ==> MaritalStatus(Some(s)) == Some(UnknownStatus)
  {
    assert AllBreak(MaritalArms);
    if s == "MARRIED" {
      SwitchBreaksAt(MaritalArms, UnknownStatus, s, 0);
    } else if s == "SINGLE" {
      SwitchBreaksAt(MaritalArms, UnknownStatus, s, 1);
    } else if s == "WIDOWED" {
      SwitchBreaksAt(MaritalArms, UnknownStatus, s, 2);
    } else if s == "DIVORCED" {
      SwitchBreaksAt(MaritalArms, UnknownStatus, s, 3);
    } else if s == "SEPARATED" {
      SwitchBreaksAt(MaritalArms, UnknownStatus, s, 4);
    } else {
      SwitchUnlisted(MaritalArms, UnknownStatus, s);
    }
  }

  /** A case group of the language switch: its MIMIC codes set one language coding, then break. */
  function LanguageArm(labels: seq<string>, code: string, display: string): Arm<Option<Coding>>
  {
    Arm(labels, Some(Coding(LanguageSystem, Some(code), Some(display))), true)
  }

  /** The language switch; its `default` clears `addLanguage`, so no language is added. */
  const LanguageArmsA: seq<Arm<Option<Coding>>> := [
    LanguageArm(["*DUT"], "nl", "Dutch"),
    LanguageArm(["URDU", "*URD"], "ur", "Urdu"),
    LanguageArm(["*NEP"], "ne", "Nepali"),
    LanguageArm(["TAGA"], "tl", "Tagalog"),
    LanguageArm(["*TOY"], "toy", "Topoiyo"),
    LanguageArm(["*RUS", "RUSS"], "ru", "Russian"),
    LanguageArm(["ENGL"], "en", "English"),
    LanguageArm(["*ARM"], "hy", "Armenian"),
    LanguageArm(["CANT"], "yue", "Cantonese"),
    LanguageArm(["LAOT"], "tyl", "Thu Lao"),
    LanguageArm(["*MOR"], "mor", "Moro")
  ]

  const LanguageArmsB: seq<Arm<Option<Coding>>> := [
    LanguageArm(["*FUL"], "ff", "Fulah"),
    LanguageArm(["*ROM"], "ro", "Romanian"),
    LanguageArm(["*TOI"], "toi", "Tonga"),
    LanguageArm(["BENG", "*BEN"], "bn", "Bengali"),
    LanguageArm(["**TO"], "to", "Tonga"),
    LanguageArm(["PERS", "*PER"], "fa", "Persian"),
    LanguageArm(["*TEL"], "te", "Telugu"),
    LanguageArm(["*YID"], "ji", "Yiddish"),
    LanguageArm(["*CDI"], "cdi", "Chodri"),
    LanguageArm(["JAPA"], "jp", "Japanese"),
    LanguageArm(["ALBA"], "sq", "Albanian")
  ]

  const LanguageArmsC: seq<Arm<Option<Coding>>> := [
    LanguageArm(["ARAB", "*ARA"], "ar", "Arabic"),
    LanguageArm(["ITAL"], "it", "Italian"),
    LanguageArm(["*TAM"], "taq", "Tamasheq"),
    LanguageArm(["*SPA", "SPAN"], "es", "Spanish"),
    LanguageArm(["*BOS"], "bs", "Bosnian"),
    LanguageArm(["*AMH"], "am", "Amharic"),
    LanguageArm(["SOMA"], "so", "Somali"),
    LanguageArm(["CAPE"], "cap", "Chipaya"),
    LanguageArm(["*PUN"], "pa", "Punjabi"),
    LanguageArm(["POLI"], "pl", "Polish"),
    LanguageArm(["*CHI"], "zh", "Chinese")
  ]

  const LanguageArmsD: seq<Arm<Option<Coding>>> := [
    LanguageArm(["*BUR"], "my", "Burmese"),
    LanguageArm(["*CAN"], "can", "Chambri"),
    LanguageArm(["*YOR"], "yox", "Yoron"),
    LanguageArm(["*KHM", "CAMB"], "km", "Central Khmer"),
    LanguageArm(["AMER"], "en", "English"),
    LanguageArm(["*LIT"], "lt", "Lithuanian"),
    LanguageArm(["*IBO"], "ibn", "Ibino"),
    LanguageArm(["KORE"], "ko", "Korean"),
    LanguageArm(["*FIL"], "fil", "Filipino"),
    LanguageArm(["THAI"], "th", "Thai"),
    LanguageArm(["**SH"], "sh", "Serbo-Croatian")
  ]

  const LanguageArmsE: seq<Arm<Option<Coding>>> := [
    LanguageArm(["FREN"], "fr", "French"),
    LanguageArm(["*FAR"], "far", "Fataleka"),
    LanguageArm(["*CRE"], "crp", "Creoles and pidgins"),
    LanguageArm(["HIND"], "hi", "Hindi"),
    LanguageArm(["*HUN"], "hu", "Hungarian"),
    LanguageArm(["ETHI"], "eth", "Ethiopian Sign Language"),
    LanguageArm(["VIET"], "vi", "Vietnamese"),
    LanguageArm(["*MAN"], "man", "Mandingo"),
    LanguageArm(["GERM"], "de", "German"),
    LanguageArm(["*PHI"], "phi", "Philippine languages"),
    LanguageArm(["TURK"], "tr", "Turkish")
  ]

  const LanguageArmsF: seq<Arm<Option<Coding>>> := [
    LanguageArm(["*DEA"], "mjl", "Mandeali"),
    LanguageArm(["PTUN"], "ptu", "Bambam"),
    LanguageArm(["GREE"], "el", "Modern Greek"),
    LanguageArm(["MAND"], "cmn", "Mandarin Chinese"),
    LanguageArm(["HAIT"], "ht", "Haitian"),
    LanguageArm(["SERB"], "sr", "Serbian"),
    LanguageArm(["*BUL"], "bg", "Bulgarian"),
    LanguageArm(["*LEB"], "leb", "Lala-Bisa"),
    LanguageArm(["*GUJ"], "gu", "Gujarati"),
    LanguageArm(["PORT"], "pt", "Portugese"),
    LanguageArm(["* BE"], "be", "Belarusian")
  ]

  const LanguageArms: seq<Arm<Option<Coding>>> :=
    LanguageArmsA + (LanguageArmsB + (LanguageArmsC + (LanguageArmsD + (LanguageArmsE + LanguageArmsF))))

  /** The communication language, if the first admission's code is one the table knows. */
  function Language(language: Option<string>): (r: Option<Coding>)
    ensures language.None? ==> r.None?
  {
    if language.None? then None else Switch(LanguageArms, None, language.value)
  }

  /** Every case group of the language switch sets a coding and breaks. */
  lemma LanguageTableTail()
    ensures AllBreak(LanguageArmsD + (LanguageArmsE + LanguageArmsF)) && AllSet(LanguageArmsD + (LanguageArmsE + LanguageArmsF))
  {
    assert AllBreak(LanguageArmsE) && AllSet(LanguageArmsE) && AllBreak(LanguageArmsF) && AllSet(LanguageArmsF);
    TablesAppend(LanguageArmsE, LanguageArmsF);
    assert AllBreak(LanguageArmsD) && AllSet(LanguageArmsD);
    TablesAppend(LanguageArmsD, LanguageArmsE + LanguageArmsF);
  }

  /** ... and so does the whole language switch. */
  lemma LanguageTable()
    ensures AllBreak(LanguageArms) && AllSet(LanguageArms)
  {
    var tail := LanguageArmsD + (LanguageArmsE + LanguageArmsF);
    LanguageTableTail();
    assert AllBreak(LanguageArmsC) && AllSet(LanguageArmsC);
    TablesAppend(LanguageArmsC, tail);
    assert AllBreak(LanguageArmsB) && AllSet(LanguageArmsB);
    TablesAppend(LanguageArmsB, LanguageArmsC + tail);
    assert AllBreak(LanguageArmsA) && AllSet(LanguageArmsA);
    TablesAppend(LanguageArmsA, LanguageArmsB + (LanguageArmsC + tail));
  }

  /** A language is added exactly when its code is listed. */
  lemma LanguageListed(x: string)
    ensures Language(Some(x)).Some? <==> !Unlisted(LanguageArms, x)
  {
    LanguageTable();
    SwitchSetsIffListed(LanguageArms, x);
  }

  /** The language switch after its first k case groups, which are all in the first block. */
  lemma LanguageSkip(k: nat, x: string)
    requires k <= |LanguageArmsA|
    requires Unlisted(LanguageArmsA[..k], x)
    ensures Language(Some(x)) == Switch(LanguageArmsA[k..] + (LanguageArmsB + (LanguageArmsC + (LanguageArmsD + (LanguageArmsE + LanguageArmsF)))), None, x)
  {
    SwitchSkipPrefix(LanguageArmsA, LanguageArmsB + (LanguageArmsC + (LanguageArmsD + (LanguageArmsE + LanguageArmsF))), None, x, k);
  }

  /** A code first listed by case group k of the first block gives that group's language. */
  lemma LanguageAt(k: nat, x: string)
    requires k < |LanguageArmsA| && Unlisted(LanguageArmsA[..k], x) && x in LanguageArmsA[k].labels
    ensures Language(Some(x)) == LanguageArmsA[k].value
  {
    LanguageSkip(k, x);
    var q := LanguageArmsA[k..] + (LanguageArmsB + (LanguageArmsC + (LanguageArmsD + (LanguageArmsE + LanguageArmsF))));
    assert q[0] == LanguageArmsA[k];
    assert LanguageArmsA[k].breaks;
    SwitchAtFront(q, None, x);
  }

  /** Synonym codes give the same language: "URDU" and "*URD" are both Urdu. */
  lemma UrduSynonyms()
    ensures Language(Some("URDU")) == Language(Some("*URD")) == Some(Coding(LanguageSystem, Some("ur"), Some("Urdu")))
  {
    var a := LanguageArmsA;
    assert a[..1] == [a[0]];
    assert a[1] == LanguageArm(["URDU", "*URD"], "ur", "Urdu");
    LanguageAt(1, "URDU");
    LanguageAt(1, "*URD");
  }

  lemma EnglishCode()
    ensures Language(Some("ENGL")) == Some(Coding(LanguageSystem, Some("en"), Some("English")))
  {
    var a := LanguageArmsA;
    assert a[..6] == [a[0], a[1], a[2], a[3], a[4], a[5]];
    assert a[6] == LanguageArm(["ENGL"], "en", "English");
    LanguageAt(6, "ENGL");
  }

  lemma AmericanInLastCases()
    ensures Switch(LanguageArmsD + (LanguageArmsE + LanguageArmsF), None, "AMER")
         == Some(Coding(LanguageSystem, Some("en"), Some("English")))
  {
    var rest := LanguageArmsE + LanguageArmsF;
    assert LanguageArmsD == LanguageArmsD[..4] + LanguageArmsD[4..];
    assert LanguageArmsD + rest == LanguageArmsD[..4] + (LanguageArmsD[4..] + rest);
    SwitchSkip(LanguageArmsD[..4], LanguageArmsD[4..] + rest, None, "AMER");
    assert (LanguageArmsD[4..] + rest)[0] == LanguageArm(["AMER"], "en", "English");
    SwitchAtFront(LanguageArmsD[4..] + rest, None, "AMER");
  }

  /** "AMER" is not among the first three blocks of case groups. */
  lemma AmericanNotEarly()
    ensures Unlisted(LanguageArmsA, "AMER") && Unlisted(LanguageArmsB, "AMER") && Unlisted(LanguageArmsC, "AMER")
  {
  }

  /** "AMER", listed in the fourth block, is English. */
  lemma AmericanCode()
    ensures Language(Some("AMER")) == Some(Coding(LanguageSystem, Some("en"), Some("English")))
  {
    var d := LanguageArmsD + (LanguageArmsE + LanguageArmsF);
    AmericanNotEarly();
    SwitchSkip(LanguageArmsA, LanguageArmsB + (LanguageArmsC + d), None, "AMER");
    SwitchSkip(LanguageArmsB, LanguageArmsC + d, None, "AMER");
    SwitchSkip(LanguageArmsC, d, None, "AMER");
    AmericanInLastCases();
  }

  /** "ENGL" and "AMER", in different case groups, both give English. */
  lemma EnglishSynonyms()
    ensures Language(Some("ENGL")) == Language(Some("AMER")) == Some(Coding(LanguageSystem, Some("en"), Some("English")))
  {
    EnglishCode();
    AmericanCode();
  }

  /** The identifier and name, which differ between plain R4 and KDS. */
  function IdentityOf(version: ModelVersion, subjectId: string): (r: (Identifier, HumanName))
    ensures r.0.system == PatientSystem && r.0.value == subjectId
    ensures r.1.use == "official" && r.1.family == "Patient_" + subjectId
    ensures version == KDS <==> r.1.ownName.Some?
  {
    match version
    case R4 =>
      (Identifier(PatientSystem, subjectId, None, None), HumanName("official", "Patient_" + subjectId, [], None))
    case KDS =>
      (Identifier(PatientSystem, subjectId, Some("usual"), Some(Coding(IdentifierTypeSystem, Some("MR"), None))),
       HumanName("official", "Patient_" + subjectId, [subjectId], Some("Patient_" + subjectId)))
  }

  /** `createResource`. None where the source throws: a patient without gender. */
  function CreatePatient(p: PatientRecord, version: ModelVersion, uuid: string): (r: Option<Patient>)
    ensures r.Some? <==> p.gender.Some?
    ensures r.Some? ==>
      r.value.id == uuid && r.value.birthDate == p.birthDate && r.value.birthDateAbsentReason == "masked" &&
      (r.value.profile.Some? <==> version == KDS) &&
      (p.deathDate.Some? ==> r.value.deceased == DeceasedDateTime(p.deathDate.value)) &&
      (p.deathDate.None? ==> r.value.deceased == DeceasedBoolean(false)) &&
      (p.admissions == [] ==> r.value.maritalStatus.None? && r.value.communication == [])
    ensures r.Some? ==>
      r.value.identifier == IdentityOf(version, p.patientSubjectId).0 &&
      r.value.name == IdentityOf(version, p.patientSubjectId).1 &&
      (r.value.gender, r.value.genderExtension) == GenderOf(version, p.gender.value) &&
      r.value.address == (if version == KDS then [ExampleAddress] else [])
    ensures r.Some? && p.admissions != [] ==>
      var language := Language(p.admissions[0].language);
      r.value.maritalStatus == MaritalStatus(p.admissions[0].maritalStatus) &&
      (language.Some? ==> r.value.communication == [language.value]) &&
      (language.None? ==> r.value.communication == [])
  {
    if p.gender.None? then None
    else
      var identity := IdentityOf(version, p.patientSubjectId);
      var gender := GenderOf(version, p.gender.value);
      var first := if |p.admissions| > 0 then Some(p.admissions[0]) else None;
      var maritalStatus := if first.Some? then MaritalStatus(first.value.maritalStatus) else None;
      var language := if first.Some? then Language(first.value.language) else None;
      Some(Patient(
        uuid, if version == KDS then Some(PatientProfile) else None, identity.0, identity.1,
        p.birthDate, "masked",
        if p.deathDate.Some? then DeceasedDateTime(p.deathDate.value) else DeceasedBoolean(false),
        gender.0, gender.1,
        if version == KDS then [ExampleAddress] else [],
        maritalStatus,
        if language.Some? then [language.value] else []))
  }

  /** Marital status and language come from the first admission only: later admissions never matter. */
  lemma FirstAdmissionDecides(p: PatientRecord, q: PatientRecord, version: ModelVersion, uuid: string)
    requires p.gender.Some? && p.gender == q.gender
    requires |p.admissions| > 0 && |q.admissions| > 0
    requires p.admissions[0].maritalStatus == q.admissions[0].maritalStatus
    requires p.admissions[0].language == q.admissions[0].language
    ensures CreatePatient(p, version, uuid).value.maritalStatus == CreatePatient(q, version, uuid).value.maritalStatus
    ensures CreatePatient(p, version, uuid).value.communication == CreatePatient(q, version, uuid).value.communication
  {
  }

  /** At most one communication language, and it is one the table lists for the first admission's code. */
  lemma CommunicationFromTable(p: PatientRecord, version: ModelVersion, uuid: string)
    requires p.gender.Some?
    ensures var c := CreatePatient(p, version, uuid).value.communication;
      |c| <= 1 &&
      (|c| == 1 <==> |p.admissions| > 0 && p.admissions[0].language.Some? &&
                     !Unlisted(LanguageArms, p.admissions[0].language.value))
  {
    if |p.admissions| > 0 && p.admissions[0].language.Some? {
      LanguageListed(p.admissions[0].language.value);
    }
  }
}
