/**
 * `MNoteevent`: one row of the note-events table and its Observation. The
 * note text becomes an annotation; only some note categories map to an
 * observation category.
 */
module MNoteevent {
  import opened Wrappers
  import opened Records
  import opened JavaSwitch
  import opened Observations

  const Imaging: Coding := Coding(CategorySystem, Some("imaging"), Some("Imaging"))
  const Procedure: Coding := Coding(CategorySystem, Some("procedure"), Some("Procedure"))
  const SocialHistory: Coding := Coding(CategorySystem, Some("social-history"), Some("Social History"))
  const Therapy: Coding := Coding(CategorySystem, Some("therapy"), Some("Therapy"))

  /** The note-category switch; it has no default, so other categories add no observation category. */
  const CategoryArms: seq<Arm<Option<Coding>>> := [
    Arm(["Echo"], Some(Imaging), true),
    Arm(["ECG", "Respiratory"], Some(Procedure), true),
    Arm(["Social Work"], Some(SocialHistory), true),
    Arm(["Pharmacy", "Rehab Services"], Some(Therapy), true)
  ]

  /** The observation categories of a note category: one for a listed category, none otherwise. */
  function Categories(category: string): (r: seq<Coding>)
    ensures |r| <= 1
    ensures |r| == 1 <==> !Unlisted(CategoryArms, category)
    ensures |r| == 1 ==> r[0].system == CategorySystem
  {
    SwitchSetsIffListed(CategoryArms, category);
    SwitchWithBreaks(CategoryArms, None, category);
    match Switch(CategoryArms, None, category)
    case Some(c) => [c]
    case None => []
  }

  lemma EchoIsImaging()
    ensures Categories("Echo") == [Imaging]
  {
    SwitchBreaksAt(CategoryArms, None, "Echo", 0);
  }

  lemma ProcedureNotes(category: string)
    requires category in ["ECG", "Respiratory"]
    ensures Categories(category) == [Procedure]
  {
    SwitchBreaksAt(CategoryArms, None, category, 1);
  }

  lemma SocialWorkIsSocialHistory()
    ensures Categories("Social Work") == [SocialHistory]
  {
    SwitchBreaksAt(CategoryArms, None, "Social Work", 2);
  }

  lemma TherapyNotes(category: string)
    requires category in ["Pharmacy", "Rehab Services"]
    ensures Categories(category) == [Therapy]
  {
    SwitchBreaksAt(CategoryArms, None, category, 3);
  }

  /** One note-event row; the text is stored already cleaned of characters XML cannot carry. */
  class MNoteevent {
    var chartdate: Option<int>
    var category: Option<string>
    var description: Option<string>
    var caregiverId: int
    var text: Option<string>
    var hasError: bool

    /** A fresh row: every reference null, caregiver 0, no error. */
    constructor()
      ensures chartdate.None? && category.None? && description.None? && text.None?
      ensures caregiverId == 0 && !hasError
    {
      chartdate, category, description, text := None, None, None, None;
      caregiverId, hasError := 0, false;
    }

    method SetHasError(b: bool)
      modifies this`hasError
      ensures hasError == b
    {
      hasError := b;
    }

    method SetCategory(c: Option<string>)
      modifies this`category
      ensures category == c
    {
      category := c;
    }

    /**
     * `getFhirObservation` for the given Patient and Encounter ids. None is
     * the exception of the switch on a null category.
     */
    function GetFhirObservation(patId: Option<string>, encId: Option<string>): (r: Option<Observation>)
      reads this
      ensures r.None? <==> category.None?
      ensures r.Some? ==> (r.value.status == EnteredInError <==> hasError)
      ensures r.Some? ==>
        r.value.code == Concept([], description) && r.value.category == Categories(category.value) &&
        r.value.value == NoValue && r.value.note == [text] &&
        r.value.subject == patId && r.value.partOf == encId && r.value.effective == chartdate
      ensures r.Some? ==> r.value.profile.None? && r.value.identifier.None? && r.value.interpretation == []
    {
      if category.None? then None
      else
        var status := if hasError then EnteredInError else Final;
        Some(Observation(status, None, None, Categories(category.value), Concept([], description), NoValue,
                         None, [], [text], patId, encId, chartdate))
    }
  }
}
