/** The add-medication form (src/component/AddDrag.tsx): a record edited field by
    field, two checkbox lists toggled one entry at a time, and a genre guard
    before the record is posted. */
module AddDrag {
  import opened Common
  import opened ListToggle
  import opened Vocabulary

  /** The record the form edits and posts. `sets` holds set IDs as strings. */
  datatype NewMedication = NewMedication(
    name: string,
    effects: string,
    precautions: string,
    dosageAmount: string,
    dosageTiming: seq<string>,
    sets: seq<string>,
    genre: string)

  /** The form as it opens: every text empty, no tag, no set, no genre. */
  const EmptyForm := NewMedication("", "", "", "", [], [], "")

  /** The text an input shows. */
  function FieldOf(m: NewMedication, f: TextField): string {
    match f
    case Name => m.name
    case Effects => m.effects
    case Precautions => m.precautions
    case DosageAmount => m.dosageAmount
  }

  /** `{ ...prev, [name]: value }`: the named input takes the new text. */
  function WithField(m: NewMedication, f: TextField, value: string): (r: NewMedication)
    ensures FieldOf(r, f) == value
    ensures forall g :: g != f ==> FieldOf(r, g) == FieldOf(m, g)
    ensures r.dosageTiming == m.dosageTiming && r.sets == m.sets && r.genre == m.genre
  {
    match f
    case Name => m.(name := value)
    case Effects => m.(effects := value)
    case Precautions => m.(precautions := value)
    case DosageAmount => m.(dosageAmount := value)
  }

  /** The last edit of a field wins, and edits of different fields commute. */
  lemma WithFieldLastWins(m: NewMedication, f: TextField, g: TextField, a: string, b: string)
    ensures WithField(WithField(m, f, a), f, b) == WithField(m, f, b)
    ensures f != g ==> WithField(WithField(m, f, a), g, b) == WithField(WithField(m, g, b), f, a)
  {
  }

  /** Typing back a field's own text changes nothing. */
  lemma WithFieldUnchanged(m: NewMedication, f: TextField)
    ensures WithField(m, f, FieldOf(m, f)) == m
  {
  }

  /** What the submit handler does with the form. */
  datatype SubmitDecision = GenreMissing | Post(payload: NewMedication)

  /** `if (!medication.genre) return`: an empty genre stops the submit before any
      request; otherwise the record is posted as it stands. */
  function Submission(m: NewMedication): (d: SubmitDecision)
    ensures d.GenreMissing? <==> m.genre == ""
    ensures d.Post? ==> d.payload == m
    ensures m.genre in AddFormGenres ==> d == Post(m)
  {
    if m.genre == "" then GenreMissing else Post(m)
  }

  /** The form's state. */
  class AddDragForm {
    var medication: NewMedication

    /** The checkbox lists only ever change by toggling, so they never hold an
        entry twice. */
    ghost predicate Valid()
      reads this
    {
      NoDuplicates(medication.dosageTiming) && NoDuplicates(medication.sets)
    }

    constructor ()
      ensures Valid()
      ensures medication == EmptyForm
    {
      medication := EmptyForm;
    }

    /** `handleInputChange`: only the named field changes. */
    method HandleInputChange(field: TextField, value: string)
      requires Valid()
      modifies this
      ensures Valid()
      ensures medication == WithField(old(medication), field, value)
    {
      medication := WithField(medication, field, value);
    }

    /** `handleGenreChange`: only the genre changes. */
    method HandleGenreChange(value: string)
      requires Valid()
      modifies this
      ensures Valid()
      ensures medication == old(medication).(genre := value)
    {
      medication := medication.(genre := value);
    }

    /** `handleDosageTimingChange`: the tag is removed when ticked, appended when not. */
    method HandleDosageTimingChange(timing: string)
      requires Valid()
      modifies this
      ensures Valid()
      ensures medication == old(medication).(dosageTiming := Toggle(old(medication).dosageTiming, timing))
    {
      ToggleNoDuplicates(medication.dosageTiming, timing);
      medication := medication.(dosageTiming := Toggle(medication.dosageTiming, timing));
    }

    /** `handleSetChange`: the same toggle on the set IDs. */
    method HandleSetChange(setId: string)
      requires Valid()
      modifies this
      ensures Valid()
      ensures medication == old(medication).(sets := Toggle(old(medication).sets, setId))
    {
      ToggleNoDuplicates(medication.sets, setId);
      medication := medication.(sets := Toggle(medication.sets, setId));
    }

    /** `handleSubmit`: the record to post, or nothing when no genre is chosen.
        The form itself is left as it is. */
    method HandleSubmit() returns (request: Option<NewMedication>)
      ensures request.None? <==> medication.genre == ""
      ensures request.Some? ==> request.value == medication
    {
      match Submission(medication)
      case GenreMissing => request := None;
      case Post(payload) => request := Some(payload);
    }
  }
}
