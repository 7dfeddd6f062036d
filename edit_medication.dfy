/** The edit-medication screen (src/component/EditMedication.tsx): a fetched
    record edited in place, a genre check against the edit form's own genre
    list, and a dosage-timing clean-up before the record is put back. */
module EditMedication {
  import opened Common
  import opened ListToggle
  import opened Vocabulary

  /** A stored medication as the server returns it. */
  datatype Medication = Medication(
    id: int,
    name: string,
    effects: string,
    precautions: string,
    dosageAmount: string,
    dosageTiming: seq<string>,
    sets: seq<string>,
    genre: string)

  /** The banner under the update button. The source's type also allows a
      'loading' state, but no handler ever sets it. */
  datatype UpdateStatus = Idle | Success | Failure

  /** The text an input shows. */
  function FieldOf(m: Medication, f: TextField): string {
    match f
    case Name => m.name
    case Effects => m.effects
    case Precautions => m.precautions
    case DosageAmount => m.dosageAmount
  }

  /** `prev ? { ...prev, [name]: value } : null`: with a record loaded, the
      named input takes the new text; with none, there is still none. */
  function EditField(prev: Option<Medication>, f: TextField, value: string): (r: Option<Medication>)
    ensures r.None? <==> prev.None?
    ensures r.Some? ==> FieldOf(r.value, f) == value
    ensures r.Some? ==> forall g :: g != f ==> FieldOf(r.value, g) == FieldOf(prev.value, g)
    ensures r.Some? ==> r.value.id == prev.value.id && r.value.dosageTiming == prev.value.dosageTiming
                        && r.value.sets == prev.value.sets && r.value.genre == prev.value.genre
  {
    match prev
    case None => None
    case Some(m) =>
      Some(match f
           case Name => m.(name := value)
           case Effects => m.(effects := value)
           case Precautions => m.(precautions := value)
           case DosageAmount => m.(dosageAmount := value))
  }

  /** `prev ? { ...prev, genre } : null`. */
  function EditGenre(prev: Option<Medication>, genre: string): (r: Option<Medication>)
    ensures r.None? <==> prev.None?
    ensures r.Some? ==> r.value == prev.value.(genre := genre)
  {
    match prev
    case None => None
    case Some(m) => Some(m.(genre := genre))
  }

  /** The dosage-timing checkbox: with a record loaded, the tag is removed when
      present and appended when absent. */
  function EditTiming(prev: Option<Medication>, timing: string): (r: Option<Medication>)
    ensures r.None? <==> prev.None?
    ensures r.Some? ==> r.value == prev.value.(dosageTiming := Toggle(prev.value.dosageTiming, timing))
  {
    match prev
    case None => None
    case Some(m) => Some(m.(dosageTiming := Toggle(m.dosageTiming, timing)))
  }

  /** Two clicks on the same checkbox leave the tag where it was: still present
      (moved to the end) when it was ticked, absent when it was not. */
  lemma EditTimingTwice(prev: Option<Medication>, timing: string)
    requires prev.Some?
    ensures EditTiming(EditTiming(prev, timing), timing).Some?
    ensures var r := EditTiming(EditTiming(prev, timing), timing).value;
            r.id == prev.value.id && r.genre == prev.value.genre &&
            (timing in r.dosageTiming <==> timing in prev.value.dosageTiming)
  {
    var tags := prev.value.dosageTiming;
    if timing in tags {
      ToggleTwicePresent(tags, timing);
    } else {
      ToggleTwiceAbsent(tags, timing);
    }
  }

  /** A tag one of the 18 checkboxes stands for. */
  predicate IsDosageTiming(t: string) {
    t in DosageTimings
  }

  /** The tags a submit sends: the stored ones that match a checkbox, in order. */
  function KnownTimings(tags: seq<string>): (r: seq<string>)
    ensures |r| <= |tags|
    ensures forall i :: 0 <= i < |r| ==> r[i] in DosageTimings
  {
    Filter(IsDosageTiming, tags)
  }

  /** The clean-up only deletes unknown tags: every known tag stays, in the
      same relative order, and nothing else survives. */
  lemma KnownTimingsExact(tags: seq<string>)
    ensures IsSubsequence(KnownTimings(tags), tags)
    ensures forall t :: t in KnownTimings(tags) <==> t in tags && t in DosageTimings
  {
    FilterIsSubsequence(IsDosageTiming, tags);
    var r := KnownTimings(tags);
    forall t | t in r ensures t in tags && t in DosageTimings {
      var i :| 0 <= i < |r| && r[i] == t;
    }
    forall t | t in tags && t in DosageTimings ensures t in r {
      var i :| 0 <= i < |tags| && tags[i] == t;
    }
  }

  /** Cleaning twice is cleaning once, and a list of checkbox tags is sent
      unchanged. */
  lemma KnownTimingsStable(tags: seq<string>)
    ensures KnownTimings(KnownTimings(tags)) == KnownTimings(tags)
    ensures (forall i :: 0 <= i < |tags| ==> tags[i] in DosageTimings) ==> KnownTimings(tags) == tags
  {
    FilterIdempotent(IsDosageTiming, tags);
    if forall i :: 0 <= i < |tags| ==> tags[i] in DosageTimings {
      FilterKeepsAll(IsDosageTiming, tags);
    }
  }

  /** What the submit handler does. */
  datatype EditDecision = NothingLoaded | InvalidGenre | Put(payload: Medication)

  /** `handleSubmit`: nothing without a record; a genre outside the edit form's
      list is refused; otherwise the record is put with its tags cleaned. */
  function Submission(medication: Option<Medication>): (d: EditDecision)
    ensures d.NothingLoaded? <==> medication.None?
    ensures d.InvalidGenre? <==> medication.Some? && medication.value.genre !in EditFormGenres
    ensures d.Put? ==> d.payload == medication.value.(dosageTiming := KnownTimings(medication.value.dosageTiming))
  {
    match medication
    case None => NothingLoaded
    case Some(m) =>
      if m.genre !in EditFormGenres then InvalidGenre
      else Put(m.(dosageTiming := KnownTimings(m.dosageTiming)))
  }

  /** A put changes only the tags, keeps the record's id (which names the URL)
      and genre, and sends only checkbox tags. */
  lemma PutPayloadShape(medication: Option<Medication>)
    requires Submission(medication).Put?
    ensures var p := Submission(medication).payload;
            p.id == medication.value.id && p.genre in EditFormGenres &&
            p.name == medication.value.name && p.sets == medication.value.sets &&
            forall i :: 0 <= i < |p.dosageTiming| ==> p.dosageTiming[i] in DosageTimings
  {
  }

  /** A medication registered from the add form under "外用薬" can never be
      saved from the edit form until its genre is changed. */
  lemma TopicalCannotBeSaved(m: Medication)
    requires m.genre == "外用薬"
    ensures "外用薬" in AddFormGenres
    ensures Submission(Some(m)) == InvalidGenre
  {
    assert AddFormGenres[8] == "外用薬";
    assert forall i :: 0 <= i < |EditFormGenres| ==> EditFormGenres[i] != "外用薬";
  }

  /** The screen's state. */
  class EditMedicationForm {
    var selectedMedicationId: Option<int>
    var medication: Option<Medication>
    var updateStatus: UpdateStatus

    constructor ()
      ensures selectedMedicationId == None && medication == None && updateStatus == Idle
    {
      selectedMedicationId := None;
      medication := None;
      updateStatus := Idle;
    }

    /** A click in the list selects a medication by id; the form keeps showing
        the previous record until the fetched one arrives. */
    method SelectMedication(id: int)
      modifies this
      ensures selectedMedicationId == Some(id)
      ensures medication == old(medication) && updateStatus == old(updateStatus)
    {
      selectedMedicationId := Some(id);
    }

    /** The effect on the fetched record: a record that arrives replaces the
        form; an empty answer leaves it alone. */
    method HandleLoaded(fetched: Option<Medication>)
      modifies this
      ensures medication == (if fetched.Some? then fetched else old(medication))
      ensures selectedMedicationId == old(selectedMedicationId) && updateStatus == old(updateStatus)
    {
      if fetched.Some? {
        medication := fetched;
      }
    }

    /** `handleInputChange`. */
    method HandleInputChange(field: TextField, value: string)
      modifies this
      ensures medication == EditField(old(medication), field, value)
      ensures selectedMedicationId == old(selectedMedicationId) && updateStatus == old(updateStatus)
    {
      medication := EditField(medication, field, value);
    }

    /** `handleDosageTimingChange`. */
    method HandleDosageTimingChange(timing: string)
      modifies this
      ensures medication == EditTiming(old(medication), timing)
      ensures selectedMedicationId == old(selectedMedicationId) && updateStatus == old(updateStatus)
    {
      medication := EditTiming(medication, timing);
    }

    /** `handleGenreChange`. */
    method HandleGenreChange(genre: string)
      modifies this
      ensures medication == EditGenre(old(medication), genre)
      ensures selectedMedicationId == old(selectedMedicationId) && updateStatus == old(updateStatus)
    {
      medication := EditGenre(medication, genre);
    }

    /** `handleSubmit` with the put's outcome as a parameter: the request sent
        (if any), and the banner it leaves. Without a request the banner does
        not change. The form's record is not touched. */
    method HandleSubmit(putSucceeded: bool) returns (request: Option<Medication>)
      modifies this
      ensures request.None? <==> !Submission(old(medication)).Put?
      ensures request.Some? ==> request.value == Submission(old(medication)).payload
      ensures updateStatus == (if request.None? then old(updateStatus)
                               else if putSucceeded then Success else Failure)
      ensures medication == old(medication) && selectedMedicationId == old(selectedMedicationId)
    {
      match Submission(medication)
      case Put(payload) =>
        request := Some(payload);
        updateStatus := if putSucceeded then Success else Failure;
      case _ =>
        request := None;
    }
  }
}
