/** The set-management screen (src/component/AddSet.tsx): choosing a set,
    adding medications to it and removing them one at a time, creating an
    empty set from a dialog, and listing the medications a set does not hold. */
module AddSet {
  import opened Common
  import opened Text
  import EditSet

  /** A medication as this screen sees it. */
  datatype SetMember = SetMember(id: int, name: string)

  /** A set with its members. */
  datatype MedicationSet = MedicationSet(id: int, name: string, medications: seq<SetMember>)

  /** The body of an add or remove request to `/sets/<name>/medications`. */
  datatype MembershipRequest = MembershipRequest(setName: string, medicationIds: seq<int>)

  /** `selectedSet?.medications.some(setMed => setMed.id === id)`: false when no
      set has been fetched. */
  predicate Registered(selectedSet: Option<MedicationSet>, id: int): (b: bool)
    ensures b <==> selectedSet.Some? && exists m :: m in selectedSet.value.medications && m.id == id
  {
    selectedSet.Some? && Any((m: SetMember) => m.id == id, selectedSet.value.medications)
  }

  /** Keeps a medication exactly when its id is not in the set. */
  function NotInSet(selectedSet: Option<MedicationSet>): SetMember -> bool {
    (m: SetMember) => !Registered(selectedSet, m.id)
  }

  /** The "add" column: every medication whose id the chosen set does not
      hold, in catalogue order; nothing before the catalogue arrives. */
  function UnregisteredMedications(allMedications: Option<seq<SetMember>>, selectedSet: Option<MedicationSet>): (r: seq<SetMember>)
    ensures allMedications.None? ==> r == []
    ensures allMedications.Some? ==> |r| <= |allMedications.value|
  {
    match allMedications
    case None => []
    case Some(all) => Filter(NotInSet(selectedSet), all)
  }

  /** A medication is offered for adding exactly when it is in the catalogue
      and its id is not among the set's members, and the offers keep the
      catalogue's order. */
  lemma UnregisteredExact(all: seq<SetMember>, selectedSet: Option<MedicationSet>, m: SetMember)
    ensures IsSubsequence(UnregisteredMedications(Some(all), selectedSet), all)
    ensures m in UnregisteredMedications(Some(all), selectedSet) <==> m in all && !Registered(selectedSet, m.id)
  {
    FilterIsSubsequence(NotInSet(selectedSet), all);
    var r := UnregisteredMedications(Some(all), selectedSet);
    if m in r {
      var i :| 0 <= i < |r| && r[i] == m;
    }
    if m in all && !Registered(selectedSet, m.id) {
      var i :| 0 <= i < |all| && all[i] == m;
      assert NotInSet(selectedSet)(all[i]);
    }
  }

  /** A member of the set is never offered again. */
  lemma MembersNotOffered(all: seq<SetMember>, s: MedicationSet, i: int)
    requires 0 <= i < |s.medications|
    ensures forall m :: m in UnregisteredMedications(Some(all), Some(s)) ==> m.id != s.medications[i].id
  {
    forall m | m in UnregisteredMedications(Some(all), Some(s)) ensures m.id != s.medications[i].id {
      UnregisteredExact(all, Some(s), m);
    }
  }

  /** Before a set is chosen, the whole catalogue is offered. */
  lemma NoSetOffersAll(all: seq<SetMember>)
    ensures UnregisteredMedications(Some(all), None) == all
  {
    FilterKeepsAll(NotInSet(None), all);
  }

  /** `!selectedSetName`: no set chosen, or the empty name. */
  predicate NoSetChosen(selectedSetName: Option<string>): (b: bool)
    ensures !b <==> selectedSetName.Some? && |selectedSetName.value| >= 1
  {
    selectedSetName.None? || selectedSetName.value == ""
  }

  const AddMedicationFailed := "薬剤の追加に失敗しました。"
  const RemoveMedicationFailed := "薬剤の削除に失敗しました。"
  const SetNameMissing := "セット名を入力してください。"
  const AddSetFailed := "セットの追加に失敗しました。"

  /** The screen's state. */
  class SetManager {
    var selectedSetName: Option<string>
    var isAddSetModalOpen: bool
    var newSetName: string
    var errorMessage: string

    constructor ()
      ensures selectedSetName == None && !isAddSetModalOpen && newSetName == "" && errorMessage == ""
    {
      selectedSetName := None;
      isAddSetModalOpen := false;
      newSetName := "";
      errorMessage := "";
    }

    /** `handleSetClick`: the clicked set becomes the chosen one. */
    method HandleSetClick(setName: string)
      modifies this
      ensures selectedSetName == Some(setName)
      ensures isAddSetModalOpen == old(isAddSetModalOpen) && newSetName == old(newSetName)
      ensures errorMessage == old(errorMessage)
    {
      selectedSetName := Some(setName);
    }

    /** The "new set" button opens the dialog; the dialog's own close control
        shuts it. */
    method SetAddSetModalOpen(open: bool)
      modifies this
      ensures isAddSetModalOpen == open
      ensures selectedSetName == old(selectedSetName) && newSetName == old(newSetName)
      ensures errorMessage == old(errorMessage)
    {
      isAddSetModalOpen := open;
    }

    /** The dialog's name input. */
    method SetNewSetName(value: string)
      modifies this
      ensures newSetName == value
      ensures selectedSetName == old(selectedSetName) && isAddSetModalOpen == old(isAddSetModalOpen)
      ensures errorMessage == old(errorMessage)
    {
      newSetName := value;
    }

    /** `handleAddMedication` with the post's outcome as a parameter: without
        a chosen set nothing is sent and nothing changes; otherwise one id is
        posted and the error text is cleared or set by the outcome. */
    method HandleAddMedication(medicationId: int, succeeded: bool) returns (request: Option<MembershipRequest>)
      modifies this
      ensures request.None? <==> NoSetChosen(selectedSetName)
      ensures request.Some? ==> request.value == MembershipRequest(selectedSetName.value, [medicationId])
      ensures errorMessage == (if request.None? then old(errorMessage)
                               else if succeeded then "" else AddMedicationFailed)
      ensures selectedSetName == old(selectedSetName) && isAddSetModalOpen == old(isAddSetModalOpen)
      ensures newSetName == old(newSetName)
    {
      if NoSetChosen(selectedSetName) {
        return None;
      }
      request := Some(MembershipRequest(selectedSetName.value, [medicationId]));
      errorMessage := if succeeded then "" else AddMedicationFailed;
    }

    /** `handleRemoveMedication`: the same shape, with a delete request. */
    method HandleRemoveMedication(medicationId: int, succeeded: bool) returns (request: Option<MembershipRequest>)
      modifies this
      ensures request.None? <==> NoSetChosen(selectedSetName)
      ensures request.Some? ==> request.value == MembershipRequest(selectedSetName.value, [medicationId])
      ensures errorMessage == (if request.None? then old(errorMessage)
                               else if succeeded then "" else RemoveMedicationFailed)
      ensures selectedSetName == old(selectedSetName) && isAddSetModalOpen == old(isAddSetModalOpen)
      ensures newSetName == old(newSetName)
    {
      if NoSetChosen(selectedSetName) {
        return None;
      }
      request := Some(MembershipRequest(selectedSetName.value, [medicationId]));
      errorMessage := if succeeded then "" else RemoveMedicationFailed;
    }

    /** `handleAddSet` with the post's outcome as a parameter: a blank name is
        refused without a request; otherwise an empty set is posted under the
        name as typed, and on success the dialog closes with its input and
        the error text cleared, while on failure the dialog stays as it was. */
    method HandleAddSet(succeeded: bool) returns (request: Option<EditSet.NewSetRequest>)
      modifies this
      ensures request.None? <==> IsBlank(old(newSetName))
      ensures request.Some? ==> request.value == EditSet.NewSetRequest(old(newSetName), [])
      ensures request.None? ==> errorMessage == SetNameMissing && newSetName == old(newSetName)
                                && isAddSetModalOpen == old(isAddSetModalOpen)
      ensures request.Some? && succeeded ==> errorMessage == "" && newSetName == "" && !isAddSetModalOpen
      ensures request.Some? && !succeeded ==> errorMessage == AddSetFailed && newSetName == old(newSetName)
                                              && isAddSetModalOpen == old(isAddSetModalOpen)
      ensures selectedSetName == old(selectedSetName)
    {
      if IsBlank(newSetName) {
        errorMessage := SetNameMissing;
        return None;
      }
      request := Some(EditSet.NewSetRequest(newSetName, []));
      if succeeded {
        errorMessage := "";
        newSetName := "";
        isAddSetModalOpen := false;
      } else {
        errorMessage := AddSetFailed;
      }
    }
  }
}
