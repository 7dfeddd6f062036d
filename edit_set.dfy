/** The new-set screen (src/component/EditSet.tsx, whose component is named
    AddSet): a set name, a list of ticked medication ids, two checks before the
    post, and the error text each outcome leaves on the screen. */
module EditSet {
  import opened Common
  import opened Text
  import opened ListToggle

  /** The body posted to `/sets`. */
  datatype NewSetRequest = NewSetRequest(name: string, medicationIds: seq<int>)

  /** The two checks of `handleSubmit`, in their order. */
  datatype SetCheck = NameMissing | NoMedication | Ready(request: NewSetRequest)

  /** A name that trims to nothing is refused first; then an empty selection;
      otherwise the name is sent as typed (untrimmed) with the ids in the
      order they were ticked. */
  function CheckNewSet(name: string, ids: seq<int>): (c: SetCheck)
    ensures c.NameMissing? <==> IsBlank(name)
    ensures c.NoMedication? <==> !IsBlank(name) && ids == []
    ensures c.Ready? ==> c.request == NewSetRequest(name, ids) && ids != []
  {
    if IsBlank(name) then NameMissing
    else if |ids| == 0 then NoMedication
    else Ready(NewSetRequest(name, ids))
  }

  /** How the post ended: created; refused by the server with an error body
      (`details` is "" when the body has none); or no response at all. */
  datatype PostOutcome = Created | ServerError(error: string, details: string) | NoResponse

  const NameMissingMessage := "セット名を入力してください。"
  const NoMedicationMessage := "少なくとも1つの薬剤を選択してください。"
  const NetworkFailureMessage := "セットの追加に失敗しました: ネットワークエラーまたは不明なエラー"

  /** The two-line text shown for a server error: the server's error, then its
      details or "不明" when it gave none. Whenever the server's own strings
      hold no line break, the text splits into exactly those two lines. */
  function ServerErrorMessage(error: string, details: string): (msg: string)
    ensures '\n' !in error && '\n' !in details ==>
      Split(msg, '\n') == ["エラー: " + error, "詳細: " + (if details == "" then "不明" else details)]
  {
    var first := "エラー: " + error;
    var second := "詳細: " + (if details == "" then "不明" else details);
    TwoLines(first, second, error, details);
    first + "\n" + second
  }

  /** The line break between the two parts is the only one when the server's
      strings hold none. */
  lemma TwoLines(first: string, second: string, error: string, details: string)
    requires first == "エラー: " + error
    requires second == "詳細: " + (if details == "" then "不明" else details)
    ensures '\n' !in error && '\n' !in details ==> Split(first + "\n" + second, '\n') == [first, second]
  {
    if '\n' !in error && '\n' !in details {
      assert '\n' !in first by {
        forall i | 0 <= i < |first| ensures first[i] != '\n' {
          if i >= 5 { assert first[i] == error[i - 5]; }
        }
      }
      assert '\n' !in second by {
        var d := if details == "" then "不明" else details;
        forall i | 0 <= i < |second| ensures second[i] != '\n' {
          if i >= 4 { assert second[i] == d[i - 4]; }
        }
      }
      assert first + "\n" + second == first + ['\n'] + second;
      SplitAtFirst(first, '\n', second);
    }
  }

  /** The error text a submit leaves: cleared first, then set by the first
      check that fails or by a failed post; a created set leaves it empty. */
  function SubmitMessage(check: SetCheck, outcome: PostOutcome): (msg: string)
    ensures msg == "" <==> check.Ready? && outcome.Created?
    ensures check.NameMissing? ==> msg == NameMissingMessage
    ensures check.NoMedication? ==> msg == NoMedicationMessage
  {
    match check
    case NameMissing => NameMissingMessage
    case NoMedication => NoMedicationMessage
    case Ready(_) =>
      match outcome
      case Created => ""
      case ServerError(error, details) => ServerErrorMessage(error, details)
      case NoResponse => NetworkFailureMessage
  }

  /** The screen's state. */
  class NewSetForm {
    var setName: string
    var selectedMedications: seq<int>
    var errorMessage: string

    /** The ticked ids only change by toggling, so none is listed twice. */
    ghost predicate Valid()
      reads this
    {
      NoDuplicates(selectedMedications)
    }

    constructor ()
      ensures Valid()
      ensures setName == "" && selectedMedications == [] && errorMessage == ""
    {
      setName := "";
      selectedMedications := [];
      errorMessage := "";
    }

    /** The name input. */
    method SetSetName(value: string)
      requires Valid()
      modifies this
      ensures Valid()
      ensures setName == value
      ensures selectedMedications == old(selectedMedications) && errorMessage == old(errorMessage)
    {
      setName := value;
    }

    /** `handleMedicationSelect`: an id is unticked when ticked, appended when not. */
    method HandleMedicationSelect(medicationId: int)
      requires Valid()
      modifies this
      ensures Valid()
      ensures selectedMedications == Toggle(old(selectedMedications), medicationId)
      ensures medicationId in selectedMedications <==> medicationId !in old(selectedMedications)
      ensures setName == old(setName) && errorMessage == old(errorMessage)
    {
      ToggleNoDuplicates(selectedMedications, medicationId);
      selectedMedications := Toggle(selectedMedications, medicationId);
    }

    /** `handleSubmit` with the post's outcome as a parameter: the request
        posted (if any), whether the screen navigates home, and the error text
        left behind. The name and the ticks are kept. */
    method HandleSubmit(outcome: PostOutcome) returns (request: Option<NewSetRequest>, navigateHome: bool)
      requires Valid()
      modifies this
      ensures Valid()
      ensures request.None? <==> !CheckNewSet(setName, selectedMedications).Ready?
      ensures request.Some? ==> request.value == NewSetRequest(setName, selectedMedications)
      ensures navigateHome <==> request.Some? && outcome.Created?
      ensures errorMessage == SubmitMessage(CheckNewSet(setName, selectedMedications), outcome)
      ensures setName == old(setName) && selectedMedications == old(selectedMedications)
    {
      errorMessage := "";
      var check := CheckNewSet(setName, selectedMedications);
      request := None;
      navigateHome := false;
      match check
      case NameMissing =>
        errorMessage := NameMissingMessage;
      case NoMedication =>
        errorMessage := NoMedicationMessage;
      case Ready(body) =>
        request := Some(body);
        match outcome
        case Created =>
          navigateHome := true;
        case ServerError(error, details) =>
          errorMessage := ServerErrorMessage(error, details);
        case NoResponse =>
          errorMessage := NetworkFailureMessage;
    }
  }
}
