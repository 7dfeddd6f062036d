/** The fixed word lists the medication forms offer. */
module Vocabulary {

  /** The 18 dosage-timing checkboxes of the add and edit forms
      (`DOSAGE_TIMINGS`, identical in src/component/AddDrag.tsx and
      src/component/EditMedication.tsx). */
  const DosageTimings: seq<string> := [
    "起床時", "朝食前", "朝食後", "昼食前", "昼食後", "夕食前", "夕食後", "就寝前",
    "発熱・疼痛時", "発熱時", "嘔気時", "頭痛時", "指示通り", "毎食前", "毎食後",
    "毎食間", "症状出現時", "12時間後"
  ]

  /** The genres the add form offers (`GENRES` of src/component/AddDrag.tsx). */
  const AddFormGenres: seq<string> := [
    "解熱鎮痛", "ピル", "ビタミン", "対症療法", "頭痛", "抗生物質", "漢方薬", "その他", "外用薬"
  ]

  /** The genres the edit form accepts (`GENRES` of src/component/EditMedication.tsx);
      "外用薬" is missing from this list. */
  const EditFormGenres: seq<string> := [
    "解熱鎮痛", "ピル", "ビタミン", "対症療法", "頭痛", "抗生物質", "漢方薬", "その他"
  ]

  /** The free-text inputs of both medication forms, by their `name` attribute. */
  datatype TextField = Name | Effects | Precautions | DosageAmount
}
