/** The printable prescription sheet (src/component/PrescriptionPreview.tsx):
    one row per selected medication, whose "飲み方" cell is a small grid of
    dosing slots, whose "用法用量" cell is the dose line and the raw timing
    tags, and whose "日数" cell is the day count and its unit.

    The grid is either the normal six-slot day or, when both "症状出現時" and
    "12時間後" are present, the special two-slot interval schedule. */
module Prescription {
  import opened Common
  import opened Text

  /** `dosageTiming` as the medication endpoint returns it: an array, a
      JSON-encoded string, or absent (`null` / `undefined`). */
  datatype RawTiming = TagArray(tags: seq<string>) | TagText(text: string) | NoTags

  /** A medication record as the endpoint returns it. */
  datatype FetchedMedication = FetchedMedication(
    id: int, name: string, effects: string, precautions: string,
    dosageAmount: string, dosageTiming: RawTiming, genre: string)

  /** One entry of the selection the home page hands over. */
  datatype SelectedMedication = SelectedMedication(id: int, days: int, unit: Option<string>)

  /** The record a successful query yields: the fetched fields, the tags as a
      list, and the selection's `days` and `unit`. */
  datatype Medication = Medication(
    id: int, name: string, effects: string, precautions: string,
    dosageAmount: string, dosageTiming: seq<string>, genre: string,
    days: int, unit: string)

  /** What the request for one selected medication has produced so far. */
  datatype FetchOutcome = Pending | RequestFailed | Received(record: FetchedMedication)

  /** The state of one query: `isLoading`, `isError` or `isSuccess` with its data. */
  datatype QueryState = Loading | Errored | Succeeded(data: Medication)

  /** `JSON.parse` applied to a string-encoded tag list: the list when the text
      is a JSON array of strings, `None` when the text is not JSON at all (the
      parse throws, so the query fails). JSON text of any other shape parses
      without error; that case is not part of this model. */
  type TimingDecoder = string -> Option<seq<string>>

  /** The day-count unit when the selection carries none. */
  const DefaultDaysUnit := "日分"

  /** `Array.isArray(d) ? d : JSON.parse(d || '[]')`: an array is used as it is;
      an empty or absent value is the empty list; other text is decoded. */
  function NormaliseTiming(raw: RawTiming, decode: TimingDecoder): (r: Option<seq<string>>)
    ensures raw.TagArray? ==> r == Some(raw.tags)
    ensures raw.NoTags? || raw == TagText("") ==> r == Some([])
    ensures raw.TagText? && raw.text != "" ==> r == decode(raw.text)
  {
    match raw
    case TagArray(tags) => Some(tags)
    case TagText(text) => if text == "" then Some([]) else decode(text)
    case NoTags => Some([])
  }

  /** `selected.unit || '日分'`: an absent or empty unit falls back to the default. */
  function UnitOrDefault(unit: Option<string>): (r: string)
    ensures r != ""
    ensures r == DefaultDaysUnit || Some(r) == unit
    ensures unit.Some? && unit.value != "" ==> r == unit.value
  {
    if unit.Some? && unit.value != "" then unit.value else DefaultDaysUnit
  }

  /** The query function for one selected medication: the fetched record with
      the selection's days and unit, its tags normalised. */
  function RunQuery(sel: SelectedMedication, outcome: FetchOutcome, decode: TimingDecoder): (q: QueryState)
    ensures q.Loading? <==> outcome.Pending?
    ensures q.Succeeded? <==> outcome.Received? && NormaliseTiming(outcome.record.dosageTiming, decode).Some?
    ensures q.Succeeded? ==>
      && q.data.id == outcome.record.id
      && q.data.effects == outcome.record.effects
      && q.data.precautions == outcome.record.precautions
      && q.data.days == sel.days
      && q.data.unit == UnitOrDefault(sel.unit)
      && q.data.name == outcome.record.name
      && q.data.genre == outcome.record.genre
      && q.data.dosageAmount == outcome.record.dosageAmount
      && Some(q.data.dosageTiming) == NormaliseTiming(outcome.record.dosageTiming, decode)
  {
    match outcome
    case Pending => Loading
    case RequestFailed => Errored
    case Received(rec) =>
      match NormaliseTiming(rec.dosageTiming, decode)
      case None => Errored
      case Some(tags) =>
        Succeeded(Medication(rec.id, rec.name, rec.effects, rec.precautions,
                             rec.dosageAmount, tags, rec.genre,
                             sel.days, UnitOrDefault(sel.unit)))
  }

  /** A tag list sent as JSON text and the same list sent as an array give the
      same query result. */
  lemma EncodedTimingAgreesWithArray(sel: SelectedMedication, rec: FetchedMedication,
                                     text: string, tags: seq<string>, decode: TimingDecoder)
    requires rec.dosageTiming == TagText(text)
    requires decode(text) == Some(tags)
    requires text != "" || tags == []
    ensures RunQuery(sel, Received(rec), decode)
         == RunQuery(sel, Received(rec.(dosageTiming := TagArray(tags))), decode)
  {
  }

  // ---------------------------------------------------------------------------
  // Schedule classification and the timing grid

  /** The column labels of the normal schedule, left to right. */
  const NormalSlots: seq<string> := ["起床後", "朝", "昼", "夕", "就寝前", "必要時"]

  /** The column labels of the special schedule. */
  const SpecialSlots: seq<string> := ["症状出現時", "12時間後"]

  /** The meal columns the "毎食間" tag fills. */
  const MealSlots: seq<string> := ["朝", "昼", "夕"]

  /** The one blanket tag the grid honours. */
  const BetweenMeals := "毎食間"

  /** The tags that fill the "必要時" column. */
  const AsNeededTags: seq<string> := ["発熱・疼痛時", "嘔気時", "頭痛時"]

  /** `isSpecialTiming`: both interval tags are present. */
  predicate IsSpecialTiming(tags: seq<string>): (b: bool)
    ensures b ==> |tags| >= 2
  {
    "症状出現時" in tags && "12時間後" in tags
  }

  /** The predicate `getDosageForTiming` hands to `find`: tag t belongs to column `timing`. */
  predicate SlotMatches(timing: string, t: string) {
    || (timing == "起床後" && t == "起床時")
    || (timing == "朝" && (t == "朝食前" || t == "朝食後"))
    || (timing == "昼" && (t == "昼食前" || t == "昼食後"))
    || (timing == "夕" && (t == "夕食前" || t == "夕食後"))
    || (timing == "就寝前" && t == "就寝前")
    || (timing == "必要時" && t in AsNeededTags)
  }

  /** `getDosageForTiming`: the dose when "毎食間" is present and the column is a
      meal, otherwise the dose when `find` returns a (truthy) matching tag,
      otherwise nothing. */
  function DosageForTiming(m: Medication, timing: string): (r: string)
    ensures r == m.dosageAmount || r == ""
    ensures BetweenMeals in m.dosageTiming && timing in MealSlots ==> r == m.dosageAmount
    ensures timing !in NormalSlots ==> r == ""
  {
    if BetweenMeals in m.dosageTiming && timing in MealSlots then m.dosageAmount
    else
      match Find(t => SlotMatches(timing, t), m.dosageTiming)
      case Some(t) => if t != "" then m.dosageAmount else ""
      case None => ""
  }

  /** Reference table: which raw tags feed each normal column. */
  const SlotSources: map<string, set<string>> := map[
    "起床後" := {"起床時"},
    "朝" := {"朝食前", "朝食後"},
    "昼" := {"昼食前", "昼食後"},
    "夕" := {"夕食前", "夕食後"},
    "就寝前" := {"就寝前"},
    "必要時" := {"発熱・疼痛時", "嘔気時", "頭痛時"}
  ]

  /** When a column shows the dose: "毎食間" fills the meal columns whatever
      else is present; otherwise some tag from the column's row of the table. */
  ghost predicate SlotFilled(tags: seq<string>, slot: string) {
    || (BetweenMeals in tags && slot in MealSlots)
    || (slot in SlotSources && exists t :: t in tags && t in SlotSources[slot])
  }

  /** The matching predicate agrees with the reference table. */
  lemma SlotMatchesTable(timing: string, t: string)
    ensures SlotMatches(timing, t) <==> timing in SlotSources && t in SlotSources[timing]
  {
  }

  /** Each column shows exactly the dose or nothing, and the dose exactly when
      the column is filled according to the reference table. */
  lemma DosageForTimingSpec(m: Medication, slot: string)
    ensures DosageForTiming(m, slot) == (if SlotFilled(m.dosageTiming, slot) then m.dosageAmount else "")
  {
    var p := t => SlotMatches(slot, t);
    var tags := m.dosageTiming;
    if !(BetweenMeals in tags && slot in MealSlots) {
      var found := Find(p, tags);
      if found.Some? {
        SlotMatchesTable(slot, found.value);
        var k := FirstIndex(p, tags);
        assert tags[k] == found.value;
      } else if slot in SlotSources && exists t :: t in tags && t in SlotSources[slot] {
        var t :| t in tags && t in SlotSources[slot];
        var i :| 0 <= i < |tags| && tags[i] == t;
        SlotMatchesTable(slot, t);
      }
    }
  }

  /** The grid of the normal schedule: the six labels, then for each the dose or nothing. */
  function NormalTimingTable(m: Medication): (g: Grid)
    ensures g.headers == NormalSlots && |g.values| == |NormalSlots|
    ensures forall i :: 0 <= i < |NormalSlots| ==>
      g.values[i] == (if SlotFilled(m.dosageTiming, NormalSlots[i]) then m.dosageAmount else "")
  {
    DosageForTimingAll(m);
    Grid(NormalSlots, seq(|NormalSlots|, i requires 0 <= i < |NormalSlots| => DosageForTiming(m, NormalSlots[i])))
  }

  lemma DosageForTimingAll(m: Medication)
    ensures forall slot :: DosageForTiming(m, slot) == (if SlotFilled(m.dosageTiming, slot) then m.dosageAmount else "")
  {
    forall slot {
      DosageForTimingSpec(m, slot);
    }
  }

  /** The grid of the special schedule: the two interval labels, each over the dose as it is. */
  function SpecialTimingTable(m: Medication): (g: Grid)
    ensures g.headers == SpecialSlots && g.values == [m.dosageAmount, m.dosageAmount]
  {
    Grid(SpecialSlots, seq(|SpecialSlots|, _ => m.dosageAmount))
  }

  /** A header row and a value row of the same width. */
  datatype Grid = Grid(headers: seq<string>, values: seq<string>)

  /** The "飲み方" cell: the special grid for the interval schedule, the normal one otherwise. */
  function TimingTable(m: Medication): (g: Grid)
    ensures |g.headers| == |g.values|
    ensures IsSpecialTiming(m.dosageTiming) ==> g.headers == SpecialSlots
    ensures !IsSpecialTiming(m.dosageTiming) ==> g.headers == NormalSlots
    ensures forall i :: 0 <= i < |g.values| ==> g.values[i] == m.dosageAmount || g.values[i] == ""
    ensures IsSpecialTiming(m.dosageTiming) ==> forall i :: 0 <= i < |g.values| ==> g.values[i] == m.dosageAmount
  {
    if IsSpecialTiming(m.dosageTiming) then SpecialTimingTable(m) else NormalTimingTable(m)
  }

  /** The grid depends on the tags only as a set: order and repetition do not matter. */
  lemma TimingTableIgnoresOrderAndRepetition(m: Medication, m': Medication)
    requires m'.dosageAmount == m.dosageAmount
    requires forall t :: t in m.dosageTiming <==> t in m'.dosageTiming
    ensures TimingTable(m) == TimingTable(m')
  {
    assert IsSpecialTiming(m.dosageTiming) == IsSpecialTiming(m'.dosageTiming);
    var g, g' := NormalTimingTable(m), NormalTimingTable(m');
    forall i | 0 <= i < |NormalSlots| ensures g.values[i] == g'.values[i] {
      assert SlotFilled(m.dosageTiming, NormalSlots[i]) == SlotFilled(m'.dosageTiming, NormalSlots[i]);
    }
  }

  /** With "毎食間" on a normal schedule, the 朝, 昼 and 夕 columns show the dose
      whatever other tags are present. */
  lemma BetweenMealsFillsMeals(m: Medication)
    requires BetweenMeals in m.dosageTiming && !IsSpecialTiming(m.dosageTiming)
    ensures TimingTable(m).values[1..4] == [m.dosageAmount, m.dosageAmount, m.dosageAmount]
  {
    var g := TimingTable(m);
    assert SlotFilled(m.dosageTiming, NormalSlots[1]);
    assert SlotFilled(m.dosageTiming, NormalSlots[2]);
    assert SlotFilled(m.dosageTiming, NormalSlots[3]);
  }

  /** Tags that name no column fill nothing: "発熱時", "指示通り", "毎食前" and
      "毎食後" alone leave all six columns empty. */
  lemma UnmappedTagsFillNothing(m: Medication)
    requires forall t :: t in m.dosageTiming ==> t in {"発熱時", "指示通り", "毎食前", "毎食後"}
    ensures TimingTable(m) == Grid(NormalSlots, ["", "", "", "", "", ""])
  {
    var tags := m.dosageTiming;
    assert "症状出現時" !in tags;
    assert BetweenMeals !in tags;
    assert forall slot :: slot in SlotSources ==> !SlotFilled(tags, slot);
    var g := NormalTimingTable(m);
    assert g.values == ["", "", "", "", "", ""];
  }

  /** Without "毎食間", each column shows the dose exactly when one of its own tags
      is present; a column with several of its tags shows the dose once. */
  lemma DirectMatchFillsSlot(m: Medication, k: int)
    requires BetweenMeals !in m.dosageTiming && !IsSpecialTiming(m.dosageTiming)
    requires 0 <= k < |NormalSlots|
    ensures TimingTable(m).values[k]
         == (if exists t :: t in m.dosageTiming && SlotMatches(NormalSlots[k], t) then m.dosageAmount else "")
  {
    if exists t :: t in m.dosageTiming && SlotMatches(NormalSlots[k], t) {
      var t :| t in m.dosageTiming && SlotMatches(NormalSlots[k], t);
      SlotMatchesTable(NormalSlots[k], t);
    } else if SlotFilled(m.dosageTiming, NormalSlots[k]) {
      var t :| t in m.dosageTiming && t in SlotSources[NormalSlots[k]];
      SlotMatchesTable(NormalSlots[k], t);
    }
  }

  // ---------------------------------------------------------------------------
  // The other cells of a row

  /** `getDosageUnit`: packets for Kampo medicines, tablets for every other genre. */
  function DosageUnit(genre: string): (u: string)
    ensures u == "包" <==> genre == "漢方薬"
    ensures u == "包" || u == "錠"
  {
    if genre == "漢方薬" then "包" else "錠"
  }

  /** One row of the sheet, with its cells as strings. */
  datatype SheetRow = SheetRow(
    name: string, timing: Grid, dosageLine: string, timingLines: string,
    daysCell: string, effects: string, precautions: string)

  /** The row of one medication: name, timing grid, "1回 {amount}{unit}" over the
      tags joined by newlines, "{days}{unit}", effects and precautions. */
  function BuildRow(m: Medication): (row: SheetRow)
    ensures row.name == m.name && row.timing == TimingTable(m)
    ensures row.dosageLine == "1回 " + m.dosageAmount + DosageUnit(m.genre)
    ensures |m.dosageTiming| >= 1 && (forall i :: 0 <= i < |m.dosageTiming| ==> '\n' !in m.dosageTiming[i])
            ==> Split(row.timingLines, '\n') == m.dosageTiming
    ensures m.dosageTiming == [] ==> row.timingLines == ""
    ensures row.daysCell == IntString(m.days) + m.unit
    ensures row.effects == m.effects && row.precautions == m.precautions
  {
    TimingLinesReadBack(m.dosageTiming);
    SheetRow(m.name, TimingTable(m), "1回 " + m.dosageAmount + DosageUnit(m.genre),
             Join(m.dosageTiming, "\n"), IntString(m.days) + m.unit, m.effects, m.precautions)
  }

  /** The tag lines of the dose cell split back into the tags. */
  lemma TimingLinesReadBack(tags: seq<string>)
    ensures |tags| >= 1 && (forall i :: 0 <= i < |tags| ==> '\n' !in tags[i])
            ==> Split(Join(tags, "\n"), '\n') == tags
  {
    if |tags| >= 1 && (forall i :: 0 <= i < |tags| ==> '\n' !in tags[i]) {
      SplitJoin(tags, '\n');
    }
  }

  // ---------------------------------------------------------------------------
  // The page

  /** What the component renders: a loading message, an error message, or the sheet. */
  datatype Page = LoadingView | ErrorView | Sheet(rows: seq<SheetRow>)

  /** `filter(q => q.isSuccess).map(q => q.data)`. */
  function SucceededMedications(qs: seq<QueryState>): (ms: seq<Medication>)
    ensures |ms| <= |qs|
    ensures (forall i :: 0 <= i < |qs| ==> qs[i].Succeeded?) ==>
              |ms| == |qs| && forall i :: 0 <= i < |qs| ==> ms[i] == qs[i].data
  {
    var ok := Filter((q: QueryState) => q.Succeeded?, qs);
    AllSucceededKept(qs);
    seq(|ok|, i requires 0 <= i < |ok| => ok[i].data)
  }

  lemma AllSucceededKept(qs: seq<QueryState>)
    ensures (forall i :: 0 <= i < |qs| ==> qs[i].Succeeded?) ==>
              Filter((q: QueryState) => q.Succeeded?, qs) == qs
  {
    if forall i :: 0 <= i < |qs| ==> qs[i].Succeeded? {
      FilterKeepsAll((q: QueryState) => q.Succeeded?, qs);
    }
  }

  /** The component's render: loading first, then error, then one row per
      query, row i built from query i. */
  function RenderPage(qs: seq<QueryState>): (p: Page)
    ensures p == LoadingView <==> exists i :: 0 <= i < |qs| && qs[i].Loading?
    ensures p == ErrorView <==>
      (forall i :: 0 <= i < |qs| ==> !qs[i].Loading?) && exists i :: 0 <= i < |qs| && qs[i].Errored?
    ensures p.Sheet? ==>
      && (forall i :: 0 <= i < |qs| ==> qs[i].Succeeded?)
      && |p.rows| == |qs|
      && forall i :: 0 <= i < |qs| ==> p.rows[i] == BuildRow(qs[i].data)
  {
    if Any((q: QueryState) => q.Loading?, qs) then LoadingView
    else if Any((q: QueryState) => q.Errored?, qs) then ErrorView
    else
      var ms := SucceededMedications(qs);
      Sheet(seq(|ms|, i requires 0 <= i < |ms| => BuildRow(ms[i])))
  }

  /** The queries of a selection, one per selected medication. */
  ghost predicate QueriesOf(qs: seq<QueryState>, selected: seq<SelectedMedication>,
                            outcomes: seq<FetchOutcome>, decode: TimingDecoder)
    requires |outcomes| == |selected|
  {
    |qs| == |selected| && forall i :: 0 <= i < |qs| ==> qs[i] == RunQuery(selected[i], outcomes[i], decode)
  }

  lemma PreviewLoading(selected: seq<SelectedMedication>, outcomes: seq<FetchOutcome>,
                       decode: TimingDecoder, qs: seq<QueryState>)
    requires |outcomes| == |selected| && QueriesOf(qs, selected, outcomes, decode)
    ensures (exists i :: 0 <= i < |outcomes| && outcomes[i].Pending?) <==> RenderPage(qs) == LoadingView
  {
    if i :| 0 <= i < |outcomes| && outcomes[i].Pending? {
      assert qs[i].Loading?;
    }
  }

  lemma PreviewError(selected: seq<SelectedMedication>, outcomes: seq<FetchOutcome>,
                     decode: TimingDecoder, qs: seq<QueryState>)
    requires |outcomes| == |selected| && QueriesOf(qs, selected, outcomes, decode)
    ensures RenderPage(qs) == ErrorView <==>
      && (forall i :: 0 <= i < |outcomes| ==> !outcomes[i].Pending?)
      && exists i :: 0 <= i < |outcomes| && RunQuery(selected[i], outcomes[i], decode).Errored?
  {
    PreviewLoading(selected, outcomes, decode, qs);
  }

  lemma PreviewSheet(selected: seq<SelectedMedication>, outcomes: seq<FetchOutcome>,
                     decode: TimingDecoder, qs: seq<QueryState>)
    requires |outcomes| == |selected| && QueriesOf(qs, selected, outcomes, decode)
    ensures RenderPage(qs).Sheet? ==> |RenderPage(qs).rows| == |selected| && forall i :: 0 <= i < |selected| ==>
      && outcomes[i].Received?
      && RunQuery(selected[i], outcomes[i], decode).Succeeded?
      && RenderPage(qs).rows[i] == BuildRow(RunQuery(selected[i], outcomes[i], decode).data)
      && RenderPage(qs).rows[i].name == outcomes[i].record.name
      && RenderPage(qs).rows[i].daysCell == IntString(selected[i].days) + UnitOrDefault(selected[i].unit)
  {
  }

  /** The whole preview for a selection, given what each of its requests produced:
      while anything is loading the loading view wins; otherwise any failure shows
      the error view; otherwise there is one row per selected medication, in the
      order of the selection, carrying that selection's day count and unit. */
  function Preview(selected: seq<SelectedMedication>, outcomes: seq<FetchOutcome>, decode: TimingDecoder): (p: Page)
    requires |outcomes| == |selected|
    ensures (exists i :: 0 <= i < |outcomes| && outcomes[i].Pending?) <==> p == LoadingView
    ensures p == ErrorView <==>
      && (forall i :: 0 <= i < |outcomes| ==> !outcomes[i].Pending?)
      && exists i :: 0 <= i < |outcomes| && RunQuery(selected[i], outcomes[i], decode).Errored?
    ensures p.Sheet? ==> |p.rows| == |selected| && forall i :: 0 <= i < |selected| ==>
      && outcomes[i].Received?
      && RunQuery(selected[i], outcomes[i], decode).Succeeded?
      && p.rows[i] == BuildRow(RunQuery(selected[i], outcomes[i], decode).data)
      && p.rows[i].name == outcomes[i].record.name
      && p.rows[i].daysCell == IntString(selected[i].days) + UnitOrDefault(selected[i].unit)
  {
    var qs := seq(|selected|, i requires 0 <= i < |selected| => RunQuery(selected[i], outcomes[i], decode));
    PreviewLoading(selected, outcomes, decode, qs);
    PreviewError(selected, outcomes, decode, qs);
    PreviewSheet(selected, outcomes, decode, qs);
    RenderPage(qs)
  }
}
