/** The home page (src/component/Home.tsx): the catalogue grouped by genre and
    the groups ordered by a fixed genre list, the selection of medications with
    their day counts, the expanded medication sets, and what the page hands to
    the prescription preview. */
module Home {
  import opened Common
  import opened Text
  import opened ListToggle
  import opened Sorting
  import Prescription

  /** A catalogue entry as the home page reads it. */
  datatype CatalogueEntry = CatalogueEntry(id: int, name: string, genre: string)

  /** One entry of the selection map. A missing `selected` flag (an entry created
      by a day-count change) reads as false, a missing `unit` as `None`. */
  datatype MedicationSelection = MedicationSelection(selected: bool, days: int, unit: Option<string>)

  // ---------------------------------------------------------------------------
  // Genre order

  /** `GENRE_ORDER`: the order of the genre panels. "外用薬" is not in it. */
  const GenreOrder: seq<string> := ["頭痛", "解熱鎮痛", "ピル", "漢方薬", "対症療法", "ビタミン", "抗生物質", "その他"]

  /** `GENRE_ORDER.indexOf(g)`. */
  function GenreIndex(g: string): (r: int)
    ensures -1 <= r < |GenreOrder|
    ensures r == -1 <==> g !in GenreOrder
    ensures 0 <= r ==> GenreOrder[r] == g
  {
    FirstIndex(x => x == g, GenreOrder)
  }

  /** The comparator handed to `sort`: listed genres by their position, any listed
      genre before any unlisted one, two unlisted genres by string order. */
  function CompareGenres(a: string, b: string): (r: int)
    ensures a in GenreOrder && b !in GenreOrder ==> r < 0
    ensures a !in GenreOrder && b in GenreOrder ==> r > 0
    ensures a !in GenreOrder && b !in GenreOrder ==> r == Compare(a, b)
  {
    var ia, ib := GenreIndex(a), GenreIndex(b);
    if ia == -1 && ib == -1 then Compare(a, b)
    else if ia == -1 then 1
    else if ib == -1 then -1
    else ia - ib
  }

  /** Two listed genres are ordered by their position in the list. */
  lemma ListedGenresByPosition(i: int, j: int)
    requires 0 <= i < |GenreOrder| && 0 <= j < |GenreOrder|
    ensures CompareGenres(GenreOrder[i], GenreOrder[j]) < 0 <==> i < j
  {
    assert NoDuplicates(GenreOrder);
  }

  /** Swapping the arguments flips the sign. */
  lemma CompareGenresAntisymmetric(a: string, b: string)
    ensures CompareGenres(a, b) < 0 <==> CompareGenres(b, a) > 0
  {
    CompareAntisymmetric(a, b);
  }

  /** Only equal genres compare equal, so `sort` has nothing to keep stable. */
  lemma CompareGenresZeroIffEqual(a: string, b: string)
    ensures CompareGenres(a, b) == 0 <==> a == b
  {
    CompareZeroIffEqual(a, b);
  }

  /** The comparator's "at most" is transitive. */
  lemma CompareGenresTransitive(a: string, b: string, c: string)
    requires CompareGenres(a, b) <= 0 && CompareGenres(b, c) <= 0
    ensures CompareGenres(a, c) <= 0
  {
    CompareGenresZeroIffEqual(a, b);
    CompareGenresZeroIffEqual(b, c);
    if a !in GenreOrder && b !in GenreOrder && c !in GenreOrder && a != b && b != c {
      CompareTransitive(a, b, c);
    }
  }

  /** The comparator is a total preorder, as `sort` needs. */
  lemma CompareGenresIsOrder()
    ensures Transitive(CompareGenres) && Total(CompareGenres)
  {
    forall a, b, c | CompareGenres(a, b) <= 0 && CompareGenres(b, c) <= 0
      ensures CompareGenres(a, c) <= 0
    {
      CompareGenresTransitive(a, b, c);
    }
    forall a, b ensures CompareGenres(a, b) <= 0 || CompareGenres(b, a) <= 0 {
      CompareGenresAntisymmetric(a, b);
    }
  }

  /** `Object.keys(medicationsByGenre).sort(compare)`: the genres in comparator order. */
  function SortGenres(genres: seq<string>): (r: seq<string>)
    ensures multiset(r) == multiset(genres)
    ensures SortedBy(CompareGenres, r)
  {
    CompareGenresIsOrder();
    Sort(CompareGenres, genres)
  }

  /** In the sorted genre list the listed genres form a prefix: whatever comes
      before a listed genre is listed. */
  lemma SortedGenresListedFirst(genres: seq<string>, i: int, j: int)
    requires 0 <= i < j < |SortGenres(genres)|
    requires SortGenres(genres)[j] in GenreOrder
    ensures SortGenres(genres)[i] in GenreOrder
  {
    SortedAt(CompareGenres, SortGenres(genres), i, j);
  }

  /** Listed genres appear in the order of the list. */
  lemma SortedGenresFollowList(genres: seq<string>, i: int, j: int)
    requires 0 <= i < j < |SortGenres(genres)|
    requires SortGenres(genres)[i] in GenreOrder && SortGenres(genres)[j] in GenreOrder
    ensures GenreIndex(SortGenres(genres)[i]) <= GenreIndex(SortGenres(genres)[j])
  {
    SortedAt(CompareGenres, SortGenres(genres), i, j);
  }

  // ---------------------------------------------------------------------------
  // Grouping by genre

  /** The medications of genre g, in catalogue order. */
  function Bucket(meds: seq<CatalogueEntry>, g: string): (r: seq<CatalogueEntry>)
    ensures forall i :: 0 <= i < |r| ==> r[i].genre == g && r[i] in meds
    ensures forall i :: 0 <= i < |meds| && meds[i].genre == g ==> meds[i] in r
  {
    Filter((med: CatalogueEntry) => med.genre == g, meds)
  }

  /** Each bucket is a sublist of the catalogue: grouping never reorders. */
  lemma BucketKeepsOrder(meds: seq<CatalogueEntry>, g: string)
    ensures IsSubsequence(Bucket(meds, g), meds)
  {
    FilterIsSubsequence((med: CatalogueEntry) => med.genre == g, meds);
  }

  /** The genres of a catalogue in order of first occurrence: the key order of
      the object `reduce` builds. */
  function GenresInOrder(meds: seq<CatalogueEntry>): (r: seq<string>)
    ensures NoDuplicates(r)
    decreases |meds|
  {
    if meds == [] then []
    else
      var init := GenresInOrder(meds[..|meds| - 1]);
      var g := meds[|meds| - 1].genre;
      if g in init then init else init + [g]
  }

  /** A genre is listed exactly when some medication has it. */
  lemma {:induction false} GenresInOrderMembers(meds: seq<CatalogueEntry>, g: string)
    ensures g in GenresInOrder(meds) <==> exists k :: 0 <= k < |meds| && meds[k].genre == g
    decreases |meds|
  {
    if meds != [] {
      var init := meds[..|meds| - 1];
      GenresInOrderMembers(init, g);
      if exists k :: 0 <= k < |init| && init[k].genre == g {
        var k :| 0 <= k < |init| && init[k].genre == g;
        assert meds[k].genre == g;
      }
      if k :| 0 <= k < |meds| - 1 && meds[k].genre == g {
        assert init[k].genre == g;
      }
    }
  }

  /** One more medication extends exactly its own genre's bucket. */
  lemma BucketStep(meds: seq<CatalogueEntry>, i: int, g: string)
    requires 0 <= i < |meds|
    ensures Bucket(meds[..i + 1], g) == Bucket(meds[..i], g) + (if meds[i].genre == g then [meds[i]] else [])
  {
    assert meds[..i + 1][..i] == meds[..i];
  }

  /** One more medication adds its genre at the end when it is new. */
  lemma GenresStep(meds: seq<CatalogueEntry>, i: int)
    requires 0 <= i < |meds|
    ensures GenresInOrder(meds[..i + 1]) ==
      var init := GenresInOrder(meds[..i]);
      if meds[i].genre in init then init else init + [meds[i].genre]
  {
    assert meds[..i + 1][..i] == meds[..i];
  }

  /** A genre occurs in the catalogue exactly when its bucket is non-empty. */
  lemma BucketEmptyIffAbsent(meds: seq<CatalogueEntry>, g: string)
    ensures Bucket(meds, g) == [] <==> g !in GenresInOrder(meds)
  {
    GenresInOrderMembers(meds, g);
    var b := Bucket(meds, g);
    if b != [] {
      assert b[0] in meds;
    }
  }

  /** The object `reduce` builds: each genre that occurs mapped to its bucket. */
  ghost function Grouping(meds: seq<CatalogueEntry>): map<string, seq<CatalogueEntry>> {
    map g | g in GenresInOrder(meds) :: Bucket(meds, g)
  }

  /** One more medication is pushed onto its genre's bucket, which is created
      empty when the genre is new. */
  lemma GroupingStep(meds: seq<CatalogueEntry>, i: int)
    requires 0 <= i < |meds|
    ensures var m, g := Grouping(meds[..i]), meds[i].genre;
      Grouping(meds[..i + 1]) == m[g := (if g in m then m[g] else []) + [meds[i]]]
  {
    var m, g := Grouping(meds[..i]), meds[i].genre;
    var m' := m[g := (if g in m then m[g] else []) + [meds[i]]];
    var n := Grouping(meds[..i + 1]);
    GroupingKeysStep(meds, i);
    forall h | h in n ensures n[h] == m'[h] {
      BucketOfGrouping(meds, i, h);
    }
  }

  /** One more medication adds its genre to the keys. */
  lemma GroupingKeysStep(meds: seq<CatalogueEntry>, i: int)
    requires 0 <= i < |meds|
    ensures Grouping(meds[..i + 1]).Keys == Grouping(meds[..i]).Keys + {meds[i].genre}
  {
    GenresStep(meds, i);
    var a, b := GenresInOrder(meds[..i]), GenresInOrder(meds[..i + 1]);
    forall h ensures h in b <==> h in a || h == meds[i].genre {
    }
  }

  /** The bucket of genre h after one more medication, in terms of the grouping before it. */
  lemma BucketOfGrouping(meds: seq<CatalogueEntry>, i: int, h: string)
    requires 0 <= i < |meds|
    ensures var m := Grouping(meds[..i]);
      Bucket(meds[..i + 1], h) ==
        if h == meds[i].genre then (if h in m then m[h] else []) + [meds[i]] else Bucket(meds[..i], h)
  {
    BucketStep(meds, i, h);
    BucketEmptyIffAbsent(meds[..i], h);
  }

  /** The grouping holds one non-empty bucket per genre that occurs. */
  lemma GroupingBuckets(meds: seq<CatalogueEntry>)
    ensures forall g :: g in Grouping(meds) <==> g in GenresInOrder(meds)
    ensures forall g :: g in Grouping(meds) ==> Grouping(meds)[g] == Bucket(meds, g) && Grouping(meds)[g] != []
  {
    forall g | g in Grouping(meds) ensures Grouping(meds)[g] != [] {
      BucketEmptyIffAbsent(meds, g);
    }
  }

  /** `medicationsByGenre`: walks the catalogue once, creating a bucket the first
      time a genre is met and pushing each medication onto its genre's bucket.
      With no catalogue there are no buckets. */
  method GroupByGenre(allMedications: Option<seq<CatalogueEntry>>)
    returns (genres: seq<string>, byGenre: map<string, seq<CatalogueEntry>>)
    ensures allMedications.None? ==> genres == [] && byGenre == map[]
    ensures allMedications.Some? ==> genres == GenresInOrder(allMedications.value)
    ensures forall g :: g in byGenre <==> g in genres
    ensures allMedications.Some? ==>
      forall g :: g in byGenre ==> byGenre[g] == Bucket(allMedications.value, g) && byGenre[g] != []
  {
    if allMedications.None? {
      return [], map[];
    }
    var meds := allMedications.value;
    genres, byGenre := [], map[];
    var i := 0;
    while i < |meds|
      invariant 0 <= i <= |meds|
      invariant genres == GenresInOrder(meds[..i])
      invariant byGenre == Grouping(meds[..i])
    {
      var med := meds[i];
      GroupingStep(meds, i);
      GenresStep(meds, i);
      var bucket := [];
      if med.genre in byGenre {
        bucket := byGenre[med.genre];
      } else {
        genres := genres + [med.genre];
      }
      byGenre := byGenre[med.genre := bucket + [med]];
      i := i + 1;
    }
    assert meds[..i] == meds;
    GroupingBuckets(meds);
  }

  // ---------------------------------------------------------------------------
  // Selection

  /** `prev[id]`. */
  function Lookup(selections: map<int, MedicationSelection>, id: int): Option<MedicationSelection> {
    if id in selections then Some(selections[id]) else None
  }

  /** `allMedications?.find(med => med.id === id)`. */
  function FindMedication(allMedications: Option<seq<CatalogueEntry>>, id: int): (r: Option<CatalogueEntry>)
    ensures r.None? <==> allMedications.None? || forall i :: 0 <= i < |allMedications.value| ==> allMedications.value[i].id != id
    ensures r.Some? ==> r.value.id == id && r.value in allMedications.value
  {
    if allMedications.None? then None
    else Find((med: CatalogueEntry) => med.id == id, allMedications.value)
  }

  /** The two Kampo medicines dispensed per dose rather than per day. */
  const PerDoseNames: seq<string> := ["五苓散料", "呉茱萸湯"]

  /** The unit a toggle records: "回分" for the two per-dose medicines, "日分" otherwise. */
  function DaysUnitFor(allMedications: Option<seq<CatalogueEntry>>, id: int): (u: string)
    ensures u == "回分" || u == "日分"
  {
    var med := FindMedication(allMedications, id);
    if med.Some? && (med.value.name == "五苓散料" || med.value.name == "呉茱萸湯") then "回分" else "日分"
  }

  /** The unit is decided by the name of the first catalogue entry with that id,
      and is "日分" when no entry has it. */
  lemma DaysUnitByName(meds: seq<CatalogueEntry>, id: int, k: int)
    requires 0 <= k < |meds| && meds[k].id == id
    requires forall j :: 0 <= j < k ==> meds[j].id != id
    ensures DaysUnitFor(Some(meds), id) == "回分" <==> meds[k].name in PerDoseNames
  {
    FindFirst((med: CatalogueEntry) => med.id == id, meds, k);
  }

  /** An id the catalogue does not hold gets "日分". */
  lemma DaysUnitUnknownId(allMedications: Option<seq<CatalogueEntry>>, id: int)
    requires allMedications.Some? ==> forall j :: 0 <= j < |allMedications.value| ==> allMedications.value[j].id != id
    ensures DaysUnitFor(allMedications, id) == "日分"
  {
  }

  /** The entry after a checkbox toggle: the flag negated (an absent entry becomes
      selected), the day count kept when it is truthy and 1 otherwise, and the unit
      recomputed. */
  function ToggledSelection(prev: Option<MedicationSelection>, unit: string): (r: MedicationSelection)
    ensures r.selected <==> !(prev.Some? && prev.value.selected)
    ensures r.days != 0
    ensures prev.Some? && prev.value.days != 0 ==> r.days == prev.value.days
    ensures r.unit == Some(unit)
  {
    MedicationSelection(
      !(prev.Some? && prev.value.selected),
      if prev.Some? && prev.value.days != 0 then prev.value.days else 1,
      Some(unit))
  }

  /** Toggling twice restores the flag and keeps the day count the first toggle set. */
  lemma ToggleSelectionTwice(prev: Option<MedicationSelection>, u: string, u': string)
    ensures ToggledSelection(Some(ToggledSelection(prev, u)), u').selected == (prev.Some? && prev.value.selected)
    ensures ToggledSelection(Some(ToggledSelection(prev, u)), u').days == ToggledSelection(prev, u).days
  {
  }

  /** `{ ...prev[id], days }`: only the day count changes; spreading a missing
      entry gives an entry that is not selected and has no unit. */
  function WithDays(prev: Option<MedicationSelection>, days: int): (r: MedicationSelection)
    ensures r.days == days
    ensures prev.Some? ==> r.selected == prev.value.selected && r.unit == prev.value.unit
    ensures prev.None? ==> !r.selected && r.unit == None
  {
    match prev
    case Some(s) => s.(days := days)
    case None => MedicationSelection(false, days, None)
  }

  /** m is the least element of ids. */
  predicate IsLeast(m: int, ids: set<int>) {
    m in ids && forall x :: x in ids ==> m <= x
  }

  /** The least element of a non-empty set of IDs. */
  function Least(ids: set<int>): (m: int)
    requires ids != {}
    ensures IsLeast(m, ids)
  {
    HasLeast(ids);
    var m :| IsLeast(m, ids);
    m
  }

  lemma LeastOfTwo(ids: set<int>, y: int, m: int)
    requires y in ids && IsLeast(m, ids - {y})
    ensures IsLeast(if m < y then m else y, ids)
  {
    var least := if m < y then m else y;
    forall x | x in ids ensures least <= x {
      if x != y {
        assert x in ids - {y};
      }
    }
  }

  lemma {:induction false} HasLeast(ids: set<int>)
    requires ids != {}
    ensures exists m :: IsLeast(m, ids)
    decreases |ids|
  {
    if forall x :: x !in ids {
      assert false;
    }
    var y :| y in ids;
    if z :| z in ids && z != y {
      assert z in ids - {y};
      HasLeast(ids - {y});
      var m :| IsLeast(m, ids - {y});
      LeastOfTwo(ids, y, m);
    } else {
      assert IsLeast(y, ids);
    }
  }

  /** The keys of the selection map in the order `Object.entries` lists integer
      keys: ascending. */
  function SortedIds(ids: set<int>): (r: seq<int>)
    ensures |r| == |ids|
    ensures forall x :: x in r <==> x in ids
    ensures forall i, j :: 0 <= i < j < |r| ==> r[i] < r[j]
    decreases |ids|
  {
    if ids == {} then []
    else
      var m := Least(ids);
      [m] + SortedIds(ids - {m})
  }

  /** The IDs whose entry is selected, ascending. */
  function SelectedIds(selections: map<int, MedicationSelection>): (r: seq<int>)
    ensures forall id :: id in r <==> id in selections && selections[id].selected
    ensures forall i :: 0 <= i < |r| ==> r[i] in selections && selections[r[i]].selected
    ensures forall i, j :: 0 <= i < j < |r| ==> r[i] < r[j]
  {
    SelectedIdsFacts(selections);
    Filter(IsSelected(selections), SortedIds(selections.Keys))
  }

  /** The filter `value.selected` applies, as a predicate on IDs. */
  function IsSelected(selections: map<int, MedicationSelection>): int -> bool {
    id => id in selections && selections[id].selected
  }

  lemma SelectedIdsFacts(selections: map<int, MedicationSelection>)
    ensures var r := Filter(IsSelected(selections), SortedIds(selections.Keys));
      && (forall id :: id in r <==> id in selections && selections[id].selected)
      && (forall i :: 0 <= i < |r| ==> r[i] in selections && selections[r[i]].selected)
      && (forall i, j :: 0 <= i < j < |r| ==> r[i] < r[j])
  {
    var all := SortedIds(selections.Keys);
    var r := Filter(IsSelected(selections), all);
    FilterIsSubsequence(IsSelected(selections), all);
    SubsequenceOfAscending(r, all);
    forall i | 0 <= i < |r| ensures r[i] in selections && selections[r[i]].selected {
      assert IsSelected(selections)(r[i]);
    }
    forall id | id in selections && selections[id].selected ensures id in r {
      assert id in all;
      var k :| 0 <= k < |all| && all[k] == id;
      assert IsSelected(selections)(all[k]);
    }
  }

  lemma {:induction false} SubsequenceOfAscending(r: seq<int>, s: seq<int>)
    requires IsSubsequence(r, s)
    requires forall i, j :: 0 <= i < j < |s| ==> s[i] < s[j]
    ensures forall i, j :: 0 <= i < j < |r| ==> r[i] < r[j]
    ensures forall x :: x in r ==> x in s
    decreases |s|
  {
    if r != [] {
      var sinit := s[..|s| - 1];
      if r[|r| - 1] == s[|s| - 1] && IsSubsequence(r[..|r| - 1], sinit) {
        SubsequenceOfAscending(r[..|r| - 1], sinit);
        forall i | 0 <= i < |r| - 1 ensures r[i] < r[|r| - 1] {
          assert r[..|r| - 1][i] in sinit;
        }
        assert forall x :: x in r ==> x in r[..|r| - 1] || x == r[|r| - 1];
      } else {
        SubsequenceOfAscending(r, sinit);
      }
    }
  }

  /** `getSelectedMedications`: the selected entries with their day counts and
      units unchanged. */
  function GetSelectedMedications(selections: map<int, MedicationSelection>): (r: seq<Prescription.SelectedMedication>)
    ensures |r| == |SelectedIds(selections)|
    ensures forall i :: 0 <= i < |r| ==>
      r[i].id in selections && selections[r[i].id].selected
      && r[i].days == selections[r[i].id].days && r[i].unit == selections[r[i].id].unit
  {
    Entries(selections, SelectedIds(selections))
  }

  /** The entries of the given IDs, in the same order. */
  function Entries(selections: map<int, MedicationSelection>, ids: seq<int>): (r: seq<Prescription.SelectedMedication>)
    requires forall i :: 0 <= i < |ids| ==> ids[i] in selections
    ensures |r| == |ids| && forall i :: 0 <= i < |ids| ==> r[i] == Entry(selections, ids[i])
  {
    if ids == [] then [] else [Entry(selections, ids[0])] + Entries(selections, ids[1..])
  }

  /** The entries reach the preview by ascending ID, one per selected ID. */
  lemma SelectedMedicationsOrder(selections: map<int, MedicationSelection>, i: int)
    requires 0 <= i < |GetSelectedMedications(selections)|
    ensures GetSelectedMedications(selections)[i].id == SelectedIds(selections)[i]
    ensures forall j :: i < j < |GetSelectedMedications(selections)| ==>
      GetSelectedMedications(selections)[i].id < GetSelectedMedications(selections)[j].id
  {
  }

  /** Every selected entry reaches the preview. */
  lemma SelectedMedicationsComplete(selections: map<int, MedicationSelection>, id: int)
    requires id in selections && selections[id].selected
    ensures exists i :: 0 <= i < |GetSelectedMedications(selections)| && GetSelectedMedications(selections)[i].id == id
  {
    var ids := SelectedIds(selections);
    var i :| 0 <= i < |ids| && ids[i] == id;
    assert GetSelectedMedications(selections)[i].id == id;
  }

  /** End to end: once the preview sheet is shown for the home page's
      selection, every selected medication has a row carrying its own day
      count and unit. */
  lemma SelectionReachesSheet(selections: map<int, MedicationSelection>, outcomes: seq<Prescription.FetchOutcome>,
                              decode: Prescription.TimingDecoder, id: int)
    requires |outcomes| == |GetSelectedMedications(selections)|
    requires Prescription.Preview(GetSelectedMedications(selections), outcomes, decode).Sheet?
    requires id in selections && selections[id].selected
    ensures var rows := Prescription.Preview(GetSelectedMedications(selections), outcomes, decode).rows;
            exists i :: 0 <= i < |rows| &&
              rows[i].daysCell == IntString(selections[id].days) + Prescription.UnitOrDefault(selections[id].unit)
  {
    var sel := GetSelectedMedications(selections);
    var ids := SelectedIds(selections);
    var i :| 0 <= i < |ids| && ids[i] == id;
    var rows := Prescription.Preview(sel, outcomes, decode).rows;
    assert sel[i] == Entry(selections, id);
    assert rows[i].daysCell == IntString(sel[i].days) + Prescription.UnitOrDefault(sel[i].unit);
  }

  /** The preview's view of one selected entry. */
  function Entry(selections: map<int, MedicationSelection>, id: int): (e: Prescription.SelectedMedication)
    requires id in selections
    ensures e.id == id && e.days == selections[id].days && e.unit == selections[id].unit
  {
    Prescription.SelectedMedication(id, selections[id].days, selections[id].unit)
  }

  /** The name shown for one selected ID: the catalogue entry's name, or "" when
      the catalogue has no entry with that ID. */
  function NameFor(allMedications: Option<seq<CatalogueEntry>>, id: int): (n: string)
    ensures FindMedication(allMedications, id).None? ==> n == ""
    ensures FindMedication(allMedications, id).Some? ==> n == FindMedication(allMedications, id).value.name
  {
    match FindMedication(allMedications, id)
    case Some(med) => med.name
    case None => ""
  }

  /** `getSelectedMedicationNames`: the name of each selected medication, by
      ascending ID. */
  function GetSelectedMedicationNames(selections: map<int, MedicationSelection>,
                                      allMedications: Option<seq<CatalogueEntry>>): (r: seq<string>)
    ensures |r| == |SelectedIds(selections)|
    ensures forall i :: 0 <= i < |r| ==> r[i] == NameFor(allMedications, SelectedIds(selections)[i])
  {
    MapSeq(id => NameFor(allMedications, id), SelectedIds(selections))
  }

  /** The names line up with the selection handed to the preview. */
  lemma NamesMatchSelection(selections: map<int, MedicationSelection>, meds: seq<CatalogueEntry>, i: int, k: int)
    requires 0 <= i < |GetSelectedMedications(selections)|
    requires 0 <= k < |meds| && meds[k].id == GetSelectedMedications(selections)[i].id
    requires forall j :: 0 <= j < k ==> meds[j].id != meds[k].id
    ensures |GetSelectedMedicationNames(selections, Some(meds))| == |GetSelectedMedications(selections)|
    ensures GetSelectedMedicationNames(selections, Some(meds))[i] == meds[k].name
  {
    FindFirst((med: CatalogueEntry) => med.id == meds[k].id, meds, k);
  }

  // ---------------------------------------------------------------------------
  // Page state

  /** The state the home page's handlers update. */
  class HomePage {
    var selectedMedications: map<int, MedicationSelection>
    var expandedSetNames: seq<string>

    /** A JavaScript `Set` holds each name once. */
    ghost predicate Valid()
      reads this
    {
      NoDuplicates(expandedSetNames)
    }

    constructor ()
      ensures Valid()
      ensures selectedMedications == map[] && expandedSetNames == []
    {
      selectedMedications := map[];
      expandedSetNames := [];
    }

    /** `handleMedicationSelect`: toggles one entry and leaves the others alone. */
    method HandleMedicationSelect(medicationId: int, allMedications: Option<seq<CatalogueEntry>>)
      modifies this
      ensures selectedMedications == old(selectedMedications)[medicationId :=
        ToggledSelection(Lookup(old(selectedMedications), medicationId), DaysUnitFor(allMedications, medicationId))]
      ensures expandedSetNames == old(expandedSetNames)
    {
      var unit := DaysUnitFor(allMedications, medicationId);
      var prev := Lookup(selectedMedications, medicationId);
      selectedMedications := selectedMedications[medicationId := ToggledSelection(prev, unit)];
    }

    /** `handleDaysChange`: sets one entry's day count and leaves everything else alone. */
    method HandleDaysChange(medicationId: int, days: int)
      modifies this
      ensures selectedMedications == old(selectedMedications)[medicationId :=
        WithDays(Lookup(old(selectedMedications), medicationId), days)]
      ensures expandedSetNames == old(expandedSetNames)
    {
      selectedMedications := selectedMedications[medicationId := WithDays(Lookup(selectedMedications, medicationId), days)];
    }

    /** `toggleSetExpansion`: a present name is deleted, an absent one added at the end. */
    method ToggleSetExpansion(setName: string)
      requires Valid()
      modifies this
      ensures Valid()
      ensures expandedSetNames == Toggle(old(expandedSetNames), setName)
      ensures forall n :: n in expandedSetNames <==> (if n == setName then n !in old(expandedSetNames) else n in old(expandedSetNames))
      ensures selectedMedications == old(selectedMedications)
    {
      ToggleNoDuplicates(expandedSetNames, setName);
      forall n {
        ToggleAsSet(expandedSetNames, setName, n);
      }
      expandedSetNames := Toggle(expandedSetNames, setName);
    }
  }
}
