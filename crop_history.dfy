/**
 * The crop history page (src/components/CropHistory.jsx): the records of
 * past plantings, the filter-and-sort pipeline that derives the shown list,
 * the year options, the add/edit/delete handlers and the summary statistics.
 *
 * Dates come from date inputs, so a date is either a calendar day or absent
 * (the empty text, an Invalid Date to `new Date`). The form's number boxes
 * are held as what `parseFloat` reads from them (`None` for NaN).
 */
module CropHistory {
  import opened Wrappers
  import opened Strings
  import opened Dates
  import Seqs

  /** A farm of the page's fixed farm list. */
  datatype Farm = Farm(id: int, name: string)

  const Farms: seq<Farm> := [Farm(1, "North Field Farm"), Farm(2, "Sunny Acres")]

  /** The free-text details of a record, carried over from the form as typed. */
  datatype Details = Details(
    notes: string,
    pestIssues: string,
    fertilizerUsed: string,
    irrigationMethod: string,
    soilCondition: string,
    weatherConditions: string)

  datatype CropRecord = CropRecord(
    id: int,
    farmId: int,
    farmName: string,
    cropName: string,
    variety: string,
    plantingDate: Option<Civil>,
    harvestDate: Option<Civil>,
    area: Option<real>,
    yieldAmount: real,
    yieldUnit: string,
    season: string,
    status: string,
    details: Details)

  /** The add/edit form `newCropHistory`; `farmId` is `None` while no farm is selected. */
  datatype CropForm = CropForm(
    farmId: Option<int>,
    cropName: string,
    variety: string,
    plantingDate: Option<Civil>,
    harvestDate: Option<Civil>,
    area: Option<real>,
    yieldAmount: Option<real>,
    yieldUnit: string,
    season: string,
    status: string,
    details: Details)

  /** The form as the page opens it and `resetForm` leaves it. */
  const BlankForm := CropForm(None, "", "", None, None, None, None, "lbs", "", "Harvested",
    Details("", "", "", "Drip irrigation", "Good", ""))

  /** `farms.find(f => f.id === id)?.name || ''`: the first farm with that id names the record. */
  function NameOfFarm(farms: seq<Farm>, id: int): (r: string)
    ensures forall i :: 0 <= i < |farms| && farms[i].id == id && (forall j :: 0 <= j < i ==> farms[j].id != id) ==>
      r == farms[i].name
    ensures (forall i :: 0 <= i < |farms| ==> farms[i].id != id) ==> r == ""
  {
    if farms == [] then ""
    else if farms[0].id == id then farms[0].name
    else
      var r := NameOfFarm(farms[1..], id);
      assert forall i :: 1 <= i < |farms| ==> farms[1..][i - 1] == farms[i];
      r
  }

  /**
   * The record a submitted form makes under `id`: the form's fields, the
   * parsed farm id and its farm's name, and a yield of 0 when the box does not
   * hold a non-zero number (`parseFloat(...) || 0`).
   */
  function Entry(id: int, form: CropForm): (c: CropRecord)
    requires form.farmId.Some?
    ensures c.id == id && c.farmId == form.farmId.value && c.farmName == NameOfFarm(Farms, form.farmId.value)
    ensures c.area == form.area
    ensures form.yieldAmount.Some? ==> c.yieldAmount == form.yieldAmount.value
    ensures form.yieldAmount.None? ==> c.yieldAmount == 0.0
  {
    CropRecord(id, form.farmId.value, NameOfFarm(Farms, form.farmId.value), form.cropName, form.variety,
      form.plantingDate, form.harvestDate, form.area, form.yieldAmount.GetOr(0.0), form.yieldUnit,
      form.season, form.status, form.details)
  }

  /** `handleEditCrop`: the form filled from a record; its numbers turn into text and parse back unchanged. */
  function FormOf(c: CropRecord): CropForm {
    CropForm(Some(c.farmId), c.cropName, c.variety, c.plantingDate, c.harvestDate, c.area,
      Some(c.yieldAmount), c.yieldUnit, c.season, c.status, c.details)
  }

  /** Editing a record and saving the form untouched gives the record back, when its farm name is the list's. */
  lemma EditRoundTrip(c: CropRecord)
    requires c.farmName == NameOfFarm(Farms, c.farmId)
    ensures Entry(c.id, FormOf(c)) == c
  {
  }

  /** The farm selector: every farm, or one farm id. */
  datatype FarmChoice = AllFarms | OneFarm(id: int)

  /** The sort direction: 'asc', or anything else, which the comparator treats as descending. */
  datatype Order = Asc | Desc

  datatype Filters = Filters(
    search: string,
    farm: FarmChoice,
    year: string,
    status: string,
    sortBy: SortField,
    sortOrder: Order)

  /** The filters the page opens with; a farm id in the route preselects that farm. */
  function InitialFilters(routeFarm: Option<int>): (f: Filters)
    ensures f.search == "" && f.year == "all" && f.status == "all"
    ensures f.sortBy == PlantingDate && f.sortOrder == Desc
    ensures f.farm.OneFarm? <==> routeFarm.Some?
    ensures routeFarm.Some? ==> f.farm.id == routeFarm.value
  {
    Filters("", if routeFarm.Some? then OneFarm(routeFarm.value) else AllFarms, "all", "all", PlantingDate, Desc)
  }

  /** `new Date(d).getFullYear().toString()`; an Invalid Date gives "NaN". */
  function YearText(d: Option<Civil>): string {
    if d.Some? then IntToString(d.value.year) else "NaN"
  }

  predicate SearchOk(c: CropRecord, f: Filters) {
    || IncludesIgnoringCase(c.cropName, f.search)
    || IncludesIgnoringCase(c.variety, f.search)
    || IncludesIgnoringCase(c.farmName, f.search)
    || IncludesIgnoringCase(c.season, f.search)
  }

  predicate FarmOk(c: CropRecord, f: Filters) {
    f.farm.AllFarms? || c.farmId == f.farm.id
  }

  predicate YearOk(c: CropRecord, f: Filters) {
    f.year == "all" || YearText(c.plantingDate) == f.year
  }

  predicate StatusOk(c: CropRecord, f: Filters) {
    f.status == "all" || c.status == f.status
  }

  predicate Matches(c: CropRecord, f: Filters) {
    SearchOk(c, f) && FarmOk(c, f) && YearOk(c, f) && StatusOk(c, f)
  }

  /** The tests the four filter steps apply. */
  function SearchTest(f: Filters): CropRecord -> bool {
    (c: CropRecord) => SearchOk(c, f)
  }

  function FarmTest(f: Filters): CropRecord -> bool {
    (c: CropRecord) => FarmOk(c, f)
  }

  function YearTest(f: Filters): CropRecord -> bool {
    (c: CropRecord) => YearOk(c, f)
  }

  function StatusTest(f: Filters): CropRecord -> bool {
    (c: CropRecord) => StatusOk(c, f)
  }

  /** The four filter steps of `applyFilters`, each skipped when its criterion is empty or 'all'. */
  function Filtered(rows: seq<CropRecord>, f: Filters): seq<CropRecord> {
    var s1 := if f.search != "" then Seqs.Filter(rows, SearchTest(f)) else rows;
    var s2 := if f.farm != AllFarms then Seqs.Filter(s1, FarmTest(f)) else s1;
    var s3 := if f.year != "all" then Seqs.Filter(s2, YearTest(f)) else s2;
    if f.status != "all" then Seqs.Filter(s3, StatusTest(f)) else s3
  }

  /** The filter steps keep exactly what all four criteria together keep, in list order. */
  lemma FilteredIsConjunction(rows: seq<CropRecord>, f: Filters)
    ensures Filtered(rows, f) == Seqs.Filter(rows, (c: CropRecord) => Matches(c, f))
  {
    var p1, p2, p3, p4 := SearchTest(f), FarmTest(f), YearTest(f), StatusTest(f);
    var q2 := (c: CropRecord) => SearchOk(c, f) && FarmOk(c, f);
    var q3 := (c: CropRecord) => SearchOk(c, f) && FarmOk(c, f) && YearOk(c, f);
    var q4 := (c: CropRecord) => Matches(c, f);
    forall c: CropRecord
      ensures f.search == "" ==> SearchOk(c, f)
    {
      if f.search == "" {
        IncludesEmptyTerm(c.cropName);
      }
    }
    Seqs.FilterWhen(rows, f.search != "", p1);
    Seqs.FilterWhen(Seqs.Filter(rows, p1), f.farm != AllFarms, p2);
    Seqs.FilterWhen(Seqs.Filter(rows, q2), f.year != "all", p3);
    Seqs.FilterWhen(Seqs.Filter(rows, q3), f.status != "all", p4);
    Seqs.FilterFilter(rows, p1, p2, q2);
    Seqs.FilterFilter(rows, q2, p3, q3);
    Seqs.FilterFilter(rows, q3, p4, q4);
  }

  /** A sort key as the comparator sees it: a date or a parsed number, a text, NaN, or `undefined`. */
  datatype Value = Text(s: string) | Num(x: real) | NaN | Undefined

  function DateValue(d: Option<Civil>): Value {
    if d.Some? then Num(Instant(d.value) as real) else NaN
  }

  /** The record field `sortBy` names; `NoField` is a name no record has, read as `undefined`. */
  datatype SortField = Id | FarmId | FarmName | CropName | Variety | PlantingDate | HarvestDate | Area
    | YieldAmount | YieldUnit | Season | Status | Notes | PestIssues | FertilizerUsed | IrrigationMethod
    | SoilCondition | WeatherConditions | NoField

  /** `a[sortBy]`, turned into a date for the two date fields and parsed for area and yield. */
  function FieldValue(c: CropRecord, field: SortField): Value {
    match field
    case PlantingDate => DateValue(c.plantingDate)
    case HarvestDate => DateValue(c.harvestDate)
    case Area => if c.area.Some? then Num(c.area.value) else NaN
    case YieldAmount => Num(c.yieldAmount)
    case Id => Num(c.id as real)
    case FarmId => Num(c.farmId as real)
    case FarmName => Text(c.farmName)
    case CropName => Text(c.cropName)
    case Variety => Text(c.variety)
    case YieldUnit => Text(c.yieldUnit)
    case Season => Text(c.season)
    case Status => Text(c.status)
    case Notes => Text(c.details.notes)
    case PestIssues => Text(c.details.pestIssues)
    case FertilizerUsed => Text(c.details.fertilizerUsed)
    case IrrigationMethod => Text(c.details.irrigationMethod)
    case SoilCondition => Text(c.details.soilCondition)
    case WeatherConditions => Text(c.details.weatherConditions)
    case NoField => Undefined
  }

  /** JavaScript's `>`: false whenever NaN or `undefined` is involved. */
  predicate Greater(a: Value, b: Value) {
    match (a, b)
    case (Text(x), Text(y)) => !LexLe(x, y)
    case (Num(x), Num(y)) => x > y
    case _ => false
  }

  /**
   * The comparator returns 1 or -1, never 0; `a` may stay before `b` when it
   * returns -1: when `a` is not greater ('asc'), or `b` is not greater (any other order).
   */
  predicate MayPrecede(f: Filters, a: CropRecord, b: CropRecord) {
    if f.sortOrder == Asc then !Greater(FieldValue(a, f.sortBy), FieldValue(b, f.sortBy))
    else !Greater(FieldValue(b, f.sortBy), FieldValue(a, f.sortBy))
  }

  /** A record whose sort key is not NaN: a missing date or area is NaN. */
  predicate Orderable(f: Filters, c: CropRecord) {
    FieldValue(c, f.sortBy) != NaN
  }

  /** The comparator, as a relation. */
  function Le(f: Filters): (CropRecord, CropRecord) -> bool {
    (a: CropRecord, b: CropRecord) => MayPrecede(f, a, b)
  }

  /** `filteredHistory` as `applyFilters` derives it. */
  function View(rows: seq<CropRecord>, f: Filters): seq<CropRecord> {
    Seqs.SortBy(Filtered(rows, f), Le(f))
  }

  /**
   * Among records whose key is not NaN the comparator orders consistently: one
   * field always gives values of one kind. NaN breaks transitivity (1, NaN, 0).
   */
  lemma MayPrecedePreorder(f: Filters)
    ensures Seqs.PreorderOn(Le(f), (c: CropRecord) => Orderable(f, c))
  {
    forall a: CropRecord, b: CropRecord | Orderable(f, a) && Orderable(f, b)
      ensures MayPrecede(f, a, b) || MayPrecede(f, b, a)
    {
      if FieldValue(a, f.sortBy).Text? {
        LexLeTotal(FieldValue(a, f.sortBy).s, FieldValue(b, f.sortBy).s);
      }
    }
    forall a: CropRecord, b: CropRecord, c: CropRecord |
      Orderable(f, a) && Orderable(f, b) && Orderable(f, c) && MayPrecede(f, a, b) && MayPrecede(f, b, c)
      ensures MayPrecede(f, a, c)
    {
      var x, y, z := FieldValue(a, f.sortBy), FieldValue(b, f.sortBy), FieldValue(c, f.sortBy);
      if x.Text? {
        LexLeTotal(x.s, y.s);
        LexLeTotal(y.s, z.s);
        LexLeTotal(x.s, z.s);
        if f.sortOrder == Asc {
          LexLeTransitive(x.s, y.s, z.s);
        } else {
          LexLeTransitive(z.s, y.s, x.s);
        }
      }
    }
  }

  /**
   * The shown list is a permutation of exactly the records meeting every
   * criterion, and it is ordered by the sort key whenever no kept record has
   * a NaN key.
   */
  lemma ViewSpec(rows: seq<CropRecord>, f: Filters)
    ensures var r := View(rows, f);
      && multiset(r) == multiset(Seqs.Filter(rows, (c: CropRecord) => Matches(c, f)))
      && (forall x :: x in r <==> x in rows && Matches(x, f))
      && ((forall x :: x in rows && Matches(x, f) ==> Orderable(f, x)) ==>
           forall i, j :: 0 <= i < j < |r| ==> MayPrecede(f, r[i], r[j]))
  {
    FilteredIsConjunction(rows, f);
    ViewMembers(rows, f);
    if forall x :: x in rows && Matches(x, f) ==> Orderable(f, x) {
      ViewSorted(rows, f);
    }
  }

  /** The shown records are exactly the matching ones. */
  lemma ViewMembers(rows: seq<CropRecord>, f: Filters)
    ensures forall x :: x in View(rows, f) <==> x in rows && Matches(x, f)
  {
    FilteredIsConjunction(rows, f);
    var kept := Seqs.Filter(rows, (c: CropRecord) => Matches(c, f));
    var r := Seqs.SortBy(kept, Le(f));
    forall x
      ensures x in r <==> x in rows && Matches(x, f)
    {
      assert x in r <==> x in multiset(kept);
      Seqs.FilterMembers(rows, (c: CropRecord) => Matches(c, f), x);
    }
  }

  /** When every matching record has a sort key, the shown records are in the comparator's order. */
  lemma ViewSorted(rows: seq<CropRecord>, f: Filters)
    requires forall x :: x in rows && Matches(x, f) ==> Orderable(f, x)
    ensures var r := View(rows, f); forall i, j :: 0 <= i < j < |r| ==> MayPrecede(f, r[i], r[j])
  {
    FilteredIsConjunction(rows, f);
    var kept := Seqs.Filter(rows, (c: CropRecord) => Matches(c, f));
    forall y | y in kept
      ensures Orderable(f, y)
    {
      Seqs.FilterMembers(rows, (c: CropRecord) => Matches(c, f), y);
    }
    MayPrecedePreorder(f);
    Seqs.SortBySortedOn(kept, Le(f), (c: CropRecord) => Orderable(f, c));
  }

  /** Under the newest-first order, a record may precede another only when it was not planted later. */
  lemma NewestFirstPair(f: Filters, a: CropRecord, b: CropRecord)
    requires f.sortBy == PlantingDate && f.sortOrder == Desc
    requires a.plantingDate.Some? && b.plantingDate.Some?
    ensures MayPrecede(f, a, b) <==> Instant(b.plantingDate.value) <= Instant(a.plantingDate.value)
  {
  }

  /** Newest first, the page's opening order, is by planting instant when every kept record has a planting date. */
  lemma NewestFirst(rows: seq<CropRecord>, f: Filters)
    requires f.sortBy == PlantingDate && f.sortOrder == Desc
    requires forall x :: x in rows && Matches(x, f) ==> x.plantingDate.Some?
    ensures var r := View(rows, f);
      forall i, j :: 0 <= i < j < |r| ==>
        r[i].plantingDate.Some? && r[j].plantingDate.Some? &&
        Instant(r[j].plantingDate.value) <= Instant(r[i].plantingDate.value)
  {
    ViewMembers(rows, f);
    assert forall x :: x in rows && Matches(x, f) ==> Orderable(f, x);
    ViewSorted(rows, f);
    var r := View(rows, f);
    forall i, j | 0 <= i < j < |r|
      ensures r[i].plantingDate.Some? && r[j].plantingDate.Some?
      ensures Instant(r[j].plantingDate.value) <= Instant(r[i].plantingDate.value)
    {
      assert r[i] in r && r[j] in r;
      NewestFirstPair(f, r[i], r[j]);
    }
  }

  /** `getAvailableYears`: the distinct planting years, sorted as text and then reversed. */
  function AvailableYears(rows: seq<CropRecord>): (r: seq<string>)
    ensures Seqs.NoDuplicates(r)
    ensures forall y :: y in r <==> exists i :: 0 <= i < |rows| && YearText(rows[i].plantingDate) == y
    ensures forall i, j :: 0 <= i < j < |r| ==> LexLe(r[j], r[i])
  {
    var ascending := SortedDistinct(PlantingYears(rows));
    Seqs.ReverseMembers(ascending);
    Seqs.Reverse(ascending)
  }

  /** The planting year of each record, in order. */
  function PlantingYears(rows: seq<CropRecord>): (years: seq<string>)
    ensures forall y :: y in years <==> exists i :: 0 <= i < |rows| && YearText(rows[i].plantingDate) == y
  {
    var years := Seqs.Map(rows, (c: CropRecord) => YearText(c.plantingDate));
    assert forall y :: y in years <==> exists i :: 0 <= i < |rows| && YearText(rows[i].plantingDate) == y by {
      forall y | y in years
        ensures exists i :: 0 <= i < |rows| && YearText(rows[i].plantingDate) == y
      {
        var i :| 0 <= i < |years| && years[i] == y;
      }
    }
    years
  }

  /** `reduce((sum, crop) => sum + crop.area, 0)`: a NaN area makes the total NaN. */
  function TotalArea(s: seq<CropRecord>): (r: Option<real>)
    ensures r.None? <==> exists i :: 0 <= i < |s| && s[i].area.None?
  {
    if s == [] then Some(0.0)
    else
      var rest := TotalArea(s[..|s| - 1]);
      assert forall i :: 0 <= i < |s| - 1 ==> s[..|s| - 1][i] == s[i];
      if rest.Some? && s[|s| - 1].area.Some? then Some(rest.value + s[|s| - 1].area.value) else None
  }

  /** `reduce((sum, crop) => sum + crop.yieldAmount, 0)`. */
  function TotalYield(s: seq<CropRecord>): real {
    if s == [] then 0.0 else TotalYield(s[..|s| - 1]) + s[|s| - 1].yieldAmount
  }

  /** The yield total over two lists together is the sum of their totals. */
  lemma {:induction false} TotalYieldAppend(a: seq<CropRecord>, b: seq<CropRecord>)
    ensures TotalYield(a + b) == TotalYield(a) + TotalYield(b)
  {
    if b != [] {
      assert (a + b)[..|a + b| - 1] == a + b[..|b| - 1];
      TotalYieldAppend(a, b[..|b| - 1]);
    } else {
      assert a + b == a;
    }
  }

  /** The area total over two lists together is the sum of their totals, unless either is NaN. */
  lemma {:induction false} TotalAreaAppend(a: seq<CropRecord>, b: seq<CropRecord>)
    ensures TotalArea(a + b) == if TotalArea(a).Some? && TotalArea(b).Some?
      then Some(TotalArea(a).value + TotalArea(b).value) else None
  {
    if b != [] {
      assert (a + b)[..|a + b| - 1] == a + b[..|b| - 1];
      TotalAreaAppend(a, b[..|b| - 1]);
    } else {
      assert a + b == a;
    }
  }

  predicate Harvested(c: CropRecord) {
    c.status == "Harvested"
  }

  datatype Stats = Stats(totalArea: Option<real>, totalYield: real, successfulHarvests: nat, successRate: real)

  /**
   * `calculateStats` over the shown list; the success rate is the percentage
   * of harvested records before `toFixed(1)` rounds it, and 0 for no records.
   */
  function CalculateStats(s: seq<CropRecord>): (st: Stats)
    ensures st.totalArea == TotalArea(s) && st.totalYield == TotalYield(s)
    ensures st.successfulHarvests == |Seqs.Filter(s, Harvested)| <= |s|
    ensures |s| == 0 ==> st.successRate == 0.0
    ensures st.successRate == SuccessRate(st.successfulHarvests, |s|)
    ensures st.successRate == 100.0 <==> |s| > 0 && forall i :: 0 <= i < |s| ==> Harvested(s[i])
  {
    var n := Seqs.Count(s, Harvested);
    Seqs.CountIsFilterLength(s, Harvested);
    Seqs.CountAll(s, Harvested);
    Stats(TotalArea(s), TotalYield(s), n, SuccessRate(n, |s|))
  }

  /** `successful / total * 100`, or 0 with no records. */
  function SuccessRate(successful: nat, total: nat): (r: real)
    requires successful <= total
    ensures total == 0 ==> r == 0.0
    ensures 0.0 <= r <= 100.0
    ensures r == 100.0 <==> total > 0 && successful == total
  {
    if total > 0 then
      var q := (successful as real) / (total as real);
      assert q * (total as real) == successful as real;
      assert q <= 1.0;
      assert q == 1.0 <==> successful == total;
      q * 100.0
    else 0.0
  }

  /** The page's state. */
  class CropHistoryPage {
    var records: seq<CropRecord>
    var filtered: seq<CropRecord>
    var filters: Filters
    var form: CropForm
    var editing: Option<CropRecord>
    var showForm: bool

    /** The page on `seed`, before the first `applyFilters` runs: the shown list starts as every record. */
    constructor (seed: seq<CropRecord>, routeFarm: Option<int>)
      ensures records == seed && filtered == seed && filters == InitialFilters(routeFarm)
      ensures form == BlankForm && editing.None? && !showForm
    {
      records := seed;
      filtered := seed;
      filters := InitialFilters(routeFarm);
      form := BlankForm;
      editing := None;
      showForm := false;
    }

    /** `applyFilters`: the shown list, filtered step by step and then sorted. */
    method ApplyFilters()
      modifies this`filtered
      ensures filtered == View(records, filters)
    {
      var f := filters;
      var list := records;
      if f.search != "" {
        list := Seqs.Filter(list, SearchTest(f));
      }
      if f.farm != AllFarms {
        list := Seqs.Filter(list, FarmTest(f));
      }
      if f.year != "all" {
        list := Seqs.Filter(list, YearTest(f));
      }
      if f.status != "all" {
        list := Seqs.Filter(list, StatusTest(f));
      }
      filtered := Seqs.SortBy(list, Le(f));
    }

    /**
     * `handleAddCropHistory`: a form without a farm, a crop name or a planting
     * date changes nothing. Otherwise an edit replaces every record with the
     * edited id by the form's record under that id, and an add appends the
     * form's record under `newId` (`Date.now()`); then the form is reset.
     */
    method AddCropHistory(newId: int) returns (accepted: bool)
      modifies this`records, this`form, this`editing, this`showForm
      ensures accepted <==> old(form).farmId.Some? && old(form).cropName != "" && old(form).plantingDate.Some?
      ensures !accepted ==>
        records == old(records) && form == old(form) && editing == old(editing) && showForm == old(showForm)
      ensures accepted ==> form == BlankForm && !showForm && editing.None?
      ensures accepted && old(editing).Some? ==>
        |records| == |old(records)| &&
        forall i :: 0 <= i < |records| ==>
          records[i] == if old(records)[i].id == old(editing).value.id then Entry(old(records)[i].id, old(form))
                        else old(records)[i]
      ensures accepted && old(editing).None? ==> records == old(records) + [Entry(newId, old(form))]
    {
      if form.farmId.None? || form.cropName == "" || form.plantingDate.None? {
        return false;
      }
      var submitted := form;
      if editing.Some? {
        var id := editing.value.id;
        records := Seqs.Map(records, (c: CropRecord) => if c.id == id then Entry(c.id, submitted) else c);
        editing := None;
      } else {
        records := records + [Entry(newId, submitted)];
      }
      form := BlankForm;
      showForm := false;
      accepted := true;
    }

    /** `handleEditCrop`: remembers the record and fills the form from it. */
    method EditCrop(c: CropRecord)
      modifies this`form, this`editing, this`showForm
      ensures editing == Some(c) && form == FormOf(c) && showForm
    {
      editing := Some(c);
      form := FormOf(c);
      showForm := true;
    }

    /** `handleDeleteCrop`: once confirmed, drops exactly the records with that id and keeps the rest in order. */
    method DeleteCrop(cropId: int, confirmed: bool)
      modifies this`records
      ensures !confirmed ==> records == old(records)
      ensures confirmed ==> records == Seqs.Filter(old(records), (c: CropRecord) => c.id != cropId)
      ensures confirmed ==> forall c :: c in records <==> c in old(records) && c.id != cropId
    {
      if confirmed {
        records := Seqs.Filter(records, (c: CropRecord) => c.id != cropId);
        forall c
          ensures c in records <==> c in old(records) && c.id != cropId
        {
          Seqs.FilterMembers(old(records), (c: CropRecord) => c.id != cropId, c);
        }
      }
    }
  }

  /** Adding a record raises the total yield by the added record's yield. */
  lemma AddRaisesYield(rows: seq<CropRecord>, newId: int, form: CropForm)
    requires form.farmId.Some?
    ensures TotalYield(rows + [Entry(newId, form)]) == TotalYield(rows) + form.yieldAmount.GetOr(0.0)
  {
    assert (rows + [Entry(newId, form)])[..|rows|] == rows;
  }
}
