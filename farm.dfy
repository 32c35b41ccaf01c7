/**
 * The farm list page (src/components/Farm.jsx): the farm records, the add,
 * edit and delete handlers and the searched, type-filtered and sorted list.
 * The size box is a number input and the established box a date input, so
 * the form holds the number or the day, or `None` while the box is empty.
 */
module Farm {
  import opened Wrappers
  import opened Strings
  import opened Dates
  import Seqs

  datatype FarmRecord = FarmRecord(
    id: int,
    name: string,
    location: string,
    size: real,
    farmType: string,
    established: Civil,
    crops: seq<string>,
    description: string,
    soilType: string,
    irrigationType: string,
    status: string)

  /** The add/edit form `newFarm`. */
  datatype FarmForm = FarmForm(
    name: string,
    location: string,
    size: Option<real>,
    farmType: string,
    established: Option<Civil>,
    description: string,
    soilType: string,
    irrigationType: string)

  /** The form as the page opens it and `resetForm` leaves it. */
  const BlankForm := FarmForm("", "", None, "Vegetable", None, "", "Loamy", "Drip")

  /** `!newFarm.name || !newFarm.location || !newFarm.size || !newFarm.established`, negated. */
  predicate Complete(form: FarmForm) {
    form.name != "" && form.location != "" && form.size.Some? && form.established.Some?
  }

  /** `{ ...farm, ...newFarm, size, status: 'Active' }`: the form's fields over the farm's, which keeps its id and crops. */
  function Merged(farm: FarmRecord, form: FarmForm): (r: FarmRecord)
    requires Complete(form)
    ensures r.id == farm.id && r.crops == farm.crops && r.status == "Active"
    ensures r.name == form.name && r.location == form.location && r.size == form.size.value
    ensures r.established == form.established.value && r.farmType == form.farmType
  {
    FarmRecord(farm.id, form.name, form.location, form.size.value, form.farmType, form.established.value,
      farm.crops, form.description, form.soilType, form.irrigationType, "Active")
  }

  /** The new farm a complete form makes under `id` (`Date.now()`): no crops yet, and active. */
  function NewFarm(id: int, form: FarmForm): (r: FarmRecord)
    requires Complete(form)
    ensures r.id == id && r.crops == [] && r.status == "Active"
    ensures r.name == form.name && r.location == form.location && r.size == form.size.value
    ensures r.established == form.established.value && r.farmType == form.farmType
  {
    FarmRecord(id, form.name, form.location, form.size.value, form.farmType, form.established.value,
      [], form.description, form.soilType, form.irrigationType, "Active")
  }

  /** `handleEditFarm`: the form filled from a farm, with the defaults for empty details. */
  function FormOf(farm: FarmRecord): (form: FarmForm)
    ensures Complete(form) == (farm.name != "" && farm.location != "")
  {
    FarmForm(farm.name, farm.location, Some(farm.size), farm.farmType, Some(farm.established),
      OrElse(farm.description, ""), OrElse(farm.soilType, "Loamy"), OrElse(farm.irrigationType, "Drip"))
  }

  /** Saving an edit form left untouched gives the farm back, marked active, when its details are not empty. */
  lemma EditRoundTrip(farm: FarmRecord)
    requires farm.name != "" && farm.location != ""
    requires farm.soilType != "" && farm.irrigationType != ""
    ensures Merged(farm, FormOf(farm)) == farm.(status := "Active")
  {
  }

  /** The sort selector; any other value makes the comparator return 0. */
  datatype SortKey = ByName | BySize | ByEstablished | Unsorted

  predicate Matches(farm: FarmRecord, search: string, filterType: string) {
    && (IncludesIgnoringCase(farm.name, search) || IncludesIgnoringCase(farm.location, search))
    && (filterType == "all" || farm.farmType == filterType)
  }

  /**
   * The comparator as a relation: `a` may stay before `b` when it returns at
   * most 0. Names ascend in `LexLe` order, sizes descend, establishment dates run
   * newest first.
   */
  function Le(key: SortKey): (FarmRecord, FarmRecord) -> bool {
    match key
    case ByName => (a: FarmRecord, b: FarmRecord) => LexLe(a.name, b.name)
    case BySize => (a: FarmRecord, b: FarmRecord) => b.size <= a.size
    case ByEstablished => (a: FarmRecord, b: FarmRecord) => Instant(b.established) <= Instant(a.established)
    case Unsorted => (a: FarmRecord, b: FarmRecord) => true
  }

  /** `filteredFarms`. */
  function FilteredFarms(farms: seq<FarmRecord>, search: string, filterType: string, key: SortKey): seq<FarmRecord> {
    Seqs.SortBy(Seqs.Filter(farms, (farm: FarmRecord) => Matches(farm, search, filterType)), Le(key))
  }

  /** Every sort key orders consistently. */
  lemma LePreorder(key: SortKey)
    ensures Seqs.TotalPreorder(Le(key))
  {
    if key == ByName {
      forall a: FarmRecord, b: FarmRecord
        ensures Le(key)(a, b) || Le(key)(b, a)
      {
        LexLeTotal(a.name, b.name);
      }
      forall a: FarmRecord, b: FarmRecord, c: FarmRecord | Le(key)(a, b) && Le(key)(b, c)
        ensures Le(key)(a, c)
      {
        LexLeTransitive(a.name, b.name, c.name);
      }
    }
  }

  /**
   * The shown list is a permutation of exactly the farms whose name or
   * location contains the search and whose type passes the filter, sorted by
   * the key; with no key it keeps the list order.
   */
  lemma FilteredFarmsSpec(farms: seq<FarmRecord>, search: string, filterType: string, key: SortKey)
    ensures var r := FilteredFarms(farms, search, filterType, key);
      && multiset(r) == multiset(Seqs.Filter(farms, (farm: FarmRecord) => Matches(farm, search, filterType)))
      && (forall x :: x in r <==> x in farms && Matches(x, search, filterType))
      && Seqs.Sorted(r, Le(key))
      && (key == Unsorted ==> r == Seqs.Filter(farms, (farm: FarmRecord) => Matches(farm, search, filterType)))
  {
    LePreorder(key);
    Seqs.FilterThenSort(farms, (farm: FarmRecord) => Matches(farm, search, filterType), Le(key));
    if key == Unsorted {
      Seqs.SortByAllEqual(Seqs.Filter(farms, (farm: FarmRecord) => Matches(farm, search, filterType)), Le(key));
    }
  }

  /** An empty search and the 'all' type keep every farm. */
  lemma NoFilterKeepsAll(farms: seq<FarmRecord>, key: SortKey)
    ensures multiset(FilteredFarms(farms, "", "all", key)) == multiset(farms)
  {
    forall farm: FarmRecord
      ensures Matches(farm, "", "all")
    {
      IncludesEmptyTerm(farm.name);
    }
    Seqs.FilterAll(farms, (farm: FarmRecord) => Matches(farm, "", "all"));
  }

  /** The page's farm list and form. */
  class FarmPage {
    var farms: seq<FarmRecord>
    var form: FarmForm
    var editing: Option<FarmRecord>
    var showForm: bool

    constructor (seed: seq<FarmRecord>)
      ensures farms == seed && form == BlankForm && editing.None? && !showForm
    {
      farms := seed;
      form := BlankForm;
      editing := None;
      showForm := false;
    }

    /**
     * `handleAddFarm`: an incomplete form changes nothing. Otherwise an edit
     * merges the form into every farm with the edited id, and an add appends
     * the new farm under `newId`; then the form is reset.
     */
    method AddFarm(newId: int) returns (accepted: bool)
      modifies this
      ensures accepted <==> Complete(old(form))
      ensures !accepted ==> farms == old(farms) && form == old(form) && editing == old(editing) && showForm == old(showForm)
      ensures accepted ==> form == BlankForm && !showForm && editing.None?
      ensures accepted && old(editing).Some? ==>
        |farms| == |old(farms)| &&
        forall i :: 0 <= i < |farms| ==>
          farms[i] == if old(farms)[i].id == old(editing).value.id then Merged(old(farms)[i], old(form)) else old(farms)[i]
      ensures accepted && old(editing).None? ==> farms == old(farms) + [NewFarm(newId, old(form))]
    {
      if !Complete(form) {
        return false;
      }
      var submitted := form;
      if editing.Some? {
        var id := editing.value.id;
        farms := Seqs.Map(farms, (farm: FarmRecord) => if farm.id == id then Merged(farm, submitted) else farm);
        editing := None;
      } else {
        farms := farms + [NewFarm(newId, submitted)];
      }
      form := BlankForm;
      showForm := false;
      accepted := true;
    }

    /** `handleEditFarm`. */
    method EditFarm(farm: FarmRecord)
      modifies this`form, this`editing, this`showForm
      ensures editing == Some(farm) && form == FormOf(farm) && showForm
    {
      editing := Some(farm);
      form := FormOf(farm);
      showForm := true;
    }

    /** `handleDeleteFarm`: once confirmed, drops exactly the farms with that id and keeps the rest in order. */
    method DeleteFarm(farmId: int, confirmed: bool)
      modifies this`farms
      ensures !confirmed ==> farms == old(farms)
      ensures confirmed ==> farms == Seqs.Filter(old(farms), (farm: FarmRecord) => farm.id != farmId)
      ensures confirmed ==> forall f :: f in farms <==> f in old(farms) && f.id != farmId
    {
      if confirmed {
        farms := Seqs.Filter(farms, (farm: FarmRecord) => farm.id != farmId);
        forall f
          ensures f in farms <==> f in old(farms) && f.id != farmId
        {
          Seqs.FilterMembers(old(farms), (farm: FarmRecord) => farm.id != farmId, f);
        }
      }
    }
  }
}
