/**
 * The inventory page (src/components/Inventory.jsx): the column-header sort
 * toggle, the filter reset and the category and unit option lists.
 */
module InventoryPage {
  import opened Wrappers
  import opened Strings
  import Seqs
  import opened InventoryService

  /** The query the page opens with and `clearFilters` restores. */
  const DefaultQuery := Query("", "", "", None, None, "name", "asc")

  /** `handleSort(field)`: the same field while ascending turns descending; anything else sorts ascending by `field`. */
  function HandleSort(q: Query, field: string): (r: Query)
    ensures r.sortBy == field
    ensures q.sortBy == field && q.sortOrder == "asc" ==> r.sortOrder == "desc"
    ensures !(q.sortBy == field && q.sortOrder == "asc") ==> r.sortOrder == "asc"
    ensures r.search == q.search && r.category == q.category && r.unit == q.unit
    ensures r.dateFrom == q.dateFrom && r.dateTo == q.dateTo
  {
    q.(sortBy := field, sortOrder := if q.sortBy == field && q.sortOrder == "asc" then "desc" else "asc")
  }

  /** Clicking the same header again always flips between ascending and descending. */
  lemma HandleSortToggles(q: Query, field: string)
    ensures var once := HandleSort(q, field);
      var twice := HandleSort(once, field);
      && once.sortOrder in {"asc", "desc"}
      && twice.sortOrder in {"asc", "desc"}
      && twice.sortOrder != once.sortOrder
      && HandleSort(twice, field) == once
  {
  }

  /** `clearFilters`: all seven filter fields back to their defaults, whatever they were. */
  function ClearFilters(q: Query): (r: Query)
    ensures r.search == "" && r.category == "" && r.unit == ""
    ensures r.dateFrom.None? && r.dateTo.None?
    ensures r.sortBy == "name" && r.sortOrder == "asc"
  {
    DefaultQuery
  }

  /** With the filters cleared the page lists every item, by name ascending. */
  lemma ClearedListsEverything(rows: seq<Item>, q: Query)
    ensures var r := Select(rows, ClearFilters(q));
      && multiset(r) == multiset(rows)
      && forall i, j :: 0 <= i < j < |r| ==> LexLe(r[i].data.name, r[j].data.name)
  {
    var c := ClearFilters(q);
    SelectSpec(rows, c);
    forall x: Item
      ensures Matches(x, c)
    {
      IncludesEmptyTerm(x.data.name);
    }
    Seqs.FilterAll(rows, (i: Item) => Matches(i, c));
    var r := Select(rows, c);
    forall i, j | 0 <= i < j < |r|
      ensures LexLe(r[i].data.name, r[j].data.name)
    {
      assert MayPrecede(c, r[i], r[j]);
      LexLeTotal(r[i].data.name, r[j].data.name);
    }
  }

  function CategoryOf(item: Item): string {
    item.data.category
  }

  function UnitOf(item: Item): string {
    item.data.unitOfMeasure
  }

  /** The category options: each category present once, in `LexLe` order. */
  function Categories(inventory: seq<Item>): (r: seq<string>)
    ensures Seqs.NoDuplicates(r)
    ensures forall c :: c in r <==> exists i :: 0 <= i < |inventory| && inventory[i].data.category == c
    ensures forall i, j :: 0 <= i < j < |r| ==> LexLe(r[i], r[j])
  {
    var values := Seqs.Map(inventory, CategoryOf);
    assert forall c :: c in values <==> exists i :: 0 <= i < |inventory| && inventory[i].data.category == c by {
      forall c | c in values
        ensures exists i :: 0 <= i < |inventory| && inventory[i].data.category == c
      {
        var i :| 0 <= i < |values| && values[i] == c;
      }
    }
    SortedDistinct(values)
  }

  /** The unit options: each unit present once, in `LexLe` order. */
  function Units(inventory: seq<Item>): (r: seq<string>)
    ensures Seqs.NoDuplicates(r)
    ensures forall u :: u in r <==> exists i :: 0 <= i < |inventory| && inventory[i].data.unitOfMeasure == u
    ensures forall i, j :: 0 <= i < j < |r| ==> LexLe(r[i], r[j])
  {
    var values := Seqs.Map(inventory, UnitOf);
    assert forall u :: u in values <==> exists i :: 0 <= i < |inventory| && inventory[i].data.unitOfMeasure == u by {
      forall u | u in values
        ensures exists i :: 0 <= i < |inventory| && inventory[i].data.unitOfMeasure == u
      {
        var i :| 0 <= i < |values| && values[i] == u;
      }
    }
    SortedDistinct(values)
  }
}
