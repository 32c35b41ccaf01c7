/**
 * The mock inventory store (src/services/api/inventoryService.js): a
 * module-level table of items that `create`, `update` and `delete` change in
 * place, and a `getAll` query that filters and sorts a copy of it.
 */
module InventoryService {
  import opened Wrappers
  import opened Strings
  import opened Dates
  import Seqs

  /**
   * An item id. `Math.max()` over an empty table is `-Infinity`, and adding
   * one keeps it so: an item created on an empty table gets that id.
   */
  datatype ItemId = Id(n: int) | NegInfinity

  /** The fields a form submits; `unitPrice` is in cents. */
  datatype ItemData = ItemData(
    name: string,
    brand: string,
    category: string,
    quantity: int,
    unitOfMeasure: string,
    unitPrice: int,
    purchaseDate: Civil,
    supplier: string,
    location: string,
    description: string)

  datatype Item = Item(id: ItemId, data: ItemData)

  /** An update object: the fields it carries replace the item's, the others are kept. */
  datatype ItemPatch = ItemPatch(
    name: Option<string>,
    brand: Option<string>,
    category: Option<string>,
    quantity: Option<int>,
    unitOfMeasure: Option<string>,
    unitPrice: Option<int>,
    purchaseDate: Option<Civil>,
    supplier: Option<string>,
    location: Option<string>,
    description: Option<string>)

  /** `{ ...item, ...patch }`: the id is not part of a patch, so it is kept. */
  function Merge(item: Item, p: ItemPatch): (r: Item)
    ensures r.id == item.id
    ensures r.data.name == p.name.GetOr(item.data.name) && r.data.brand == p.brand.GetOr(item.data.brand)
    ensures r.data.category == p.category.GetOr(item.data.category)
    ensures r.data.quantity == p.quantity.GetOr(item.data.quantity)
    ensures r.data.unitOfMeasure == p.unitOfMeasure.GetOr(item.data.unitOfMeasure)
    ensures r.data.unitPrice == p.unitPrice.GetOr(item.data.unitPrice)
    ensures r.data.purchaseDate == p.purchaseDate.GetOr(item.data.purchaseDate)
    ensures r.data.supplier == p.supplier.GetOr(item.data.supplier)
    ensures r.data.location == p.location.GetOr(item.data.location)
    ensures r.data.description == p.description.GetOr(item.data.description)
  {
    var d := item.data;
    Item(item.id, ItemData(
      p.name.GetOr(d.name), p.brand.GetOr(d.brand), p.category.GetOr(d.category),
      p.quantity.GetOr(d.quantity), p.unitOfMeasure.GetOr(d.unitOfMeasure), p.unitPrice.GetOr(d.unitPrice),
      p.purchaseDate.GetOr(d.purchaseDate), p.supplier.GetOr(d.supplier), p.location.GetOr(d.location),
      p.description.GetOr(d.description)))
  }

  /** A patch that carries every field replaces all of the item's data. */
  lemma FullPatchReplaces(item: Item, d: ItemData)
    ensures Merge(item, ItemPatch(Some(d.name), Some(d.brand), Some(d.category), Some(d.quantity),
      Some(d.unitOfMeasure), Some(d.unitPrice), Some(d.purchaseDate), Some(d.supplier), Some(d.location),
      Some(d.description))) == Item(item.id, d)
  {
  }

  /** `Math.max(...rows.map(item => item.id))`. */
  function MaxId(rows: seq<Item>): (m: ItemId)
    ensures m.Id? <==> exists i :: 0 <= i < |rows| && rows[i].id.Id?
    ensures m.Id? ==> exists i :: 0 <= i < |rows| && rows[i].id == m
    ensures m.Id? ==> forall i :: 0 <= i < |rows| && rows[i].id.Id? ==> rows[i].id.n <= m.n
  {
    if rows == [] then NegInfinity
    else
      var rest := MaxId(rows[1..]);
      assert forall i :: 1 <= i < |rows| ==> rows[i] == rows[1..][i - 1];
      match rows[0].id
      case NegInfinity => rest
      case Id(n) => if rest.Id? && rest.n > n then rest else Id(n)
  }

  /** `max + 1`. */
  function NextId(rows: seq<Item>): ItemId {
    match MaxId(rows)
    case Id(n) => Id(n + 1)
    case NegInfinity => NegInfinity
  }

  /** Once some row has a numeric id, the next id is numeric and held by no row. */
  lemma NextIdFresh(rows: seq<Item>)
    requires exists i :: 0 <= i < |rows| && rows[i].id.Id?
    ensures NextId(rows).Id?
    ensures forall i :: 0 <= i < |rows| ==> rows[i].id != NextId(rows)
  {
  }

  /** On a table without any numeric id the next id is `-Infinity` again. */
  lemma NextIdWithoutNumbers(rows: seq<Item>)
    requires forall i :: 0 <= i < |rows| ==> rows[i].id == NegInfinity
    ensures NextId(rows) == NegInfinity
  {
  }

  /**
   * `findIndex(item => item.id === parseInt(id))`; `key` is the parsed id, `None`
   * for NaN, which equals nothing. -1 when nothing matches.
   */
  function FindIndex(rows: seq<Item>, key: Option<int>): (r: int)
    ensures -1 <= r < |rows|
    ensures r == -1 <==> key.None? || forall i :: 0 <= i < |rows| ==> rows[i].id != Id(key.value)
    ensures r >= 0 ==> key.Some? && rows[r].id == Id(key.value) && forall i :: 0 <= i < r ==> rows[i].id != Id(key.value)
  {
    if key.None? || rows == [] then -1
    else if rows[0].id == Id(key.value) then 0
    else
      var r := FindIndex(rows[1..], key);
      assert forall i :: 1 <= i < |rows| ==> rows[i] == rows[1..][i - 1];
      if r == -1 then -1 else r + 1
  }

  /** The query `getAll` takes; empty strings switch a filter off. */
  datatype Query = Query(
    search: string,
    category: string,
    unit: string,
    dateFrom: Option<Civil>,
    dateTo: Option<Civil>,
    sortBy: string,
    sortOrder: string)

  predicate SearchOk(item: Item, q: Query) {
    IncludesIgnoringCase(item.data.name, q.search) ||
    IncludesIgnoringCase(item.data.brand, q.search) ||
    IncludesIgnoringCase(item.data.category, q.search)
  }

  predicate CategoryOk(item: Item, q: Query) {
    q.category == "" || item.data.category == q.category
  }

  predicate UnitOk(item: Item, q: Query) {
    q.unit == "" || item.data.unitOfMeasure == q.unit
  }

  predicate FromOk(item: Item, q: Query) {
    q.dateFrom.None? || Instant(item.data.purchaseDate) >= Instant(q.dateFrom.value)
  }

  predicate ToOk(item: Item, q: Query) {
    q.dateTo.None? || Instant(item.data.purchaseDate) <= Instant(q.dateTo.value)
  }

  predicate Matches(item: Item, q: Query) {
    SearchOk(item, q) && CategoryOk(item, q) && UnitOk(item, q) && FromOk(item, q) && ToOk(item, q)
  }

  /** A field's value as `a[sortBy]` reads it; a date field compares as its day number. */
  datatype Value = Text(s: string) | Number(n: int) | Undefined

  function FieldValue(item: Item, field: string): Value {
    var d := item.data;
    if field == "name" then Text(d.name)
    else if field == "brand" then Text(d.brand)
    else if field == "category" then Text(d.category)
    else if field == "quantity" then Number(d.quantity)
    else if field == "unitOfMeasure" then Text(d.unitOfMeasure)
    else if field == "unitPrice" then Number(d.unitPrice)
    else if field == "purchaseDate" then Number(DayNumber(d.purchaseDate))
    else if field == "supplier" then Text(d.supplier)
    else if field == "location" then Text(d.location)
    else if field == "description" then Text(d.description)
    else Undefined
  }

  /** JavaScript's `>` on two values of one field. */
  predicate Greater(a: Value, b: Value) {
    match (a, b)
    case (Text(x), Text(y)) => !LexLe(x, y)
    case (Number(x), Number(y)) => x > y
    case _ => false
  }

  /**
   * The comparator returns 1 or -1 and never 0; `a` may stay before `b` when
   * it returns -1: when `a` is not greater ('asc'), or `b` is not greater ('desc').
   */
  predicate MayPrecede(q: Query, a: Item, b: Item) {
    if q.sortOrder == "desc" then !Greater(FieldValue(b, q.sortBy), FieldValue(a, q.sortBy))
    else !Greater(FieldValue(a, q.sortBy), FieldValue(b, q.sortBy))
  }

  function Filtered(rows: seq<Item>, q: Query): seq<Item> {
    var s1 := if q.search != "" then Seqs.Filter(rows, (i: Item) => SearchOk(i, q)) else rows;
    var s2 := if q.category != "" then Seqs.Filter(s1, (i: Item) => CategoryOk(i, q)) else s1;
    var s3 := if q.unit != "" then Seqs.Filter(s2, (i: Item) => UnitOk(i, q)) else s2;
    var s4 := if q.dateFrom.Some? then Seqs.Filter(s3, (i: Item) => FromOk(i, q)) else s3;
    if q.dateTo.Some? then Seqs.Filter(s4, (i: Item) => ToOk(i, q)) else s4
  }

  /** `getAll(q)` on a table. */
  function Select(rows: seq<Item>, q: Query): seq<Item> {
    var filtered := Filtered(rows, q);
    if q.sortBy != "" then Seqs.SortBy(filtered, (a: Item, b: Item) => MayPrecede(q, a, b)) else filtered
  }

  /** The filter chain keeps exactly what all five criteria together keep, in table order. */
  lemma FilteredIsConjunction(rows: seq<Item>, q: Query)
    ensures Filtered(rows, q) == Seqs.Filter(rows, (i: Item) => Matches(i, q))
  {
    var p1 := (i: Item) => SearchOk(i, q);
    var p2 := (i: Item) => CategoryOk(i, q);
    var p3 := (i: Item) => UnitOk(i, q);
    var p4 := (i: Item) => FromOk(i, q);
    var p5 := (i: Item) => ToOk(i, q);
    var q2 := (i: Item) => SearchOk(i, q) && CategoryOk(i, q);
    var q3 := (i: Item) => SearchOk(i, q) && CategoryOk(i, q) && UnitOk(i, q);
    var q4 := (i: Item) => SearchOk(i, q) && CategoryOk(i, q) && UnitOk(i, q) && FromOk(i, q);
    var q5 := (i: Item) => Matches(i, q);
    forall i: Item
      ensures q.search == "" ==> SearchOk(i, q)
    {
      if q.search == "" {
        IncludesEmptyTerm(i.data.name);
      }
    }
    Seqs.FilterWhen(rows, q.search != "", p1);
    Seqs.FilterWhen(Seqs.Filter(rows, p1), q.category != "", p2);
    Seqs.FilterWhen(Seqs.Filter(rows, q2), q.unit != "", p3);
    Seqs.FilterWhen(Seqs.Filter(rows, q3), q.dateFrom.Some?, p4);
    Seqs.FilterWhen(Seqs.Filter(rows, q4), q.dateTo.Some?, p5);
    Seqs.FilterFilter(rows, p1, p2, q2);
    Seqs.FilterFilter(rows, q2, p3, q3);
    Seqs.FilterFilter(rows, q3, p4, q4);
    Seqs.FilterFilter(rows, q4, p5, q5);
  }

  /** For one field every item's value has the same kind, so the comparator orders consistently. */
  lemma MayPrecedePreorder(q: Query)
    ensures Seqs.TotalPreorder((a: Item, b: Item) => MayPrecede(q, a, b))
  {
    forall a: Item, b: Item
      ensures MayPrecede(q, a, b) || MayPrecede(q, b, a)
    {
      if FieldValue(a, q.sortBy).Text? {
        LexLeTotal(FieldValue(a, q.sortBy).s, FieldValue(b, q.sortBy).s);
      }
    }
    forall a: Item, b: Item, c: Item | MayPrecede(q, a, b) && MayPrecede(q, b, c)
      ensures MayPrecede(q, a, c)
    {
      var x, y, z := FieldValue(a, q.sortBy), FieldValue(b, q.sortBy), FieldValue(c, q.sortBy);
      if x.Text? {
        LexLeTotal(x.s, y.s);
        LexLeTotal(y.s, z.s);
        LexLeTotal(x.s, z.s);
        if q.sortOrder == "desc" {
          LexLeTransitive(z.s, y.s, x.s);
        } else {
          LexLeTransitive(x.s, y.s, z.s);
        }
      }
    }
  }

  /**
   * `getAll` returns a permutation of exactly the rows meeting every active
   * criterion; with a sort field it is ordered by that field, ascending unless
   * the order is 'desc', and without one it keeps table order.
   */
  lemma SelectSpec(rows: seq<Item>, q: Query)
    ensures var r := Select(rows, q);
      && multiset(r) == multiset(Seqs.Filter(rows, (i: Item) => Matches(i, q)))
      && (forall x :: x in r <==> x in rows && Matches(x, q))
      && (q.sortBy != "" ==> forall i, j :: 0 <= i < j < |r| ==> MayPrecede(q, r[i], r[j]))
      && (q.sortBy == "" ==> Seqs.IsSubsequence(r, rows))
  {
    FilteredIsConjunction(rows, q);
    var p := (i: Item) => Matches(i, q);
    if q.sortBy != "" {
      MayPrecedePreorder(q);
      Seqs.FilterThenSort(rows, p, (a: Item, b: Item) => MayPrecede(q, a, b));
    } else {
      forall x
        ensures x in Select(rows, q) <==> x in rows && Matches(x, q)
      {
        Seqs.FilterMembers(rows, p, x);
      }
    }
  }

  /** The table `mockInventoryData`, changed in place. */
  class InventoryTable {
    var rows: seq<Item>

    constructor (seed: seq<Item>)
      ensures rows == seed
    {
      rows := seed;
    }

    /** `getAll(q)`: computed on a copy; the table itself is not changed. */
    method GetAll(q: Query) returns (r: seq<Item>)
      ensures r == Select(rows, q)
    {
      var copy := rows;
      r := Select(copy, q);
    }

    /** `getById`: the first row whose id is the parsed id, if any. */
    method GetById(key: Option<int>) returns (r: Option<Item>)
      ensures var i := FindIndex(rows, key);
        if i == -1 then r.None? else r == Some(rows[i])
    {
      var i := FindIndex(rows, key);
      if i == -1 {
        r := None;
      } else {
        r := Some(rows[i]);
      }
    }

    /** `create`: the new item takes the next id and goes last. */
    method Create(data: ItemData) returns (item: Item)
      modifies this
      ensures item == Item(NextId(old(rows)), data)
      ensures rows == old(rows) + [item]
    {
      item := Item(NextId(rows), data);
      rows := rows + [item];
    }

    /** `update`: merges the patch into the first row with the id, or throws when there is none. */
    method Update(key: Option<int>, patch: ItemPatch) returns (r: Result<Item>)
      modifies this
      ensures var i := FindIndex(old(rows), key);
        if i == -1 then rows == old(rows) && r.Failure?
        else rows == old(rows)[i := Merge(old(rows)[i], patch)] && r == Success(rows[i])
    {
      var i := FindIndex(rows, key);
      if i == -1 {
        return Failure("Item not found");
      }
      rows := rows[i := Merge(rows[i], patch)];
      r := Success(rows[i]);
    }

    /** `delete`: splices out the first row with the id and returns it, or throws when there is none. */
    method Delete(key: Option<int>) returns (r: Result<Item>)
      modifies this
      ensures var i := FindIndex(old(rows), key);
        if i == -1 then rows == old(rows) && r.Failure?
        else rows == old(rows)[..i] + old(rows)[i + 1..] && r == Success(old(rows)[i])
    {
      var i := FindIndex(rows, key);
      if i == -1 {
        return Failure("Item not found");
      }
      r := Success(rows[i]);
      rows := rows[..i] + rows[i + 1..];
    }
  }

  /** Creating on a table with a numeric id appends one row with a fresh id and leaves the others as they were. */
  lemma CreateFresh(rows: seq<Item>, data: ItemData)
    requires exists i :: 0 <= i < |rows| && rows[i].id.Id?
    ensures var item := Item(NextId(rows), data);
      var r := rows + [item];
      && |r| == |rows| + 1 && r[..|rows|] == rows && r[|rows|] == item
      && forall i :: 0 <= i < |rows| ==> rows[i].id != item.id
  {
    NextIdFresh(rows);
  }

  /** Deleting keeps every other row, in order, and removes one occurrence of the deleted one. */
  lemma DeleteOne(rows: seq<Item>, key: Option<int>)
    requires FindIndex(rows, key) != -1
    ensures var i := FindIndex(rows, key);
      var r := rows[..i] + rows[i + 1..];
      && |r| == |rows| - 1
      && multiset(r) + multiset{rows[i]} == multiset(rows)
      && Seqs.IsSubsequence(r, rows)
  {
    var i := FindIndex(rows, key);
    assert rows == rows[..i] + [rows[i]] + rows[i + 1..];
    Seqs.SubsequenceSkip(rows, i);
  }
}
