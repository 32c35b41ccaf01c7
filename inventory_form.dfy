/**
 * The inventory item form (src/components/InventoryForm.jsx): the field
 * state, `validateForm`, the submitted record and the custom-unit handling.
 * Every form field holds text; what `parseFloat` and `new Date` make of the
 * quantity, price and date texts is passed in (`None` for NaN).
 */
module InventoryForm {
  import opened Wrappers
  import opened Strings
  import opened Dates

  /** The `units` list the unit selector offers; any other unit is shown as 'custom'. */
  const Units: seq<string> := ["each", "box", "bag", "packet", "bottle", "roll", "pack", "feet",
    "kg", "liter", "gallon", "pound", "ounce", "ton", "yard"]

  datatype FormData = FormData(
    name: string,
    brand: string,
    category: string,
    quantity: string,
    unitOfMeasure: string,
    unitPrice: string,
    purchaseDate: string,
    supplier: string,
    location: string,
    description: string)

  /** The form's fields, as `handleChange` names them. */
  datatype Field = Name | Brand | Category | Quantity | UnitOfMeasure | UnitPrice | PurchaseDate | Supplier | Location | Description

  /** The keys of the error record: each field's own name, and 'customUnit'. */
  datatype ErrorKey = NameKey | BrandKey | CategoryKey | QuantityKey | UnitOfMeasureKey | UnitPriceKey
    | PurchaseDateKey | SupplierKey | LocationKey | DescriptionKey | CustomUnitKey

  /** The key a field's message is stored under. */
  function KeyOf(f: Field): (k: ErrorKey)
    ensures k != CustomUnitKey
  {
    match f
    case Name => NameKey
    case Brand => BrandKey
    case Category => CategoryKey
    case Quantity => QuantityKey
    case UnitOfMeasure => UnitOfMeasureKey
    case UnitPrice => UnitPriceKey
    case PurchaseDate => PurchaseDateKey
    case Supplier => SupplierKey
    case Location => LocationKey
    case Description => DescriptionKey
  }

  function SetField(d: FormData, f: Field, v: string): (r: FormData)
    ensures FieldOf(r, f) == v
    ensures forall g :: g != f ==> FieldOf(r, g) == FieldOf(d, g)
  {
    match f
    case Name => d.(name := v)
    case Brand => d.(brand := v)
    case Category => d.(category := v)
    case Quantity => d.(quantity := v)
    case UnitOfMeasure => d.(unitOfMeasure := v)
    case UnitPrice => d.(unitPrice := v)
    case PurchaseDate => d.(purchaseDate := v)
    case Supplier => d.(supplier := v)
    case Location => d.(location := v)
    case Description => d.(description := v)
  }

  function FieldOf(d: FormData, f: Field): string {
    match f
    case Name => d.name
    case Brand => d.brand
    case Category => d.category
    case Quantity => d.quantity
    case UnitOfMeasure => d.unitOfMeasure
    case UnitPrice => d.unitPrice
    case PurchaseDate => d.purchaseDate
    case Supplier => d.supplier
    case Location => d.location
    case Description => d.description
  }

  /** A stored item as the form receives it for editing, its numbers already turned into text. */
  datatype EditingItem = EditingItem(
    id: int,
    name: string,
    brand: string,
    category: string,
    quantity: string,
    unitOfMeasure: string,
    unitPrice: string,
    purchaseDate: string,
    supplier: string,
    location: string,
    description: string)

  /** The record `handleSubmit` passes on. */
  datatype Submitted = Submitted(
    name: string,
    brand: string,
    category: string,
    quantity: Option<real>,
    unitOfMeasure: string,
    unitPrice: Option<real>,
    purchaseDate: string,
    supplier: string,
    location: string,
    description: string)

  /** The unit submitted: the custom text when 'custom' is selected, the chosen unit otherwise. */
  function SubmittedUnit(form: FormData, customUnit: string): (u: string)
    ensures form.unitOfMeasure == "custom" ==> u == customUnit
    ensures form.unitOfMeasure != "custom" ==> u == form.unitOfMeasure
  {
    if form.unitOfMeasure == "custom" then customUnit else form.unitOfMeasure
  }

  /** `submitData`: the form, with the parsed numbers and the resolved unit. */
  function SubmitData(form: FormData, customUnit: string, quantity: Option<real>, unitPrice: Option<real>): (s: Submitted)
    ensures s.unitOfMeasure == SubmittedUnit(form, customUnit)
    ensures s.quantity == quantity && s.unitPrice == unitPrice
    ensures s.name == form.name && s.brand == form.brand && s.category == form.category
    ensures s.purchaseDate == form.purchaseDate && s.supplier == form.supplier
    ensures s.location == form.location && s.description == form.description
  {
    Submitted(form.name, form.brand, form.category, quantity, SubmittedUnit(form, customUnit), unitPrice,
      form.purchaseDate, form.supplier, form.location, form.description)
  }

  /** A number box is rejected when empty or when its value is not above 0; NaN compares false and passes. */
  predicate NumberRejected(text: string, value: Option<real>) {
    text == "" || (value.Some? && value.value <= 0.0)
  }

  /**
   * The date is rejected when empty or when its instant is after the current
   * one; an unparsable date (`None`, NaN) compares false and passes.
   */
  predicate DateRejected(text: string, instant: Option<int>, now: int) {
    text == "" || (instant.Some? && instant.value > now)
  }

  /**
   * What `parseFloat` makes of the quantity and price texts (`None` for NaN),
   * the purchase date's instant (`None` for an invalid date) and the current instant.
   */
  datatype Parsed = Parsed(quantity: Option<real>, unitPrice: Option<real>, purchase: Option<int>, now: int)

  /** Which of the four rule groups checks a key; the description has no rule. */
  function Group(k: ErrorKey): int {
    match k
    case NameKey => 0
    case BrandKey => 0
    case CategoryKey => 0
    case QuantityKey => 1
    case UnitOfMeasureKey => 1
    case CustomUnitKey => 1
    case UnitPriceKey => 2
    case PurchaseDateKey => 2
    case SupplierKey => 3
    case LocationKey => 3
    case DescriptionKey => 4
  }

  /** The validation rule for each key: when the form gets a message under it. */
  predicate Fails(k: ErrorKey, form: FormData, customUnit: string, p: Parsed) {
    match k
    case NameKey => IsBlank(form.name)
    case BrandKey => IsBlank(form.brand)
    case CategoryKey => form.category == ""
    case QuantityKey => NumberRejected(form.quantity, p.quantity)
    case UnitOfMeasureKey => form.unitOfMeasure == ""
    case UnitPriceKey => NumberRejected(form.unitPrice, p.unitPrice)
    case PurchaseDateKey => DateRejected(form.purchaseDate, p.purchase, p.now)
    case SupplierKey => IsBlank(form.supplier)
    case LocationKey => IsBlank(form.location)
    case DescriptionKey => false
    case CustomUnitKey => form.unitOfMeasure == "custom" && IsBlank(customUnit)
  }

  /** The message shown under a key whose rule fails. */
  function Message(k: ErrorKey, form: FormData): string {
    match k
    case NameKey => "Item name is required"
    case BrandKey => "Brand is required"
    case CategoryKey => "Category is required"
    case QuantityKey => "Quantity must be greater than 0"
    case UnitOfMeasureKey => "Unit of measure is required"
    case UnitPriceKey => "Unit price must be greater than 0"
    case PurchaseDateKey =>
      if form.purchaseDate == "" then "Purchase date is required" else "Purchase date cannot be in the future"
    case SupplierKey => "Supplier is required"
    case LocationKey => "Location is required"
    case DescriptionKey => ""
    case CustomUnitKey => "Custom unit is required"
  }

  /** The form's state. */
  class FormState {
    var form: FormData
    var errors: map<ErrorKey, string>
    var showCustomUnit: bool
    var customUnit: string

    constructor ()
      ensures form == FormData("", "", "", "", "", "", "", "", "", "") && errors == map[]
      ensures !showCustomUnit && customUnit == ""
    {
      form := FormData("", "", "", "", "", "", "", "", "", "");
      errors := map[];
      showCustomUnit := false;
      customUnit := "";
    }

    /**
     * The opening effect. A new item gets an empty form dated `todayText`. An
     * edited item fills the form; a unit outside `Units` becomes 'custom' with
     * that unit as the custom text, while a listed unit leaves the custom-unit
     * state as it was.
     */
    method Open(editing: Option<EditingItem>, todayText: string)
      modifies this
      ensures errors == map[]
      ensures editing.None? ==>
        form == FormData("", "", "", "", "", "", todayText, "", "", "") && !showCustomUnit && customUnit == ""
      ensures editing.Some? ==>
        var e := editing.value;
        var custom := e.unitOfMeasure != "" && e.unitOfMeasure !in Units;
        && form == FormData(e.name, e.brand, e.category, e.quantity, if custom then "custom" else e.unitOfMeasure,
             e.unitPrice, e.purchaseDate, e.supplier, e.location, e.description)
        && (custom ==> showCustomUnit && customUnit == e.unitOfMeasure)
        && (!custom ==> showCustomUnit == old(showCustomUnit) && customUnit == old(customUnit))
    {
      if editing.Some? {
        var e := editing.value;
        form := FormData(e.name, e.brand, e.category, e.quantity, e.unitOfMeasure,
          e.unitPrice, e.purchaseDate, e.supplier, e.location, e.description);
        if e.unitOfMeasure != "" && e.unitOfMeasure !in Units {
          showCustomUnit := true;
          customUnit := e.unitOfMeasure;
          form := form.(unitOfMeasure := "custom");
        }
      } else {
        form := FormData("", "", "", "", "", "", todayText, "", "", "");
        showCustomUnit := false;
        customUnit := "";
      }
      errors := map[];
    }

    /**
     * `validateForm`: records exactly the failed rules, each with its message,
     * and reports whether none was recorded. The rules run in four groups,
     * in the order the form lists them.
     */
    method ValidateForm(p: Parsed) returns (valid: bool)
      modifies this`errors
      ensures forall k :: k in errors <==> Fails(k, form, customUnit, p)
      ensures forall k :: k in errors ==> errors[k] == Message(k, form)
      ensures valid <==> errors == map[]
      ensures valid <==> forall k :: !Fails(k, form, customUnit, p)
    {
      var e: map<ErrorKey, string> := map[];
      e := CheckIdentity(e, p);
      e := CheckAmount(e, p);
      e := CheckPurchase(e, p);
      e := CheckPlace(e, p);
      errors := e;
      valid := e == map[];
    }

    /** The name, brand and category rules, added to `e`. */
    method CheckIdentity(e: map<ErrorKey, string>, p: Parsed) returns (r: map<ErrorKey, string>)
      ensures forall k :: k in r <==> k in e || (Group(k) == 0 && Fails(k, form, customUnit, p))
      ensures forall k :: k in r ==> r[k] == if Group(k) == 0 && Fails(k, form, customUnit, p) then Message(k, form) else e[k]
    {
      r := e;
      if IsBlank(form.name) { r := r[NameKey := "Item name is required"]; }
      if IsBlank(form.brand) { r := r[BrandKey := "Brand is required"]; }
      if form.category == "" { r := r[CategoryKey := "Category is required"]; }
    }

    /** The quantity, unit and custom-unit rules, added to `e`. */
    method CheckAmount(e: map<ErrorKey, string>, p: Parsed) returns (r: map<ErrorKey, string>)
      ensures forall k :: k in r <==> k in e || (Group(k) == 1 && Fails(k, form, customUnit, p))
      ensures forall k :: k in r ==> r[k] == if Group(k) == 1 && Fails(k, form, customUnit, p) then Message(k, form) else e[k]
    {
      r := e;
      if NumberRejected(form.quantity, p.quantity) { r := r[QuantityKey := "Quantity must be greater than 0"]; }
      if form.unitOfMeasure == "" { r := r[UnitOfMeasureKey := "Unit of measure is required"]; }
      if form.unitOfMeasure == "custom" && IsBlank(customUnit) { r := r[CustomUnitKey := "Custom unit is required"]; }
    }

    /** The price rule and the two date rules, added to `e`. */
    method CheckPurchase(e: map<ErrorKey, string>, p: Parsed) returns (r: map<ErrorKey, string>)
      ensures forall k :: k in r <==> k in e || (Group(k) == 2 && Fails(k, form, customUnit, p))
      ensures forall k :: k in r ==> r[k] == if Group(k) == 2 && Fails(k, form, customUnit, p) then Message(k, form) else e[k]
    {
      r := e;
      if NumberRejected(form.unitPrice, p.unitPrice) { r := r[UnitPriceKey := "Unit price must be greater than 0"]; }
      if form.purchaseDate == "" {
        r := r[PurchaseDateKey := "Purchase date is required"];
      } else if p.purchase.Some? && p.purchase.value > p.now {
        r := r[PurchaseDateKey := "Purchase date cannot be in the future"];
      }
    }

    /** The supplier and location rules, added to `e`. */
    method CheckPlace(e: map<ErrorKey, string>, p: Parsed) returns (r: map<ErrorKey, string>)
      ensures forall k :: k in r <==> k in e || (Group(k) == 3 && Fails(k, form, customUnit, p))
      ensures forall k :: k in r ==> r[k] == if Group(k) == 3 && Fails(k, form, customUnit, p) then Message(k, form) else e[k]
    {
      r := e;
      if IsBlank(form.supplier) { r := r[SupplierKey := "Supplier is required"]; }
      if IsBlank(form.location) { r := r[LocationKey := "Location is required"]; }
    }

    /**
     * `handleChange(field, value)`: stores the value and blanks that field's
     * message if one is shown; choosing a unit other than 'custom' clears the
     * custom text, and the custom box shows exactly when 'custom' is chosen.
     */
    method HandleChange(field: Field, value: string)
      modifies this
      ensures form == SetField(old(form), field, value)
      ensures var k := KeyOf(field);
        errors == if k in old(errors) && old(errors)[k] != "" then old(errors)[k := ""] else old(errors)
      ensures field == UnitOfMeasure ==> showCustomUnit == (value == "custom")
      ensures field == UnitOfMeasure && value != "custom" ==> customUnit == ""
      ensures !(field == UnitOfMeasure && value != "custom") ==> customUnit == old(customUnit)
      ensures field != UnitOfMeasure ==> showCustomUnit == old(showCustomUnit)
    {
      form := SetField(form, field, value);
      var k := KeyOf(field);
      if k in errors && errors[k] != "" {
        errors := errors[k := ""];
      }
      if field == UnitOfMeasure {
        showCustomUnit := value == "custom";
        if value != "custom" {
          customUnit := "";
        }
      }
    }

    /**
     * Typing into the custom-unit box, `setCustomUnit(e.target.value)`. The box
     * is rendered only while `showCustomUnit` holds, and typing there does not
     * touch the shown errors.
     */
    method SetCustomUnit(value: string)
      requires showCustomUnit
      modifies this`customUnit
      ensures customUnit == value
    {
      customUnit := value;
    }

    /** `handleSubmit`: sends the submitted record only when the form validates. */
    method Submit(p: Parsed) returns (sent: Option<Submitted>)
      modifies this`errors
      ensures forall k :: k in errors <==> Fails(k, form, customUnit, p)
      ensures sent.Some? <==> errors == map[]
      ensures sent.Some? ==> sent.value == SubmitData(form, customUnit, p.quantity, p.unitPrice)
    {
      var valid := ValidateForm(p);
      if !valid {
        return None;
      }
      sent := Some(SubmitData(form, customUnit, p.quantity, p.unitPrice));
    }
  }

  /** The form as opening it on `e` fills it, and the custom text it sets when the unit is not listed. */
  function EditForm(e: EditingItem): FormData {
    var custom := e.unitOfMeasure != "" && e.unitOfMeasure !in Units;
    FormData(e.name, e.brand, e.category, e.quantity, if custom then "custom" else e.unitOfMeasure,
      e.unitPrice, e.purchaseDate, e.supplier, e.location, e.description)
  }

  /**
   * Editing and resubmitting keeps the unit: a listed (or empty) unit is
   * selected directly, and any other unit comes back through the custom text.
   */
  lemma EditUnitRoundTrip(e: EditingItem, previousCustom: string)
    ensures var custom := e.unitOfMeasure != "" && e.unitOfMeasure !in Units;
      SubmittedUnit(EditForm(e), if custom then e.unitOfMeasure else previousCustom) == e.unitOfMeasure
  {
    assert "custom" !in Units;
  }

  /** With 'custom' chosen, the custom-unit rule fails exactly on blank text, and non-blank text is the unit sent. */
  lemma CustomUnitRule(form: FormData, customUnit: string, p: Parsed)
    requires form.unitOfMeasure == "custom"
    ensures Fails(CustomUnitKey, form, customUnit, p) <==> IsBlank(customUnit)
    ensures SubmitData(form, customUnit, p.quantity, p.unitPrice).unitOfMeasure == customUnit
  {
  }

  /** A purchase dated today passes the future-date rule, one dated tomorrow or later fails it. */
  lemma PurchaseDateRule(text: string, date: Civil, now: int, today: Civil)
    requires text != ""
    requires DayNumber(today) == now / MsPerDay
    ensures DateRejected(text, Some(Instant(date)), now) <==> DayNumber(date) > DayNumber(today)
  {
    var q, r := now / MsPerDay, now % MsPerDay;
    assert now == q * MsPerDay + r && 0 <= r < MsPerDay;
  }
}
