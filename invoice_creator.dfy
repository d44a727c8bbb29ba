/**
 * The invoice creation form: its submission rules, the line-item editor with
 * its always-current totals, and the pending invoice record built on submit.
 */
module InvoiceCreator {
  import opened InvoiceData
  import opened Totals

  // ---------------------------------------------------------------------------
  // Form values and submission rules
  // ---------------------------------------------------------------------------

  /** Everything the form holds; an absent e-mail or address is the empty string. */
  datatype FormValues = FormValues(
    invoiceNumber: string,
    date: string,
    dueDate: string,
    clientName: string,
    clientEmail: string,
    clientAddress: string,
    items: seq<LineItem>,
    subtotal: real,
    taxRate: real,
    tax: real,
    total: real)

  /** The rule a line item can break. */
  datatype ItemRule = DescriptionRequired | QuantityTooSmall | NegativeUnitPrice

  /** One rejection reason of the schema; item issues carry the item's index. */
  datatype FormError =
    | InvoiceNumberRequired
    | DateRequired
    | DueDateRequired
    | ClientNameRequired
    | InvalidEmail
    | ItemIssue(index: nat, rule: ItemRule)
    | NoItems
    | NegativeTaxRate
    | TaxRateTooHigh

  /** The smallest quantity the schema admits. */
  const MinQuantity: real := 0.01

  predicate Breaks(item: LineItem, rule: ItemRule)
  {
    match rule
    case DescriptionRequired => |item.description| < 1
    case QuantityTooSmall => item.quantity < MinQuantity
    case NegativeUnitPrice => item.unitPrice < 0.0
  }

  /** An item the schema accepts. */
  predicate ValidItem(item: LineItem)
  {
    |item.description| >= 1 && item.quantity >= MinQuantity && item.unitPrice >= 0.0
  }

  /**
   * A form the schema accepts. `isEmail` stands for the schema library's
   * e-mail syntax check, applied only to a non-empty e-mail.
   */
  predicate ValidForm(f: FormValues, isEmail: string -> bool)
  {
    && |f.invoiceNumber| >= 1
    && |f.date| >= 1
    && |f.dueDate| >= 1
    && |f.clientName| >= 1
    && (f.clientEmail == "" || isEmail(f.clientEmail))
    && |f.items| >= 1
    && (forall k :: 0 <= k < |f.items| ==> ValidItem(f.items[k]))
    && 0.0 <= f.taxRate <= 100.0
  }

  /** The issues of one row, the row at `index`, in rule order. */
  function RowErrors(item: LineItem, index: nat): seq<FormError>
  {
    (if Breaks(item, DescriptionRequired) then [ItemIssue(index, DescriptionRequired)] else [])
    + (if Breaks(item, QuantityTooSmall) then [ItemIssue(index, QuantityTooSmall)] else [])
    + (if Breaks(item, NegativeUnitPrice) then [ItemIssue(index, NegativeUnitPrice)] else [])
  }

  /** The issues of `items`, which start at index `from` of the form's list, in order. */
  function ItemErrors(items: seq<LineItem>, from: nat): seq<FormError>
    decreases |items|
  {
    if items == [] then [] else RowErrors(items[0], from) + ItemErrors(items[1..], from + 1)
  }

  /** Every rejection reason of the form, in the order of the schema's fields. */
  function ValidationErrors(f: FormValues, isEmail: string -> bool): seq<FormError>
  {
    (if |f.invoiceNumber| < 1 then [InvoiceNumberRequired] else [])
    + (if |f.date| < 1 then [DateRequired] else [])
    + (if |f.dueDate| < 1 then [DueDateRequired] else [])
    + (if |f.clientName| < 1 then [ClientNameRequired] else [])
    + (if f.clientEmail != "" && !isEmail(f.clientEmail) then [InvalidEmail] else [])
    + ItemErrors(f.items, 0)
    + (if |f.items| < 1 then [NoItems] else [])
    + (if f.taxRate < 0.0 then [NegativeTaxRate] else [])
    + (if f.taxRate > 100.0 then [TaxRateTooHigh] else [])
  }

  /** A row reports exactly the rules its item breaks, against its own index. */
  lemma RowErrorsMember(item: LineItem, index: nat, e: FormError)
    ensures e in RowErrors(item, index) <==> e.ItemIssue? && e.index == index && Breaks(item, e.rule)
  {
  }

  /** A reported issue names an item of the list and a rule that item breaks. */
  lemma {:induction false} ItemIssueSound(items: seq<LineItem>, from: nat, e: FormError)
    requires e in ItemErrors(items, from)
    ensures e.ItemIssue? && from <= e.index < from + |items| && Breaks(items[e.index - from], e.rule)
    decreases |items|
  {
    if items != [] {
      var rest := items[1..];
      if e in RowErrors(items[0], from) {
        RowErrorsMember(items[0], from, e);
      } else {
        assert e in ItemErrors(rest, from + 1) by {
          assert ItemErrors(items, from) == RowErrors(items[0], from) + ItemErrors(rest, from + 1);
        }
        ItemIssueSound(rest, from + 1, e);
        assert rest[e.index - (from + 1)] == items[e.index - from];
      }
    }
  }

  /** Every item issue names an item of the list and one of its rules. */
  lemma ItemErrorsInRange(items: seq<LineItem>, from: nat)
    ensures forall e :: e in ItemErrors(items, from) ==>
      e.ItemIssue? && from <= e.index < from + |items| && Breaks(items[e.index - from], e.rule)
  {
    forall e | e in ItemErrors(items, from)
      ensures e.ItemIssue? && from <= e.index < from + |items| && Breaks(items[e.index - from], e.rule)
    {
      ItemIssueSound(items, from, e);
    }
  }

  /** Every rule an item breaks is reported against that item. */
  lemma {:induction false} ItemErrorsComplete(items: seq<LineItem>, from: nat, k: nat, rule: ItemRule)
    requires k < |items| && Breaks(items[k], rule)
    ensures ItemIssue(from + k, rule) in ItemErrors(items, from)
    decreases |items|
  {
    var rest := items[1..];
    var e := ItemIssue(from + k, rule);
    if k == 0 {
      assert e in RowErrors(items[0], from) by {
        RowErrorsMember(items[0], from, e);
      }
    } else {
      assert e in ItemErrors(rest, from + 1) by {
        assert rest[k - 1] == items[k];
        ItemErrorsComplete(rest, from + 1, k - 1, rule);
      }
    }
    assert ItemErrors(items, from) == RowErrors(items[0], from) + ItemErrors(rest, from + 1);
  }


  /** An item issue is reported exactly when that item breaks that rule. */
  lemma ItemErrorsExact(items: seq<LineItem>, from: nat, k: nat, rule: ItemRule)
    requires k < |items|
    ensures ItemIssue(from + k, rule) in ItemErrors(items, from) <==> Breaks(items[k], rule)
  {
    ItemErrorsInRange(items, from);
    if Breaks(items[k], rule) {
      ItemErrorsComplete(items, from, k, rule);
    }
  }

  /** The items report no issue exactly when every item is valid. */
  lemma {:induction false} ItemErrorsEmpty(items: seq<LineItem>, from: nat)
    ensures ItemErrors(items, from) == [] <==> forall k :: 0 <= k < |items| ==> ValidItem(items[k])
    decreases |items|
  {
    if items != [] {
      ItemErrorsEmpty(items[1..], from + 1);
      assert forall k :: 0 <= k < |items[1..]| ==> items[1..][k] == items[k + 1];
    }
  }

  /** The schema rejects nothing exactly when the form is valid. */
  lemma ValidationErrorsEmptyIff(f: FormValues, isEmail: string -> bool)
    ensures ValidationErrors(f, isEmail) == [] <==> ValidForm(f, isEmail)
  {
    ItemErrorsEmpty(f.items, 0);
  }

  // ---------------------------------------------------------------------------
  // Submission
  // ---------------------------------------------------------------------------

  /** The outcome of submitting the form. */
  datatype Submission = Created(invoice: Invoice) | Rejected(errors: seq<FormError>)

  /** The record a valid form turns into; `id` is supplied by the caller. */
  function BuildInvoice(f: FormValues, id: string): Invoice
  {
    Invoice(id, f.invoiceNumber, f.date, f.dueDate, f.clientName, Some(f.clientAddress),
            f.items, f.subtotal, f.tax, f.total, Pending, "invoice-" + f.invoiceNumber + ".pdf")
  }

  /** Totals that are current for the items and no stale amount. */
  predicate Derived(f: FormValues)
  {
    && AllAmountsConsistent(f.items)
    && Summary(f.subtotal, f.tax, f.total) == Summarize(f.items, f.taxRate)
  }

  /**
   * A valid form with current totals yields a pending invoice named after its
   * number whose items and totals agree and are not negative.
   */
  lemma SubmittedInvoiceWellFormed(f: FormValues, id: string, isEmail: string -> bool)
    requires Derived(f) && ValidForm(f, isEmail)
    ensures var inv := BuildInvoice(f, id);
      && inv.status == Pending
      && inv.fileName == "invoice-" + f.invoiceNumber + ".pdf"
      && inv.items == f.items
      && WellFormed(inv)
      && inv.tax == Tax(inv.subtotal, f.taxRate)
      && 0.0 <= inv.subtotal <= inv.total
  {
    forall k | 0 <= k < |f.items| ensures f.items[k].quantity >= 0.0 && f.items[k].unitPrice >= 0.0 {
      assert ValidItem(f.items[k]);
    }
    ConsistentAmountsNonNegative(f.items);
    TotalsBounds(f.items, f.taxRate);
  }

  // ---------------------------------------------------------------------------
  // Line-item edits
  // ---------------------------------------------------------------------------

  /** The item a new row starts with. */
  function DefaultItem(): LineItem
  {
    LineItem("", 1.0, 0.0, 0.0)
  }

  /** The list after adding a row: a default item at the end. */
  function WithNewItem(items: seq<LineItem>): (r: seq<LineItem>)
    ensures |r| == |items| + 1 && r[..|items|] == items && r[|items|] == DefaultItem()
  {
    items + [DefaultItem()]
  }

  /** The list after setting quantity and price of row `index`; its amount follows. */
  function WithAmount(items: seq<LineItem>, index: nat, quantity: real, unitPrice: real): (r: seq<LineItem>)
    requires index < |items|
    ensures |r| == |items|
    ensures r[index].description == items[index].description
    ensures r[index].quantity == quantity && r[index].unitPrice == unitPrice
    ensures AmountConsistent(r[index])
    ensures forall k :: 0 <= k < |r| && k != index ==> r[k] == items[k]
  {
    items[index := items[index].(quantity := quantity, unitPrice := unitPrice, amount := LineAmount(quantity, unitPrice))]
  }

  /** The list after editing the description of row `index`. */
  function WithDescription(items: seq<LineItem>, index: nat, text: string): (r: seq<LineItem>)
    requires index < |items|
    ensures |r| == |items|
    ensures r[index].description == text
    ensures r[index].quantity == items[index].quantity && r[index].unitPrice == items[index].unitPrice
    ensures r[index].amount == items[index].amount
    ensures forall k :: 0 <= k < |r| && k != index ==> r[k] == items[k]
  {
    items[index := items[index].(description := text)]
  }

  /** Whether removing a row is refused: the last remaining row is kept. */
  predicate RemovalRefused(items: seq<LineItem>)
  {
    |items| <= 1
  }

  /**
   * The list after removing row `index`. A refused removal, or an index past the
   * end (where removing one element changes nothing), leaves the list as it was.
   */
  function WithoutItem(items: seq<LineItem>, index: nat): (r: seq<LineItem>)
    ensures !RemovalRefused(items) && index < |items| ==>
      |r| == |items| - 1 && forall k :: 0 <= k < |r| ==> r[k] == (if k < index then items[k] else items[k + 1])
    ensures RemovalRefused(items) || index >= |items| ==> r == items
    ensures |items| >= 1 ==> |r| >= 1
  {
    if !RemovalRefused(items) && index < |items| then items[..index] + items[index + 1..] else items
  }

  /** An edit of the item table. */
  datatype Edit =
    | Add
    | Update(index: nat, quantity: real, unitPrice: real)
    | Describe(index: nat, text: string)
    | Remove(index: nat)

  /** Whether the table has the row an edit names (removal accepts any index). */
  predicate Applicable(items: seq<LineItem>, e: Edit)
  {
    match e
    case Update(i, _, _) => i < |items|
    case Describe(i, _) => i < |items|
    case _ => true
  }

  function Apply(items: seq<LineItem>, e: Edit): seq<LineItem>
    requires Applicable(items, e)
  {
    match e
    case Add => WithNewItem(items)
    case Update(i, q, p) => WithAmount(items, i, q, p)
    case Describe(i, t) => WithDescription(items, i, t)
    case Remove(i) => WithoutItem(items, i)
  }

  /** Whether every edit names a row that exists when it is made. */
  predicate AllApplicable(items: seq<LineItem>, edits: seq<Edit>)
    decreases |edits|
  {
    edits == [] || (Applicable(items, edits[0]) && AllApplicable(Apply(items, edits[0]), edits[1..]))
  }

  function ApplyAll(items: seq<LineItem>, edits: seq<Edit>): seq<LineItem>
    requires AllApplicable(items, edits)
    decreases |edits|
  {
    if edits == [] then items else ApplyAll(Apply(items, edits[0]), edits[1..])
  }

  /** Appending the default row keeps every amount current. */
  lemma NewItemKeepsAmounts(items: seq<LineItem>)
    requires AllAmountsConsistent(items)
    ensures AllAmountsConsistent(WithNewItem(items))
  {
    var r := WithNewItem(items);
    forall k | 0 <= k < |r| ensures AmountConsistent(r[k]) {
      if k < |items| {
        assert r[k] == items[k];
      }
    }
  }

  /** One edit keeps the table non-empty and its amounts current. */
  lemma EditKeepsTableSound(items: seq<LineItem>, e: Edit)
    requires |items| >= 1 && AllAmountsConsistent(items) && Applicable(items, e)
    ensures |Apply(items, e)| >= 1 && AllAmountsConsistent(Apply(items, e))
  {
    var r := Apply(items, e);
    forall k | 0 <= k < |r| ensures AmountConsistent(r[k]) {
      match e
      case Add =>
        NewItemKeepsAmounts(items);
      case Update(i, q, p) =>
        if k != i { assert r[k] == items[k]; }
      case Describe(i, t) =>
        assert AmountConsistent(items[k]);
      case Remove(i) =>
        if !RemovalRefused(items) && i < |items| {
          var j := if k < i then k else k + 1;
          assert r[k] == items[j];
          assert AmountConsistent(items[j]);
        } else {
          assert r[k] == items[k];
        }
    }
  }

  /**
   * Any run of edits keeps the table non-empty with current amounts; in
   * particular starting from the form's single default row.
   */
  lemma {:induction false} EditsKeepTableSound(items: seq<LineItem>, edits: seq<Edit>)
    requires |items| >= 1 && AllAmountsConsistent(items) && AllApplicable(items, edits)
    ensures |ApplyAll(items, edits)| >= 1 && AllAmountsConsistent(ApplyAll(items, edits))
    decreases |edits|
  {
    if edits != [] {
      EditKeepsTableSound(items, edits[0]);
      EditsKeepTableSound(Apply(items, edits[0]), edits[1..]);
    }
  }

  /** The form's single default row has current amounts and all-zero totals at any rate. */
  lemma DefaultTableSound(taxRate: real)
    ensures AllAmountsConsistent([DefaultItem()])
    ensures Subtotal([DefaultItem()]) == 0.0 && Tax(0.0, taxRate) == 0.0
  {
    assert [DefaultItem()][..0] == [];
  }

  /** The form's initial table, one default row at the default rate of 10, sums to zero. */
  lemma DefaultSummary()
    ensures AllAmountsConsistent([DefaultItem()])
    ensures Summarize([DefaultItem()], 10.0) == Summary(0.0, 0.0, 0.0)
  {
    DefaultTableSound(10.0);
  }

  /** A numeric input after the fallback: a value that does not parse becomes 0. */
  function NumberOrZero(parsed: Option<real>): real
  {
    match parsed
    case Some(v) => v
    case None => 0.0
  }

  // ---------------------------------------------------------------------------
  // The form as it is edited
  // ---------------------------------------------------------------------------

  /**
   * The form state: header fields, the item table, the tax rate and the totals
   * that are recomputed with every change of the items or the rate.
   */
  class Editor {
    var invoiceNumber: string
    var date: string
    var dueDate: string
    var clientName: string
    var clientEmail: string
    var clientAddress: string
    var items: seq<LineItem>
    var taxRate: real
    var subtotal: real
    var tax: real
    var total: real

    /** The object invariant: a non-empty table, no stale amount, current totals. */
    predicate Valid()
      reads this
    {
      |items| >= 1 && Derived(Values())
    }

    function Values(): FormValues
      reads this
    {
      FormValues(invoiceNumber, date, dueDate, clientName, clientEmail, clientAddress,
                 items, subtotal, taxRate, tax, total)
    }

    /** The form's defaults; the date-based defaults are passed in. */
    constructor (invoiceNumber: string, date: string, dueDate: string)
      ensures Valid()
      ensures this.invoiceNumber == invoiceNumber && this.date == date && this.dueDate == dueDate
      ensures clientName == "" && clientEmail == "" && clientAddress == ""
      ensures items == [DefaultItem()] && taxRate == 10.0
      ensures subtotal == 0.0 && tax == 0.0 && total == 0.0
    {
      this.invoiceNumber := invoiceNumber;
      this.date := date;
      this.dueDate := dueDate;
      clientName, clientEmail, clientAddress := "", "", "";
      items := [DefaultItem()];
      taxRate := 10.0;
      subtotal, tax, total := 0.0, 0.0, 0.0;
      DefaultSummary();
    }

    /** Brings the three totals up to date with the items and the rate. */
    method RecomputeTotals()
      modifies this`subtotal, this`tax, this`total
      ensures Summary(subtotal, tax, total) == Summarize(items, taxRate)
    {
      var s := Summarize(items, taxRate);
      subtotal, tax, total := s.subtotal, s.tax, s.total;
    }

    /** Edits the header and client fields. */
    method SetDetails(invoiceNumber: string, date: string, dueDate: string,
                      clientName: string, clientEmail: string, clientAddress: string)
      requires Valid()
      modifies this
      ensures Valid()
      ensures Values() == old(Values()).(invoiceNumber := invoiceNumber, date := date, dueDate := dueDate,
        clientName := clientName, clientEmail := clientEmail, clientAddress := clientAddress)
    {
      this.invoiceNumber, this.date, this.dueDate := invoiceNumber, date, dueDate;
      this.clientName, this.clientEmail, this.clientAddress := clientName, clientEmail, clientAddress;
    }

    /** Appends a default row. */
    method AddItem()
      requires Valid()
      modifies this
      ensures Valid()
      ensures items == WithNewItem(old(items))
      ensures Values() == old(Values()).(items := items, subtotal := subtotal, tax := tax, total := total)
    {
      NewItemKeepsAmounts(items);
      items := WithNewItem(items);
      RecomputeTotals();
    }

    /** Sets quantity and price of row `index` and its amount with them. */
    method UpdateItemAmount(index: nat, quantity: real, unitPrice: real)
      requires Valid() && index < |items|
      modifies this
      ensures Valid()
      ensures items == WithAmount(old(items), index, quantity, unitPrice)
      ensures Values() == old(Values()).(items := items, subtotal := subtotal, tax := tax, total := total)
    {
      EditKeepsTableSound(items, Update(index, quantity, unitPrice));
      items := WithAmount(items, index, quantity, unitPrice);
      RecomputeTotals();
    }

    /** The quantity input of row `index`; an input that does not parse counts as 0. */
    method SetQuantity(index: nat, parsed: Option<real>)
      requires Valid() && index < |items|
      modifies this
      ensures Valid()
      ensures items == WithAmount(old(items), index, NumberOrZero(parsed), old(items)[index].unitPrice)
      ensures items[index].quantity == (if parsed.None? then 0.0 else parsed.value)
      ensures Values() == old(Values()).(items := items, subtotal := subtotal, tax := tax, total := total)
    {
      UpdateItemAmount(index, NumberOrZero(parsed), items[index].unitPrice);
    }

    /** The unit-price input of row `index`; an input that does not parse counts as 0. */
    method SetUnitPrice(index: nat, parsed: Option<real>)
      requires Valid() && index < |items|
      modifies this
      ensures Valid()
      ensures items == WithAmount(old(items), index, old(items)[index].quantity, NumberOrZero(parsed))
      ensures items[index].unitPrice == (if parsed.None? then 0.0 else parsed.value)
      ensures Values() == old(Values()).(items := items, subtotal := subtotal, tax := tax, total := total)
    {
      UpdateItemAmount(index, items[index].quantity, NumberOrZero(parsed));
    }

    /** The description input of row `index`. */
    method SetDescription(index: nat, text: string)
      requires Valid() && index < |items|
      modifies this
      ensures Valid()
      ensures items == WithDescription(old(items), index, text)
      ensures Values() == old(Values()).(items := items, subtotal := subtotal, tax := tax, total := total)
      ensures subtotal == old(subtotal) && tax == old(tax) && total == old(total)
    {
      EditKeepsTableSound(items, Describe(index, text));
      SubtotalUpdate(items, index, WithDescription(items, index, text)[index]);
      items := WithDescription(items, index, text);
      RecomputeTotals();
    }

    /** Removes row `index`, unless it is the last row; `refused` reports the refusal notice. */
    method RemoveItem(index: nat) returns (refused: bool)
      requires Valid()
      modifies this
      ensures Valid()
      ensures refused <==> |old(items)| <= 1
      ensures items == WithoutItem(old(items), index)
      ensures refused ==> items == old(items)
      ensures Values() == old(Values()).(items := items, subtotal := subtotal, tax := tax, total := total)
    {
      refused := RemovalRefused(items);
      EditKeepsTableSound(items, Remove(index));
      items := WithoutItem(items, index);
      RecomputeTotals();
    }

    /** The tax-rate input; an input that does not parse counts as 0. */
    method SetTaxRate(parsed: Option<real>)
      requires Valid()
      modifies this
      ensures Valid()
      ensures taxRate == (if parsed.None? then 0.0 else parsed.value)
      ensures Values() == old(Values()).(taxRate := taxRate, subtotal := subtotal, tax := tax, total := total)
    {
      taxRate := NumberOrZero(parsed);
      RecomputeTotals();
    }

    /**
     * Submitting: a valid form becomes a pending invoice with the given id,
     * anything else is rejected with every reason the schema gives.
     */
    method Submit(id: string, isEmail: string -> bool) returns (r: Submission)
      requires Valid()
      ensures r.Created? <==> ValidForm(Values(), isEmail)
      ensures r.Created? ==> r.invoice == BuildInvoice(Values(), id) && r.invoice.status == Pending
      ensures r.Created? ==> WellFormed(r.invoice) && 0.0 <= r.invoice.subtotal <= r.invoice.total
      ensures r.Rejected? ==> r.errors == ValidationErrors(Values(), isEmail) && r.errors != []
    {
      var f := Values();
      ValidationErrorsEmptyIff(f, isEmail);
      var errors := ValidationErrors(f, isEmail);
      if errors == [] {
        SubmittedInvoiceWellFormed(f, id, isEmail);
        r := Created(BuildInvoice(f, id));
      } else {
        r := Rejected(errors);
      }
    }
  }
}
