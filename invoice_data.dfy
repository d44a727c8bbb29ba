/**
 * The invoice record shared by the creator, the uploader and the invoice page:
 * a line item, the three-valued lifecycle status and the invoice record itself.
 */
module InvoiceData {

  datatype Option<+T> = None | Some(value: T)

  /** Lifecycle status of an invoice record. `Verified` is terminal. */
  datatype Status = Pending | Processed | Verified

  /** One billable entry; `amount` is meant to be `quantity * unitPrice`. */
  datatype LineItem = LineItem(description: string, quantity: real, unitPrice: real, amount: real)

  /** An invoice record as the invoice page stores it. */
  datatype Invoice = Invoice(
    id: string,
    invoiceNumber: string,
    date: string,
    dueDate: string,
    clientName: string,
    clientAddress: Option<string>,
    items: seq<LineItem>,
    subtotal: real,
    tax: real,
    total: real,
    status: Status,
    fileName: string)

  /** The amount a quantity and a unit price give. */
  function LineAmount(quantity: real, unitPrice: real): real
  {
    quantity * unitPrice
  }

  /** An item whose stored amount is not stale. */
  predicate AmountConsistent(item: LineItem)
  {
    item.amount == LineAmount(item.quantity, item.unitPrice)
  }

  predicate AllAmountsConsistent(items: seq<LineItem>)
  {
    forall k :: 0 <= k < |items| ==> AmountConsistent(items[k])
  }
}
