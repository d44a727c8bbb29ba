/**
 * The invoice page's list of records: appending a processed record and
 * marking records verified by id, plus the wiring of the uploader into it.
 */
module Invoices {
  import opened InvoiceData
  import InvoiceUploader

  /** One record after verifying `id`: a match becomes verified, anything else stays. */
  function Mark(inv: Invoice, id: string): Invoice
  {
    if inv.id == id then inv.(status := Verified) else inv
  }

  /** The list after verifying `id`, record by record and in order. */
  function MarkVerified(invoices: seq<Invoice>, id: string): seq<Invoice>
  {
    if invoices == [] then [] else [Mark(invoices[0], id)] + MarkVerified(invoices[1..], id)
  }

  /**
   * Verifying keeps length and order; every record with that id becomes
   * verified with nothing else about it changed, and every other record is
   * left as it was.
   */
  lemma {:induction false} MarkVerifiedAt(invoices: seq<Invoice>, id: string, k: nat)
    requires k < |invoices|
    ensures |MarkVerified(invoices, id)| == |invoices|
    ensures invoices[k].id == id ==> MarkVerified(invoices, id)[k] == invoices[k].(status := Verified)
    ensures invoices[k].id != id ==> MarkVerified(invoices, id)[k] == invoices[k]
  {
    if k > 0 {
      MarkVerifiedAt(invoices[1..], id, k - 1);
    } else {
      MarkVerifiedLength(invoices[1..], id);
    }
  }

  lemma {:induction false} MarkVerifiedLength(invoices: seq<Invoice>, id: string)
    ensures |MarkVerified(invoices, id)| == |invoices|
  {
    if invoices != [] {
      MarkVerifiedLength(invoices[1..], id);
    }
  }

  /** An id no record carries leaves the list identical. */
  lemma {:induction false} MarkVerifiedAbsent(invoices: seq<Invoice>, id: string)
    requires forall k :: 0 <= k < |invoices| ==> invoices[k].id != id
    ensures MarkVerified(invoices, id) == invoices
  {
    if invoices != [] {
      MarkVerifiedAbsent(invoices[1..], id);
    }
  }

  /** Verifying the same id twice is the same as verifying it once. */
  lemma {:induction false} MarkVerifiedIdempotent(invoices: seq<Invoice>, id: string)
    ensures MarkVerified(MarkVerified(invoices, id), id) == MarkVerified(invoices, id)
  {
    if invoices != [] {
      MarkVerifiedIdempotent(invoices[1..], id);
    }
  }

  /**
   * `after` extends `before` and differs from it only in statuses that moved
   * to verified; a verified record stays verified.
   */
  predicate NoRegression(before: seq<Invoice>, after: seq<Invoice>)
  {
    |before| <= |after| &&
    forall k :: 0 <= k < |before| ==>
      after[k].(status := before[k].status) == before[k] &&
      (after[k].status == before[k].status || after[k].status == Verified)
  }

  lemma VerifyNoRegression(invoices: seq<Invoice>, id: string)
    ensures NoRegression(invoices, MarkVerified(invoices, id))
  {
    MarkVerifiedLength(invoices, id);
    forall k | 0 <= k < |invoices|
      ensures MarkVerified(invoices, id)[k].(status := invoices[k].status) == invoices[k]
      ensures MarkVerified(invoices, id)[k].status == invoices[k].status
           || MarkVerified(invoices, id)[k].status == Verified
    {
      MarkVerifiedAt(invoices, id, k);
    }
  }

  lemma AppendNoRegression(invoices: seq<Invoice>, inv: Invoice)
    ensures NoRegression(invoices, invoices + [inv])
  {
    forall k | 0 <= k < |invoices| ensures (invoices + [inv])[k] == invoices[k] {
    }
  }

  lemma NoRegressionTransitive(a: seq<Invoice>, b: seq<Invoice>, c: seq<Invoice>)
    requires NoRegression(a, b) && NoRegression(b, c)
    ensures NoRegression(a, c)
  {
    forall k | 0 <= k < |a|
      ensures c[k].(status := a[k].status) == a[k]
      ensures c[k].status == a[k].status || c[k].status == Verified
    {
      assert b[k].(status := a[k].status) == a[k];
      assert c[k].(status := b[k].status) == b[k];
    }
  }

  /** A handler call on the invoice page. */
  datatype Action = Append(invoice: Invoice) | Verify(id: string)

  function Step(invoices: seq<Invoice>, a: Action): seq<Invoice>
  {
    match a
    case Append(inv) => invoices + [inv]
    case Verify(id) => MarkVerified(invoices, id)
  }

  function Run(invoices: seq<Invoice>, actions: seq<Action>): seq<Invoice>
    decreases |actions|
  {
    if actions == [] then invoices else Run(Step(invoices, actions[0]), actions[1..])
  }

  /**
   * No run of handlers moves an existing record's status away from verified,
   * changes anything but a status, or drops or reorders a record.
   */
  lemma {:induction false} RunNoRegression(invoices: seq<Invoice>, actions: seq<Action>)
    ensures NoRegression(invoices, Run(invoices, actions))
    decreases |actions|
  {
    if actions == [] {
      assert Run(invoices, actions) == invoices;
      forall k | 0 <= k < |invoices| ensures invoices[k].(status := invoices[k].status) == invoices[k] {
      }
    } else {
      var next := Step(invoices, actions[0]);
      match actions[0] {
        case Append(inv) => AppendNoRegression(invoices, inv);
        case Verify(id) => VerifyNoRegression(invoices, id);
      }
      RunNoRegression(next, actions[1..]);
      NoRegressionTransitive(invoices, next, Run(next, actions[1..]));
    }
  }

  /** Whether the Verify button of a record is enabled. */
  predicate VerifyOffered(inv: Invoice)
  {
    inv.status != Verified
  }

  /**
   * Verifying a record through its button changes it exactly when the button
   * is offered; on a record already verified it is a no-op.
   */
  lemma VerifyOfferedChanges(invoices: seq<Invoice>, k: nat)
    requires k < |invoices|
    ensures |MarkVerified(invoices, invoices[k].id)| == |invoices|
    ensures MarkVerified(invoices, invoices[k].id)[k].status == Verified
    ensures MarkVerified(invoices, invoices[k].id)[k] != invoices[k] <==> VerifyOffered(invoices[k])
  {
    MarkVerifiedAt(invoices, invoices[k].id, k);
  }

  /** The page's list of records. */
  class Ledger {
    var invoices: seq<Invoice>

    constructor ()
      ensures invoices == []
    {
      invoices := [];
    }

    /** A processed record is appended at the end. */
    method HandleInvoiceProcessed(inv: Invoice)
      modifies this
      ensures invoices == old(invoices) + [inv]
      ensures NoRegression(old(invoices), invoices)
    {
      AppendNoRegression(invoices, inv);
      invoices := invoices + [inv];
    }

    /** Every record with id `id` is marked verified. */
    method HandleVerifyInvoice(id: string)
      modifies this
      ensures invoices == MarkVerified(old(invoices), id)
      ensures NoRegression(old(invoices), invoices) && |invoices| == |old(invoices)|
    {
      VerifyNoRegression(invoices, id);
      MarkVerifiedLength(invoices, id);
      invoices := MarkVerified(invoices, id);
    }
  }

  /**
   * The uploader wired to the page: a record the processing step emits is
   * appended to the list; otherwise the list is unchanged. The uploader ends
   * as its own processing step leaves it.
   */
  method ProcessUpload(uploader: InvoiceUploader.Uploader, ledger: Ledger,
                       id: string, invoiceNumber: string, date: string, dueDate: string, fails: bool)
    returns (emitted: Option<Invoice>)
    modifies uploader, ledger
    ensures old(uploader.selected).None? ==> emitted == None
    ensures old(uploader.selected).Some? && !fails ==>
      emitted == Some(InvoiceUploader.ExtractedInvoice(old(uploader.selected).value.name,
                                                       id, invoiceNumber, date, dueDate))
    ensures old(uploader.selected).Some? && fails ==>
      emitted == None && uploader.selected == old(uploader.selected)
    ensures old(uploader.selected).Some? && !fails ==> uploader.selected == None
    ensures old(uploader.selected).None? ==>
      uploader.selected == None && uploader.isProcessing == old(uploader.isProcessing)
    ensures old(uploader.selected).Some? ==> !uploader.isProcessing
    ensures ledger.invoices == old(ledger.invoices) + (if emitted.Some? then [emitted.value] else [])
  {
    emitted := uploader.ProcessInvoice(id, invoiceNumber, date, dueDate, fails);
    if emitted.Some? {
      ledger.HandleInvoiceProcessed(emitted.value);
    }
  }
}
