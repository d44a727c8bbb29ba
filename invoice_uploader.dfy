/**
 * The invoice uploader: a file selection guarded by a media-type whitelist,
 * and the processing step that turns the selected file into a processed
 * invoice record for the invoice page.
 */
module InvoiceUploader {
  import opened InvoiceData
  import opened Totals

  /** A file as the browser reports it: its name and its declared media type. */
  datatype FileInfo = FileInfo(name: string, mediaType: string)

  /** The media types the uploader accepts. */
  const AcceptedFileTypes: seq<string> := ["application/pdf", "image/jpeg", "image/jpg", "image/png"]

  predicate Accepted(mediaType: string)
  {
    mediaType in AcceptedFileTypes
  }

  /** Exactly PDF, JPEG (under both names) and PNG are accepted. */
  lemma AcceptedExactly(mediaType: string)
    ensures Accepted(mediaType) <==>
      mediaType == "application/pdf" || mediaType == "image/jpeg" ||
      mediaType == "image/jpg" || mediaType == "image/png"
  {
  }

  /** The two rows the simulated extraction always yields. */
  function ExtractedItems(): seq<LineItem>
  {
    [LineItem("Accounting Services", 1.0, 500.0, 500.0),
     LineItem("Tax Consultation", 2.0, 250.0, 500.0)]
  }

  /**
   * The record the simulated extraction yields for a file. The identifiers
   * are random and the dates come from the clock, so they are passed in.
   */
  function ExtractedInvoice(fileName: string, id: string, invoiceNumber: string,
                            date: string, dueDate: string): Invoice
  {
    Invoice(id, invoiceNumber, date, dueDate, "Example Client Ltd.",
            Some("123 Business Street, City, Country"), ExtractedItems(),
            1000.0, 200.0, 1200.0, Processed, fileName)
  }

  /**
   * The extracted record is processed, carries the file's name, and its
   * amounts and totals agree with its items (at a 20% rate).
   */
  lemma ExtractedInvoiceWellFormed(fileName: string, id: string, invoiceNumber: string,
                                   date: string, dueDate: string)
    ensures var inv := ExtractedInvoice(fileName, id, invoiceNumber, date, dueDate);
      && inv.status == Processed
      && inv.fileName == fileName
      && WellFormed(inv)
      && inv.tax == Tax(inv.subtotal, 20.0)
  {
    var items := ExtractedItems();
    assert items[..1][..0] == [];
    assert Subtotal(items[..1]) == 500.0;
    assert Subtotal(items) == 1000.0;
    assert AmountConsistent(items[0]) && AmountConsistent(items[1]);
  }

  /** The uploader's state: the selected file, if any, and whether processing runs. */
  class Uploader {
    var selected: Option<FileInfo>
    var isProcessing: bool

    constructor ()
      ensures selected == None && !isProcessing && !CanProcess()
    {
      selected := None;
      isProcessing := false;
    }

    /** Whether the Process and Clear buttons are enabled. */
    predicate CanProcess()
      reads this
    {
      selected.Some? && !isProcessing
    }

    /**
     * Selects `file` if its media type is accepted; otherwise the selection is
     * kept and `accepted` is false (the rejection notice).
     */
    method ValidateAndSetFile(file: FileInfo) returns (accepted: bool)
      modifies this`selected
      ensures accepted <==> Accepted(file.mediaType)
      ensures selected == if accepted then Some(file) else old(selected)
      ensures accepted ==> (CanProcess() <==> !isProcessing)
    {
      if !Accepted(file.mediaType) {
        accepted := false;
        return;
      }
      accepted := true;
      selected := Some(file);
    }

    /** Drops the selection. */
    method ClearSelectedFile()
      modifies this`selected
      ensures selected == None && !CanProcess()
    {
      selected := None;
    }

    /**
     * The processing step as one transition. With no file nothing happens.
     * Otherwise the processing flag is raised, the extracted record for the
     * file is emitted and the selection cleared, and the flag is lowered again
     * however the step ends; `fails` stands for a failure of the extraction
     * call that replaces the simulated delay, after which nothing has been
     * emitted and the selection is kept.
     */
    method ProcessInvoice(id: string, invoiceNumber: string, date: string, dueDate: string, fails: bool)
      returns (emitted: Option<Invoice>)
      modifies this
      ensures old(selected).None? ==>
        emitted == None && selected == old(selected) && isProcessing == old(isProcessing)
      ensures old(selected).Some? ==> !isProcessing
      ensures old(selected).Some? && !fails ==>
        emitted == Some(ExtractedInvoice(old(selected).value.name, id, invoiceNumber, date, dueDate))
        && selected == None
      ensures old(selected).Some? && fails ==> emitted == None && selected == old(selected)
      ensures emitted.Some? ==> emitted.value.status == Processed && WellFormed(emitted.value)
      ensures old(selected).Some? ==> (CanProcess() <==> fails)
    {
      if selected.None? {
        return None;
      }
      isProcessing := true;
      if !fails {
        var inv := ExtractedInvoice(selected.value.name, id, invoiceNumber, date, dueDate);
        ExtractedInvoiceWellFormed(selected.value.name, id, invoiceNumber, date, dueDate);
        emitted := Some(inv);
        ClearSelectedFile();
      } else {
        emitted := None;
      }
      isProcessing := false;
    }
  }
}
