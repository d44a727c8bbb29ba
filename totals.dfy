/**
 * Derivation of an invoice's subtotal, tax and total from its line items and
 * tax rate (the effect that recomputes the totals whenever either changes).
 */
module Totals {
  import opened InvoiceData

  /** The sum of the item amounts, as a left fold starting from 0 (like `reduce`). */
  function Subtotal(items: seq<LineItem>): real
  {
    if |items| == 0 then 0.0 else Subtotal(items[..|items| - 1]) + items[|items| - 1].amount
  }

  /** Tax on a subtotal at a percentage rate. */
  function Tax(subtotal: real, taxRate: real): real
  {
    subtotal * taxRate / 100.0
  }

  datatype Summary = Summary(subtotal: real, tax: real, total: real)

  /** The three derived fields for a list of items and a tax rate. */
  function Summarize(items: seq<LineItem>, taxRate: real): Summary
  {
    var subtotal := Subtotal(items);
    var tax := Tax(subtotal, taxRate);
    Summary(subtotal, tax, subtotal + tax)
  }

  /** Appending an item adds exactly its amount to the subtotal. */
  lemma {:induction false} SubtotalAppend(items: seq<LineItem>, item: LineItem)
    ensures Subtotal(items + [item]) == Subtotal(items) + item.amount
  {
    assert (items + [item])[..|items|] == items;
  }

  /** Replacing the item at `i` swaps its amount in the subtotal for the new one. */
  lemma {:induction false} SubtotalUpdate(items: seq<LineItem>, i: nat, item: LineItem)
    requires i < |items|
    ensures Subtotal(items[i := item]) == Subtotal(items) - items[i].amount + item.amount
  {
    var n := |items|;
    if i == n - 1 {
      assert items[i := item][..n - 1] == items[..n - 1];
    } else {
      assert items[i := item][..n - 1] == items[..n - 1][i := item];
      SubtotalUpdate(items[..n - 1], i, item);
    }
  }

  /** Removing the item at `i` takes exactly its amount off the subtotal. */
  lemma {:induction false} SubtotalRemove(items: seq<LineItem>, i: nat)
    requires i < |items|
    ensures Subtotal(items[..i] + items[i + 1..]) == Subtotal(items) - items[i].amount
  {
    var n := |items|;
    if i == n - 1 {
      assert items[..i] + items[i + 1..] == items[..n - 1];
    } else {
      var front := items[..n - 1];
      assert items[..i] + items[i + 1..] == (front[..i] + front[i + 1..]) + [items[n - 1]];
      SubtotalAppend(front[..i] + front[i + 1..], items[n - 1]);
      SubtotalRemove(front, i);
    }
  }

  /** With no negative amount the subtotal is not negative. */
  lemma {:induction false} SubtotalNonNegative(items: seq<LineItem>)
    requires forall k :: 0 <= k < |items| ==> items[k].amount >= 0.0
    ensures Subtotal(items) >= 0.0
  {
    if |items| > 0 {
      SubtotalNonNegative(items[..|items| - 1]);
    }
  }

  /** The total is the subtotal scaled by one plus the rate. */
  lemma TotalIsScaledSubtotal(items: seq<LineItem>, taxRate: real)
    ensures Summarize(items, taxRate).total == Subtotal(items) * (1.0 + taxRate / 100.0)
    ensures Summarize(items, taxRate).subtotal == Subtotal(items)
  {
  }

  /** With non-negative amounts and rate: 0 <= subtotal <= total, and the tax is not negative. */
  lemma TotalsBounds(items: seq<LineItem>, taxRate: real)
    requires forall k :: 0 <= k < |items| ==> items[k].amount >= 0.0
    requires taxRate >= 0.0
    ensures var s := Summarize(items, taxRate); 0.0 <= s.subtotal <= s.total && s.tax >= 0.0
  {
    SubtotalNonNegative(items);
  }

  /** Items that pass the submission rules and whose amounts are not stale have non-negative amounts. */
  lemma ConsistentAmountsNonNegative(items: seq<LineItem>)
    requires AllAmountsConsistent(items)
    requires forall k :: 0 <= k < |items| ==> items[k].quantity >= 0.0 && items[k].unitPrice >= 0.0
    ensures forall k :: 0 <= k < |items| ==> items[k].amount >= 0.0
  {
    forall k | 0 <= k < |items| ensures items[k].amount >= 0.0 {
      assert AmountConsistent(items[k]);
    }
  }

  /** An invoice record whose amounts are current and whose totals agree with its items. */
  predicate WellFormed(inv: Invoice)
  {
    |inv.items| >= 1 && AllAmountsConsistent(inv.items)
    && inv.subtotal == Subtotal(inv.items) && inv.total == inv.subtotal + inv.tax
  }
}
