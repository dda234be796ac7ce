/** The totals recompute: subtotal, discount, tax on the post-discount base, rounded grand total and
    balance, as functions of the items, the two percentages, the two show flags and the advance. */
module Totals {
  import opened Types

  /** Math.round: the nearest integer, halves rounded up (toward +infinity). */
  function Round(x: real): (r: int)
    ensures r as real - 0.5 <= x < r as real + 0.5
  {
    (x + 0.5).Floor
  }

  /** Only one integer lies within half a unit below and above `x`, so Round is determined by its contract. */
  lemma RoundUnique(x: real, n: int)
    requires n as real - 0.5 <= x < n as real + 0.5
    ensures Round(x) == n
  {
  }

  /** The sum of the stored item totals, accumulated left to right as `reduce` does. */
  function Subtotal(items: seq<QuoteItem>): real
  {
    if items == [] then 0.0 else Subtotal(items[..|items| - 1]) + items[|items| - 1].total
  }

  lemma {:induction false} SubtotalAppend(a: seq<QuoteItem>, b: seq<QuoteItem>)
    ensures Subtotal(a + b) == Subtotal(a) + Subtotal(b)
    decreases |b|
  {
    if b == [] {
      assert a + b == a;
    } else {
      assert (a + b)[..|a + b| - 1] == a + b[..|b| - 1];
      SubtotalAppend(a, b[..|b| - 1]);
    }
  }

  /** The derived block agrees with the inputs: the invariants every consistent record satisfies. */
  predicate Consistent(d: QuoteData)
  {
    && d.subtotal == Subtotal(d.items)
    && d.discountAmount == (if d.showDiscount then d.subtotal * d.discount / 100.0 else 0.0)
    && d.taxAmount == (if d.showGST then (d.subtotal - d.discountAmount) * d.gst / 100.0 else 0.0)
    && d.grandTotal == Round(d.subtotal - d.discountAmount + d.taxAmount) as real
    && d.balance == d.grandTotal - d.advance
  }

  /** `e` differs from `d` at most in the five derived fields. */
  predicate SameInputs(d: QuoteData, e: QuoteData)
  {
    e == d.(subtotal := e.subtotal, discountAmount := e.discountAmount, taxAmount := e.taxAmount,
            grandTotal := e.grandTotal, balance := e.balance)
  }

  /** The effect that rewrites the five derived fields from the inputs. */
  function Recompute(d: QuoteData): (r: QuoteData)
    ensures Consistent(r)
    ensures SameInputs(d, r)
  {
    var subtotal := Subtotal(d.items);
    var discountAmount := if d.showDiscount then (subtotal * d.discount) / 100.0 else 0.0;
    var afterDiscount := subtotal - discountAmount;
    var taxAmount := if d.showGST then (afterDiscount * d.gst) / 100.0 else 0.0;
    var grandTotal := Round(afterDiscount + taxAmount) as real;
    var balance := grandTotal - d.advance;
    d.(subtotal := subtotal, discountAmount := discountAmount, taxAmount := taxAmount,
       grandTotal := grandTotal, balance := balance)
  }

  /** A record with the same inputs that satisfies the invariants is the recomputed one: the derived
      block is a function of the inputs. */
  lemma RecomputeUnique(d: QuoteData, e: QuoteData)
    requires SameInputs(d, e) && Consistent(e)
    ensures e == Recompute(d)
  {
  }

  /** A record is consistent exactly when recomputing leaves it unchanged. */
  lemma ConsistentIffFixpoint(d: QuoteData)
    ensures Consistent(d) <==> Recompute(d) == d
  {
    if Consistent(d) {
      RecomputeUnique(d, d);
    }
  }

  /** Recompute reads none of its outputs, so applying it twice is applying it once. */
  lemma RecomputeIdempotent(d: QuoteData)
    ensures Recompute(Recompute(d)) == Recompute(d)
  {
    ConsistentIffFixpoint(Recompute(d));
  }

  /** With the discount flag off the discount is not applied whatever its stored percentage; with it
      on, the stored percentage is applied again. */
  lemma SuppressedDiscount(d: QuoteData)
    ensures Recompute(d.(showDiscount := false)).discountAmount == 0.0
    ensures Recompute(d.(showDiscount := true)).discountAmount == Subtotal(d.items) * d.discount / 100.0
  {
    var off, on := d.(showDiscount := false), d.(showDiscount := true);
    assert off.items == d.items && on.items == d.items;
  }

  /** The same for the tax flag: off forces a zero tax, on charges the stored rate on the discounted base. */
  lemma SuppressedTax(d: QuoteData)
    ensures Recompute(d.(showGST := false)).taxAmount == 0.0
    ensures var r := Recompute(d.(showGST := true));
      r.taxAmount == (r.subtotal - r.discountAmount) * d.gst / 100.0
  {
    var off, on := d.(showGST := false), d.(showGST := true);
    assert off.items == d.items && on.gst == d.gst;
  }

  /** A zero percentage yields no charge even when its flag is on. */
  lemma ZeroPercentagesChargeNothing(d: QuoteData)
    ensures d.discount == 0.0 ==> Recompute(d).discountAmount == 0.0
    ensures d.gst == 0.0 ==> Recompute(d).taxAmount == 0.0
  {
  }

  /** An empty quotation: all derived amounts are zero except the balance, which is minus the advance. */
  lemma EmptyQuotation(d: QuoteData)
    requires d.items == []
    ensures var r := Recompute(d);
      r.subtotal == 0.0 && r.discountAmount == 0.0 && r.taxAmount == 0.0 && r.grandTotal == 0.0
      && r.balance == -d.advance
  {
    RoundUnique(0.0, 0);
  }

  /** One item of 10 at 100, 18% tax, no discount, no advance: 1000 + 180 = 1180. */
  lemma TaxOnlyScenario(d: QuoteData, item: QuoteItem)
    requires item.total == 10.0 * 100.0 && d.items == [item]
    requires d.gst == 18.0 && d.showGST && !d.showDiscount && d.advance == 0.0
    ensures var r := Recompute(d);
      r.subtotal == 1000.0 && r.taxAmount == 180.0 && r.grandTotal == 1180.0 && r.balance == 1180.0
  {
    assert d.items[..0] == [];
    assert Subtotal(d.items) == Subtotal(d.items[..0]) + item.total;
    RoundUnique(1180.0, 1180);
  }

  /** Tax is charged on the discounted base: 1000 less 10% is 900, plus 18% of 900 is 1062. */
  lemma DiscountThenTaxScenario(d: QuoteData, item: QuoteItem)
    requires item.total == 1000.0 && d.items == [item]
    requires d.discount == 10.0 && d.showDiscount && d.gst == 18.0 && d.showGST
    ensures var r := Recompute(d);
      r.discountAmount == 100.0 && r.subtotal - r.discountAmount == 900.0 && r.taxAmount == 162.0
      && r.grandTotal == 1062.0
  {
    assert d.items[..0] == [];
    assert Subtotal(d.items) == Subtotal(d.items[..0]) + item.total;
    RoundUnique(1062.0, 1062);
  }

  /** Only the grand total is rounded: the discount and tax amounts keep their fractions. */
  lemma OnlyGrandTotalIsRounded(d: QuoteData, item: QuoteItem)
    requires item.total == 0.5 && d.items == [item]
    requires !d.showDiscount && d.gst == 0.0 && d.showGST
    ensures Recompute(d).subtotal == 0.5 && Recompute(d).grandTotal == 1.0
  {
    assert d.items[..0] == [];
    assert Subtotal(d.items) == Subtotal(d.items[..0]) + item.total;
    RoundUnique(0.5, 1);
  }
}
