/** The WhatsApp share: the plain-text summary of a quotation, and the normalisation of the client's
    phone number into the recipient address. */
module Share {
  import opened Types
  import opened Decimal
  import opened Text
  import Company

  // ------------------------------------------------------------------ phone number

  /** `replace(/\D/g, '')`: the digits of `s`, in order. */
  function KeepDigits(s: string): (r: string)
    ensures AllDigits(r) && |r| <= |s|
    ensures AllDigits(s) ==> r == s
  {
    if s == [] then [] else (if IsDigit(s[0]) then [s[0]] else []) + KeepDigits(s[1..])
  }

  /** Filtering distributes over concatenation: the digits of `a + b` are those of `a`, then those of `b`. */
  lemma {:induction false} KeepDigitsAppend(a: string, b: string)
    ensures KeepDigits(a + b) == KeepDigits(a) + KeepDigits(b)
    decreases |a|
  {
    if a == [] {
      assert a + b == b;
    } else {
      assert (a + b)[0] == a[0] && (a + b)[1..] == a[1..] + b;
      KeepDigitsAppend(a[1..], b);
    }
  }

  /** A single character survives exactly when it is a digit. */
  lemma KeepDigitsChar(c: char)
    ensures KeepDigits([c]) == if IsDigit(c) then [c] else []
  {
    assert [c][1..] == [];
  }

  predicate StartsWith91(s: string)
  {
    |s| >= 2 && s[..2] == "91"
  }

  /** The recipient: the digits of the phone number, with the country code 91 put in front of a bare
      ten-digit number. */
  function NormalizePhone(phone: string): (r: string)
    ensures AllDigits(r)
  {
    var digits := KeepDigits(phone);
    if StartsWith91(digits) then digits else if |digits| == 10 then "91" + digits else digits
  }

  /** What normalisation does to the digits: leaves a number that starts with 91 alone, prefixes 91
      exactly when the digits are a bare ten-digit number, and passes every other length through. */
  lemma NormalizePhoneCases(phone: string)
    ensures var digits, r := KeepDigits(phone), NormalizePhone(phone);
      && (r == "91" + digits <==> !StartsWith91(digits) && |digits| == 10)
      && (r == digits <==> StartsWith91(digits) || |digits| != 10)
      && StartsWith91(r) == (StartsWith91(digits) || |digits| == 10)
  {
    var digits, r := KeepDigits(phone), NormalizePhone(phone);
    if !StartsWith91(digits) && |digits| == 10 {
      assert r[..2] == "91";
      assert |r| != |digits|;
    }
  }

  /** Normalising an already normalised number changes nothing. */
  lemma NormalizePhoneIdempotent(phone: string)
    ensures NormalizePhone(NormalizePhone(phone)) == NormalizePhone(phone)
  {
    var r := NormalizePhone(phone);
    assert KeepDigits(r) == r;
    NormalizePhoneCases(phone);
    if !StartsWith91(r) {
      assert r == KeepDigits(phone) && |r| != 10;
    }
  }

  // -------------------------------------------------------------------- share text

  /** The parts of the summary, in the order the template concatenates them. */
  datatype PartKind =
    | Heading | ClientBlock | ItemsBlock | SubtotalPart | DiscountPart | GstPart | GrandTotalPart
    | AdvancePart | BalancePart | PaymentBlock | Closing

  datatype Part = Part(kind: PartKind, text: Text)

  function Rank(k: PartKind): nat
  {
    match k
    case Heading => 0 case ClientBlock => 1 case ItemsBlock => 2 case SubtotalPart => 3
    case DiscountPart => 4 case GstPart => 5 case GrandTotalPart => 6 case AdvancePart => 7
    case BalancePart => 8 case PaymentBlock => 9 case Closing => 10
  }

  const Rule := "--------------------------------"

  /** One entry of the items list: `n. *description*` and, on the next line, `qty unit x rate = *total*`. */
  function ItemEntry(index: nat, item: QuoteItem): Text
  {
    [Lit(Digits(index + 1) + ". *" + item.description + "*\n   "), Number(item.quantity),
     Lit(" " + UnitName(item.unit) + " x "), Money(item.rate), Lit(" = *"), Money(item.total), Lit("*")]
  }

  /** The entries from position `first` on, separated by a blank line (`join('\n\n')`). */
  function ItemsList(items: seq<QuoteItem>, first: nat): Text
    decreases |items|
  {
    if items == [] then []
    else if |items| == 1 then ItemEntry(first, items[0])
    else ItemEntry(first, items[0]) + [Lit("\n\n")] + ItemsList(items[1..], first + 1)
  }

  function HeadingText(): Text
  {
    [Lit("*QUOTATION: " + Company.Name + "*\n" + Rule + "\n")]
  }

  function ClientText(c: ClientDetails): Text
  {
    [Lit("*Client:* " + OrElse(c.name, "Valued Customer") + "\n"
         + "*Project:* " + OrElse(c.projectType, "Interior Work") + "\n"
         + "*Quote No:* " + c.quoteNumber + "\n"
         + "*Date:* " + c.quoteDate + "\n"
         + Rule + "\n\n")]
  }

  function ItemsText(items: seq<QuoteItem>): Text
  {
    [Lit("*PROJECT ITEMS:*\n")]
    + (if items == [] then [Lit("_No items added_")] else ItemsList(items, 0))
    + [Lit("\n\n" + Rule + "\n")]
  }

  function PaymentText(): Text
  {
    [Lit(Rule + "\n\n" + "*PAYMENT DETAILS:*\n"
         + "Bank: " + Company.BankName + "\n"
         + "A/c No: " + Company.AccountNumber + "\n"
         + "IFSC: " + Company.Ifsc + "\n"
         + "PhonePe/G-Pay: " + Company.PhonePe + "\n\n")]
  }

  function ClosingText(): Text
  {
    [Lit("_Thank you for choosing " + Company.Name + "!_")]
  }

  function SubtotalText(d: QuoteData): Text
  {
    [Lit("*Subtotal:* "), Money(d.subtotal), Lit("\n")]
  }

  function DiscountText(d: QuoteData): Text
  {
    [Lit("*Discount ("), Number(d.discount), Lit("%):* -"), Money(d.discountAmount), Lit("\n")]
  }

  function GstText(d: QuoteData): Text
  {
    [Lit("*GST ("), Number(d.gst), Lit("%):* "), Money(d.taxAmount), Lit("\n")]
  }

  function GrandTotalText(d: QuoteData): Text
  {
    [Lit("*GRAND TOTAL: "), Money(d.grandTotal), Lit("*\n")]
  }

  function AdvanceText(d: QuoteData): Text
  {
    [Lit("*Advance Paid:* "), Money(d.advance), Lit("\n")]
  }

  function BalanceText(d: QuoteData): Text
  {
    [Lit("*Balance Due:* "), Money(d.balance), Lit("\n")]
  }

  /** The template's terms in order, the conditional ones included; a term's rank is its position. */
  function Template(d: QuoteData): (r: seq<Part>)
    ensures |r| == 11 && forall i :: 0 <= i < 11 ==> Rank(r[i].kind) == i
  {
    [Part(Heading, HeadingText()), Part(ClientBlock, ClientText(d.client)), Part(ItemsBlock, ItemsText(d.items)),
     Part(SubtotalPart, SubtotalText(d)), Part(DiscountPart, DiscountText(d)), Part(GstPart, GstText(d)),
     Part(GrandTotalPart, GrandTotalText(d)), Part(AdvancePart, AdvanceText(d)), Part(BalancePart, BalanceText(d)),
     Part(PaymentBlock, PaymentText()), Part(Closing, ClosingText())]
  }

  /** When a term of the template is emitted: the discount and tax lines on their show flags alone,
      the advance line on a positive advance, the balance line on a positive balance, every other
      term always. */
  predicate Shown(d: QuoteData, k: PartKind)
  {
    match k
    case DiscountPart => d.showDiscount
    case GstPart => d.showGST
    case AdvancePart => d.advance > 0.0
    case BalancePart => d.balance > 0.0
    case _ => true
  }

  /** The terms of `parts` whose condition holds, in order: a `cond ? text : ''` term adds nothing
      when its condition fails. */
  function Select(parts: seq<Part>, d: QuoteData): (r: seq<Part>)
    ensures |r| <= |parts|
  {
    if parts == [] then []
    else (if Shown(d, parts[0].kind) then [parts[0]] else []) + Select(parts[1..], d)
  }

  /** The parts of the summary as emitted. */
  function ShareParts(d: QuoteData): seq<Part>
  {
    Select(Template(d), d)
  }

  function Concat(parts: seq<Part>): Text
  {
    if parts == [] then [] else parts[0].text + Concat(parts[1..])
  }

  /** The message body, with formatCurrency and number-to-string supplied. */
  function ShareText(d: QuoteData, money: real -> string, number: real -> string): string
  {
    Render(Concat(ShareParts(d)), money, number)
  }

  /** The parts rendered one after another. */
  function RenderEach(parts: seq<Part>, money: real -> string, number: real -> string): string
  {
    if parts == [] then "" else Render(parts[0].text, money, number) + RenderEach(parts[1..], money, number)
  }

  /** Rendering the joined parts is rendering each part in turn, as the `+` chain builds the message. */
  lemma {:induction false} ConcatRendersEach(parts: seq<Part>, money: real -> string, number: real -> string)
    ensures Render(Concat(parts), money, number) == RenderEach(parts, money, number)
    decreases |parts|
  {
    if parts != [] {
      RenderAppend(parts[0].text, Concat(parts[1..]), money, number);
      ConcatRendersEach(parts[1..], money, number);
    }
  }

  /** The message is its shown parts, rendered in order. */
  lemma ShareTextByParts(d: QuoteData, money: real -> string, number: real -> string)
    ensures ShareText(d, money, number) == RenderEach(ShareParts(d), money, number)
  {
    ConcatRendersEach(ShareParts(d), money, number);
  }

  /** Two currency formatters that agree on the amounts the message formats give the same message. */
  lemma ShareTextNeedsOnlyItsAmounts(d: QuoteData, m1: real -> string, m2: real -> string, number: real -> string)
    requires forall i :: 0 <= i < |Amounts(Concat(ShareParts(d)))| ==>
      m1(Amounts(Concat(ShareParts(d)))[i]) == m2(Amounts(Concat(ShareParts(d)))[i])
    ensures ShareText(d, m1, number) == ShareText(d, m2, number)
  {
    RenderDependsOnlyOnAmounts(Concat(ShareParts(d)), m1, m2, number);
  }

  predicate HasPart(parts: seq<Part>, k: PartKind)
  {
    exists i :: 0 <= i < |parts| && parts[i].kind == k
  }

  /** The parts come in template order, none repeated; the fixed parts are always there; the
      discount and tax lines depend only on their show flags, the advance line on a positive advance
      and the balance line on a positive balance. */
  lemma SharePartsShape(d: QuoteData)
    ensures var p := ShareParts(d);
      && (forall i, j :: 0 <= i < j < |p| ==> Rank(p[i].kind) < Rank(p[j].kind))
      && (forall k :: HasPart(p, k) <==> Shown(d, k))
      && (forall q :: q in p ==> q in Template(d))
  {
    TemplateHasEveryKind(d);
    SelectShape(Template(d), d);
  }

  lemma TemplateHasEveryKind(d: QuoteData)
    ensures forall k :: HasPart(Template(d), k)
  {
    var t := Template(d);
    forall k ensures HasPart(t, k) {
      var i := Rank(k);
      RankInjective(t[i].kind, k);
    }
  }

  /** The presence conditions of the summary's parts, written out kind by kind. */
  lemma SharePartsPresence(d: QuoteData)
    ensures var p := ShareParts(d);
      && HasPart(p, Heading) && HasPart(p, ClientBlock) && HasPart(p, ItemsBlock)
      && HasPart(p, SubtotalPart) && HasPart(p, GrandTotalPart)
      && HasPart(p, PaymentBlock) && HasPart(p, Closing)
      && (HasPart(p, DiscountPart) <==> d.showDiscount)
      && (HasPart(p, GstPart) <==> d.showGST)
      && (HasPart(p, AdvancePart) <==> d.advance > 0.0)
      && (HasPart(p, BalancePart) <==> d.balance > 0.0)
  {
    SharePartsShape(d);
    PresenceOfShown(ShareParts(d), d);
  }

  lemma PresenceOfShown(p: seq<Part>, d: QuoteData)
    requires forall k :: HasPart(p, k) <==> Shown(d, k)
    ensures && HasPart(p, Heading) && HasPart(p, ClientBlock) && HasPart(p, ItemsBlock)
            && HasPart(p, SubtotalPart) && HasPart(p, GrandTotalPart)
            && HasPart(p, PaymentBlock) && HasPart(p, Closing)
            && (HasPart(p, DiscountPart) <==> d.showDiscount)
            && (HasPart(p, GstPart) <==> d.showGST)
            && (HasPart(p, AdvancePart) <==> d.advance > 0.0)
            && (HasPart(p, BalancePart) <==> d.balance > 0.0)
  {
  }

  lemma RankInjective(a: PartKind, b: PartKind)
    requires Rank(a) == Rank(b)
    ensures a == b
  {
  }

  /** Selecting from a template in ascending rank keeps the ascending rank, keeps only terms of the
      template, and emits a kind exactly when the template has it and its condition holds. */
  lemma {:induction false} SelectShape(parts: seq<Part>, d: QuoteData)
    requires forall i :: 0 <= i < |parts| ==> Rank(parts[i].kind) == i
    ensures var r := Select(parts, d);
      && (forall i, j :: 0 <= i < j < |r| ==> Rank(r[i].kind) < Rank(r[j].kind))
      && (forall k :: HasPart(r, k) <==> HasPart(parts, k) && Shown(d, k))
      && (forall p :: p in r ==> p in parts)
    decreases |parts|
  {
    assert Ascending(parts);
    SelectSorted(parts, d);
    SelectHas(parts, d);
  }

  predicate Ascending(parts: seq<Part>)
  {
    forall i, j :: 0 <= i < j < |parts| ==> Rank(parts[i].kind) < Rank(parts[j].kind)
  }

  lemma {:induction false} SelectSorted(parts: seq<Part>, d: QuoteData)
    requires Ascending(parts)
    ensures Ascending(Select(parts, d))
    ensures forall p :: p in Select(parts, d) ==> p in parts
    decreases |parts|
  {
    if parts != [] {
      var tail := parts[1..];
      var rest := Select(tail, d);
      assert Ascending(tail) by {
        forall i, j | 0 <= i < j < |tail| ensures Rank(tail[i].kind) < Rank(tail[j].kind) {
          assert tail[i] == parts[i + 1] && tail[j] == parts[j + 1];
        }
      }
      SelectSorted(tail, d);
      if Shown(d, parts[0].kind) {
        var r := [parts[0]] + rest;
        assert Select(parts, d) == r;
        forall i | 0 < i < |r| ensures Rank(r[0].kind) < Rank(r[i].kind) {
          assert r[i] in rest;
          var j :| 0 <= j < |tail| && tail[j] == r[i];
          assert r[i] == parts[j + 1];
        }
        forall i, j | 0 <= i < j < |r| ensures Rank(r[i].kind) < Rank(r[j].kind) {
          if i > 0 { assert r[i] == rest[i - 1] && r[j] == rest[j - 1]; }
        }
        forall p | p in r ensures p in parts {
          if p != parts[0] { assert p in rest; }
        }
      } else {
        assert Select(parts, d) == rest;
      }
    }
  }

  lemma {:induction false} SelectHas(parts: seq<Part>, d: QuoteData)
    ensures forall k :: HasPart(Select(parts, d), k) <==> HasPart(parts, k) && Shown(d, k)
    decreases |parts|
  {
    if parts != [] {
      var rest := Select(parts[1..], d);
      SelectHas(parts[1..], d);
      var head := if Shown(d, parts[0].kind) then [parts[0]] else [];
      var r := head + rest;
      assert Select(parts, d) == r;
      forall k ensures HasPart(r, k) <==> HasPart(parts, k) && Shown(d, k) {
        if HasPart(parts, k) && Shown(d, k) {
          var j :| 0 <= j < |parts| && parts[j].kind == k;
          if j == 0 {
            assert r[0].kind == k;
          } else {
            assert parts[1..][j - 1].kind == k;
            var i :| 0 <= i < |rest| && rest[i].kind == k;
            assert r[i + |head|].kind == k;
          }
        }
        if HasPart(r, k) {
          var i :| 0 <= i < |r| && r[i].kind == k;
          if i < |head| {
            assert parts[0].kind == k;
          } else {
            assert rest[i - |head|].kind == k;
            assert HasPart(rest, k);
            assert HasPart(parts[1..], k);
            var j :| 0 <= j < |parts[1..]| && parts[1..][j].kind == k;
            assert parts[j + 1].kind == k;
          }
        }
      }
    }
  }

  /** The amounts the items list formats are each item's rate and total, in items order. */
  function PricePairs(items: seq<QuoteItem>): seq<real>
  {
    if items == [] then [] else [items[0].rate, items[0].total] + PricePairs(items[1..])
  }

  lemma {:induction false} ItemsListAmounts(items: seq<QuoteItem>, first: nat)
    ensures Amounts(ItemsList(items, first)) == PricePairs(items)
    decreases |items|
  {
    if items != [] {
      var e := ItemEntry(first, items[0]);
      EntryAmounts(first, items[0]);
      if |items| == 1 {
        assert PricePairs(items[1..]) == [];
      } else {
        ItemsListAmounts(items[1..], first + 1);
        AmountsAppend(e, [Lit("\n\n")]);
        AmountsAppend(e + [Lit("\n\n")], ItemsList(items[1..], first + 1));
      }
    }
  }

  /** One entry formats the item's rate and then its total. */
  lemma EntryAmounts(index: nat, item: QuoteItem)
    ensures Amounts(ItemEntry(index, item)) == [item.rate, item.total]
  {
    var e := ItemEntry(index, item);
    var e6 := [Lit("*")];
    var e5 := [Money(item.total)] + e6;
    var e4 := [Lit(" = *")] + e5;
    var e3 := [Money(item.rate)] + e4;
    var e2 := [Lit(" " + UnitName(item.unit) + " x ")] + e3;
    var e1 := [Number(item.quantity)] + e2;
    assert Amounts(e6) == [] by { assert e6[1..] == []; }
    assert Amounts(e5) == [item.total] by { assert e5[1..] == e6; }
    assert Amounts(e4) == [item.total] by { assert e4[1..] == e5; }
    assert Amounts(e3) == [item.rate, item.total] by { assert e3[1..] == e4; }
    assert Amounts(e2) == Amounts(e3) by { assert e2[1..] == e3; }
    assert Amounts(e1) == Amounts(e2) by { assert e1[1..] == e2; }
    assert e[1..] == e1;
  }

  lemma {:induction false} AmountsAppend(a: Text, b: Text)
    ensures Amounts(a + b) == Amounts(a) + Amounts(b)
    decreases |a|
  {
    if a == [] {
      assert a + b == b;
    } else {
      assert (a + b)[0] == a[0] && (a + b)[1..] == a[1..] + b;
      AmountsAppend(a[1..], b);
    }
  }

  /** The items block reads "_No items added_" exactly when there are no items; otherwise it lists
      every item's rate and total, in order. */
  lemma ItemsBlockContent(d: QuoteData)
    ensures var block := ItemsText(d.items);
      && (block[1] == Lit("_No items added_") <==> d.items == [])
      && (d.items != [] ==> Amounts(block) == PricePairs(d.items))
  {
    var block := ItemsText(d.items);
    var head := [Lit("*PROJECT ITEMS:*\n")];
    var tail := [Lit("\n\n" + Rule + "\n")];
    if d.items != [] {
      var list := ItemsList(d.items, 0);
      assert block == head + list + tail;
      assert list[0] == Lit(Digits(1) + ". *" + d.items[0].description + "*\n   ");
      assert block[1] == list[0];
      assert Digits(1) + ". *" + d.items[0].description + "*\n   " != "_No items added_" by {
        assert (Digits(1) + ". *" + d.items[0].description + "*\n   ")[0] == Digits(1)[0];
      }
      ItemsListAmounts(d.items, 0);
      AmountsAppend(head, list);
      AmountsAppend(head + list, tail);
    }
  }
}
