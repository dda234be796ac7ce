/** Rendered text. Amounts go through formatCurrency (a fixed en-IN / INR formatter with two fraction
    digits) and plain numbers through JavaScript's number-to-string conversion; both are foreign, so
    rendered text is kept as a sequence of pieces and the two formatters are supplied when it is
    flattened to a string. */
module Text {
  datatype Piece =
    | Lit(s: string)       // literal text
    | Money(amount: real)  // formatCurrency(amount)
    | Number(value: real)  // `${value}`

  type Text = seq<Piece>

  /** The string a text denotes under the given currency and number formatters. */
  function Render(t: Text, money: real -> string, number: real -> string): string
  {
    if t == [] then "" else PieceString(t[0], money, number) + Render(t[1..], money, number)
  }

  function PieceString(p: Piece, money: real -> string, number: real -> string): string
  {
    match p
    case Lit(s) => s
    case Money(a) => money(a)
    case Number(v) => number(v)
  }

  /** Rendering distributes over concatenation, so a template assembled from parts renders part by part. */
  lemma {:induction false} RenderAppend(a: Text, b: Text, money: real -> string, number: real -> string)
    ensures Render(a + b, money, number) == Render(a, money, number) + Render(b, money, number)
    decreases |a|
  {
    if a != [] {
      assert (a + b)[0] == a[0] && (a + b)[1..] == a[1..] + b;
      RenderAppend(a[1..], b, money, number);
    } else {
      assert a + b == b;
    }
  }

  /** The amounts a text passes to the currency formatter. */
  function Amounts(t: Text): (r: seq<real>)
    ensures |r| <= |t|
  {
    if t == [] then []
    else (if t[0].Money? then [t[0].amount] else []) + Amounts(t[1..])
  }

  /** The rendered string depends on the currency formatter only through the amounts it is given:
      two formatters that agree on those amounts render the same string. */
  lemma {:induction false} RenderDependsOnlyOnAmounts(t: Text, m1: real -> string, m2: real -> string,
                                                      number: real -> string)
    requires forall i :: 0 <= i < |Amounts(t)| ==> m1(Amounts(t)[i]) == m2(Amounts(t)[i])
    ensures Render(t, m1, number) == Render(t, m2, number)
    decreases |t|
  {
    if t != [] {
      var rest := Amounts(t[1..]);
      assert Amounts(t) == (if t[0].Money? then [t[0].amount] else []) + rest;
      forall i | 0 <= i < |rest| ensures m1(rest[i]) == m2(rest[i]) {
        var j := if t[0].Money? then i + 1 else i;
        assert Amounts(t)[j] == rest[i];
      }
      if t[0].Money? {
        assert Amounts(t)[0] == t[0].amount;
      }
      RenderDependsOnlyOnAmounts(t[1..], m1, m2, number);
    }
  }
}
