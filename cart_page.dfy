/** The cart page: the quantity each stepper control hands to `updateQuantity`, the price
    shown on each line, and the empty state. */
module CartPage {
  import opened Wrappers
  import opened Text
  import opened CartStore

  /** The "−" button: `Math.max(1, quantity - 1)`, so it never goes below 1. */
  function Decremented(q: int): (r: int)
    ensures r >= 1
    ensures q >= 2 ==> r == q - 1
    ensures q < 2 ==> r == 1
  {
    if q - 1 > 1 then q - 1 else 1
  }

  /** The number input: `Math.max(1, parseInt(value) || 1)`, so a text without digits, a 0
      and a negative number all become 1. */
  function Typed(value: string): (r: int)
    ensures r >= 1
    ensures ParseInt(value).Some? && ParseInt(value).value >= 1 ==> r == ParseInt(value).value
    ensures ParseInt(value).None? || ParseInt(value).value < 1 ==> r == 1
  {
    var parsed := ParseInt(value);
    var n := if parsed.Some? && parsed.value != 0 then parsed.value else 1;
    if n > 1 then n else 1
  }

  /** Typing the number an input shows back in keeps it, for any quantity of at least 1. */
  lemma TypedOfShown(q: int)
    requires q >= 1
    ensures Typed(IntToString(q)) == q
  {
    ParseIntOfIntToString(q);
  }

  /** "+" then "−" returns to the quantity one started from. */
  lemma DecrementUndoesIncrement(q: int)
    requires q >= 1
    ensures Decremented(q + 1) == q
  {
  }

  /** Every line's quantity is at least 1. */
  predicate AllPositive(lines: seq<CartLine>) {
    forall i :: 0 <= i < |lines| ==> lines[i].quantity >= 1
  }

  /** The three controls of a line keep every quantity in the cart at least 1: the "−" and
      the number input by their clamps, the "+" because it starts from a quantity of at
      least 1. */
  lemma {:induction false} ControlsKeepPositive(lines: seq<CartLine>, i: int, value: string)
    requires AllPositive(lines) && 0 <= i < |lines|
    ensures AllPositive(SetQuantity(lines, lines[i].item.id, Decremented(lines[i].quantity)))
    ensures AllPositive(SetQuantity(lines, lines[i].item.id, Typed(value)))
    ensures AllPositive(SetQuantity(lines, lines[i].item.id, lines[i].quantity + 1))
  {
    var id := lines[i].item.id;
    var d := SetQuantity(lines, id, Decremented(lines[i].quantity));
    var t := SetQuantity(lines, id, Typed(value));
    var u := SetQuantity(lines, id, lines[i].quantity + 1);
    assert forall j :: 0 <= j < |lines| ==> d[j].quantity >= 1 && t[j].quantity >= 1 && u[j].quantity >= 1;
  }

  /** The price on a line: `Number(price) * Number(quantity)`. */
  function LineTotal(l: CartLine): (total: int)
    ensures l.quantity != 0 ==> total == LinePrice(l)
    ensures l.quantity == 0 ==> total == 0
  {
    l.item.price * l.quantity
  }

  /** The line prices added up. */
  function LineTotals(lines: seq<CartLine>): int {
    if lines == [] then 0 else LineTotal(lines[0]) + LineTotals(lines[1..])
  }

  /** When no quantity is 0 the line prices add up to the cart's total; the total charges a
      quantity of 0 as 1, so only then can the two part. */
  lemma {:induction false} LineTotalsAddUpToTotal(lines: seq<CartLine>)
    requires forall i :: 0 <= i < |lines| ==> lines[i].quantity != 0
    ensures LineTotals(lines) == TotalPrice(lines)
  {
    if lines != [] {
      LineTotalsAddUpToTotal(lines[1..]);
    }
  }

  /** What the page shows. */
  datatype CartView = EmptyCart | CartLines(lines: seq<CartLine>, subtotal: int)

  /** "Your cart is empty." for an empty cart; otherwise the lines and the cart's total. */
  function View(lines: seq<CartLine>): (v: CartView)
    ensures v.EmptyCart? <==> |lines| == 0
    ensures v.CartLines? ==> v.lines == lines && v.subtotal == TotalPrice(lines)
  {
    if |lines| == 0 then EmptyCart else CartLines(lines, TotalPrice(lines))
  }
}
