/** The cart store: lines keyed by product id, mirrored to local storage under `cart_items`
    and, when signed in, pushed to `/cart` on the backend. */
module CartStore {
  import opened Wrappers
  import opened Seqs
  import opened Catalog
  import opened Session

  /** `{ ...product, quantity }`. */
  datatype CartLine = CartLine(item: Product, quantity: int)

  /** `lines.find(i => i.id === id)` finds something. */
  predicate HasId(lines: seq<CartLine>, id: int) {
    exists i :: 0 <= i < |lines| && lines[i].item.id == id
  }

  /** No two lines carry the same product id. */
  predicate UniqueIds(lines: seq<CartLine>) {
    forall i, j :: 0 <= i < j < |lines| ==> lines[i].item.id != lines[j].item.id
  }

  /** The summed quantity of the lines with product id `id`. */
  function QuantityOf(lines: seq<CartLine>, id: int): int {
    if lines == [] then 0
    else (if lines[0].item.id == id then lines[0].quantity else 0) + QuantityOf(lines[1..], id)
  }

  /** `lines.map(i => i.id === id ? { ...i, quantity: i.quantity + q } : i)`. */
  function Increment(lines: seq<CartLine>, id: int, q: int): (r: seq<CartLine>)
    ensures |r| == |lines|
    ensures forall i :: 0 <= i < |lines| ==>
      r[i].item == lines[i].item &&
      r[i].quantity == lines[i].quantity + (if lines[i].item.id == id then q else 0)
  {
    if lines == [] then []
    else
      var l := lines[0];
      [if l.item.id == id then l.(quantity := l.quantity + q) else l] + Increment(lines[1..], id, q)
  }

  /** `addToCart(product, quantity)`: a product already in the cart has its line's quantity
      raised by `quantity`, leaving the length, the order and every other line as they were;
      a new product is appended as `{ ...product, quantity }`. */
  function AddLine(lines: seq<CartLine>, product: Product, quantity: int): (r: seq<CartLine>)
    ensures HasId(lines, product.id) ==> |r| == |lines| && forall i :: 0 <= i < |lines| ==>
      r[i].item == lines[i].item &&
      r[i].quantity == lines[i].quantity + (if lines[i].item.id == product.id then quantity else 0)
    ensures !HasId(lines, product.id) ==> r == lines + [CartLine(product, quantity)]
    ensures HasId(r, product.id)
    ensures forall id :: HasId(r, id) <==> HasId(lines, id) || id == product.id
    ensures UniqueIds(lines) ==> UniqueIds(r)
  {
    if HasId(lines, product.id) then
      var r := Increment(lines, product.id, quantity);
      SameIds(r, lines);
      r
    else
      var r := lines + [CartLine(product, quantity)];
      HasIdAppend(lines, CartLine(product, quantity));
      r
  }

  lemma SameIds(a: seq<CartLine>, b: seq<CartLine>)
    requires |a| == |b| && forall i :: 0 <= i < |a| ==> a[i].item.id == b[i].item.id
    ensures forall id :: HasId(a, id) <==> HasId(b, id)
  {
    forall id ensures HasId(a, id) <==> HasId(b, id) {
      if HasId(a, id) {
        var i :| 0 <= i < |a| && a[i].item.id == id;
        assert b[i].item.id == id;
      }
      if HasId(b, id) {
        var i :| 0 <= i < |b| && b[i].item.id == id;
        assert a[i].item.id == id;
      }
    }
  }

  lemma HasIdAppend(lines: seq<CartLine>, l: CartLine)
    ensures forall id :: HasId(lines + [l], id) <==> HasId(lines, id) || id == l.item.id
  {
    var r := lines + [l];
    forall id ensures HasId(r, id) <==> HasId(lines, id) || id == l.item.id {
      if HasId(r, id) {
        var i :| 0 <= i < |r| && r[i].item.id == id;
        if i < |lines| {
          assert lines[i].item.id == id;
        }
      }
      if HasId(lines, id) {
        var i :| 0 <= i < |lines| && lines[i].item.id == id;
        assert r[i].item.id == id;
      }
      if id == l.item.id {
        assert r[|lines|].item.id == id;
      }
    }
  }

  /** `lines.filter(i => i.id !== id)`. */
  function RemoveLines(lines: seq<CartLine>, id: int): (r: seq<CartLine>)
    ensures forall x :: x in r <==> x in lines && x.item.id != id
    ensures !HasId(r, id)
    ensures !HasId(lines, id) ==> r == lines
  {
    var keep := (x: CartLine) => x.item.id != id;
    FilterMembers(lines, keep);
    if !HasId(lines, id) then
      FilterAll(lines, keep);
      Filter(lines, keep)
    else
      var r := Filter(lines, keep);
      assert forall i :: 0 <= i < |r| ==> r[i] in r;
      r
  }

  /** `lines.map(i => i.id === id ? { ...i, quantity } : i)`: no clamping, so any integer can
      land in the cart. */
  function SetQuantity(lines: seq<CartLine>, id: int, quantity: int): (r: seq<CartLine>)
    ensures |r| == |lines|
    ensures forall i :: 0 <= i < |lines| ==>
      r[i].item == lines[i].item &&
      r[i].quantity == (if lines[i].item.id == id then quantity else lines[i].quantity)
  {
    if lines == [] then []
    else
      var l := lines[0];
      [if l.item.id == id then l.(quantity := quantity) else l] + SetQuantity(lines[1..], id, quantity)
  }

  /** `Number(i.price || 0) * Number(i.quantity || 1)`: a quantity of 0 is charged as 1. */
  function LinePrice(l: CartLine): int {
    l.item.price * (if l.quantity == 0 then 1 else l.quantity)
  }

  /** `getTotalPrice()`, the sum of the line prices. */
  function TotalPrice(lines: seq<CartLine>): (total: int)
    ensures lines == [] ==> total == 0
    ensures (forall i :: 0 <= i < |lines| ==> lines[i].item.price >= 0 && lines[i].quantity >= 0) ==>
      total >= 0
  {
    if lines == [] then 0 else LinePrice(lines[0]) + TotalPrice(lines[1..])
  }

  /** `getTotalItems()`, the sum of the quantities (`Number(i.quantity || 0)`). */
  function TotalItems(lines: seq<CartLine>): (n: int)
    ensures lines == [] ==> n == 0
    ensures (forall i :: 0 <= i < |lines| ==> lines[i].quantity >= 1) ==> n >= |lines|
  {
    if lines == [] then 0 else lines[0].quantity + TotalItems(lines[1..])
  }

  /** A row of `GET /cart`'s `items`. */
  datatype BackendLine = BackendLine(
    productId: int, name: string, price: int, image: string, description: string, quantity: int)

  /** The mapping `product_id -> id` that the login fetch applies to each backend row. */
  function FromBackend(rows: seq<BackendLine>): (r: seq<CartLine>)
    ensures |r| == |rows|
    ensures forall i :: 0 <= i < |rows| ==>
      r[i].item.id == rows[i].productId && r[i].quantity == rows[i].quantity &&
      r[i].item.price == rows[i].price && r[i].item.name == rows[i].name &&
      r[i].item.image == rows[i].image && r[i].item.description == rows[i].description
  {
    seq(|rows|, i requires 0 <= i < |rows| =>
      var b := rows[i];
      CartLine(Product(b.productId, b.name, b.price, b.image, b.description, None, ""), b.quantity))
  }

  lemma {:induction false} QuantityOfIncrement(lines: seq<CartLine>, id: int, q: int, other: int)
    requires UniqueIds(lines)
    ensures QuantityOf(Increment(lines, id, q), other) ==
      QuantityOf(lines, other) + (if other == id && HasId(lines, id) then q else 0)
  {
    if lines != [] {
      var rest := lines[1..];
      UniqueTail(lines);
      QuantityOfIncrement(rest, id, q, other);
      assert Increment(lines, id, q)[1..] == Increment(rest, id, q);
      HasIdTail(lines, id);
    }
  }

  /** The tail of a list with distinct ids has distinct ids. */
  lemma UniqueTail(lines: seq<CartLine>)
    requires lines != [] && UniqueIds(lines)
    ensures UniqueIds(lines[1..])
  {
    var rest := lines[1..];
    forall i, j | 0 <= i < j < |rest| ensures rest[i].item.id != rest[j].item.id {
      assert rest[i] == lines[i + 1] && rest[j] == lines[j + 1];
    }
  }

  /** In a list with distinct ids, the tail has an id exactly when the list has it in a line
      other than the first. */
  lemma HasIdTail(lines: seq<CartLine>, id: int)
    requires lines != [] && UniqueIds(lines)
    ensures HasId(lines[1..], id) <==> HasId(lines, id) && lines[0].item.id != id
  {
    var rest := lines[1..];
    if HasId(lines, id) {
      var i :| 0 <= i < |lines| && lines[i].item.id == id;
      if i > 0 {
        assert rest[i - 1] == lines[i];
      }
    }
    if HasId(rest, id) {
      var i :| 0 <= i < |rest| && rest[i].item.id == id;
      assert lines[i + 1] == rest[i];
    }
  }

  lemma {:induction false} QuantityOfAppend(a: seq<CartLine>, b: seq<CartLine>, id: int)
    ensures QuantityOf(a + b, id) == QuantityOf(a, id) + QuantityOf(b, id)
  {
    if a != [] {
      assert (a + b)[1..] == a[1..] + b;
      QuantityOfAppend(a[1..], b, id);
    } else {
      assert a + b == b;
    }
  }

  /** In a cart with distinct ids, adding `quantity` of a product raises that product's quantity
      by `quantity` and leaves every other product's quantity alone, whether or not it was
      already in the cart. */
  lemma AddLineQuantity(lines: seq<CartLine>, product: Product, quantity: int, id: int)
    requires UniqueIds(lines)
    ensures QuantityOf(AddLine(lines, product, quantity), id) ==
      QuantityOf(lines, id) + (if id == product.id then quantity else 0)
  {
    if HasId(lines, product.id) {
      QuantityOfIncrement(lines, product.id, quantity, id);
    } else {
      QuantityOfAppend(lines, [CartLine(product, quantity)], id);
      assert [CartLine(product, quantity)][1..] == [];
    }
  }

  /** Adding `a` and then `b` of one product is adding `a + b` of it: two adds of 2 and 3 to one
      id leave a single line with quantity 5. */
  lemma AddLineTwice(lines: seq<CartLine>, product: Product, a: int, b: int)
    ensures AddLine(AddLine(lines, product, a), product, b) == AddLine(lines, product, a + b)
  {
    if HasId(lines, product.id) {
      var once := Increment(lines, product.id, a);
      assert AddLine(lines, product, a) == once;
      assert HasId(once, product.id);
      IncrementTwice(lines, product.id, a, b);
    } else {
      var once := lines + [CartLine(product, a)];
      assert AddLine(lines, product, a) == once;
      assert once[|lines|].item.id == product.id;
      IncrementNewLine(lines, product, a, b);
    }
  }

  /** Two increments of one id are one increment by their sum. */
  lemma IncrementTwice(lines: seq<CartLine>, id: int, a: int, b: int)
    ensures Increment(Increment(lines, id, a), id, b) == Increment(lines, id, a + b)
  {
    var twice := Increment(Increment(lines, id, a), id, b);
    var direct := Increment(lines, id, a + b);
    assert |twice| == |direct|;
    forall i | 0 <= i < |lines| ensures twice[i] == direct[i] {
    }
  }

  /** Incrementing the line just appended for a product otherwise absent raises only it. */
  lemma IncrementNewLine(lines: seq<CartLine>, product: Product, a: int, b: int)
    requires !HasId(lines, product.id)
    ensures Increment(lines + [CartLine(product, a)], product.id, b) == lines + [CartLine(product, a + b)]
  {
    var once := lines + [CartLine(product, a)];
    var twice := Increment(once, product.id, b);
    var direct := lines + [CartLine(product, a + b)];
    assert |twice| == |direct|;
    forall i | 0 <= i < |once| ensures twice[i] == direct[i] {
      if i < |lines| {
        assert once[i] == lines[i] && lines[i].item.id != product.id;
      }
    }
  }

  /** A fresh cart that receives 2 and then 3 of one product holds one line of 5. */
  lemma AddTwoThenThree(product: Product)
    ensures AddLine(AddLine([], product, 2), product, 3) == [CartLine(product, 5)]
  {
    AddLineTwice([], product, 2, 3);
  }

  lemma {:induction false} TotalItemsIsQuantitySum(lines: seq<CartLine>, id: int)
    ensures TotalItems(lines) == QuantityOf(lines, id) + TotalItems(RemoveLines(lines, id))
  {
    if lines != [] {
      var keep := (x: CartLine) => x.item.id != id;
      TotalItemsIsQuantitySum(lines[1..], id);
      assert Filter(lines, keep) == (if keep(lines[0]) then [lines[0]] else []) + Filter(lines[1..], keep);
      assert RemoveLines(lines[1..], id) == Filter(lines[1..], keep);
    }
  }

  /** Removing a product takes exactly its quantity off the item count. */
  lemma RemoveLinesItems(lines: seq<CartLine>, id: int)
    ensures TotalItems(RemoveLines(lines, id)) == TotalItems(lines) - QuantityOf(lines, id)
  {
    TotalItemsIsQuantitySum(lines, id);
  }

  /** In a cart with distinct ids, adding `quantity` of a product raises the item count by
      `quantity`. */
  lemma {:induction false} AddLineItems(lines: seq<CartLine>, product: Product, quantity: int)
    requires UniqueIds(lines)
    ensures TotalItems(AddLine(lines, product, quantity)) == TotalItems(lines) + quantity
  {
    var r := AddLine(lines, product, quantity);
    TotalItemsIsQuantitySum(lines, product.id);
    TotalItemsIsQuantitySum(r, product.id);
    AddLineQuantity(lines, product, quantity, product.id);
    assert RemoveLines(r, product.id) == RemoveLines(lines, product.id) by {
      RemoveAfterAdd(lines, product, quantity);
    }
  }

  lemma {:induction false} RemoveAfterAdd(lines: seq<CartLine>, product: Product, quantity: int)
    ensures RemoveLines(AddLine(lines, product, quantity), product.id) == RemoveLines(lines, product.id)
  {
    var keep := (x: CartLine) => x.item.id != product.id;
    if HasId(lines, product.id) {
      FilterIncrement(lines, product.id, quantity);
    } else {
      FilterAppend(lines, [CartLine(product, quantity)], keep);
      assert Filter([CartLine(product, quantity)], keep) == [];
    }
  }

  lemma {:induction false} FilterIncrement(lines: seq<CartLine>, id: int, q: int)
    ensures Filter(Increment(lines, id, q), (x: CartLine) => x.item.id != id) ==
            Filter(lines, (x: CartLine) => x.item.id != id)
  {
    if lines != [] {
      FilterIncrement(lines[1..], id, q);
      assert Increment(lines, id, q)[1..] == Increment(lines[1..], id, q);
    }
  }

  lemma {:induction false} TotalPriceAppend(a: seq<CartLine>, b: seq<CartLine>)
    ensures TotalPrice(a + b) == TotalPrice(a) + TotalPrice(b)
  {
    if a != [] {
      assert (a + b)[1..] == a[1..] + b;
      TotalPriceAppend(a[1..], b);
    } else {
      assert a + b == b;
    }
  }

  /** Adding a new product raises the price total by its price times the quantity (or times 1
      for a quantity of 0). */
  lemma AddNewLinePrice(lines: seq<CartLine>, product: Product, quantity: int)
    requires !HasId(lines, product.id)
    ensures TotalPrice(AddLine(lines, product, quantity)) ==
      TotalPrice(lines) + product.price * (if quantity == 0 then 1 else quantity)
  {
    TotalPriceAppend(lines, [CartLine(product, quantity)]);
  }

  /** A line left at quantity 0 still adds its price to the total, but nothing to the count. */
  lemma ZeroQuantityLine(product: Product)
    ensures TotalPrice([CartLine(product, 0)]) == product.price
    ensures TotalItems([CartLine(product, 0)]) == 0
  {
  }

  /** Setting a quantity changes only that product's quantity; an absent id changes nothing. */
  lemma {:induction false} SetQuantityEffect(lines: seq<CartLine>, id: int, quantity: int, other: int)
    requires UniqueIds(lines)
    ensures QuantityOf(SetQuantity(lines, id, quantity), other) ==
      (if other == id && HasId(lines, id) then quantity else QuantityOf(lines, other))
  {
    if lines != [] {
      var rest := lines[1..];
      assert UniqueIds(rest) by {
        forall i, j | 0 <= i < j < |rest| ensures rest[i].item.id != rest[j].item.id {
          assert rest[i] == lines[i + 1] && rest[j] == lines[j + 1];
        }
      }
      SetQuantityEffect(rest, id, quantity, other);
      assert SetQuantity(lines, id, quantity)[1..] == SetQuantity(rest, id, quantity);
      if lines[0].item.id == id {
        assert !HasId(rest, id) by {
          forall i | 0 <= i < |rest| ensures rest[i].item.id != id {
            assert rest[i] == lines[i + 1];
          }
        }
        NoIdNoQuantity(rest, id);
      } else {
        assert HasId(lines, id) == HasId(rest, id) by {
          if HasId(lines, id) {
            var i :| 0 <= i < |lines| && lines[i].item.id == id;
            assert rest[i - 1] == lines[i];
          }
          if HasId(rest, id) {
            var i :| 0 <= i < |rest| && rest[i].item.id == id;
            assert lines[i + 1] == rest[i];
          }
        }
      }
    }
  }

  lemma {:induction false} NoIdNoQuantity(lines: seq<CartLine>, id: int)
    requires !HasId(lines, id)
    ensures QuantityOf(lines, id) == 0
  {
    if lines != [] {
      assert !HasId(lines[1..], id) by {
        forall i | 0 <= i < |lines[1..]| ensures lines[1..][i].item.id != id {
          assert lines[1..][i] == lines[i + 1];
        }
      }
      NoIdNoQuantity(lines[1..], id);
    }
  }

  /** Setting the quantity of an absent id leaves the cart as it was. */
  lemma SetQuantityAbsent(lines: seq<CartLine>, id: int, quantity: int)
    requires !HasId(lines, id)
    ensures SetQuantity(lines, id, quantity) == lines
  {
    var r := SetQuantity(lines, id, quantity);
    forall i | 0 <= i < |lines| ensures r[i] == lines[i] {
      assert lines[i].item.id != id;
    }
  }

  /** `SetQuantity` keeps the ids, so it keeps them distinct. */
  lemma SetQuantityUnique(lines: seq<CartLine>, id: int, quantity: int)
    requires UniqueIds(lines)
    ensures UniqueIds(SetQuantity(lines, id, quantity))
  {
    var r := SetQuantity(lines, id, quantity);
    assert forall i :: 0 <= i < |r| ==> r[i].item.id == lines[i].item.id;
  }

  /** Removing keeps the order and a subset of the lines, so it keeps the ids distinct. */
  lemma RemoveLinesUnique(lines: seq<CartLine>, id: int)
    requires UniqueIds(lines)
    ensures UniqueIds(RemoveLines(lines, id))
    ensures IsSubsequence(RemoveLines(lines, id), lines)
  {
    FilterIsSubsequence(lines, (x: CartLine) => x.item.id != id);
    var key := (x: CartLine) => x.item.id;
    assert DistinctKeys(lines, key);
    SubsequenceDistinct(RemoveLines(lines, id), lines, key);
  }

  /** What the cart asks of `/cart`. */
  datatype CartRequest =
    | FetchCart
    | AddItem(productId: int, quantity: int, price: int)
    | RemoveItem(productId: int)
    | UpdateItem(productId: int, quantity: int)
    | ClearItems

  /** The `CartProvider`. `stored` is what local storage holds under `cart_items`, which the
      mirror effect rewrites after every change; `requests` is the log of backend calls made. */
  class Cart {
    var items: seq<CartLine>
    var loading: bool
    ghost var stored: seq<CartLine>
    ghost var requests: seq<Call<CartRequest>>

    /** The mirror effect's invariant. Distinct ids are not part of it: neither the saved copy
        nor the backend rows are checked for duplicates; each change keeps ids distinct once
        they are. */
    ghost predicate Valid()
      reads this
    {
      stored == items
    }

    /** The lazy initialiser: the parsed `cart_items`, or `[]` when absent or unparsable. */
    constructor (saved: Option<seq<CartLine>>)
      ensures Valid() && items == saved.GetOr([]) && !loading && requests == []
    {
      items := saved.GetOr([]);
      loading := false;
      stored := items;
      requests := [];
    }

    /** The login effect: with a session, fetch the backend cart and, if the fetch succeeds,
        replace the lines with its rows; nothing of the local cart is merged in. */
    method SyncOnLogin(session: Option<string>, reply: Option<seq<BackendLine>>)
      requires Valid()
      modifies this
      ensures Valid()
      ensures items == if session.Some? && reply.Some? then FromBackend(reply.value) else old(items)
      ensures requests == old(requests) + SendIf(session, FetchCart)
      ensures loading == (session.None? && old(loading))
    {
      if session.Some? {
        loading := true;
        requests := requests + SendIf(session, FetchCart);
        if reply.Some? {
          items := FromBackend(reply.value);
          stored := items;
        }
        loading := false;
      }
    }

    method Add(session: Option<string>, product: Product, quantity: int)
      requires Valid()
      modifies this
      ensures Valid() && loading == old(loading)
      ensures items == AddLine(old(items), product, quantity)
      ensures UniqueIds(old(items)) ==> UniqueIds(items)
      ensures requests == old(requests) + SendIf(session, AddItem(product.id, quantity, product.price))
    {
      items := AddLine(items, product, quantity);
      stored := items;
      requests := requests + SendIf(session, AddItem(product.id, quantity, product.price));
    }

    method Remove(session: Option<string>, id: int)
      requires Valid()
      modifies this
      ensures Valid() && loading == old(loading)
      ensures items == RemoveLines(old(items), id)
      ensures UniqueIds(old(items)) ==> UniqueIds(items)
      ensures requests == old(requests) + SendIf(session, RemoveItem(id))
    {
      if UniqueIds(items) {
        RemoveLinesUnique(items, id);
      }
      items := RemoveLines(items, id);
      stored := items;
      requests := requests + SendIf(session, RemoveItem(id));
    }

    method UpdateQuantity(session: Option<string>, id: int, quantity: int)
      requires Valid()
      modifies this
      ensures Valid() && loading == old(loading)
      ensures items == SetQuantity(old(items), id, quantity)
      ensures UniqueIds(old(items)) ==> UniqueIds(items)
      ensures requests == old(requests) + SendIf(session, UpdateItem(id, quantity))
    {
      if UniqueIds(items) {
        SetQuantityUnique(items, id, quantity);
      }
      items := SetQuantity(items, id, quantity);
      stored := items;
      requests := requests + SendIf(session, UpdateItem(id, quantity));
    }

    method Clear(session: Option<string>)
      requires Valid()
      modifies this
      ensures Valid() && loading == old(loading)
      ensures items == [] && UniqueIds(items) && TotalPrice(items) == 0 && TotalItems(items) == 0
      ensures requests == old(requests) + SendIf(session, ClearItems)
    {
      items := [];
      stored := items;
      requests := requests + SendIf(session, ClearItems);
    }

    /** `getTotalPrice()`. */
    function Total(): (total: int)
      reads this
      ensures total == TotalPrice(items)
    {
      TotalPrice(items)
    }

    /** `getTotalItems()`. */
    function Count(): (n: int)
      reads this
      ensures n == TotalItems(items)
    {
      TotalItems(items)
    }
  }
}
