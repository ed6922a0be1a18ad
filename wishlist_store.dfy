/** The wishlist store: products keyed by id with the time they were added, mirrored to local
    storage under `wishlist` and, when signed in, pushed to `/wishlist` on the backend. */
module WishlistStore {
  import opened Wrappers
  import opened Seqs
  import opened Catalog
  import opened Session

  /** `{ ...product, addedAt }`. */
  datatype WishEntry = WishEntry(item: Product, addedAt: string)

  /** `isInWishlist(id)`: `wishlist.some(item => item.id === id)`. */
  predicate IsIn(list: seq<WishEntry>, id: int) {
    exists i :: 0 <= i < |list| && list[i].item.id == id
  }

  predicate UniqueIds(list: seq<WishEntry>) {
    forall i, j :: 0 <= i < j < |list| ==> list[i].item.id != list[j].item.id
  }

  lemma IsInAppend(list: seq<WishEntry>, e: WishEntry)
    ensures forall id :: IsIn(list + [e], id) <==> IsIn(list, id) || id == e.item.id
  {
    var r := list + [e];
    forall id ensures IsIn(r, id) <==> IsIn(list, id) || id == e.item.id {
      if IsIn(r, id) {
        var i :| 0 <= i < |r| && r[i].item.id == id;
        if i < |list| {
          assert list[i].item.id == id;
        }
      }
      if IsIn(list, id) {
        var i :| 0 <= i < |list| && list[i].item.id == id;
        assert r[i].item.id == id;
      }
      if id == e.item.id {
        assert r[|list|].item.id == id;
      }
    }
  }

  /** `addToWishlist(product)` at time `now`: a product already listed leaves the list as it
      was; a new one is appended as `{ ...product, addedAt: now }`. */
  function AddEntry(list: seq<WishEntry>, product: Product, now: string): (r: seq<WishEntry>)
    ensures IsIn(list, product.id) ==> r == list
    ensures !IsIn(list, product.id) ==> r == list + [WishEntry(product, now)] && |r| == |list| + 1
    ensures forall id :: IsIn(r, id) <==> IsIn(list, id) || id == product.id
    ensures UniqueIds(list) ==> UniqueIds(r)
  {
    if IsIn(list, product.id) then list
    else
      IsInAppend(list, WishEntry(product, now));
      list + [WishEntry(product, now)]
  }

  /** `removeFromWishlist(id)`: `list.filter(item => item.id !== id)`. */
  function RemoveEntries(list: seq<WishEntry>, id: int): (r: seq<WishEntry>)
    ensures forall x :: x in r <==> x in list && x.item.id != id
    ensures forall other :: IsIn(r, other) <==> IsIn(list, other) && other != id
    ensures !IsIn(list, id) ==> r == list
  {
    var keep := (x: WishEntry) => x.item.id != id;
    var r := Filter(list, keep);
    FilterMembers(list, keep);
    if !IsIn(list, id) then
      FilterAll(list, keep);
      RemovedMembership(list, id, r);
      r
    else
      RemovedMembership(list, id, r);
      r
  }

  /** Removing keeps the order and a subset of the entries, so it keeps the ids distinct. */
  lemma RemoveEntriesUnique(list: seq<WishEntry>, id: int)
    requires UniqueIds(list)
    ensures UniqueIds(RemoveEntries(list, id))
    ensures IsSubsequence(RemoveEntries(list, id), list)
  {
    FilterIsSubsequence(list, (x: WishEntry) => x.item.id != id);
    var key := (x: WishEntry) => x.item.id;
    assert DistinctKeys(list, key);
    SubsequenceDistinct(RemoveEntries(list, id), list, key);
  }

  lemma RemovedMembership(list: seq<WishEntry>, id: int, r: seq<WishEntry>)
    requires forall x :: x in r <==> x in list && x.item.id != id
    ensures forall other :: IsIn(r, other) <==> IsIn(list, other) && other != id
  {
    forall other ensures IsIn(r, other) <==> IsIn(list, other) && other != id {
      if IsIn(r, other) {
        var i :| 0 <= i < |r| && r[i].item.id == other;
        assert r[i] in r;
        var k :| 0 <= k < |list| && list[k] == r[i];
      }
      if IsIn(list, other) && other != id {
        var i :| 0 <= i < |list| && list[i].item.id == other;
        assert list[i] in list;
        var k :| 0 <= k < |r| && r[k] == list[i];
      }
    }
  }

  /** `getWishlistCount()`. */
  function CountOf(list: seq<WishEntry>): (n: nat)
    ensures n == |list|
    ensures n == 0 <==> forall id :: !IsIn(list, id)
  {
    if list != [] then
      assert IsIn(list, list[0].item.id);
      |list|
    else |list|
  }

  /** Adding a product twice is adding it once: the second add keeps the first `addedAt`. */
  lemma AddIdempotent(list: seq<WishEntry>, product: Product, first: string, second: string)
    ensures AddEntry(AddEntry(list, product, first), product, second) == AddEntry(list, product, first)
  {
  }

  /** After adding a product it is in the list, and after removing it, it is not. */
  lemma AddThenRemove(list: seq<WishEntry>, product: Product, now: string)
    ensures IsIn(AddEntry(list, product, now), product.id)
    ensures !IsIn(RemoveEntries(AddEntry(list, product, now), product.id), product.id)
    ensures forall other :: other != product.id ==>
      (IsIn(RemoveEntries(AddEntry(list, product, now), product.id), other) <==> IsIn(list, other))
  {
  }

  /** A row of `GET /wishlist`'s `items`. */
  datatype BackendEntry = BackendEntry(
    productId: int, name: string, price: int, image: string, description: string, addedAt: string)

  /** The mapping `product_id -> id`, `added_at -> addedAt` of the login fetch. */
  function FromBackend(rows: seq<BackendEntry>): (r: seq<WishEntry>)
    ensures |r| == |rows|
    ensures forall i :: 0 <= i < |rows| ==>
      r[i].item.id == rows[i].productId && r[i].addedAt == rows[i].addedAt &&
      r[i].item.name == rows[i].name && r[i].item.price == rows[i].price &&
      r[i].item.image == rows[i].image && r[i].item.description == rows[i].description
  {
    seq(|rows|, i requires 0 <= i < |rows| =>
      var b := rows[i];
      WishEntry(Product(b.productId, b.name, b.price, b.image, b.description, None, ""), b.addedAt))
  }

  function Ids(list: seq<WishEntry>): (ids: seq<int>)
    ensures |ids| == |list| && forall i :: 0 <= i < |list| ==> ids[i] == list[i].item.id
  {
    seq(|list|, i requires 0 <= i < |list| => list[i].item.id)
  }

  /** The ids `clearWishlist` sends `DELETE /wishlist/:id` for, when the `i`-th delete succeeds
      exactly if `ok[i]`: one per entry, in order, up to and including the first that fails,
      since the loop sits inside a single `try`. */
  function DeletesIssued(pending: seq<WishEntry>, ok: seq<bool>): seq<int>
    requires |ok| == |pending|
  {
    if pending == [] then []
    else [pending[0].item.id] + (if ok[0] then DeletesIssued(pending[1..], ok[1..]) else [])
  }

  /** The deletes issued are the first ids of the list, in order. */
  lemma {:induction false} DeletesIssuedPrefix(pending: seq<WishEntry>, ok: seq<bool>)
    requires |ok| == |pending|
    ensures var d := DeletesIssued(pending, ok);
      |d| <= |pending| && d == Ids(pending)[..|d|]
  {
    if pending != [] {
      DeletesIssuedPrefix(pending[1..], ok[1..]);
      var d := DeletesIssued(pending, ok);
      var rest := DeletesIssued(pending[1..], ok[1..]);
      assert Ids(pending)[1..] == Ids(pending[1..]);
      if ok[0] {
        assert d == [pending[0].item.id] + rest;
        assert Ids(pending)[..|d|] == [Ids(pending)[0]] + Ids(pending)[1..][..|rest|];
      } else {
        assert d == [pending[0].item.id];
      }
    }
  }

  /** When every delete succeeds, every entry's id is sent. */
  lemma {:induction false} DeletesIssuedAllOk(pending: seq<WishEntry>, ok: seq<bool>)
    requires |ok| == |pending| && forall i :: 0 <= i < |ok| ==> ok[i]
    ensures DeletesIssued(pending, ok) == Ids(pending)
  {
    if pending != [] {
      assert ok[0];
      assert forall i :: 0 <= i < |ok[1..]| ==> ok[1..][i] == ok[i + 1];
      DeletesIssuedAllOk(pending[1..], ok[1..]);
      assert Ids(pending) == [pending[0].item.id] + Ids(pending[1..]);
    }
  }

  /** When the first failing delete is the `k`-th, exactly `k + 1` deletes are sent. */
  lemma {:induction false} DeletesIssuedStopAtFailure(pending: seq<WishEntry>, ok: seq<bool>, k: int)
    requires |ok| == |pending| && 0 <= k < |ok| && !ok[k] && forall i :: 0 <= i < k ==> ok[i]
    ensures |DeletesIssued(pending, ok)| == k + 1
  {
    if k > 0 {
      assert ok[0];
      assert !ok[1..][k - 1];
      assert forall i :: 0 <= i < k - 1 ==> ok[1..][i] == ok[i + 1];
      DeletesIssuedStopAtFailure(pending[1..], ok[1..], k - 1);
    }
  }

  /** One step of `DeletesIssued` from position `i`. */
  lemma DeletesIssuedAt(pending: seq<WishEntry>, ok: seq<bool>, i: int)
    requires |ok| == |pending| && 0 <= i < |pending|
    ensures DeletesIssued(pending[i..], ok[i..]) ==
      [pending[i].item.id] + (if ok[i] then DeletesIssued(pending[i + 1..], ok[i + 1..]) else [])
  {
    assert pending[i..][1..] == pending[i + 1..] && ok[i..][1..] == ok[i + 1..];
  }

  /** The loop of `clearWishlist`: one delete per entry, stopping after the first failure. */
  method SendDeletes(pending: seq<WishEntry>, ok: seq<bool>) returns (sent: seq<int>)
    requires |ok| == |pending|
    ensures sent == DeletesIssued(pending, ok)
  {
    sent := [];
    var i := 0;
    while i < |pending|
      invariant 0 <= i <= |pending|
      invariant sent + DeletesIssued(pending[i..], ok[i..]) == DeletesIssued(pending, ok)
    {
      DeletesIssuedAt(pending, ok, i);
      ghost var rest := if ok[i] then DeletesIssued(pending[i + 1..], ok[i + 1..]) else [];
      assert (sent + [pending[i].item.id]) + rest == sent + ([pending[i].item.id] + rest);
      sent := sent + [pending[i].item.id];
      if !ok[i] {
        return;
      }
      i := i + 1;
    }
    assert pending[i..] == [] && ok[i..] == [];
  }

  datatype WishlistRequest = FetchWishlist | AddProduct(productId: int) | RemoveProduct(productId: int)

  function DeleteCalls(token: string, ids: seq<int>): (calls: seq<Call<WishlistRequest>>)
    ensures |calls| == |ids| && forall i :: 0 <= i < |ids| ==> calls[i] == Call(token, RemoveProduct(ids[i]))
  {
    seq(|ids|, i requires 0 <= i < |ids| => Call(token, RemoveProduct(ids[i])))
  }

  /** The `WishlistProvider`. `stored` is what local storage holds under `wishlist`, which the
      mirror effect rewrites after every change; `requests` is the log of backend calls made. */
  class Wishlist {
    var entries: seq<WishEntry>
    var loading: bool
    ghost var stored: seq<WishEntry>
    ghost var requests: seq<Call<WishlistRequest>>

    /** The mirror effect's invariant. Distinct ids are not part of it: neither the saved copy
        nor the backend rows are checked for duplicates; each change keeps ids distinct once
        they are. */
    ghost predicate Valid()
      reads this
    {
      stored == entries
    }

    /** The initial `[]` followed by the mount effect, which loads the saved `wishlist` when it
        is present and parses. */
    constructor (saved: Option<seq<WishEntry>>)
      ensures Valid() && entries == saved.GetOr([]) && !loading && requests == []
    {
      entries := saved.GetOr([]);
      loading := false;
      stored := entries;
      requests := [];
    }

    /** The login effect: with a session, fetch the backend list and, if that succeeds,
        replace the entries with its rows. */
    method SyncOnLogin(session: Option<string>, reply: Option<seq<BackendEntry>>)
      requires Valid()
      modifies this
      ensures Valid()
      ensures entries == if session.Some? && reply.Some? then FromBackend(reply.value) else old(entries)
      ensures requests == old(requests) + SendIf(session, FetchWishlist)
      ensures loading == (session.None? && old(loading))
    {
      if session.Some? {
        loading := true;
        requests := requests + SendIf(session, FetchWishlist);
        if reply.Some? {
          entries := FromBackend(reply.value);
          stored := entries;
        }
        loading := false;
      }
    }

    method Add(session: Option<string>, product: Product, now: string)
      requires Valid()
      modifies this
      ensures Valid() && loading == old(loading)
      ensures entries == AddEntry(old(entries), product, now)
      ensures UniqueIds(old(entries)) ==> UniqueIds(entries)
      ensures requests == old(requests) + SendIf(session, AddProduct(product.id))
    {
      entries := AddEntry(entries, product, now);
      stored := entries;
      requests := requests + SendIf(session, AddProduct(product.id));
    }

    method Remove(session: Option<string>, id: int)
      requires Valid()
      modifies this
      ensures Valid() && loading == old(loading)
      ensures entries == RemoveEntries(old(entries), id)
      ensures UniqueIds(old(entries)) ==> UniqueIds(entries)
      ensures requests == old(requests) + SendIf(session, RemoveProduct(id))
    {
      if UniqueIds(entries) {
        RemoveEntriesUnique(entries, id);
      }
      entries := RemoveEntries(entries, id);
      stored := entries;
      requests := requests + SendIf(session, RemoveProduct(id));
    }

    /** `clearWishlist()`: the list becomes empty at once; with a session, the pre-clear
        entries are deleted one by one until a delete fails (`ok[i]` tells whether the `i`-th
        succeeds). */
    method Clear(session: Option<string>, ok: seq<bool>)
      requires Valid() && |ok| == |entries|
      modifies this
      ensures Valid() && loading == old(loading)
      ensures entries == [] && UniqueIds(entries)
      ensures session.None? ==> requests == old(requests)
      ensures session.Some? ==>
        requests == old(requests) + DeleteCalls(session.value, DeletesIssued(old(entries), ok))
    {
      var pending := entries;
      entries := [];
      stored := entries;
      if session.Some? {
        var sent := SendDeletes(pending, ok);
        requests := requests + DeleteCalls(session.value, sent);
      }
    }

    function Contains(id: int): (b: bool)
      reads this
      ensures b == IsIn(entries, id)
    {
      IsIn(entries, id)
    }

    function Count(): (n: nat)
      reads this
      ensures n == |entries|
    {
      CountOf(entries)
    }
  }
}
