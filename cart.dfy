/** The cart line-item manager of composables/useCart.ts: an ordered list
    of line items changed in place by add, remove and update, with the
    item count and the price total derived from it. */
module Carts {
  import opened Wrappers

  datatype Image = Image(sourceUrl: string, altText: string)

  /** The fields of a product that `addToCart` reads; `image` may be missing. */
  datatype Product = Product(id: string, name: string, price: string, image: Option<Image>)

  /** `CartItem`. The quantity is whatever was stored last: nothing keeps it
      positive. */
  datatype CartItem = CartItem(id: string, name: string, price: string, quantity: int, image: Option<Image>)

  /** The item `addToCart` appends for a product seen for the first time:
      one unit, with the product's fields as they are. */
  function NewItem(p: Product): (it: CartItem)
    ensures it.quantity == 1
    ensures it.id == p.id && it.name == p.name && it.price == p.price && it.image == p.image
  {
    CartItem(p.id, p.name, p.price, 1, p.image)
  }

  ghost predicate HasId(items: seq<CartItem>, id: string) {
    exists i :: 0 <= i < |items| && items[i].id == id
  }

  /** No identifier occurs twice. */
  ghost predicate UniqueIds(items: seq<CartItem>) {
    forall i, j :: 0 <= i < j < |items| ==> items[i].id != items[j].id
  }

  function Ids(items: seq<CartItem>): (ids: set<string>)
    ensures forall id :: id in ids <==> HasId(items, id)
  {
    if items == [] then {}
    else
      assert forall id :: HasId(items, id) <==> items[0].id == id || HasId(items[1..], id) by {
        forall id ensures HasId(items, id) ==> items[0].id == id || HasId(items[1..], id) {
          if HasId(items, id) {
            var i :| 0 <= i < |items| && items[i].id == id;
            if i > 0 { assert items[1..][i - 1].id == id; }
          }
        }
        forall id ensures HasId(items[1..], id) ==> HasId(items, id) {
          if HasId(items[1..], id) {
            var i :| 0 <= i < |items[1..]| && items[1..][i].id == id;
            assert items[i + 1].id == id;
          }
        }
      }
      {items[0].id} + Ids(items[1..])
  }

  /** `items.find(item => item.id === id)`, as an index: the first match. */
  function FindIndex(items: seq<CartItem>, id: string): (r: Option<nat>)
    ensures r.Some? ==> r.value < |items| && items[r.value].id == id
    ensures r.Some? ==> forall j :: 0 <= j < r.value ==> items[j].id != id
    ensures r.None? <==> !HasId(items, id)
  {
    if items == [] then None
    else if items[0].id == id then Some(0)
    else
      match FindIndex(items[1..], id)
      case None =>
        assert forall j :: 1 <= j < |items| ==> items[j] == items[1..][j - 1];
        None
      case Some(k) =>
        assert forall j :: 1 <= j <= k + 1 ==> items[j] == items[1..][j - 1];
        Some(k + 1)
  }

  /** The list after `addToCart(product)`: it grows only for a new id and
      afterwards holds the id; `AddNew` and `AddExisting` give its contents. */
  function Added(items: seq<CartItem>, p: Product): (r: seq<CartItem>)
    ensures |r| == if HasId(items, p.id) then |items| else |items| + 1
    ensures HasId(r, p.id)
  {
    match FindIndex(items, p.id)
    case Some(k) =>
      var r := items[k := items[k].(quantity := items[k].quantity + 1)];
      assert r[k].id == p.id;
      r
    case None =>
      var r := items + [NewItem(p)];
      assert r[|items|].id == p.id;
      r
  }

  /** How many items have the identifier. */
  function Occurrences(items: seq<CartItem>, id: string): nat {
    if items == [] then 0 else (if items[0].id == id then 1 else 0) + Occurrences(items[1..], id)
  }

  /** The list after `removeFromCart(id)`: `items.filter(item => item.id !== id)`.
      It is shorter by exactly the number of items with the id. */
  function Removed(items: seq<CartItem>, id: string): (r: seq<CartItem>)
    ensures |r| == |items| - Occurrences(items, id)
  {
    if items == [] then []
    else if items[0].id == id then Removed(items[1..], id)
    else [items[0]] + Removed(items[1..], id)
  }

  /** The list after `updateQuantity(id, quantity)`: same length, and each
      item is either unchanged or has only its quantity set to `quantity`. */
  function Updated(items: seq<CartItem>, id: string, quantity: int): (r: seq<CartItem>)
    ensures |r| == |items|
    ensures forall i :: 0 <= i < |r| ==> r[i] == items[i] || r[i] == items[i].(quantity := quantity)
  {
    match FindIndex(items, id)
    case Some(k) => items[k := items[k].(quantity := quantity)]
    case None => items
  }

  /** `totalItems`: the quantities added up. */
  function QuantitySum(items: seq<CartItem>): (n: int)
    ensures items == [] ==> n == 0
    ensures (forall i :: 0 <= i < |items| ==> items[i].quantity >= 0) ==> n >= 0
  {
    if items == [] then 0 else items[0].quantity + QuantitySum(items[1..])
  }

  /** `totalPrice`, in ideal arithmetic, with the price parser a parameter. */
  function PriceSum(items: seq<CartItem>, parse: string -> real): (t: real)
    ensures items == [] ==> t == 0.0
  {
    if items == [] then 0.0 else parse(items[0].price) * (items[0].quantity as real) + PriceSum(items[1..], parse)
  }

  /** `items.reduce((total, item) => total + item.quantity, total)`: the
      left-to-right accumulation the source runs. With no negative
      quantity it never ends below its start value. */
  function ReduceQuantity(items: seq<CartItem>, total: int): (r: int)
    ensures (forall i :: 0 <= i < |items| ==> items[i].quantity >= 0) ==> r >= total
  {
    if items == [] then total else ReduceQuantity(items[1..], total + items[0].quantity)
  }

  /** The accumulation adds the quantity sum to its start value. */
  lemma {:induction false} ReduceQuantityIsSum(items: seq<CartItem>, total: int)
    ensures ReduceQuantity(items, total) == total + QuantitySum(items)
  {
    if items != [] {
      ReduceQuantityIsSum(items[1..], total + items[0].quantity);
    }
  }

  /** `items.reduce((total, item) => total + parse(item.price) * item.quantity, total)`.
      With no negative price or quantity it never ends below its start value. */
  function ReducePrice(items: seq<CartItem>, parse: string -> real, total: real): (r: real)
    ensures (forall i :: 0 <= i < |items| ==> parse(items[i].price) >= 0.0 && items[i].quantity >= 0) ==> r >= total
  {
    if items == [] then total
    else ReducePrice(items[1..], parse, total + parse(items[0].price) * (items[0].quantity as real))
  }

  lemma {:induction false} ReducePriceIsSum(items: seq<CartItem>, parse: string -> real, total: real)
    ensures ReducePrice(items, parse, total) == total + PriceSum(items, parse)
  {
    if items != [] {
      ReducePriceIsSum(items[1..], parse, total + parse(items[0].price) * (items[0].quantity as real));
    }
  }

  // ---------------------------------------------------------------------
  // Folds over a list replaced at one position

  lemma {:induction false} QuantitySumReplace(items: seq<CartItem>, k: nat, x: CartItem)
    requires k < |items|
    ensures QuantitySum(items[k := x]) == QuantitySum(items) - items[k].quantity + x.quantity
  {
    if k > 0 {
      QuantitySumReplace(items[1..], k - 1, x);
      assert items[k := x][1..] == items[1..][k - 1 := x];
    } else {
      assert items[k := x][1..] == items[1..];
    }
  }

  lemma {:induction false} PriceSumReplace(items: seq<CartItem>, k: nat, x: CartItem, parse: string -> real)
    requires k < |items|
    ensures PriceSum(items[k := x], parse) ==
      PriceSum(items, parse) - parse(items[k].price) * (items[k].quantity as real) + parse(x.price) * (x.quantity as real)
  {
    if k > 0 {
      PriceSumReplace(items[1..], k - 1, x, parse);
      assert items[k := x][1..] == items[1..][k - 1 := x];
    } else {
      assert items[k := x][1..] == items[1..];
    }
  }

  lemma {:induction false} QuantitySumAppend(items: seq<CartItem>, x: CartItem)
    ensures QuantitySum(items + [x]) == QuantitySum(items) + x.quantity
  {
    if items != [] {
      QuantitySumAppend(items[1..], x);
      assert (items + [x])[1..] == items[1..] + [x];
    } else {
      assert ([] + [x])[1..] == [];
    }
  }

  lemma {:induction false} PriceSumAppend(items: seq<CartItem>, x: CartItem, parse: string -> real)
    ensures PriceSum(items + [x], parse) == PriceSum(items, parse) + parse(x.price) * (x.quantity as real)
  {
    if items != [] {
      PriceSumAppend(items[1..], x, parse);
      assert (items + [x])[1..] == items[1..] + [x];
    } else {
      assert ([] + [x])[1..] == [];
    }
  }

  // ---------------------------------------------------------------------
  // addToCart

  /** A new identifier: exactly one item is appended at the end, with
      quantity 1 and the product's fields copied as they are. */
  lemma AddNew(items: seq<CartItem>, p: Product)
    requires !HasId(items, p.id)
    ensures |Added(items, p)| == |items| + 1
    ensures Added(items, p)[..|items|] == items
    ensures Added(items, p)[|items|] == CartItem(p.id, p.name, p.price, 1, p.image)
  {
    assert Added(items, p) == items + [NewItem(p)];
  }

  /** A known identifier: the first item with it gains exactly one unit,
      and nothing else changes, not even its stored name or price. */
  lemma AddExisting(items: seq<CartItem>, p: Product)
    requires HasId(items, p.id)
    ensures |Added(items, p)| == |items|
    ensures exists k :: (0 <= k < |items| && items[k].id == p.id
      && (forall j :: 0 <= j < k ==> items[j].id != p.id)
      && Added(items, p)[k] == items[k].(quantity := items[k].quantity + 1)
      && forall j :: 0 <= j < |items| && j != k ==> Added(items, p)[j] == items[j])
  {
    var k := FindIndex(items, p.id).value;
    assert Added(items, p)[k] == items[k].(quantity := items[k].quantity + 1);
  }

  /** Adding never creates a second item for an identifier. */
  lemma AddKeepsIdsUnique(items: seq<CartItem>, p: Product)
    requires UniqueIds(items)
    ensures UniqueIds(Added(items, p))
    ensures Ids(Added(items, p)) == Ids(items) + {p.id}
  {
    var r := Added(items, p);
    match FindIndex(items, p.id)
    case Some(k) =>
      assert forall i :: 0 <= i < |r| ==> r[i].id == items[i].id;
      assert forall id :: HasId(r, id) <==> HasId(items, id) by {
        forall id ensures HasId(r, id) ==> HasId(items, id) {
          if HasId(r, id) {
            var i :| 0 <= i < |r| && r[i].id == id;
            assert items[i].id == id;
          }
        }
      }
    case None =>
      assert forall i :: 0 <= i < |items| ==> r[i] == items[i];
      assert r[|items|].id == p.id;
      assert forall id :: HasId(r, id) <==> HasId(items, id) || id == p.id by {
        forall id ensures HasId(r, id) ==> HasId(items, id) || id == p.id {
          if HasId(r, id) {
            var i :| 0 <= i < |r| && r[i].id == id;
            if i < |items| { assert items[i].id == id; }
          }
        }
      }
  }

  /** Every add raises the item count by exactly one. */
  lemma AddIncrementsTotal(items: seq<CartItem>, p: Product)
    ensures QuantitySum(Added(items, p)) == QuantitySum(items) + 1
  {
    match FindIndex(items, p.id)
    case Some(k) => QuantitySumReplace(items, k, items[k].(quantity := items[k].quantity + 1));
    case None => QuantitySumAppend(items, NewItem(p));
  }

  /** Every add raises the price total by one unit of the price stored for
      that identifier: the product's price when it is new, the price of the
      existing item otherwise. */
  lemma AddRaisesPrice(items: seq<CartItem>, p: Product, parse: string -> real)
    ensures PriceSum(Added(items, p), parse) == PriceSum(items, parse) +
      match FindIndex(items, p.id)
      case Some(k) => parse(items[k].price)
      case None => parse(p.price)
  {
    match FindIndex(items, p.id)
    case Some(k) => AddRaisesPriceAt(items, p, parse, k);
    case None =>
      assert Added(items, p) == items + [NewItem(p)];
      PriceSumAppend(items, NewItem(p), parse);
  }

  lemma AddRaisesPriceAt(items: seq<CartItem>, p: Product, parse: string -> real, k: nat)
    requires FindIndex(items, p.id) == Some(k)
    ensures PriceSum(Added(items, p), parse) == PriceSum(items, parse) + parse(items[k].price)
  {
    assert Added(items, p) == items[k := items[k].(quantity := items[k].quantity + 1)];
    PriceSumBump(items, k, parse);
  }

  /** One more unit of item k adds its price to the total. */
  lemma PriceSumBump(items: seq<CartItem>, k: nat, parse: string -> real)
    requires k < |items|
    ensures PriceSum(items[k := items[k].(quantity := items[k].quantity + 1)], parse) == PriceSum(items, parse) + parse(items[k].price)
  {
    var x := items[k].(quantity := items[k].quantity + 1);
    PriceSumReplace(items, k, x, parse);
    OneMoreUnit(PriceSum(items, parse), PriceSum(items[k := x], parse), parse(items[k].price), items[k].quantity);
  }

  /** One more unit at a fixed price adds that price to a total. */
  lemma OneMoreUnit(before: real, after: real, price: real, quantity: int)
    requires after == before - price * (quantity as real) + price * ((quantity + 1) as real)
    ensures after == before + price
  {
  }

  /** The list after adding a sequence of products, one after another. */
  function AddedAll(items: seq<CartItem>, ps: seq<Product>): seq<CartItem>
    decreases |ps|
  {
    if ps == [] then items else AddedAll(Added(items, ps[0]), ps[1..])
  }

  function ProductIds(ps: seq<Product>): set<string> {
    set i | 0 <= i < |ps| :: ps[i].id
  }

  /** Unique identifiers have as many identifiers as items. */
  lemma {:induction false} UniqueIdsCount(items: seq<CartItem>)
    requires UniqueIds(items)
    ensures |Ids(items)| == |items|
  {
    if items != [] {
      UniqueIdsCount(items[1..]);
      assert !HasId(items[1..], items[0].id) by {
        forall i | 0 <= i < |items[1..]| ensures items[1..][i].id != items[0].id {
          assert items[1..][i] == items[i + 1];
        }
      }
    }
  }

  /** Filling a cart by adds: the cart keeps one item per distinct
      identifier, and the item count grows by the number of adds. */
  lemma {:induction false} AddedAllCounts(items: seq<CartItem>, ps: seq<Product>)
    requires UniqueIds(items)
    ensures UniqueIds(AddedAll(items, ps))
    ensures Ids(AddedAll(items, ps)) == Ids(items) + ProductIds(ps)
    ensures |AddedAll(items, ps)| == |Ids(items) + ProductIds(ps)|
    ensures QuantitySum(AddedAll(items, ps)) == QuantitySum(items) + |ps|
    decreases |ps|
  {
    if ps == [] {
      assert ProductIds(ps) == {};
      UniqueIdsCount(items);
    } else {
      AddKeepsIdsUnique(items, ps[0]);
      AddIncrementsTotal(items, ps[0]);
      AddedAllCounts(Added(items, ps[0]), ps[1..]);
      ProductIdsCons(ps);
    }
  }

  lemma ProductIdsCons(ps: seq<Product>)
    requires ps != []
    ensures ProductIds(ps) == {ps[0].id} + ProductIds(ps[1..])
  {
    forall id ensures id in ProductIds(ps) ==> id in {ps[0].id} + ProductIds(ps[1..]) {
      if id in ProductIds(ps) {
        var i :| 0 <= i < |ps| && ps[i].id == id;
        if i > 0 { assert ps[1..][i - 1].id == id; }
      }
    }
    forall id ensures id in ProductIds(ps[1..]) ==> id in ProductIds(ps) {
      if id in ProductIds(ps[1..]) {
        var i :| 0 <= i < |ps[1..]| && ps[1..][i].id == id;
        assert ps[i + 1].id == id;
      }
    }
  }

  /** In particular, from an empty cart. */
  lemma AddedAllFromEmpty(ps: seq<Product>)
    ensures UniqueIds(AddedAll([], ps))
    ensures |AddedAll([], ps)| == |ProductIds(ps)|
    ensures QuantitySum(AddedAll([], ps)) == |ps|
  {
    AddedAllCounts([], ps);
    assert Ids([]) == {};
  }

  // ---------------------------------------------------------------------
  // removeFromCart

  /** The filtered list: no item with the identifier is left, and an item
      stays exactly when its identifier is a different one. */
  lemma {:induction false} RemovedContents(items: seq<CartItem>, id: string)
    ensures !HasId(Removed(items, id), id)
    ensures forall x :: x in Removed(items, id) <==> x in items && x.id != id
    ensures |Removed(items, id)| <= |items|
  {
    if items != [] {
      RemovedContents(items[1..], id);
      assert items == [items[0]] + items[1..];
    }
  }

  /** Filtering commutes with concatenation: the items kept keep their
      relative order. */
  lemma {:induction false} RemovedConcat(s: seq<CartItem>, t: seq<CartItem>, id: string)
    ensures Removed(s + t, id) == Removed(s, id) + Removed(t, id)
  {
    if s == [] {
      assert s + t == t;
    } else {
      var st := s + t;
      assert st != [] && st[0] == s[0] && st[1..] == s[1..] + t;
      RemovedConcat(s[1..], t, id);
      if s[0].id == id {
        calc {
          Removed(st, id);
          Removed(s[1..] + t, id);
          Removed(s[1..], id) + Removed(t, id);
        }
      } else {
        calc {
          Removed(st, id);
          [s[0]] + Removed(s[1..] + t, id);
          [s[0]] + (Removed(s[1..], id) + Removed(t, id));
          ([s[0]] + Removed(s[1..], id)) + Removed(t, id);
        }
      }
    }
  }

  /** Removing an absent identifier changes nothing. */
  lemma {:induction false} RemovedAbsent(items: seq<CartItem>, id: string)
    requires !HasId(items, id)
    ensures Removed(items, id) == items
  {
    if items != [] {
      assert !HasId(items[1..], id) by {
        forall i | 0 <= i < |items[1..]| ensures items[1..][i].id != id {
          assert items[1..][i] == items[i + 1];
        }
      }
      RemovedAbsent(items[1..], id);
      assert items == [items[0]] + items[1..];
    }
  }

  /** Removing twice is removing once. */
  lemma RemovedIdempotent(items: seq<CartItem>, id: string)
    ensures Removed(Removed(items, id), id) == Removed(items, id)
  {
    RemovedContents(items, id);
    RemovedAbsent(Removed(items, id), id);
  }

  /** With unique identifiers, removing a present identifier deletes exactly
      the one item that has it. */
  lemma RemovedUnique(items: seq<CartItem>, id: string, k: nat)
    requires UniqueIds(items) && k < |items| && items[k].id == id
    ensures Removed(items, id) == items[..k] + items[k + 1..]
  {
    assert items == items[..k] + ([items[k]] + items[k + 1..]);
    RemovedConcat(items[..k], [items[k]] + items[k + 1..], id);
    RemovedConcat([items[k]], items[k + 1..], id);
    assert !HasId(items[..k], id) by {
      forall i | 0 <= i < k ensures items[..k][i].id != id {
        assert items[..k][i] == items[i];
      }
    }
    var after := items[k + 1..];
    assert !HasId(after, id) by {
      forall i | 0 <= i < |after| ensures after[i].id != id {
        assert after[i] == items[k + 1 + i];
      }
    }
    RemovedAbsent(items[..k], id);
    RemovedAbsent(items[k + 1..], id);
    assert Removed([items[k]], id) == [] by {
      assert [items[k]][1..] == [];
    }
  }

  /** Filtering a list keeps its identifiers unique. */
  lemma {:induction false} RemovedKeepsIdsUnique(items: seq<CartItem>, id: string)
    requires UniqueIds(items)
    ensures UniqueIds(Removed(items, id))
  {
    if items != [] {
      var tail := items[1..];
      assert UniqueIds(tail) by {
        forall i, j | 0 <= i < j < |tail| ensures tail[i].id != tail[j].id {
          assert tail[i] == items[i + 1] && tail[j] == items[j + 1];
        }
      }
      RemovedKeepsIdsUnique(tail, id);
      if items[0].id != id {
        RemovedContents(tail, id);
        var rest := Removed(tail, id);
        forall y | y in rest ensures y.id != items[0].id {
          var i :| 0 <= i < |tail| && tail[i] == y;
          assert items[i + 1] == y;
        }
        UniqueCons(items[0], rest);
      }
    }
  }

  /** An item in front of a list with unique ids and none of its own keeps
      the ids unique. */
  lemma UniqueCons(x: CartItem, rest: seq<CartItem>)
    requires UniqueIds(rest)
    requires forall y :: y in rest ==> y.id != x.id
    ensures UniqueIds([x] + rest)
  {
    var s := [x] + rest;
    forall i, j | 0 <= i < j < |s| ensures s[i].id != s[j].id {
      assert s[j] == rest[j - 1];
      if i > 0 { assert s[i] == rest[i - 1]; } else { assert rest[j - 1] in rest; }
    }
  }

  /** The count after a removal: with unique identifiers, the count of the
      removed item is subtracted. */
  lemma RemovedTotal(items: seq<CartItem>, id: string)
    requires UniqueIds(items)
    ensures QuantitySum(Removed(items, id)) ==
      match FindIndex(items, id)
      case Some(k) => QuantitySum(items) - items[k].quantity
      case None => QuantitySum(items)
  {
    match FindIndex(items, id)
    case Some(k) =>
      RemovedUnique(items, id, k);
      QuantitySumConcat(items[..k], items[k + 1..]);
      QuantitySumSplit(items, k);
    case None => RemovedAbsent(items, id);
  }

  lemma QuantitySumSplit(items: seq<CartItem>, k: nat)
    requires k < |items|
    ensures QuantitySum(items) == QuantitySum(items[..k]) + items[k].quantity + QuantitySum(items[k + 1..])
  {
    var tail := items[k..];
    assert items == items[..k] + tail;
    QuantitySumConcat(items[..k], tail);
    assert tail[1..] == items[k + 1..];
  }

  lemma {:induction false} QuantitySumConcat(s: seq<CartItem>, t: seq<CartItem>)
    ensures QuantitySum(s + t) == QuantitySum(s) + QuantitySum(t)
  {
    if s == [] {
      assert s + t == t;
    } else {
      QuantitySumConcat(s[1..], t);
      assert (s + t)[1..] == s[1..] + t;
    }
  }

  // ---------------------------------------------------------------------
  // updateQuantity

  /** The first item with the identifier takes the new quantity, whatever
      its sign, and stays in the list; every other item is unchanged; an
      absent identifier leaves the list as it was. */
  lemma UpdatedContents(items: seq<CartItem>, id: string, quantity: int)
    ensures |Updated(items, id, quantity)| == |items|
    ensures !HasId(items, id) ==> Updated(items, id, quantity) == items
    ensures HasId(items, id) ==> exists k :: (0 <= k < |items| && items[k].id == id
      && (forall j :: 0 <= j < k ==> items[j].id != id)
      && Updated(items, id, quantity)[k] == items[k].(quantity := quantity)
      && forall j :: 0 <= j < |items| && j != k ==> Updated(items, id, quantity)[j] == items[j])
  {
    if HasId(items, id) {
      var k := FindIndex(items, id).value;
      assert Updated(items, id, quantity)[k] == items[k].(quantity := quantity);
    }
  }

  /** Updating keeps the identifiers, and so their uniqueness. */
  lemma UpdatedKeepsIds(items: seq<CartItem>, id: string, quantity: int)
    ensures forall i :: 0 <= i < |items| ==> Updated(items, id, quantity)[i].id == items[i].id
    ensures UniqueIds(items) ==> UniqueIds(Updated(items, id, quantity))
  {
    UpdatedContents(items, id, quantity);
  }

  /** The count after an update: the old quantity is replaced by the new one. */
  lemma UpdatedTotal(items: seq<CartItem>, id: string, quantity: int)
    ensures QuantitySum(Updated(items, id, quantity)) ==
      match FindIndex(items, id)
      case Some(k) => QuantitySum(items) - items[k].quantity + quantity
      case None => QuantitySum(items)
  {
    match FindIndex(items, id)
    case Some(k) => QuantitySumReplace(items, k, items[k].(quantity := quantity));
    case None =>
  }

  // ---------------------------------------------------------------------
  // The reactive cart

  /** The state `useCart()` creates: the `items` list, updated in place. */
  class Cart {
    var items: seq<CartItem>

    /** A fresh cart is empty. */
    constructor ()
      ensures items == []
    {
      items := [];
    }

    /** `items.value.find(item => item.id === id)`, as a scan from the front. */
    method Find(id: string) returns (k: Option<nat>)
      ensures k == FindIndex(items, id)
    {
      var i := 0;
      while i < |items|
        invariant 0 <= i <= |items|
        invariant forall j :: 0 <= j < i ==> items[j].id != id
      {
        if items[i].id == id {
          return Some(i);
        }
        i := i + 1;
      }
      return None;
    }

    /** `addToCart(product)`. */
    method AddToCart(product: Product)
      modifies this
      ensures items == Added(old(items), product)
      ensures UniqueIds(old(items)) ==> UniqueIds(items)
      ensures TotalItems() == old(TotalItems()) + 1
    {
      AddIncrementsTotal(items, product);
      if UniqueIds(items) { AddKeepsIdsUnique(items, product); }
      var existing := Find(product.id);
      if existing.Some? {
        var k := existing.value;
        items := items[k := items[k].(quantity := items[k].quantity + 1)];
      } else {
        items := items + [NewItem(product)];
      }
    }

    /** `removeFromCart(id)`: `items` is replaced by the filtered list. */
    method RemoveFromCart(id: string)
      modifies this
      ensures items == Removed(old(items), id)
      ensures !HasId(items, id)
      ensures UniqueIds(old(items)) ==> UniqueIds(items)
    {
      RemovedContents(items, id);
      if UniqueIds(items) { RemovedKeepsIdsUnique(items, id); }
      items := Removed(items, id);
    }

    /** `updateQuantity(id, quantity)`. */
    method UpdateQuantity(id: string, quantity: int)
      modifies this
      ensures items == Updated(old(items), id, quantity)
      ensures UniqueIds(old(items)) ==> UniqueIds(items)
    {
      UpdatedContents(items, id, quantity);
      UpdatedKeepsIds(items, id, quantity);
      var found := Find(id);
      if found.Some? {
        var k := found.value;
        items := items[k := items[k].(quantity := quantity)];
      }
    }

    /** `totalItems`: the source's reduce from 0, which is the quantity sum. */
    function TotalItems(): (n: int)
      reads this
      ensures n == QuantitySum(items)
    {
      ReduceQuantityIsSum(items, 0);
      ReduceQuantity(items, 0)
    }

    /** `totalPrice`, with `parseFloat` as the parameter `parse`: the
        source's reduce from 0, which is the price sum. */
    function TotalPrice(parse: string -> real): (t: real)
      reads this
      ensures t == PriceSum(items, parse)
    {
      ReducePriceIsSum(items, parse, 0.0);
      ReducePrice(items, parse, 0.0)
    }
  }
}
