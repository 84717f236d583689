/**
 * The cart store: a pure reducer over an ordered list of line items.
 *
 * The reducer is modelled as written, including the two faults of its
 * REMOVE_ITEM branch: the computed list is stored under the key `item`
 * (so `items` never changes), and a missing id crashes while reading the
 * quantity of an absent entry. `ReduceFixed` is the evidently intended
 * reducer, which stores the removal result under `items`.
 */
module CartStore {
  import opened Outcomes

  /** A cart line: the meal record as it was added, plus the quantity the cart
      keeps. Prices are integer minor units. */
  datatype Item = Item(id: string, name: string, price: int, description: string, image: string, quantity: int)

  /** The reducer state. `items` is the cart; `item` is the extra key that
      REMOVE_ITEM writes, absent until the first removal. */
  datatype CartState = CartState(items: seq<Item>, item: Option<seq<Item>>)

  /** The reducer's initial state, `{ items: [] }`. */
  const Initial: CartState := CartState([], None)

  const AddTag: string := "ADD_ITEM"
  const RemoveTag: string := "REMOVE_ITEM"
  const ClearTag: string := "CLEAR-CART"

  /** A dispatched action: one of the three tagged shapes, or an object whose
      `type` is anything else. */
  datatype RawAction = AddItem(item: Item) | RemoveItem(id: string) | ClearCart | Unrecognised(kind: string)

  /** The `type` field of an action. */
  function Kind(a: RawAction): string {
    match a
    case AddItem(_) => AddTag
    case RemoveItem(_) => RemoveTag
    case ClearCart => ClearTag
    case Unrecognised(k) => k
  }

  /** Actions whose `type` agrees with their shape: an unrecognised action
      does not carry one of the three known tags. */
  type Action = a: RawAction | !a.Unrecognised? || a.kind !in {AddTag, RemoveTag, ClearTag}
    witness ClearCart

  /** Why a reduction crashed: REMOVE_ITEM read the quantity of an absent entry. */
  datatype CartError = MissingEntry(id: string)

  /** The action `addItem(item)` dispatches. */
  function AddItemAction(item: Item): (a: Action)
    ensures Kind(a) == "ADD_ITEM" && a.AddItem? && a.item == item
  {
    AddItem(item)
  }

  /** The action `removeItem(id)` dispatches. */
  function RemoveItemAction(id: string): (a: Action)
    ensures Kind(a) == "REMOVE_ITEM" && a.RemoveItem? && a.id == id
  {
    RemoveItem(id)
  }

  /** The action `clearCart()` dispatches. */
  function ClearCartAction(): (a: Action)
    ensures Kind(a) == "CLEAR-CART" && a.ClearCart?
  {
    ClearCart
  }

  /** Whether some entry carries the id. */
  predicate HasId(items: seq<Item>, id: string) {
    exists i :: 0 <= i < |items| && items[i].id == id
  }

  /** Ids are unique across the cart. */
  predicate UniqueIds(items: seq<Item>) {
    forall i, j :: 0 <= i < j < |items| ==> items[i].id != items[j].id
  }

  /** Every entry has a positive quantity. */
  predicate PositiveQuantities(items: seq<Item>) {
    forall i :: 0 <= i < |items| ==> items[i].quantity >= 1
  }

  /** The cart's invariant: unique ids and positive quantities. */
  predicate Valid(items: seq<Item>) {
    UniqueIds(items) && PositiveQuantities(items)
  }

  /** `findIndex` by id: the first position holding the id, or -1. */
  function FindIndex(items: seq<Item>, id: string): (k: int)
    ensures -1 <= k < |items|
    ensures k >= 0 ==> items[k].id == id
    ensures forall j :: 0 <= j < |items| && (k == -1 || j < k) ==> items[j].id != id
    ensures k == -1 <==> !HasId(items, id)
  {
    if |items| == 0 then -1
    else if items[0].id == id then 0
    else
      var k := FindIndex(items[1..], id);
      if k == -1 then -1 else k + 1
  }

  /** The item list ADD_ITEM computes: bump the first entry with the id, or
      append the item with quantity 1. */
  function AddToItems(items: seq<Item>, item: Item): (r: seq<Item>)
    ensures HasId(items, item.id) ==>
      var k := FindIndex(items, item.id);
      && |r| == |items|
      && r[k] == items[k].(quantity := items[k].quantity + 1)
      && forall j :: 0 <= j < |items| && j != k ==> r[j] == items[j]
    ensures !HasId(items, item.id) ==> r == items + [item.(quantity := 1)]
    ensures HasId(r, item.id)
  {
    var k := FindIndex(items, item.id);
    if k > -1 then
      items[k := items[k].(quantity := items[k].quantity + 1)]
    else
      var r := items + [item.(quantity := 1)];
      assert r[|items|].id == item.id;
      r
  }

  /** The item list REMOVE_ITEM computes: splice out the first entry with the
      id when its quantity is 1, otherwise decrement it in place. An absent id
      is the crash of reading `.quantity` of `undefined`. */
  function RemoveFromItems(items: seq<Item>, id: string): (r: Result<seq<Item>, CartError>)
    ensures r.Failure? <==> !HasId(items, id)
    ensures r.Failure? ==> r.error == MissingEntry(id)
    ensures r.Success? ==>
      var k := FindIndex(items, id);
      if items[k].quantity == 1 then
        && |r.value| == |items| - 1
        && (forall j :: 0 <= j < k ==> r.value[j] == items[j])
        && (forall j :: k < j < |items| ==> r.value[j - 1] == items[j])
      else
        && |r.value| == |items|
        && r.value[k] == items[k].(quantity := items[k].quantity - 1)
        && (forall j :: 0 <= j < |items| && j != k ==> r.value[j] == items[j])
  {
    var k := FindIndex(items, id);
    if k == -1 then Failure(MissingEntry(id))
    else if items[k].quantity == 1 then Success(items[..k] + items[k + 1..])
    else Success(items[k := items[k].(quantity := items[k].quantity - 1)])
  }

  /** `cartReducer` as written. */
  function Reduce(s: CartState, a: Action): (r: Result<CartState, CartError>)
    ensures r.Failure? <==> a.RemoveItem? && !HasId(s.items, a.id)
    ensures a.AddItem? ==> r == Success(s.(items := AddToItems(s.items, a.item)))
    ensures a.RemoveItem? && r.Success? ==>
      && r.value.items == s.items
      && r.value.item == Some(RemoveFromItems(s.items, a.id).value)
    ensures a.ClearCart? ==> r.Success? && r.value.items == [] && r.value.item == s.item
    ensures a.Unrecognised? ==> r == Success(s)
  {
    match a
    case AddItem(item) => Success(s.(items := AddToItems(s.items, item)))
    case RemoveItem(id) =>
      (match RemoveFromItems(s.items, id)
       case Success(l) => Success(s.(item := Some(l)))
       case Failure(e) => Failure(e))
    case ClearCart => Success(s.(items := []))
    case Unrecognised(_) => Success(s)
  }

  /** The reducer with the REMOVE_ITEM result stored under `items`, as the
      rest of the reducer evidently intends. */
  function ReduceFixed(s: CartState, a: Action): (r: Result<CartState, CartError>)
    ensures r.Failure? <==> a.RemoveItem? && !HasId(s.items, a.id)
    ensures a.RemoveItem? && r.Success? ==>
      && r.value.items == RemoveFromItems(s.items, a.id).value
      && r.value.item == s.item
      && |r.value.items| <= |s.items|
    ensures !a.RemoveItem? ==> r == Reduce(s, a)
  {
    match a
    case RemoveItem(id) =>
      (match RemoveFromItems(s.items, id)
       case Success(l) => Success(s.(items := l))
       case Failure(e) => Failure(e))
    case _ => Reduce(s, a)
  }

  /** ADD_ITEM keeps ids unique and quantities positive. */
  lemma AddKeepsValid(items: seq<Item>, item: Item)
    requires Valid(items)
    ensures Valid(AddToItems(items, item))
  {
    var r := AddToItems(items, item);
    if !HasId(items, item.id) {
      forall i, j | 0 <= i < j < |r|
        ensures r[i].id != r[j].id
      {
        if j == |items| {
          assert r[i] == items[i];
        }
      }
    }
  }

  /** The intended removal keeps ids unique and quantities positive. */
  lemma RemoveKeepsValid(items: seq<Item>, id: string)
    requires Valid(items)
    requires HasId(items, id)
    ensures Valid(RemoveFromItems(items, id).value)
  {
    var k := FindIndex(items, id);
    var r := RemoveFromItems(items, id).value;
    if items[k].quantity == 1 {
      assert r == items[..k] + items[k + 1..];
      forall i, j | 0 <= i < j < |r|
        ensures r[i].id != r[j].id
      {
        var i' := if i < k then i else i + 1;
        var j' := if j < k then j else j + 1;
        assert r[i] == items[i'] && r[j] == items[j'];
      }
    }
  }

  /** Both reducers keep the cart's invariant on every step that succeeds. */
  lemma ReduceKeepsValid(s: CartState, a: Action)
    requires Valid(s.items)
    ensures Reduce(s, a).Success? ==> Valid(Reduce(s, a).value.items)
    ensures ReduceFixed(s, a).Success? ==> Valid(ReduceFixed(s, a).value.items)
  {
    match a
    case AddItem(item) => AddKeepsValid(s.items, item);
    case RemoveItem(id) =>
      if HasId(s.items, id) {
        RemoveKeepsValid(s.items, id);
      }
    case ClearCart =>
    case Unrecognised(_) =>
  }

  /** Removing an id right after adding it restores the list, provided the
      quantities are positive (a bumped quantity is then never 1). */
  lemma AddThenRemove(items: seq<Item>, item: Item)
    requires PositiveQuantities(items)
    ensures RemoveFromItems(AddToItems(items, item), item.id) == Success(items)
  {
    var added := AddToItems(items, item);
    if HasId(items, item.id) {
      var k := FindIndex(items, item.id);
      assert added == items[k := items[k].(quantity := items[k].quantity + 1)];
      FindIndexAfterUpdate(items, item.id, items[k].(quantity := items[k].quantity + 1));
      var back := added[k := added[k].(quantity := added[k].quantity - 1)];
      assert back == items;
    } else {
      var n := |items|;
      assert FindIndex(added, item.id) == n by {
        forall j | 0 <= j < n ensures added[j].id != item.id {
          assert added[j] == items[j];
        }
      }
      assert added[..n] + added[n + 1..] == items;
    }
  }

  /** Adding the same new item twice gives one entry with quantity 2, never two entries. */
  lemma AddTwice(items: seq<Item>, item: Item)
    requires !HasId(items, item.id)
    ensures AddToItems(AddToItems(items, item), item) == items + [item.(quantity := 2)]
  {
    var once := AddToItems(items, item);
    var n := |items|;
    assert FindIndex(once, item.id) == n by {
      forall j | 0 <= j < n ensures once[j].id != item.id {
        assert once[j] == items[j];
      }
    }
  }

  /** The intended removal applied n times, stopping at the first crash. */
  function RemoveTimes(items: seq<Item>, id: string, n: nat): Result<seq<Item>, CartError>
    decreases n
  {
    if n == 0 then Success(items)
    else
      match RemoveFromItems(items, id)
      case Success(l) => RemoveTimes(l, id, n - 1)
      case Failure(e) => Failure(e)
  }

  /** Replacing the first entry with an id by another entry with the same id
      keeps it the first. */
  lemma FindIndexAfterUpdate(items: seq<Item>, id: string, x: Item)
    requires HasId(items, id)
    requires x.id == id
    ensures FindIndex(items[FindIndex(items, id) := x], id) == FindIndex(items, id)
  {
    var k := FindIndex(items, id);
    var l := items[k := x];
    assert l[k].id == id;
    forall j | 0 <= j < k ensures l[j].id != id {
      assert l[j] == items[j];
    }
  }

  /** Removing an entry as many times as its quantity splices exactly that entry out. */
  lemma {:induction false} RemoveQuantityTimes(items: seq<Item>, id: string)
    requires HasId(items, id)
    requires items[FindIndex(items, id)].quantity >= 1
    ensures var k := FindIndex(items, id);
      RemoveTimes(items, id, items[k].quantity) == Success(items[..k] + items[k + 1..])
    decreases items[FindIndex(items, id)].quantity
  {
    var k := FindIndex(items, id);
    var q := items[k].quantity;
    if q > 1 {
      var x := items[k].(quantity := q - 1);
      var l := items[k := x];
      assert RemoveFromItems(items, id) == Success(l);
      FindIndexAfterUpdate(items, id, x);
      assert HasId(l, id) by { assert l[k].id == id; }
      RemoveQuantityTimes(l, id);
      assert l[..k] == items[..k];
      assert l[k + 1..] == items[k + 1..];
    }
  }

  /** In a valid cart, removing an entry as many times as its quantity leaves no entry with that id. */
  lemma RemoveQuantityTimesDropsId(items: seq<Item>, id: string)
    requires Valid(items)
    requires HasId(items, id)
    ensures var k := FindIndex(items, id);
      var r := RemoveTimes(items, id, items[k].quantity);
      r.Success? && !HasId(r.value, id) && |r.value| == |items| - 1
  {
    var k := FindIndex(items, id);
    RemoveQuantityTimes(items, id);
    var rest := items[..k] + items[k + 1..];
    forall j | 0 <= j < |rest| ensures rest[j].id != id {
      if j >= k {
        assert rest[j] == items[j + 1];
      }
    }
  }

  /** With the reducer as written, removal never changes the visible `items`:
      a cart holding one line of quantity 1 still holds it afterwards. */
  lemma RemoveItemKeepsLine(line: Item)
    requires line.quantity == 1
    ensures var s := CartState([line], None);
      Reduce(s, RemoveItem(line.id)) == Success(CartState([line], Some([])))
  {
    assert FindIndex([line], line.id) == 0;
  }

  /** With the fixed reducer the same removal empties the cart. */
  lemma RemoveItemFixedEmpties(line: Item)
    requires line.quantity == 1
    ensures var s := CartState([line], None);
      ReduceFixed(s, RemoveItem(line.id)) == Success(CartState([], None))
  {
    assert FindIndex([line], line.id) == 0;
  }
}
