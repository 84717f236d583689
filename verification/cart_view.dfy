/**
 * The cart surface: the derived total, when the surface is open, and what
 * its buttons do to the cart store and the progress controller.
 */
module CartView {
  import opened Outcomes
  import opened CartStore
  import Progress

  /** The amount one line contributes to the total. */
  function LineAmount(item: Item): int {
    item.quantity * item.price
  }

  /** The `reduce` fold: `acc + quantity * price`, left to right. */
  function TotalFrom(acc: int, items: seq<Item>): int
    decreases |items|
  {
    if |items| == 0 then acc else TotalFrom(acc + LineAmount(items[0]), items[1..])
  }

  /** The cart total, folded from 0: the sum of the line amounts, so an empty cart totals 0. */
  function Total(items: seq<Item>): (t: int)
    ensures t == Sum(items)
    ensures items == [] ==> t == 0
  {
    TotalFromIsSum(0, items);
    TotalFrom(0, items)
  }

  /** The sum of the line amounts, defined independently of the fold. */
  function Sum(items: seq<Item>): int
    decreases |items|
  {
    if |items| == 0 then 0 else LineAmount(items[0]) + Sum(items[1..])
  }

  /** The fold from any start adds the plain sum of the line amounts. */
  lemma {:induction false} TotalFromIsSum(acc: int, items: seq<Item>)
    ensures TotalFrom(acc, items) == acc + Sum(items)
    decreases |items|
  {
    if |items| > 0 {
      TotalFromIsSum(acc + LineAmount(items[0]), items[1..]);
    }
  }

  /** The sum splits over concatenation. */
  lemma {:induction false} SumAppend(a: seq<Item>, b: seq<Item>)
    ensures Sum(a + b) == Sum(a) + Sum(b)
    decreases |a|
  {
    if |a| > 0 {
      assert (a + b)[1..] == a[1..] + b;
      SumAppend(a[1..], b);
    } else {
      assert a + b == b;
    }
  }

  /** Replacing one line changes the sum by the difference of the two amounts. */
  lemma {:induction false} SumUpdate(items: seq<Item>, k: nat, x: Item)
    requires k < |items|
    ensures Sum(items[k := x]) == Sum(items) - LineAmount(items[k]) + LineAmount(x)
    decreases |items|
  {
    if k > 0 {
      assert items[k := x][1..] == items[1..][k - 1 := x];
      SumUpdate(items[1..], k - 1, x);
    } else {
      assert items[k := x][1..] == items[1..];
    }
  }

  /** Bumping a line's quantity by one adds its price to its amount. */
  lemma BumpAmount(x: Item)
    ensures LineAmount(x.(quantity := x.quantity + 1)) == LineAmount(x) + x.price
  {
    assert (x.quantity + 1) * x.price == x.quantity * x.price + x.price;
  }

  /** Bumping the line at k raises the sum by that line's price. */
  lemma SumAfterBump(items: seq<Item>, k: nat)
    requires k < |items|
    ensures Sum(items[k := items[k].(quantity := items[k].quantity + 1)]) == Sum(items) + items[k].price
  {
    SumUpdate(items, k, items[k].(quantity := items[k].quantity + 1));
    BumpAmount(items[k]);
  }

  /** Appending a line raises the sum by that line's amount. */
  lemma SumAfterAppend(items: seq<Item>, x: Item)
    ensures Sum(items + [x]) == Sum(items) + LineAmount(x)
  {
    SumAppend(items, [x]);
    assert [x][1..] == [];
  }

  /** ADD_ITEM raises the sum by the price of the line it bumps. */
  lemma SumAfterAdd(items: seq<Item>, item: Item)
    ensures var k := FindIndex(items, item.id);
      Sum(AddToItems(items, item)) == Sum(items) + (if k >= 0 then items[k].price else item.price)
  {
    var k := FindIndex(items, item.id);
    if k >= 0 {
      SumAfterBump(items, k);
    } else {
      SumAfterAppend(items, item.(quantity := 1));
    }
  }

  /** ADD_ITEM raises the total by the price of the line it bumps: the stored
      line's price when the id is present, the item's own price otherwise. */
  lemma TotalAfterAdd(items: seq<Item>, item: Item)
    ensures Total(AddToItems(items, item)) ==
      Total(items) + (if HasId(items, item.id) then items[FindIndex(items, item.id)].price else item.price)
  {
    SumAfterAdd(items, item);
  }

  /** The worked example: lines (10, 2), (5, 3), (7, 1) fold through 20 and 35 to 42. */
  lemma WorkedExample()
    ensures var a := Item("1", "", 10, "", "", 2);
      var b := Item("2", "", 5, "", "", 3);
      var c := Item("3", "", 7, "", "", 1);
      && TotalFrom(0, [a]) == 20
      && TotalFrom(0, [a, b]) == 35
      && Total([a, b, c]) == 42
  {
    var a := Item("1", "", 10, "", "", 2);
    var b := Item("2", "", 5, "", "", 3);
    var c := Item("3", "", 7, "", "", 1);
    assert [a, b, c][1..] == [b, c];
    assert [b, c][1..] == [c];
    assert [a, b][1..] == [b];
    assert [b][1..] == [];
    assert [c][1..] == [];
    assert TotalFrom(0, [a, b]) == TotalFrom(20, [b]) == TotalFrom(35, []);
    assert TotalFrom(0, [a, b, c]) == TotalFrom(20, [b, c]) == TotalFrom(35, [c]) == TotalFrom(42, []);
  }

  /** The cart surface is open exactly when the progress names the cart view. */
  predicate CartOpen(progress: string) {
    progress == "cart"
  }

  /** What the cart surface shows: whether it is open, the lines and the total. */
  datatype CartSurface = CartSurface(open: bool, lines: seq<Item>, total: int)

  /** The cart surface for a cart state and a progress string. */
  function RenderCart(cart: CartState, progress: string): (v: CartSurface)
    ensures v.open <==> Progress.Parse(progress) == Some(Progress.CartView)
    ensures v.lines == cart.items
    ensures v.total == Sum(cart.items)
  {
    TotalFromIsSum(0, cart.items);
    CartSurface(CartOpen(progress), cart.items, Total(cart.items))
  }

  /** The pieces of session state the cart surface reads and writes. */
  datatype App = App(cart: CartState, progress: string)

  /** The cart surface's buttons; Increase and Decrease sit on a rendered line. */
  datatype CartButton = Close | GoToCheckout | Increase(entry: Item) | Decrease(entry: Item)

  /** What a button calls: a progress transition or a cart action. */
  datatype Effect = Navigate(t: Progress.Transition) | Dispatch(a: Action)

  /** The handlers as written: both bottom buttons call `hideCart`. */
  function Wiring(b: CartButton): Effect {
    match b
    case Close => Navigate(Progress.HideCart)
    case GoToCheckout => Navigate(Progress.HideCart)
    case Increase(entry) => Dispatch(AddItemAction(entry))
    case Decrease(entry) => Dispatch(RemoveItemAction(entry.id))
  }

  /** The handlers with "Go to Checkout" calling `showCheckout`. */
  function WiringFixed(b: CartButton): Effect {
    match b
    case GoToCheckout => Navigate(Progress.ShowCheckout)
    case _ => Wiring(b)
  }

  /** Carries out an effect with the given reducer. */
  function Perform(app: App, e: Effect, fixed: bool): Result<App, CartError> {
    match e
    case Navigate(t) => Success(app.(progress := Progress.Step(app.progress, t)))
    case Dispatch(a) =>
      var r := if fixed then ReduceFixed(app.cart, a) else Reduce(app.cart, a);
      (match r
       case Success(c) => Success(app.(cart := c))
       case Failure(e) => Failure(e))
  }

  /** Pressing a cart button, as written. */
  function Press(app: App, b: CartButton): (r: Result<App, CartError>)
    ensures b.Close? || b.GoToCheckout? ==> r == Success(app.(progress := ""))
    ensures b.Increase? ==>
      r == Success(app.(cart := app.cart.(items := AddToItems(app.cart.items, b.entry))))
    ensures b.Decrease? ==> (r.Failure? <==> !HasId(app.cart.items, b.entry.id))
    ensures b.Decrease? && r.Success? ==>
      r.value.cart.items == app.cart.items && r.value.progress == app.progress
  {
    Perform(app, Wiring(b), false)
  }

  /** Pressing a cart button with the corrected reducer and wiring. */
  function PressFixed(app: App, b: CartButton): (r: Result<App, CartError>)
    ensures b.GoToCheckout? ==> r == Success(app.(progress := "checkout"))
    ensures b.Close? ==> r == Success(app.(progress := ""))
    ensures b.Increase? ==> r == Press(app, b)
    ensures b.Decrease? ==>
      match RemoveFromItems(app.cart.items, b.entry.id)
      case Success(l) => r == Success(app.(cart := app.cart.(items := l)))
      case Failure(e) => r == Failure(e)
  {
    Perform(app, WiringFixed(b), true)
  }

  /** From the open cart, neither bottom button opens the checkout: both close every surface. */
  lemma BottomButtonsClose(app: App, b: CartButton)
    requires b.Close? || b.GoToCheckout?
    ensures Press(app, b).Success?
    ensures Progress.Parse(Press(app, b).value.progress) == Some(Progress.Closed)
  {
  }

  /** The Decrease button of a rendered line never hits the missing-entry crash,
      and, as written, leaves the rendered lines and total unchanged. */
  lemma DecreaseOnRenderedLine(app: App, i: nat)
    requires i < |app.cart.items|
    ensures var r := Press(app, Decrease(app.cart.items[i]));
      r.Success? && RenderCart(r.value.cart, r.value.progress) == RenderCart(app.cart, app.progress)
  {
    assert HasId(app.cart.items, app.cart.items[i].id);
  }

  /** The Increase button of a rendered line in a valid cart raises the total
      by that line's price and keeps the surface open state. */
  lemma IncreaseOnRenderedLine(app: App, i: nat)
    requires Valid(app.cart.items)
    requires i < |app.cart.items|
    ensures var r := Press(app, Increase(app.cart.items[i]));
      r.Success?
      && Total(r.value.cart.items) == Total(app.cart.items) + app.cart.items[i].price
      && r.value.cart.items[i].quantity == app.cart.items[i].quantity + 1
      && |r.value.cart.items| == |app.cart.items|
      && r.value.progress == app.progress
  {
    var items := app.cart.items;
    assert HasId(items, items[i].id);
    assert FindIndex(items, items[i].id) == i;
    TotalAfterAdd(items, items[i]);
  }

  /** With the fixed wiring, "Go to Checkout" from the open cart opens the checkout view. */
  lemma GoToCheckoutFixedOpensCheckout(app: App)
    requires CartOpen(app.progress)
    ensures var r := PressFixed(app, GoToCheckout);
      r.Success? && Progress.Parse(r.value.progress) == Some(Progress.CheckoutView)
      && !CartOpen(r.value.progress)
  {
  }
}
