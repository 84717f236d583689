/**
 * The checkout surface: its open predicate and total, the Close handler,
 * the customer object built from the form, and the order request it sends.
 */
module CheckoutView {
  import opened Outcomes
  import opened CartStore
  import Progress
  import CartView
  import HttpRequest

  /** The checkout surface is open exactly when the progress names the checkout view. */
  predicate CheckoutOpen(progress: string) {
    progress == "checkout"
  }

  /** What the checkout surface shows: whether it is open and the total amount. */
  datatype CheckoutSurface = CheckoutSurface(open: bool, total: int)

  /** The checkout surface for a cart state and a progress string. */
  function RenderCheckout(cart: CartState, progress: string): (v: CheckoutSurface)
    ensures v.open <==> Progress.Parse(progress) == Some(Progress.CheckoutView)
    ensures v.total == CartView.Sum(cart.items)
  {
    CartView.TotalFromIsSum(0, cart.items);
    CheckoutSurface(CheckoutOpen(progress), CartView.Total(cart.items))
  }

  /** For every progress value at most one surface is open, and for the same
      cart both surfaces show the same total. */
  lemma SurfacesAgree(cart: CartState, progress: string)
    ensures !(CartView.RenderCart(cart, progress).open && RenderCheckout(cart, progress).open)
    ensures CartView.RenderCart(cart, progress).total == RenderCheckout(cart, progress).total
  {
  }

  /** `handleClose`: the checkout's Close button calls `hideCheckout`, closing every surface. */
  function HandleClose(app: CartView.App): (r: CartView.App)
    ensures Progress.Parse(r.progress) == Some(Progress.Closed)
    ensures !CheckoutOpen(r.progress) && !CartView.CartOpen(r.progress)
    ensures r.cart == app.cart
  {
    app.(progress := Progress.Step(app.progress, Progress.HideCheckout))
  }

  /** The five form inputs, each submitted under its input id. */
  datatype Form = Form(name: string, email: string, street: string, postalCode: string, city: string)

  /** The input ids, in document order. */
  const FieldIds: seq<string> := ["name", "email", "street", "postal-code", "city"]

  /** `fd.entries()`: one (id, value) pair per input, in document order. */
  function FormEntries(f: Form): (e: seq<(string, string)>)
    ensures |e| == |FieldIds|
    ensures forall i :: 0 <= i < |e| ==> e[i].0 == FieldIds[i]
    ensures e[0].1 == f.name && e[1].1 == f.email && e[2].1 == f.street
    ensures e[3].1 == f.postalCode && e[4].1 == f.city
  {
    [("name", f.name), ("email", f.email), ("street", f.street), ("postal-code", f.postalCode), ("city", f.city)]
  }

  /** `Object.fromEntries`: later pairs overwrite earlier ones with the same key. */
  function FromEntries(entries: seq<(string, string)>): (m: map<string, string>)
    ensures m.Keys == set i | 0 <= i < |entries| :: entries[i].0
    decreases |entries|
  {
    if |entries| == 0 then map[]
    else
      var n := |entries| - 1;
      var m := FromEntries(entries[..n]);
      assert forall i :: 0 <= i < n ==> entries[..n][i] == entries[i];
      m[entries[n].0 := entries[n].1]
  }

  /** With distinct keys, every pair survives `Object.fromEntries`. */
  lemma {:induction false} FromEntriesDistinct(entries: seq<(string, string)>)
    requires forall i, j :: 0 <= i < j < |entries| ==> entries[i].0 != entries[j].0
    ensures forall i :: 0 <= i < |entries| ==> FromEntries(entries)[entries[i].0] == entries[i].1
    decreases |entries|
  {
    if |entries| > 0 {
      var n := |entries| - 1;
      var front := entries[..n];
      assert forall i :: 0 <= i < n ==> front[i] == entries[i];
      FromEntriesDistinct(front);
      var m' := FromEntries(front);
      assert FromEntries(entries) == m'[entries[n].0 := entries[n].1];
      forall i | 0 <= i < n
        ensures FromEntries(entries)[entries[i].0] == entries[i].1
      {
        assert entries[i].0 != entries[n].0;
        assert m'[front[i].0] == front[i].1;
      }
    }
  }

  /** The customer object: exactly the five input ids, each mapped to its value. */
  function CustomerData(f: Form): (c: map<string, string>)
    ensures c.Keys == {"name", "email", "street", "postal-code", "city"}
    ensures c["name"] == f.name && c["email"] == f.email && c["street"] == f.street
    ensures c["postal-code"] == f.postalCode && c["city"] == f.city
  {
    var e := FormEntries(f);
    FromEntriesDistinct(e);
    assert e[0].0 == "name" && e[1].0 == "email" && e[2].0 == "street";
    assert e[3].0 == "postal-code" && e[4].0 == "city";
    FromEntries(e)
  }

  /** The submitted order: the cart's items as they stand and the customer object. */
  datatype Order = Order(items: seq<Item>, customer: map<string, string>)

  /** The request body, `{ order: { items, customer } }`. */
  datatype OrderBody = OrderBody(order: Order)

  /** Where orders are sent. */
  const OrdersUrl: string := "http://localhost:3000/orders"

  /** The request `handleSubmit` sends. */
  function SubmitRequest(cart: CartState, f: Form): (r: HttpRequest.Request<OrderBody>)
    ensures r.url == OrdersUrl
    ensures r.config.httpMethod == Some("POST")
    ensures r.config.headers == [("Content-Type", "application/json")]
    ensures r.config.body.Some? && r.config.body.value.order.items == cart.items
    ensures r.config.body.value.order.customer.Keys == set i | 0 <= i < |FieldIds| :: FieldIds[i]
    ensures r.config.body.value.order.customer == CustomerData(f)
  {
    var body := OrderBody(Order(cart.items, CustomerData(f)));
    HttpRequest.Request(OrdersUrl, HttpRequest.Config(Some("POST"), [("Content-Type", "application/json")], Some(body)))
  }

  /** The submitted order totals what the checkout shows, and its customer
      carries each form field under its input id. */
  lemma SubmittedOrderMatchesCheckout(cart: CartState, progress: string, f: Form)
    ensures var order := SubmitRequest(cart, f).config.body.value.order;
      && CartView.Total(order.items) == RenderCheckout(cart, progress).total
      && order.customer["name"] == f.name && order.customer["email"] == f.email
      && order.customer["street"] == f.street && order.customer["postal-code"] == f.postalCode
      && order.customer["city"] == f.city
  {
  }
}
