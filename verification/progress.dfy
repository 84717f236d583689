/**
 * The user-progress controller: one string that names the modal surface on
 * show, changed only by four unconditional transitions.
 */
module Progress {
  import opened Outcomes

  /** The three surfaces the progress string can name. */
  datatype View = Closed | CartView | CheckoutView

  /** The string the source stores for each view. */
  function Tag(v: View): (t: string)
    ensures t == "" <==> v == Closed
    ensures t == "cart" <==> v == CartView
    ensures t == "checkout" <==> v == CheckoutView
  {
    match v
    case Closed => ""
    case CartView => "cart"
    case CheckoutView => "checkout"
  }

  /** The view a progress string names, if any. */
  function Parse(p: string): Option<View> {
    if p == "" then Some(Closed)
    else if p == "cart" then Some(CartView)
    else if p == "checkout" then Some(CheckoutView)
    else None
  }

  /** A progress string the controller can hold. */
  predicate IsProgress(p: string) {
    Parse(p).Some?
  }

  /** Tags and parsing are inverse: every view has exactly one tag and every
      parsed string is the tag of its view. */
  lemma TagParseRoundTrip(v: View, p: string)
    ensures Parse(Tag(v)) == Some(v)
    ensures Parse(p) == Some(v) ==> Tag(v) == p
    ensures IsProgress(p) <==> p == "" || p == "cart" || p == "checkout"
  {
  }

  /** The progress before any transition. */
  const Initial: string := ""

  /** The four transitions the provider exposes. */
  datatype Transition = ShowCart | HideCart | ShowCheckout | HideCheckout

  /** The view a transition sets. */
  function Target(t: Transition): View {
    match t
    case ShowCart => CartView
    case HideCart => Closed
    case ShowCheckout => CheckoutView
    case HideCheckout => Closed
  }

  /** One transition: the new progress ignores the old one. */
  function Step(p: string, t: Transition): (r: string)
    ensures IsProgress(r)
    ensures t == ShowCart ==> r == "cart"
    ensures t == ShowCheckout ==> r == "checkout"
    ensures t == HideCart || t == HideCheckout ==> r == ""
  {
    Tag(Target(t))
  }

  /** A sequence of transitions applied in dispatch order. */
  function Run(p: string, ts: seq<Transition>): string
    decreases |ts|
  {
    if |ts| == 0 then p else Run(Step(p, ts[0]), ts[1..])
  }

  /** The initial progress names the closed view. */
  lemma InitialIsClosed()
    ensures Parse(Initial) == Some(Closed)
  {
  }

  /** Hiding the cart and hiding the checkout cannot be told apart. */
  lemma HideCartIsHideCheckout(p: string)
    ensures Step(p, HideCart) == Step(p, HideCheckout)
  {
  }

  /** Applying a transition twice is applying it once. */
  lemma StepIdempotent(p: string, t: Transition)
    ensures Step(Step(p, t), t) == Step(p, t)
  {
  }

  /** After a non-empty run the progress is set by the last transition alone. */
  lemma {:induction false} RunEndsAtLast(p: string, ts: seq<Transition>)
    requires |ts| > 0
    ensures Run(p, ts) == Tag(Target(ts[|ts| - 1]))
    decreases |ts|
  {
    if |ts| > 1 {
      RunEndsAtLast(Step(p, ts[0]), ts[1..]);
    }
  }

  /** Every run keeps the progress within the three tags. */
  lemma {:induction false} RunKeepsProgress(p: string, ts: seq<Transition>)
    requires IsProgress(p)
    ensures IsProgress(Run(p, ts))
  {
    if |ts| > 0 {
      RunEndsAtLast(p, ts);
    }
  }
}
