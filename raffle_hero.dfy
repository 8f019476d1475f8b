/**
 * The quantity and pricing selector of the raffle page: a volume-priced
 * number of raffle entries, kept at or above the minimum of five, and the
 * two gates that open the checkout dialog. Money is in integer cents, so the
 * rounding of `quantity * currentPrice` to two decimals is exact.
 */
module RaffleHero {
  import opened Wrappers
  import Text

  /** The fewest entries a buyer may take (covers the payment fees). */
  const MinQuantity: int := 5
  /** R$ 5,00: the smallest total the checkout accepts. */
  const MinTotal: int := 500
  const MinQuantityError: string := "Quantidade mínima é de 5 números para cobrir as taxas de pagamento"
  const MinTotalError: string := "Valor mínimo é de R$ 5,00 para cobrir as taxas de pagamento"

  /** `calculatePrice`: the unit price, in cents, of a quantity of entries. */
  function CalculatePrice(qty: int): (cents: int)
    ensures 99 <= cents <= 199
  {
    if qty >= 5000 then 99
    else if qty >= 1000 then 149
    else if qty >= 500 then 169
    else if qty >= 100 then 189
    else 199
  }

  /** A volume tier: from `minimum` entries up to the next tier's minimum, each costs `price` cents. */
  datatype PricingTier = PricingTier(minimum: int, price: int)

  /** The advertised tier table, by ascending minimum quantity. */
  const Tiers: seq<PricingTier> :=
    [PricingTier(1, 199), PricingTier(100, 189), PricingTier(500, 169),
     PricingTier(1000, 149), PricingTier(5000, 99)]

  /**
   * The price a tier table gives a quantity: the tier it falls in, lower bound
   * included and the next tier's bound excluded, the last tier unbounded.
   * Quantities below the first minimum get the first tier's price.
   */
  function TablePrice(tiers: seq<PricingTier>, qty: int): int
    requires tiers != []
  {
    if |tiers| == 1 || qty < tiers[1].minimum then tiers[0].price else TablePrice(tiers[1..], qty)
  }

  /** `calculatePrice` agrees with the tier table at every quantity. */
  lemma CalculatePriceFollowsTiers(qty: int)
    ensures CalculatePrice(qty) == TablePrice(Tiers, qty)
  {
    var t1 := Tiers[1..];
    var t2 := t1[1..];
    var t3 := t2[1..];
    var t4 := t3[1..];
    assert t4 == [PricingTier(5000, 99)];
    assert TablePrice(t3, qty) == if qty < 5000 then 149 else 99;
    assert TablePrice(t2, qty) == if qty < 1000 then 169 else TablePrice(t3, qty);
    assert TablePrice(t1, qty) == if qty < 500 then 189 else TablePrice(t2, qty);
    assert TablePrice(Tiers, qty) == if qty < 100 then 199 else TablePrice(t1, qty);
  }

  /** Buying more never raises the unit price. */
  lemma PriceNonIncreasing(a: int, b: int)
    requires a <= b
    ensures CalculatePrice(b) <= CalculatePrice(a)
  {
  }

  /** The selector's state: the three React state hooks plus the dialog flag. */
  datatype Picker = Picker(quantity: int, price: int, error: string, showCheckout: bool)

  /** `useState(5)`, `useState(1.99)`, `useState("")`, `useState(false)`. */
  const Initial: Picker := Picker(5, 199, "", false)

  /** The two invariants the handlers maintain. */
  predicate Consistent(p: Picker)
  {
    p.quantity >= MinQuantity && p.price == CalculatePrice(p.quantity)
  }

  /** A handler that accepts quantity `q`: error cleared, price recomputed. */
  function Accepted(p: Picker, q: int): Picker
  {
    p.(quantity := q, price := CalculatePrice(q), error := "")
  }

  /** A handler that rejects: only the minimum-quantity error is set. */
  function Rejected(p: Picker): Picker
  {
    p.(error := MinQuantityError)
  }

  /** `addQuantity(amount)`. */
  function Added(p: Picker, amount: int): Picker
  {
    var q := p.quantity + amount;
    if q < MinQuantity then Rejected(p) else Accepted(p, q)
  }

  /** `selectPricingTier(minQty)`. */
  function TierSelected(p: Picker, minQty: int): Picker
  {
    Accepted(p, if minQty > MinQuantity then minQty else MinQuantity)
  }

  /** `Number.parseInt(value) || 5`: NaN and zero both fall back to five. */
  function TypedQuantity(value: string): int
  {
    match Text.ParseInt(value)
    case None => MinQuantity
    case Some(n) => if n == 0 then MinQuantity else n
  }

  /** `handleQuantityChange(value)`. */
  function Typed(p: Picker, value: string): Picker
  {
    var q := TypedQuantity(value);
    if q < MinQuantity then Rejected(p) else Accepted(p, q)
  }

  /** `incrementQuantity`. */
  function Incremented(p: Picker): Picker
  {
    Accepted(p, p.quantity + 1)
  }

  /** `decrementQuantity`. */
  function Decremented(p: Picker): Picker
  {
    if p.quantity > MinQuantity then Accepted(p, p.quantity - 1) else Rejected(p)
  }

  /** `totalPrice`: quantity times unit price, in cents. */
  function TotalPrice(p: Picker): int
  {
    p.quantity * p.price
  }

  /** `handleCheckout`: the quantity gate, then the total gate, then the dialog opens. */
  function CheckedOut(p: Picker): Picker
  {
    if p.quantity < MinQuantity then Rejected(p)
    else if TotalPrice(p) < MinTotal then p.(error := MinTotalError)
    else p.(showCheckout := true)
  }

  /** The dialog's `onClose`. */
  function Closed(p: Picker): Picker
  {
    p.(showCheckout := false)
  }

  /** What the buyer can do on the page. */
  datatype Event =
    | Add(amount: int)
    | SelectTier(minQty: int)
    | Type(value: string)
    | Increment
    | Decrement
    | Checkout
    | Close

  function Apply(p: Picker, e: Event): Picker
  {
    match e
    case Add(amount) => Added(p, amount)
    case SelectTier(minQty) => TierSelected(p, minQty)
    case Type(value) => Typed(p, value)
    case Increment => Incremented(p)
    case Decrement => Decremented(p)
    case Checkout => CheckedOut(p)
    case Close => Closed(p)
  }

  /** The state after a sequence of events, first event first. */
  function Run(p: Picker, events: seq<Event>): Picker
    decreases |events|
  {
    if events == [] then p else Run(Apply(p, events[0]), events[1..])
  }

  /** Every handler keeps `quantity >= 5` and `currentPrice == calculatePrice(quantity)`. */
  lemma ApplyKeepsConsistent(p: Picker, e: Event)
    requires Consistent(p)
    ensures Consistent(Apply(p, e))
  {
  }

  /** From the initial state, whatever the buyer does, both invariants hold. */
  lemma {:induction false} RunKeepsConsistent(p: Picker, events: seq<Event>)
    requires Consistent(p)
    ensures Consistent(Run(p, events))
    decreases |events|
  {
    if events != [] {
      ApplyKeepsConsistent(p, events[0]);
      RunKeepsConsistent(Apply(p, events[0]), events[1..]);
    }
  }

  lemma InitialConsistent()
    ensures Consistent(Initial)
  {
  }

  /** The events a handler turns down for going below the minimum. */
  predicate GoesBelowMinimum(p: Picker, e: Event)
  {
    match e
    case Add(amount) => p.quantity + amount < MinQuantity
    case Type(value) => TypedQuantity(value) < MinQuantity
    case Decrement => p.quantity <= MinQuantity
    case _ => false
  }

  /**
   * A quantity handler either turns the event down, leaving quantity and price
   * as they were and setting the minimum-quantity error, or accepts it,
   * clearing the error and pricing the new quantity.
   */
  lemma QuantityHandlersRejectOrAccept(p: Picker, e: Event)
    requires e.Add? || e.SelectTier? || e.Type? || e.Increment? || e.Decrement?
    ensures var r := Apply(p, e);
      if GoesBelowMinimum(p, e) then
        r.quantity == p.quantity && r.price == p.price && r.error == MinQuantityError
        && r.showCheckout == p.showCheckout
      else
        r.price == CalculatePrice(r.quantity) && r.error == ""
        && (Consistent(p) ==> r.quantity >= MinQuantity)
        && r.showCheckout == p.showCheckout
  {
  }

  /** Unparseable or zero input is read as the minimum of five, and accepted. */
  lemma TypedFallsBackToMinimum(p: Picker, value: string)
    requires Text.ParseInt(value) == None || Text.ParseInt(value) == Some(0)
    ensures Typed(p, value) == p.(quantity := 5, price := 199, error := "")
  {
  }

  /** Typing a number sets exactly that quantity when it reaches the minimum, and is refused otherwise. */
  lemma TypedNumber(p: Picker, n: int)
    requires n != 0
    ensures n >= MinQuantity ==> Typed(p, Text.IntToString(n)) == Accepted(p, n)
    ensures n < MinQuantity ==> Typed(p, Text.IntToString(n)) == p.(error := MinQuantityError)
  {
    Text.ParseIntToString(n);
  }

  /** The tier buttons and the plus button always succeed and clear the error. */
  lemma TierAndIncrementSucceed(p: Picker, minQty: int)
    ensures TierSelected(p, minQty).quantity == (if minQty > 5 then minQty else 5)
    ensures Incremented(p).quantity == p.quantity + 1
    ensures TierSelected(p, minQty).error == "" && Incremented(p).error == ""
  {
  }

  /**
   * The dialog opens exactly when both gates pass; the quantity gate is
   * checked first, so a short quantity reports the quantity error whatever the total.
   */
  lemma CheckoutGates(p: Picker)
    ensures CheckedOut(p).showCheckout <==> p.showCheckout || (p.quantity >= MinQuantity && TotalPrice(p) >= MinTotal)
    ensures p.quantity < MinQuantity ==> CheckedOut(p).error == MinQuantityError
    ensures p.quantity >= MinQuantity && TotalPrice(p) < MinTotal ==> CheckedOut(p).error == MinTotalError
    ensures CheckedOut(p).quantity == p.quantity && CheckedOut(p).price == p.price
  {
  }

  /** Under the invariants the total is at least R$ 5,00, so the second gate never fails. */
  lemma TotalGateNeverFails(p: Picker)
    requires Consistent(p)
    ensures TotalPrice(p) >= MinTotal
  {
    if p.quantity < 100 {
      assert TotalPrice(p) == p.quantity * 199;
    } else {
      assert p.price >= 99;
      assert TotalPrice(p) >= 100 * 99;
    }
  }

  /** Five entries at the first tier cost R$ 9,95, and checkout opens. */
  lemma FiveEntriesExample()
    ensures TotalPrice(Initial) == 995
    ensures CheckedOut(Initial).showCheckout
  {
  }

  /** The selector component: the handlers update the state fields in place. */
  class QuantitySelector {
    var quantity: int
    var currentPrice: int
    var error: string
    var showCheckout: bool

    function State(): Picker
      reads this
    {
      Picker(quantity, currentPrice, error, showCheckout)
    }

    ghost predicate Valid()
      reads this
    {
      Consistent(State())
    }

    constructor ()
      ensures State() == Initial && Valid()
    {
      quantity := 5;
      currentPrice := 199;
      error := "";
      showCheckout := false;
    }

    method AddQuantity(amount: int)
      modifies this
      ensures State() == Added(old(State()), amount)
      ensures old(Valid()) ==> Valid()
    {
      var newQuantity := quantity + amount;
      if newQuantity < MinQuantity {
        error := MinQuantityError;
        return;
      }
      error := "";
      quantity := newQuantity;
      currentPrice := CalculatePrice(newQuantity);
    }

    method SelectPricingTier(minQty: int)
      modifies this
      ensures State() == TierSelected(old(State()), minQty)
      ensures Valid()
    {
      var finalQty := if minQty > MinQuantity then minQty else MinQuantity;
      quantity := finalQty;
      currentPrice := CalculatePrice(finalQty);
      error := "";
    }

    method HandleQuantityChange(value: string)
      modifies this
      ensures State() == Typed(old(State()), value)
      ensures old(Valid()) ==> Valid()
    {
      var newQuantity := TypedQuantity(value);
      if newQuantity < MinQuantity {
        error := MinQuantityError;
        return;
      }
      error := "";
      quantity := newQuantity;
      currentPrice := CalculatePrice(newQuantity);
    }

    method IncrementQuantity()
      modifies this
      ensures State() == Incremented(old(State()))
      ensures old(Valid()) ==> Valid()
    {
      var newQuantity := quantity + 1;
      quantity := newQuantity;
      currentPrice := CalculatePrice(newQuantity);
      error := "";
    }

    method DecrementQuantity()
      modifies this
      ensures State() == Decremented(old(State()))
      ensures old(Valid()) ==> Valid()
    {
      if quantity > MinQuantity {
        var newQuantity := quantity - 1;
        quantity := newQuantity;
        currentPrice := CalculatePrice(newQuantity);
        error := "";
      } else {
        error := MinQuantityError;
      }
    }

    method HandleCheckout()
      modifies this
      ensures State() == CheckedOut(old(State()))
      ensures old(Valid()) ==> Valid() && showCheckout
    {
      if quantity < MinQuantity {
        error := MinQuantityError;
        return;
      }
      var totalPrice := quantity * currentPrice;
      if totalPrice < MinTotal {
        error := MinTotalError;
        return;
      }
      showCheckout := true;
      if old(Valid()) {
        TotalGateNeverFails(old(State()));
      }
    }

    method CloseCheckout()
      modifies this
      ensures State() == Closed(old(State()))
      ensures old(Valid()) ==> Valid()
    {
      showCheckout := false;
    }
  }
}
