/**
 * The point-of-sale cart of the checkout page (frontend/src/VentasCheckout.jsx).
 *
 * Every cart handler of the page hands React a new cart computed from the previous one,
 * so each is a function from the old cart to the new cart here. Prices are integer cents.
 */
module Checkout {
  import opened Wrappers
  import opened Seqs
  import Text
  import Money

  /** The page's `TAX_RATE` of 0.12, as a whole percentage. */
  const TaxPercent: int := 12

  /**
   * A product of the catalog as the page receives it. `pvp` is the value of
   * `Number(pro_pvp)` in cents, `None` when that is not a number.
   */
  datatype Product = Product(proId: nat, nombre: string, pvp: Option<int>, estado: bool)

  /** A cart line: one product, its unit price in cents, how many, and a free-text note. */
  datatype CartItem = CartItem(proId: nat, nombre: string, pvp: int, quantity: int, note: string)

  datatype StatusKind = Warning | Success | Danger

  /** The banner the page shows. */
  datatype Status = Status(kind: StatusKind, message: string)

  const InactiveWarning := Status(Warning, "El producto seleccionado está inactivo.")
  const EmptyCartWarning := Status(Warning, "Agrega al menos un producto a la factura.")
  const NoClientWarning := Status(Warning, "Selecciona o registra un cliente.")
  const SavedStatus := Status(Success, "Factura registrada exitosamente.")
  const SaveFailedStatus := Status(Danger, "Ocurrió un error al guardar la factura.")

  /** The cart invariant: one line per product, and every quantity at least 1. */
  ghost predicate WellFormed(cart: seq<CartItem>) {
    && (forall i, j :: 0 <= i < j < |cart| ==> cart[i].proId != cart[j].proId)
    && (forall i :: 0 <= i < |cart| ==> cart[i].quantity >= 1)
  }

  /** `Number(pro_pvp) || 0`: a price that is not a number counts as zero. */
  function NumericPrice(p: Product): int {
    p.pvp.GetOr(0)
  }

  /** Whether a cart line is the line of `proId`. */
  function LineOf(proId: nat): CartItem -> bool {
    (item: CartItem) => item.proId == proId
  }

  /** The position of the line for `proId`, if the cart has one (`cart.find`). */
  function FindItem(cart: seq<CartItem>, proId: nat): (r: Option<nat>)
    ensures r.Some? ==> r.value < |cart| && cart[r.value].proId == proId
    ensures r.Some? ==> forall j :: 0 <= j < r.value ==> cart[j].proId != proId
    ensures r.None? ==> forall j :: 0 <= j < |cart| ==> cart[j].proId != proId
  {
    FirstIndex(LineOf(proId), cart)
  }

  /** Adds one unit to every line of `proId` (the `map` of `handleAddProduct`). */
  function IncrementItem(cart: seq<CartItem>, proId: nat): (r: seq<CartItem>)
    ensures |r| == |cart|
    ensures forall i :: 0 <= i < |cart| ==>
      && r[i].(quantity := cart[i].quantity) == cart[i]
      && r[i].quantity == cart[i].quantity + (if cart[i].proId == proId then 1 else 0)
  {
    seq(|cart|, i requires 0 <= i < |cart| =>
      if cart[i].proId == proId then cart[i].(quantity := cart[i].quantity + 1) else cart[i])
  }

  /** The new cart of `handleAddProduct`, and the banner it sets (`None` when it sets none). */
  datatype AddOutcome = AddOutcome(cart: seq<CartItem>, status: Option<Status>)

  /** `handleAddProduct(producto)`. */
  function AddProduct(cart: seq<CartItem>, p: Product): (r: AddOutcome)
    ensures !p.estado ==> r == AddOutcome(cart, Some(InactiveWarning))
    ensures p.estado ==> r.status.None?
    ensures |r.cart| == |cart| || |r.cart| == |cart| + 1
  {
    if !p.estado then AddOutcome(cart, Some(InactiveWarning))
    else if FindItem(cart, p.proId).Some? then AddOutcome(IncrementItem(cart, p.proId), None)
    else AddOutcome(cart + [CartItem(p.proId, p.nombre, NumericPrice(p), 1, "")], None)
  }

  /**
   * Adding an active product already in the cart adds one to that line's quantity and
   * to nothing else; adding one not in the cart appends a single line with quantity 1 and
   * an empty note, after the untouched existing lines.
   */
  lemma AddProductEffect(cart: seq<CartItem>, p: Product)
    requires WellFormed(cart) && p.estado
    ensures match FindItem(cart, p.proId)
      case Some(i) =>
        AddProduct(cart, p).cart == cart[i := cart[i].(quantity := cart[i].quantity + 1)]
      case None =>
        AddProduct(cart, p).cart == cart + [CartItem(p.proId, p.nombre, NumericPrice(p), 1, "")]
  {
    match FindItem(cart, p.proId)
    case Some(i) =>
      var r := AddProduct(cart, p).cart;
      var expected := cart[i := cart[i].(quantity := cart[i].quantity + 1)];
      assert forall j :: 0 <= j < |cart| && j != i ==> cart[j].proId != p.proId;
      assert forall j :: 0 <= j < |cart| ==> r[j] == expected[j];
    case None =>
  }

  /** `handleAddProduct` keeps the cart invariant. */
  lemma AddProductWellFormed(cart: seq<CartItem>, p: Product)
    requires WellFormed(cart)
    ensures WellFormed(AddProduct(cart, p).cart)
  {
    if p.estado {
      AddProductEffect(cart, p);
    }
  }

  /** The quantity update of `handleQuantity`, before its filter: never below 1. */
  function ClampedQuantities(cart: seq<CartItem>, proId: nat, delta: int): (r: seq<CartItem>)
    ensures |r| == |cart|
  {
    seq(|cart|, i requires 0 <= i < |cart| =>
      if cart[i].proId == proId then cart[i].(quantity := Max(1, cart[i].quantity + delta))
      else cart[i])
  }

  function Max(a: int, b: int): int {
    if a >= b then a else b
  }

  function HasPositiveQuantity(item: CartItem): bool {
    item.quantity > 0
  }

  /** `handleQuantity(proId, delta)`: clamp the line's quantity at 1, then drop empty lines. */
  function AdjustQuantity(cart: seq<CartItem>, proId: nat, delta: int): (r: seq<CartItem>)
    ensures |r| <= |cart|
    ensures forall i :: 0 <= i < |r| ==> r[i].quantity > 0
  {
    Filter(HasPositiveQuantity, ClampedQuantities(cart, proId, delta))
  }

  /**
   * On a well-formed cart the trailing filter of `handleQuantity` drops nothing: the
   * length is unchanged, the addressed line holds `max(1, quantity + delta)`, every other
   * line is untouched, and the invariant still holds.
   */
  lemma AdjustQuantityEffect(cart: seq<CartItem>, proId: nat, delta: int)
    requires WellFormed(cart)
    ensures var r := AdjustQuantity(cart, proId, delta);
      && |r| == |cart|
      && (forall i :: 0 <= i < |cart| ==> r[i].proId == cart[i].proId && r[i].quantity >= 1)
      && (forall i :: 0 <= i < |cart| && cart[i].proId == proId ==>
            r[i] == cart[i].(quantity := Max(1, cart[i].quantity + delta)))
      && (forall i :: 0 <= i < |cart| && cart[i].proId != proId ==> r[i] == cart[i])
      && WellFormed(r)
  {
    var m := ClampedQuantities(cart, proId, delta);
    FilterKeepsAll(HasPositiveQuantity, m);
    assert AdjustQuantity(cart, proId, delta) == m;
    assert WellFormed(m) by {
      assert forall i :: 0 <= i < |m| ==> m[i].proId == cart[i].proId;
    }
  }

  function OtherProduct(proId: nat): CartItem -> bool {
    (item: CartItem) => item.proId != proId
  }

  /** `handleRemoveProduct(proId)`. */
  function RemoveProduct(cart: seq<CartItem>, proId: nat): (r: seq<CartItem>)
    ensures forall i :: 0 <= i < |r| ==> r[i].proId != proId
  {
    Filter(OtherProduct(proId), cart)
  }

  /** Removing a product takes out exactly its line and keeps the others in order. */
  lemma RemoveProductEffect(cart: seq<CartItem>, proId: nat)
    requires WellFormed(cart)
    ensures match FindItem(cart, proId)
      case Some(i) => RemoveProduct(cart, proId) == cart[..i] + cart[i + 1..]
      case None => RemoveProduct(cart, proId) == cart
  {
    var keep := OtherProduct(proId);
    match FindItem(cart, proId)
    case None =>
      FilterKeepsAll(keep, cart);
    case Some(i) =>
      FilterRemovesOne(keep, cart, i);
  }

  /** `handleRemoveProduct` keeps the cart invariant. */
  lemma RemoveProductWellFormed(cart: seq<CartItem>, proId: nat)
    requires WellFormed(cart)
    ensures WellFormed(RemoveProduct(cart, proId))
  {
    RemoveProductEffect(cart, proId);
    match FindItem(cart, proId)
    case None =>
    case Some(i) =>
      var r := cart[..i] + cart[i + 1..];
      assert forall k :: 0 <= k < |r| ==> r[k] == cart[if k < i then k else k + 1];
  }

  /** `handleNoteChange(proId, value)`. */
  function ChangeNote(cart: seq<CartItem>, proId: nat, value: string): (r: seq<CartItem>)
    ensures |r| == |cart|
    ensures forall i :: 0 <= i < |cart| ==> r[i].(note := cart[i].note) == cart[i]
  {
    seq(|cart|, i requires 0 <= i < |cart| =>
      if cart[i].proId == proId then cart[i].(note := value) else cart[i])
  }

  /** A note edit changes the note of the addressed line and nothing else. */
  lemma ChangeNoteEffect(cart: seq<CartItem>, proId: nat, value: string)
    requires WellFormed(cart)
    ensures var r := ChangeNote(cart, proId, value);
      && WellFormed(r)
      && (forall i :: 0 <= i < |cart| ==>
            r[i].(note := cart[i].note) == cart[i]
            && r[i].note == if cart[i].proId == proId then value else cart[i].note)
  {
  }

  /** `subtotal`: the sum of unit price times quantity over the cart, in cents. */
  function Subtotal(cart: seq<CartItem>): (s: int)
    ensures cart == [] ==> s == 0
    ensures |cart| == 1 ==> s == cart[0].pvp * cart[0].quantity
  {
    if cart == [] then 0
    else Subtotal(cart[..|cart| - 1]) + cart[|cart| - 1].pvp * cart[|cart| - 1].quantity
  }

  function LineAmount(item: CartItem): int {
    item.pvp * item.quantity
  }

  /** The subtotal adds the lines one by one; an empty cart costs nothing. */
  lemma {:induction false} SubtotalSplit(a: seq<CartItem>, b: seq<CartItem>)
    ensures Subtotal(a + b) == Subtotal(a) + Subtotal(b)
    decreases |b|
  {
    if b == [] {
      assert a + b == a;
    } else {
      assert (a + b)[..|a + b| - 1] == a + b[..|b| - 1];
      SubtotalSplit(a, b[..|b| - 1]);
    }
  }

  /** Lines with non-negative prices and quantities never make a negative subtotal. */
  lemma {:induction false} SubtotalNonNegative(cart: seq<CartItem>)
    requires forall i :: 0 <= i < |cart| ==> cart[i].pvp >= 0 && cart[i].quantity >= 0
    ensures Subtotal(cart) >= 0
  {
    if cart != [] {
      SubtotalNonNegative(cart[..|cart| - 1]);
    }
  }

  /** Replacing one line changes the subtotal by the difference of the two line amounts. */
  lemma SubtotalUpdate(cart: seq<CartItem>, i: nat, item: CartItem)
    requires i < |cart|
    ensures Subtotal(cart[i := item]) == Subtotal(cart) - LineAmount(cart[i]) + LineAmount(item)
  {
    var updated := cart[i := item];
    assert cart == cart[..i] + [cart[i]] + cart[i + 1..];
    assert updated == cart[..i] + [item] + cart[i + 1..];
    SubtotalSplit(cart[..i] + [cart[i]], cart[i + 1..]);
    SubtotalSplit(cart[..i], [cart[i]]);
    SubtotalSplit(cart[..i] + [item], cart[i + 1..]);
    SubtotalSplit(cart[..i], [item]);
    assert Subtotal([item]) == LineAmount(item) by {
      assert [item][..0] == [];
    }
    assert Subtotal([cart[i]]) == LineAmount(cart[i]) by {
      assert [cart[i]][..0] == [];
    }
  }

  /**
   * Adding an active product raises the subtotal by one unit price: the price stored on
   * its line when it is already in the cart (the line keeps the price it was added at),
   * its current catalog price otherwise.
   */
  lemma AddProductSubtotal(cart: seq<CartItem>, p: Product)
    requires WellFormed(cart) && p.estado
    ensures Subtotal(AddProduct(cart, p).cart) == Subtotal(cart) + match FindItem(cart, p.proId)
      case Some(i) => cart[i].pvp
      case None => NumericPrice(p)
  {
    AddProductEffect(cart, p);
    match FindItem(cart, p.proId)
    case Some(i) =>
      IncrementSubtotal(cart, i);
    case None =>
      AppendSubtotal(cart, CartItem(p.proId, p.nombre, NumericPrice(p), 1, ""));
  }

  /** One more unit on line `i` raises the subtotal by that line's unit price. */
  lemma IncrementSubtotal(cart: seq<CartItem>, i: nat)
    requires i < |cart|
    ensures Subtotal(cart[i := cart[i].(quantity := cart[i].quantity + 1)]) == Subtotal(cart) + cart[i].pvp
  {
    var item := cart[i].(quantity := cart[i].quantity + 1);
    SubtotalUpdate(cart, i, item);
    MulSucc(cart[i].pvp, cart[i].quantity);
  }

  /** Appending a line raises the subtotal by that line's amount. */
  lemma AppendSubtotal(cart: seq<CartItem>, item: CartItem)
    ensures Subtotal(cart + [item]) == Subtotal(cart) + LineAmount(item)
  {
    assert (cart + [item])[..|cart|] == cart;
  }

  lemma MulSucc(a: int, q: int)
    ensures a * (q + 1) == a * q + a
  {
  }

  /** One request to attach a line to the new invoice: product, quantity and unit price. */
  datatype LineRequest = LineRequest(proId: nat, cantidad: int, pvp: int)

  /** The totals shown on the printed invoice, in cents. */
  datatype Totals = Totals(subtotal: int, taxAmount: int, total: int)

  /**
   * What `handleFinalizeSale` does. `Refused` submits nothing. `Submitted` asks for an
   * invoice for `cliId`; `invoiceCreated` is whether that request succeeded, and `lines` are
   * the line requests then sent for it (none when the invoice was not created).
   */
  datatype FinalizeOutcome =
    | Refused(status: Status)
    | Submitted(cliId: nat, invoiceCreated: bool, lines: seq<LineRequest>, status: Status,
                totals: Option<Totals>, cart: seq<CartItem>)

  function ToRequest(item: CartItem): LineRequest {
    LineRequest(item.proId, item.quantity, item.pvp)
  }

  /** The totals of the checkout: tax at 12 per cent rounded to the cent, then added. */
  function SaleTotals(cart: seq<CartItem>): (t: Totals)
    ensures t.subtotal == Subtotal(cart)
    ensures 100 * t.taxAmount - 50 <= Subtotal(cart) * TaxPercent < 100 * t.taxAmount + 50
    ensures t.total == t.subtotal + t.taxAmount
  {
    var subtotal := Subtotal(cart);
    var taxAmount := Money.PercentOf(subtotal, TaxPercent);
    Totals(subtotal, taxAmount, subtotal + taxAmount)
  }

  /**
   * `handleFinalizeSale`. `created` is the outcome of `createFactura`; `attached` is the
   * outcome of the `Promise.all` over the line requests, which are sent only once the
   * invoice exists. Either failure lands in the same `catch`.
   */
  function FinalizeSale(cart: seq<CartItem>, selectedClient: Option<nat>, created: bool, attached: bool)
    : (r: FinalizeOutcome)
    ensures cart == [] ==> r == Refused(EmptyCartWarning)
    ensures cart != [] && selectedClient.None? ==> r == Refused(NoClientWarning)
    ensures r.Submitted? ==> cart != [] && selectedClient == Some(r.cliId) && r.invoiceCreated == created
    ensures r.Submitted? && !created ==> r.lines == []
    ensures r.Submitted? && created ==> |r.lines| == |cart| && forall i :: 0 <= i < |cart| ==>
      r.lines[i] == LineRequest(cart[i].proId, cart[i].quantity, cart[i].pvp)
    ensures r.Submitted? && created && attached ==>
      r.status == SavedStatus && r.totals == Some(SaleTotals(cart)) && r.cart == []
    ensures r.Submitted? && !(created && attached) ==>
      r.status == SaveFailedStatus && r.totals.None? && r.cart == cart
  {
    if |cart| == 0 then Refused(EmptyCartWarning)
    else if selectedClient.None? then Refused(NoClientWarning)
    else if !created then Submitted(selectedClient.value, false, [], SaveFailedStatus, None, cart)
    else
      var lines := seq(|cart|, i requires 0 <= i < |cart| => ToRequest(cart[i]));
      if attached then Submitted(selectedClient.value, true, lines, SavedStatus, Some(SaleTotals(cart)), [])
      else Submitted(selectedClient.value, true, lines, SaveFailedStatus, None, cart)
  }

  /**
   * A line request that fails leaves the invoice already created and keeps the cart, so
   * saving again creates a second invoice for the same sale; both attempts report the same
   * failure status as a failed `createFactura`, which left no invoice.
   */
  lemma FailedLineLeavesInvoice(cart: seq<CartItem>, client: nat, retryCreated: bool, retryAttached: bool)
    requires cart != []
    ensures var first := FinalizeSale(cart, Some(client), true, false);
      && first.Submitted? && first.invoiceCreated && first.status == SaveFailedStatus
      && first.cart == cart
      && var retry := FinalizeSale(first.cart, Some(client), retryCreated, retryAttached);
      && retry.Submitted? && retry.invoiceCreated == retryCreated
    ensures FinalizeSale(cart, Some(client), false, false).status
      == FinalizeSale(cart, Some(client), true, false).status
    ensures !FinalizeSale(cart, Some(client), false, false).invoiceCreated
  {
  }

  /**
   * The line requests of a well-formed cart name each product once and carry positive
   * quantities, so the backend's one-row-per-(invoice, product) key is never hit by a
   * checkout.
   */
  lemma FinalizeLinesDistinct(cart: seq<CartItem>, client: nat, attached: bool)
    requires WellFormed(cart) && cart != []
    ensures var r := FinalizeSale(cart, Some(client), true, attached);
      && r.Submitted?
      && (forall i, j :: 0 <= i < j < |r.lines| ==> r.lines[i].proId != r.lines[j].proId)
      && (forall i :: 0 <= i < |r.lines| ==> r.lines[i].cantidad >= 1)
  {
  }

  /** `n.toString().padStart(2, '0')`: the digits of `n`, at least two of them. */
  function Pad2(n: nat): (s: string)
    ensures |s| >= 2
    ensures n < 100 ==> |s| == 2
    ensures Text.AllDigits(s) && Text.ParseDigits(s) == n
  {
    assert n < 100 ==> Text.DigitCount(n) <= 2;
    var digits := Text.NatToString(n);
    Text.ParsePrinted(n);
    if |digits| < 2 then
      Text.ParseZeroPadded(digits, 2 - |digits|);
      Text.PadStart(digits, 2, '0')
    else Text.PadStart(digits, 2, '0')
  }

  /** The `YYYYMMDD` part of the order code; `month` counts from 0, as `Date.getMonth` does. */
  function OrderDate(year: nat, month: nat, day: nat): (d: string)
    ensures 1000 <= year <= 9999 && month < 12 && day < 100 ==>
      && |d| == 8 && Text.AllDigits(d)
      && Text.ParseDigits(d[..4]) == year
      && Text.ParseDigits(d[4..6]) == month + 1
      && Text.ParseDigits(d[6..]) == day
  {
    var y := Text.NatToString(year);
    var d := y + Pad2(month + 1) + Pad2(day);
    if 1000 <= year <= 9999 && month < 12 && day < 100 then
      Text.FourDigits(year);
      Text.ParsePrinted(year);
      DigitsJoined(y, Pad2(month + 1), Pad2(day));
      d
    else d
  }

  /** Three digit strings joined: digits throughout, and each piece at its own offset. */
  lemma DigitsJoined(a: string, b: string, c: string)
    requires Text.AllDigits(a) && Text.AllDigits(b) && Text.AllDigits(c)
    ensures var s := a + b + c;
      && Text.AllDigits(s)
      && s[..|a|] == a && s[|a|..|a| + |b|] == b && s[|a| + |b|..] == c
  {
    var s := a + b + c;
    forall i | 0 <= i < |s|
      ensures Text.IsDigit(s[i])
    {
      if i < |a| {
        assert s[i] == a[i];
      } else if i < |a| + |b| {
        assert s[i] == b[i - |a|];
      } else {
        assert s[i] == c[i - |a| - |b|];
      }
    }
  }

  /** The `HHMM` part of the order code. */
  function OrderTime(hours: nat, minutes: nat): (t: string)
    ensures hours < 100 && minutes < 100 ==>
      && |t| == 4 && Text.AllDigits(t)
      && Text.ParseDigits(t[..2]) == hours && Text.ParseDigits(t[2..]) == minutes
  {
    var t := Pad2(hours) + Pad2(minutes);
    if hours < 100 && minutes < 100 then
      assert t[..2] == Pad2(hours) && t[2..] == Pad2(minutes);
      t
    else t
  }

  /** A clock reading the code is built from: `month` from 0, as the `Date` getters give it. */
  predicate ValidClock(year: nat, month: nat, day: nat, hours: nat, minutes: nat) {
    1000 <= year <= 9999 && month < 12 && 1 <= day <= 31 && hours < 24 && minutes < 60
  }

  /** `generateOrderCode` applied to given clock fields: `FAC-YYYYMMDD-HHMM`. */
  function OrderCodeAt(year: nat, month: nat, day: nat, hours: nat, minutes: nat): (code: string)
    ensures |code| >= 4 && code[..4] == "FAC-"
    ensures ValidClock(year, month, day, hours, minutes) ==> |code| == 17 && code[12] == '-'
  {
    var d := OrderDate(year, month, day);
    var t := OrderTime(hours, minutes);
    CodeShape(d, t);
    "FAC-" + d + "-" + t
  }

  /** The layout of `FAC-<date>-<time>`: the prefix, the length and the second dash. */
  lemma CodeShape(d: string, t: string)
    ensures var code := "FAC-" + d + "-" + t;
      && |code| == |d| + |t| + 5 && code[..4] == "FAC-" && code[4 + |d|] == '-'
  {
    var code := "FAC-" + d + "-" + t;
    assert code[..4] == "FAC-";
  }

  /**
   * `code` is 17 characters long and its digit fields read back as the given year, month
   * counted from 1, day, hours and minutes.
   */
  ghost predicate ReadsBack(code: string, year: nat, month: nat, day: nat, hours: nat, minutes: nat) {
    && |code| == 17
    && Text.AllDigits(code[4..8]) && Text.AllDigits(code[8..10]) && Text.AllDigits(code[10..12])
    && Text.AllDigits(code[13..15]) && Text.AllDigits(code[15..17])
    && Text.ParseDigits(code[4..8]) == year
    && Text.ParseDigits(code[8..10]) == month + 1
    && Text.ParseDigits(code[10..12]) == day
    && Text.ParseDigits(code[13..15]) == hours
    && Text.ParseDigits(code[15..17]) == minutes
  }

  /**
   * The order code spells out the clock it was made from: year, month counted from 1,
   * day, hours and minutes, each as digits at a fixed position.
   */
  lemma OrderCodeFields(year: nat, month: nat, day: nat, hours: nat, minutes: nat)
    requires ValidClock(year, month, day, hours, minutes)
    ensures ReadsBack(OrderCodeAt(year, month, day, hours, minutes), year, month, day, hours, minutes)
  {
    var d := OrderDate(year, month, day);
    var t := OrderTime(hours, minutes);
    assert OrderCodeAt(year, month, day, hours, minutes) == "FAC-" + d + "-" + t;
    ReadsBackFrom(d, t, year, month, day, hours, minutes);
  }

  /** A code assembled from a date and a time whose fields read back reads back itself. */
  lemma ReadsBackFrom(d: string, t: string, year: nat, month: nat, day: nat, hours: nat, minutes: nat)
    requires |d| == 8 && |t| == 4 && Text.AllDigits(d) && Text.AllDigits(t)
    requires Text.ParseDigits(d[..4]) == year && Text.ParseDigits(d[4..6]) == month + 1
    requires Text.ParseDigits(d[6..]) == day
    requires Text.ParseDigits(t[..2]) == hours && Text.ParseDigits(t[2..]) == minutes
    ensures ReadsBack("FAC-" + d + "-" + t, year, month, day, hours, minutes)
  {
    CodeSlices(d, t);
  }

  /** Where the date and time parts sit in `FAC-<date>-<time>`. */
  lemma CodeSlices(d: string, t: string)
    requires |d| == 8 && |t| == 4
    ensures var code := "FAC-" + d + "-" + t;
      && code[4..12] == d && code[13..] == t
      && code[4..8] == d[..4] && code[8..10] == d[4..6] && code[10..12] == d[6..]
      && code[13..15] == t[..2] && code[15..17] == t[2..]
  {
    var code := "FAC-" + d + "-" + t;
    assert code[4..12] == d;
    assert code[13..] == t;
  }

  /** Two sales made at different minutes get different order codes. */
  lemma OrderCodeInjective(y1: nat, mo1: nat, d1: nat, h1: nat, mi1: nat, y2: nat, mo2: nat, d2: nat, h2: nat, mi2: nat)
    requires ValidClock(y1, mo1, d1, h1, mi1) && ValidClock(y2, mo2, d2, h2, mi2)
    requires OrderCodeAt(y1, mo1, d1, h1, mi1) == OrderCodeAt(y2, mo2, d2, h2, mi2)
    ensures y1 == y2 && mo1 == mo2 && d1 == d2 && h1 == h2 && mi1 == mi2
  {
    OrderCodeFields(y1, mo1, d1, h1, mi1);
    OrderCodeFields(y2, mo2, d2, h2, mi2);
  }
}
