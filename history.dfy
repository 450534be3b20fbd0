/**
 * The sales history page (frontend/src/FacturasHistorial.jsx): every saved invoice is
 * enriched with its order code, client, items, subtotal, tax-inclusive total and item
 * count; the page shows today's takings and the number of invoices, and filters the list
 * by status and by a free-text query. Amounts are integer cents.
 */
module History {
  import opened Wrappers
  import opened Seqs
  import opened Text
  import opened Money

  /** `TAX_RATE = 0.12`, as a percentage. */
  const TaxPercent := 12

  /** The order code printed for an invoice: `FAC-` and the id zero-padded to four digits. */
  function FormatOrderCode(facId: nat): (code: string)
    ensures |code| == 4 + if DigitCount(facId) >= 4 then DigitCount(facId) else 4
    ensures code[..4] == "FAC-"
    ensures AllDigits(code[4..])
  {
    "FAC-" + PadStart(NatToString(facId), 4, '0')
  }

  /** Reads an order code back: `FAC-` followed by at least one digit. */
  ghost function ParseOrderCode(code: string): Option<nat> {
    if |code| > 4 && code[..4] == "FAC-" && AllDigits(code[4..]) then Some(ParseDigits(code[4..]))
    else None
  }

  /** The order code names its invoice: reading it back gives the id. */
  lemma OrderCodeRoundTrip(facId: nat)
    ensures ParseOrderCode(FormatOrderCode(facId)) == Some(facId)
  {
    var s := NatToString(facId);
    var code := FormatOrderCode(facId);
    assert code[4..] == PadStart(s, 4, '0');
    if |s| < 4 {
      ParseZeroPadded(s, 4 - |s|);
    }
    ParsePrinted(facId);
  }

  /** Distinct invoices never share an order code, however large their ids. */
  lemma OrderCodeInjective(a: nat, b: nat)
    requires FormatOrderCode(a) == FormatOrderCode(b)
    ensures a == b
  {
    OrderCodeRoundTrip(a);
    OrderCodeRoundTrip(b);
  }

  /** A point in local time, as the `Date` getters report it. */
  datatype DateTime = DateTime(year: int, month: int, day: int, hours: int, minutes: int)

  /** `isSameDay`: same year, month and day; the time of day is ignored. */
  predicate IsSameDay(a: DateTime, b: DateTime): (same: bool)
    ensures same <==> a.(hours := b.hours, minutes := b.minutes) == b
  {
    a.year == b.year && a.month == b.month && a.day == b.day
  }

  /** Being on the same day is an equivalence on dates. */
  lemma IsSameDayEquivalence(a: DateTime, b: DateTime, c: DateTime)
    ensures IsSameDay(a, a)
    ensures IsSameDay(a, b) ==> IsSameDay(b, a)
    ensures IsSameDay(a, b) && IsSameDay(b, c) ==> IsSameDay(a, c)
  {
  }

  datatype Cliente = Cliente(cliId: nat, cliNombre: Option<string>)

  /**
   * An invoice row as listed by the backend, with `fac_fecha` as the local date `new Date`
   * reads from it; an unparsable `fac_fecha` is `None`.
   */
  datatype Factura = Factura(facId: nat, cliId: Option<nat>, fecha: Option<DateTime>)

  /**
   * A product of the invoice detail with its join row: the price stored on the line,
   * the product's current price and the quantity, each possibly missing.
   */
  datatype DetailProduct = DetailProduct(
    proId: nat, proNombre: string, proPvp: Option<int>, facproPvp: Option<int>, facproCantidad: Option<int>)

  datatype Item = Item(proId: nat, proNombre: string, pvp: int, quantity: int)

  datatype InvoiceStatus = Paid | Pending | Cancelled

  datatype Enriched = Enriched(
    factura: Factura, orderCode: string, cliente: Option<Cliente>, items: seq<Item>,
    subtotal: int, totalWithTax: int, itemCount: int, date: Option<DateTime>, status: InvoiceStatus)

  /** `clientes[i]` is `c`, and no later entry of the list has its id. */
  predicate LastListed(clientes: seq<Cliente>, i: int, c: Cliente) {
    0 <= i < |clientes| && clientes[i] == c
    && forall j :: i < j < |clientes| ==> clientes[j].cliId != c.cliId
  }

  /** The client a `Map` built from the client list returns for an id: the last one listed. */
  function ClientFor(clientes: seq<Cliente>, cliId: Option<nat>): (c: Option<Cliente>)
    ensures c.Some? ==> cliId == Some(c.value.cliId) && c.value in clientes
    ensures c.Some? ==> exists i :: LastListed(clientes, i, c.value)
    ensures c.None? ==> forall i :: 0 <= i < |clientes| ==> cliId != Some(clientes[i].cliId)
  {
    if clientes == [] then None
    else if cliId == Some(clientes[|clientes| - 1].cliId) then
      assert LastListed(clientes, |clientes| - 1, clientes[|clientes| - 1]);
      Some(clientes[|clientes| - 1])
    else
      var init := clientes[..|clientes| - 1];
      var r := ClientFor(init, cliId);
      assert r.Some? ==> forall i :: LastListed(init, i, r.value) ==> LastListed(clientes, i, r.value);
      r
  }

  /** One detail line: price `facpro_pvp ?? pro_pvp ?? 0`, quantity `facpro_cantidad ?? 1`. */
  function ToItem(p: DetailProduct): (item: Item)
    ensures p.facproPvp.Some? ==> item.pvp == p.facproPvp.value
    ensures p.facproPvp.None? && p.proPvp.Some? ==> item.pvp == p.proPvp.value
    ensures p.facproPvp.None? && p.proPvp.None? ==> item.pvp == 0
    ensures item.quantity == if p.facproCantidad.Some? then p.facproCantidad.value else 1
  {
    var pvp := match p.facproPvp
      case Some(v) => v
      case None => p.proPvp.GetOr(0);
    Item(p.proId, p.proNombre, pvp, p.facproCantidad.GetOr(1))
  }

  /** The items of an invoice; a failed detail request yields none. */
  function ItemsOf(detail: Option<seq<DetailProduct>>): (items: seq<Item>)
    ensures detail.None? ==> items == []
    ensures detail.Some? ==> |items| == |detail.value|
    ensures detail.Some? ==> forall i :: 0 <= i < |items| ==> items[i] == ToItem(detail.value[i])
  {
    match detail
    case None => []
    case Some(ps) => seq(|ps|, i requires 0 <= i < |ps| => ToItem(ps[i]))
  }

  function ItemsSubtotal(items: seq<Item>): (subtotal: int)
    ensures (forall i :: 0 <= i < |items| ==> items[i].quantity == 0) ==> subtotal == 0
  {
    if items == [] then 0
    else ItemsSubtotal(items[..|items| - 1]) + items[|items| - 1].pvp * items[|items| - 1].quantity
  }

  function ItemCount(items: seq<Item>): (count: int)
    ensures (forall i :: 0 <= i < |items| ==> items[i].quantity == 1) ==> count == |items|
  {
    if items == [] then 0 else ItemCount(items[..|items| - 1]) + items[|items| - 1].quantity
  }

  /** `subtotal * (1 + TAX_RATE)` rounded to the cent. */
  function TotalWithTax(subtotal: int): (total: int)
    ensures 100 * total - 50 <= subtotal * (100 + TaxPercent) < 100 * total + 50
  {
    Round2(subtotal * (100 + TaxPercent))
  }

  /** `subtotal * TAX_RATE` rounded to the cent, as shown in the detail view. */
  function TaxAmount(subtotal: int): (tax: int)
    ensures 100 * tax - 50 <= subtotal * TaxPercent < 100 * tax + 50
  {
    Round2(subtotal * TaxPercent)
  }

  /** The tax-inclusive total is the subtotal plus the tax the detail view shows. */
  lemma TotalIsSubtotalPlusTax(subtotal: int)
    ensures TotalWithTax(subtotal) == subtotal + TaxAmount(subtotal)
  {
    assert subtotal * (100 + TaxPercent) == 100 * subtotal + subtotal * TaxPercent;
    Round2Shift(subtotal, subtotal * TaxPercent);
  }

  /** The tax-inclusive total lies within half a cent of 112 % of the subtotal. */
  lemma TotalWithTaxBounds(subtotal: int)
    ensures 100 * TotalWithTax(subtotal) - 50 <= 112 * subtotal < 100 * TotalWithTax(subtotal) + 50
  {
  }

  /** The enrichment of one invoice in `loadData`. */
  function Enrich(f: Factura, clientes: seq<Cliente>, detail: Option<seq<DetailProduct>>): (e: Enriched)
    ensures e.factura == f && e.date == f.fecha && e.status == Paid
    ensures e.orderCode == FormatOrderCode(f.facId)
    ensures e.cliente == ClientFor(clientes, f.cliId)
    ensures e.items == ItemsOf(detail)
    ensures e.subtotal == ItemsSubtotal(e.items) && e.itemCount == ItemCount(e.items)
    ensures e.totalWithTax == TotalWithTax(e.subtotal)
  {
    var items := ItemsOf(detail);
    var subtotal := ItemsSubtotal(items);
    Enriched(f, FormatOrderCode(f.facId), ClientFor(clientes, f.cliId), items,
             subtotal, TotalWithTax(subtotal), ItemCount(items), f.fecha, Paid)
  }

  /** All invoices enriched, in the order listed; `fetch` stands for the detail request. */
  function EnrichAll(facturas: seq<Factura>, clientes: seq<Cliente>, fetch: nat -> Option<seq<DetailProduct>>)
    : (es: seq<Enriched>)
    ensures |es| == |facturas|
    ensures forall i :: 0 <= i < |es| ==> es[i] == Enrich(facturas[i], clientes, fetch(facturas[i].facId))
  {
    seq(|facturas|, i requires 0 <= i < |facturas| => Enrich(facturas[i], clientes, fetch(facturas[i].facId)))
  }

  /** An invoice with no detail lines has nothing to pay. */
  lemma NoItemsNoTotal(f: Factura, clientes: seq<Cliente>)
    ensures var e := Enrich(f, clientes, None); e.subtotal == 0 && e.totalWithTax == 0 && e.itemCount == 0
  {
  }

  /** Subtotal and item count of a concatenation of lines are the sums of the parts. */
  lemma {:induction false} ItemsSplit(a: seq<Item>, b: seq<Item>)
    ensures ItemsSubtotal(a + b) == ItemsSubtotal(a) + ItemsSubtotal(b)
    ensures ItemCount(a + b) == ItemCount(a) + ItemCount(b)
  {
    if b == [] {
      assert a + b == a;
    } else {
      assert (a + b)[..|a + b| - 1] == a + b[..|b| - 1];
      ItemsSplit(a, b[..|b| - 1]);
    }
  }

  /** Lines with a non-negative price and quantity never make a negative total. */
  lemma {:induction false} ItemsNonNegative(items: seq<Item>)
    requires forall i :: 0 <= i < |items| ==> items[i].pvp >= 0 && items[i].quantity >= 0
    ensures ItemsSubtotal(items) >= 0 && ItemCount(items) >= 0
    ensures TotalWithTax(ItemsSubtotal(items)) >= ItemsSubtotal(items)
  {
    if items != [] {
      ItemsNonNegative(items[..|items| - 1]);
    }
    TaxNeverLowers(ItemsSubtotal(items));
  }

  /** On a non-negative subtotal the tax-inclusive total is at least the subtotal. */
  lemma TaxNeverLowers(subtotal: int)
    requires subtotal >= 0
    ensures TotalWithTax(subtotal) >= subtotal
  {
    Round2NonNegative(subtotal * TaxPercent);
    TotalIsSubtotalPlusTax(subtotal);
  }

  /** The counters shown above the table. */
  datatype Stats = Stats(totalToday: int, totalOrders: nat)

  function DatedOn(today: DateTime): Enriched -> bool {
    (e: Enriched) => e.date.Some? && IsSameDay(e.date.value, today)
  }

  function SumTotals(es: seq<Enriched>): int {
    if es == [] then 0 else SumTotals(es[..|es| - 1]) + es[|es| - 1].totalWithTax
  }

  /** `totalToday` adds the totals of the invoices dated today; `totalOrders` counts them all. */
  function ComputeStats(es: seq<Enriched>, today: DateTime): (s: Stats)
    ensures s.totalOrders == |es|
    ensures s.totalToday == SumTotals(Filter(DatedOn(today), es))
  {
    Stats(SumTotals(Filter(DatedOn(today), es)), |es|)
  }

  /** When no invoice is dated today, today's takings are zero. */
  lemma NothingToday(es: seq<Enriched>, today: DateTime)
    requires forall i :: 0 <= i < |es| ==> !DatedOn(today)(es[i])
    ensures ComputeStats(es, today).totalToday == 0
  {
    FilterKeepsNone(DatedOn(today), es);
  }

  /** With non-negative totals, today's takings lie between zero and the sum of all totals. */
  lemma {:induction false} TotalTodayBounded(es: seq<Enriched>, today: DateTime)
    requires forall i :: 0 <= i < |es| ==> es[i].totalWithTax >= 0
    ensures 0 <= ComputeStats(es, today).totalToday <= SumTotals(es)
  {
    if es != [] {
      var init := es[..|es| - 1];
      var last := es[|es| - 1];
      TotalTodayBounded(init, today);
      assert es == init + [last];
      FilterAppend(DatedOn(today), init, [last]);
      if DatedOn(today)(last) {
        assert Filter(DatedOn(today), [last]) == [last];
        SumTotalsAppend(Filter(DatedOn(today), init), last);
      } else {
        assert Filter(DatedOn(today), [last]) == [];
        assert Filter(DatedOn(today), init) + [] == Filter(DatedOn(today), init);
      }
    }
  }

  lemma SumTotalsAppend(es: seq<Enriched>, e: Enriched)
    ensures SumTotals(es + [e]) == SumTotals(es) + e.totalWithTax
  {
    assert (es + [e])[..|es|] == es;
  }

  /** The status chips above the table. */
  datatype StatusFilter = All | OnlyPaid | OnlyPending | OnlyCancelled

  function StatusMatches(filter: StatusFilter, status: InvoiceStatus): bool {
    match filter
    case All => true
    case OnlyPaid => status == Paid
    case OnlyPending => status == Pending
    case OnlyCancelled => status == Cancelled
  }

  /**
   * The query matches when it is empty, when the lower-cased order code contains it, or
   * when the client's lower-cased name does.
   */
  function QueryMatches(query: string, e: Enriched): bool {
    query == []
    || Contains(ToLower(e.orderCode), query)
    || (e.cliente.Some? && e.cliente.value.cliNombre.Some?
        && Contains(ToLower(e.cliente.value.cliNombre.value), query))
  }

  function Shown(search: string, filter: StatusFilter): Enriched -> bool {
    var query := ToLower(Trim(search));
    (e: Enriched) => StatusMatches(filter, e.status) && QueryMatches(query, e)
  }

  /** `filteredFacturas`: the query is the trimmed, lower-cased search text. */
  function FilterHistory(es: seq<Enriched>, search: string, filter: StatusFilter): (r: seq<Enriched>)
    ensures |r| <= |es|
    ensures forall i :: 0 <= i < |r| ==> StatusMatches(filter, r[i].status)
  {
    Filter(Shown(search, filter), es)
  }

  /** An invoice is shown iff it is listed and both its status and the query match; order is kept. */
  lemma FilterHistorySpec(es: seq<Enriched>, search: string, filter: StatusFilter, e: Enriched)
    ensures e in FilterHistory(es, search, filter) <==>
      e in es && StatusMatches(filter, e.status) && QueryMatches(ToLower(Trim(search)), e)
    ensures IsSubsequence(FilterHistory(es, search, filter), es)
  {
    FilterMembership(Shown(search, filter), es, e);
    FilterIsSubsequence(Shown(search, filter), es);
  }

  /** Every enriched invoice is paid, so the pending and cancelled chips always show nothing. */
  lemma PendingAndCancelledEmpty(
    facturas: seq<Factura>, clientes: seq<Cliente>, fetch: nat -> Option<seq<DetailProduct>>, search: string)
    ensures FilterHistory(EnrichAll(facturas, clientes, fetch), search, OnlyPending) == []
    ensures FilterHistory(EnrichAll(facturas, clientes, fetch), search, OnlyCancelled) == []
  {
    var es := EnrichAll(facturas, clientes, fetch);
    forall i | 0 <= i < |es|
      ensures es[i].status == Paid
    {
      assert es[i] == Enrich(facturas[i], clientes, fetch(facturas[i].facId));
    }
    OnlyPaidListed(es, search, OnlyPending);
    OnlyPaidListed(es, search, OnlyCancelled);
  }

  /** A list of paid invoices shows nothing under a chip other than "all" and "paid". */
  lemma OnlyPaidListed(es: seq<Enriched>, search: string, filter: StatusFilter)
    requires filter == OnlyPending || filter == OnlyCancelled
    requires forall i :: 0 <= i < |es| ==> es[i].status == Paid
    ensures FilterHistory(es, search, filter) == []
  {
    forall i | 0 <= i < |es|
      ensures !Shown(search, filter)(es[i])
    {
      HiddenByStatus(search, filter, es[i]);
    }
    FilterKeepsNone(Shown(search, filter), es);
  }

  /** An invoice whose status the chip rejects is not shown, whatever the search. */
  lemma HiddenByStatus(search: string, filter: StatusFilter, e: Enriched)
    requires !StatusMatches(filter, e.status)
    ensures !Shown(search, filter)(e)
  {
  }

  /** A blank or white-space-only search under the "all" chip shows every invoice. */
  lemma BlankSearchShowsAll(es: seq<Enriched>, search: string)
    requires AllSpace(search)
    ensures FilterHistory(es, search, All) == es
  {
    TrimEmptyIff(search);
    FilterKeepsAll(Shown(search, All), es);
  }
}
