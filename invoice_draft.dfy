/**
 * The invoice form of the invoicing page (frontend/src/Facturas.jsx): the list of lines
 * being drafted for a new invoice, its total, the guard on submitting it and the search
 * over existing invoices. Amounts are integer cents.
 */
module InvoiceDraft {
  import opened Wrappers
  import opened Seqs
  import Text

  /** A product of the catalog, with the fields a draft line copies from it. */
  datatype CatalogProduct = CatalogProduct(proId: nat, nombre: string, pvp: int, impuesto: int, estado: bool)

  /**
   * A JavaScript number as this form computes it from integers: an integer, or `NaN`,
   * which every sum and product it enters turns into `NaN`.
   */
  datatype Num = Int(value: int) | NaN

  function Plus(a: Num, b: Num): (c: Num)
    ensures c.NaN? <==> a.NaN? || b.NaN?
    ensures c.Int? ==> c.value == a.value + b.value
  {
    if a.Int? && b.Int? then Int(a.value + b.value) else NaN
  }

  /** A catalog price times a quantity. */
  function Times(price: int, q: Num): (c: Num)
    ensures c.NaN? <==> q.NaN?
    ensures c.Int? ==> c.value == price * q.value
  {
    if q.Int? then Int(price * q.value) else NaN
  }

  /** A drafted line: the product spread into it, the quantity and the line total. */
  datatype DraftLine = DraftLine(product: CatalogProduct, cantidad: Num, total: Num)

  /**
   * The quantity field seen through the two readings `addProductToList` makes of it:
   * `reading` is the number the comparison `facpro_cantidad <= 0` converts it to (`None`
   * for `NaN`), `parsed` is `parseInt` of it. The field holds the number 1 until the user
   * types; then it holds the text typed, which the input's `min="1"` does not constrain
   * for a `type="button"` click: "0.5" reads 0.5 but parses to 0, ".5" reads 0.5 but
   * parses to `NaN`.
   */
  datatype Quantity = Quantity(reading: Option<real>, parsed: Num)

  /** The pending selection of the form: the chosen product (`None` for `''`) and the quantity. */
  datatype Selection = Selection(proId: Option<nat>, cantidad: Quantity)

  /** `{ pro_id: '', facpro_cantidad: 1 }`. */
  const EmptySelection := Selection(None, Quantity(Some(1.0), Int(1)))

  /** `!currentProduct.pro_id || currentProduct.facpro_cantidad <= 0`; `NaN <= 0` is false. */
  predicate Refused(current: Selection) {
    current.proId.None? || (current.cantidad.reading.Some? && current.cantidad.reading.value <= 0.0)
  }

  function ProductWithId(proId: nat): CatalogProduct -> bool {
    (p: CatalogProduct) => p.proId == proId
  }

  function LineWithId(proId: nat): DraftLine -> bool {
    (line: DraftLine) => line.product.proId == proId
  }

  /** The first catalog position holding `proId` (`productos.find`). */
  function FirstProduct(productos: seq<CatalogProduct>, proId: nat): (r: Option<nat>)
    ensures r.Some? ==> r.value < |productos| && productos[r.value].proId == proId
    ensures r.Some? ==> forall j :: 0 <= j < r.value ==> productos[j].proId != proId
    ensures r.None? ==> forall j :: 0 <= j < |productos| ==> productos[j].proId != proId
  {
    FirstIndex(ProductWithId(proId), productos)
  }

  /** The first drafted line for `proId` (`selectedProducts.findIndex`, with -1 as `None`). */
  function LineIndex(lines: seq<DraftLine>, proId: nat): (r: Option<nat>)
    ensures r.Some? ==> r.value < |lines| && lines[r.value].product.proId == proId
    ensures r.Some? ==> forall j :: 0 <= j < r.value ==> lines[j].product.proId != proId
    ensures r.None? ==> forall j :: 0 <= j < |lines| ==> lines[j].product.proId != proId
  {
    FirstIndex(LineWithId(proId), lines)
  }

  /**
   * The draft list and pending selection after `addProductToList`. Nothing happens
   * without a chosen product, with a quantity that reads 0 or less, or for an id missing
   * from the catalog. A product already listed has `parseInt` of both quantities summed
   * and its total recomputed from the catalog price; any other product is appended with
   * `parseInt` of the typed quantity. A successful add resets the selection.
   */
  function AddToList(productos: seq<CatalogProduct>, lines: seq<DraftLine>, current: Selection)
    : (r: (seq<DraftLine>, Selection))
    ensures Refused(current) ==> r == (lines, current)
    ensures current.proId.Some? && FirstProduct(productos, current.proId.value).None? ==> r == (lines, current)
    ensures r.0 != lines ==> r.1 == EmptySelection
  {
    if Refused(current) then (lines, current)
    else match FirstProduct(productos, current.proId.value)
      case None => (lines, current)
      case Some(k) =>
        var p := productos[k];
        match LineIndex(lines, p.proId)
        case Some(i) =>
          var q := Plus(lines[i].cantidad, current.cantidad.parsed);
          (lines[i := DraftLine(lines[i].product, q, Times(p.pvp, q))], EmptySelection)
        case None =>
          (lines + [DraftLine(p, current.cantidad.parsed, Times(p.pvp, current.cantidad.parsed))], EmptySelection)
  }

  /**
   * `addProductToList`: on a repeated product it copies the list into a fresh array
   * and overwrites the entry at the found index; otherwise it appends.
   */
  method AddProductToList(productos: seq<CatalogProduct>, lines: seq<DraftLine>, current: Selection)
    returns (newLines: seq<DraftLine>, newCurrent: Selection)
    ensures (newLines, newCurrent) == AddToList(productos, lines, current)
  {
    if Refused(current) {
      return lines, current;
    }
    var k := FindFirst(ProductWithId(current.proId.value), productos);
    if k.None? {
      return lines, current;
    }
    var details := productos[k.value];
    var existing := FindFirst(LineWithId(details.proId), lines);
    if existing.Some? {
      var i := existing.value;
      var updated := new DraftLine[|lines|](j requires 0 <= j < |lines| => lines[j]);
      var q := Plus(updated[i].cantidad, current.cantidad.parsed);
      updated[i] := DraftLine(updated[i].product, q, Times(details.pvp, q));
      newLines := updated[..];
      assert newLines == lines[i := DraftLine(lines[i].product, q, Times(details.pvp, q))];
    } else {
      var q := current.cantidad.parsed;
      newLines := lines + [DraftLine(details, q, Times(details.pvp, q))];
    }
    newCurrent := EmptySelection;
  }

  /**
   * The draft invariant: one line per product, and every line holds the product the
   * catalog lists first for its id and a total of price times quantity. The quantity
   * itself may be 0 or `NaN`, as the typed text allows.
   */
  ghost predicate Consistent(productos: seq<CatalogProduct>, lines: seq<DraftLine>) {
    && (forall i, j :: 0 <= i < j < |lines| ==> lines[i].product.proId != lines[j].product.proId)
    && forall i :: 0 <= i < |lines| ==> LineAgrees(productos, lines[i])
  }

  ghost predicate LineAgrees(productos: seq<CatalogProduct>, line: DraftLine) {
    && line.total == Times(line.product.pvp, line.cantidad)
    && match FirstProduct(productos, line.product.proId)
       case Some(k) => productos[k] == line.product
       case None => false
  }

  /**
   * Re-adding a listed product sums the two parsed quantities and sets that line's total
   * to the catalog price times the new quantity; the length and the other lines stay.
   */
  lemma AddToListMerges(productos: seq<CatalogProduct>, lines: seq<DraftLine>, current: Selection, i: nat)
    requires !Refused(current)
    requires FirstProduct(productos, current.proId.value).Some?
    requires i < |lines| && lines[i].product.proId == current.proId.value
    requires Consistent(productos, lines)
    ensures var (r, s) := AddToList(productos, lines, current);
      && |r| == |lines| && s == EmptySelection
      && r[i].product == lines[i].product
      && r[i].cantidad == Plus(lines[i].cantidad, current.cantidad.parsed)
      && r[i].total == Times(lines[i].product.pvp, r[i].cantidad)
      && forall j :: 0 <= j < |lines| && j != i ==> r[j] == lines[j]
  {
    assert LineIndex(lines, current.proId.value) == Some(i) by {
      FirstIndexAt(LineWithId(current.proId.value), lines, i);
    }
    assert LineAgrees(productos, lines[i]);
  }

  /** Adding a product not yet listed appends one line with the parsed quantity. */
  lemma AddToListAppends(productos: seq<CatalogProduct>, lines: seq<DraftLine>, current: Selection)
    requires !Refused(current)
    requires FirstProduct(productos, current.proId.value).Some?
    requires forall j :: 0 <= j < |lines| ==> lines[j].product.proId != current.proId.value
    ensures var p := productos[FirstProduct(productos, current.proId.value).value];
      var q := current.cantidad.parsed;
      AddToList(productos, lines, current) == (lines + [DraftLine(p, q, Times(p.pvp, q))], EmptySelection)
  {
  }

  /**
   * The guard reads the typed text, the line stores `parseInt` of it: a quantity typed as
   * "0.5" passes the guard and appends a line of quantity 0 and total 0.
   */
  lemma FractionAppendsZeroLine(productos: seq<CatalogProduct>, lines: seq<DraftLine>, proId: nat)
    requires FirstProduct(productos, proId).Some?
    requires forall j :: 0 <= j < |lines| ==> lines[j].product.proId != proId
    ensures var r := AddToList(productos, lines, Selection(Some(proId), Quantity(Some(0.5), Int(0)))).0;
      && |r| == |lines| + 1
      && r[|lines|].cantidad == Int(0) && r[|lines|].total == Int(0)
  {
    AddToListAppends(productos, lines, Selection(Some(proId), Quantity(Some(0.5), Int(0))));
  }

  /** `addProductToList` keeps the draft invariant. */
  lemma AddToListConsistent(productos: seq<CatalogProduct>, lines: seq<DraftLine>, current: Selection)
    requires Consistent(productos, lines)
    ensures Consistent(productos, AddToList(productos, lines, current).0)
  {
    if !Refused(current) {
      match FirstProduct(productos, current.proId.value)
      case None =>
      case Some(k) =>
        var p := productos[k];
        match LineIndex(lines, p.proId)
        case Some(i) =>
          var r := AddToList(productos, lines, current).0;
          assert LineAgrees(productos, lines[i]);
          assert lines[i].product == p;
          assert LineAgrees(productos, r[i]);
          assert forall j :: 0 <= j < |r| && j != i ==> r[j] == lines[j];
        case None =>
          var r := AddToList(productos, lines, current).0;
          assert LineAgrees(productos, r[|lines|]);
          assert forall j :: 0 <= j < |lines| ==> r[j] == lines[j];
    }
  }

  /** `prev.filter((_, i) => i !== index)`: drops the element at `index`, if there is one. */
  function RemoveAt<T>(s: seq<T>, index: int): (r: seq<T>)
    ensures 0 <= index < |s| ==> r == s[..index] + s[index + 1..]
    ensures !(0 <= index < |s|) ==> r == s
  {
    if s == [] then []
    else (if index == 0 then [] else [s[0]]) + RemoveAt(s[1..], index - 1)
  }

  /** `removeProductFromList` keeps the draft invariant. */
  lemma RemoveAtConsistent(productos: seq<CatalogProduct>, lines: seq<DraftLine>, index: int)
    requires Consistent(productos, lines)
    ensures Consistent(productos, RemoveAt(lines, index))
  {
    if 0 <= index < |lines| {
      var r := RemoveAt(lines, index);
      forall k | 0 <= k < |r|
        ensures r[k] == lines[if k < index then k else k + 1]
      {
      }
      forall i, j | 0 <= i < j < |r|
        ensures r[i].product.proId != r[j].product.proId
      {
        var a, b := if i < index then i else i + 1, if j < index then j else j + 1;
        assert r[i] == lines[a] && r[j] == lines[b] && a < b;
      }
      forall k | 0 <= k < |r|
        ensures LineAgrees(productos, r[k])
      {
        assert r[k] == lines[if k < index then k else k + 1];
      }
    }
  }

  /**
   * An entry of the list `calculateTotal` sums: a drafted line carries its total, a line
   * fetched from the backend carries the stored price and quantity.
   */
  datatype TotalEntry = Drafted(total: Num) | Fetched(facproPvp: int, facproCantidad: int)

  function EntryAmount(e: TotalEntry): Num {
    match e
    case Drafted(t) => t
    case Fetched(pvp, q) => Int(pvp * q)
  }

  /** The `reduce` of `calculateTotal`: the running sum, `NaN` once any entry is. */
  function SumEntries(entries: seq<TotalEntry>): (sum: Num)
    ensures sum.NaN? <==> exists i :: 0 <= i < |entries| && EntryAmount(entries[i]).NaN?
  {
    if entries == [] then Int(0)
    else
      var init := entries[..|entries| - 1];
      assert forall i :: 0 <= i < |init| ==> init[i] == entries[i];
      Plus(SumEntries(init), EntryAmount(entries[|entries| - 1]))
  }

  /** `calculateTotal(productsList)`, in cents; a missing list totals zero (`"0.00"`). */
  function CalculateTotal(list: Option<seq<TotalEntry>>): (total: Num)
    ensures list.None? ==> total == Int(0)
    ensures list.Some? ==> (total.NaN? <==> exists i :: 0 <= i < |list.value| && EntryAmount(list.value[i]).NaN?)
  {
    match list
    case None => Int(0)
    case Some(entries) => SumEntries(entries)
  }

  /** Appending an entry adds its amount to the total. */
  lemma CalculateTotalAppend(entries: seq<TotalEntry>, e: TotalEntry)
    ensures CalculateTotal(Some(entries + [e])) == Plus(CalculateTotal(Some(entries)), EntryAmount(e))
  {
    assert (entries + [e])[..|entries|] == entries;
  }

  /** The total is the sum of the amounts of entries all of which are numbers. */
  lemma {:induction false} CalculateTotalSum(entries: seq<TotalEntry>, amounts: seq<int>)
    requires |amounts| == |entries|
    requires forall i :: 0 <= i < |entries| ==> EntryAmount(entries[i]) == Int(amounts[i])
    ensures CalculateTotal(Some(entries)) == Int(Sum(amounts))
  {
    if entries != [] {
      var n := |entries| - 1;
      CalculateTotalSum(entries[..n], amounts[..n]);
      CalculateTotalAppend(entries[..n], entries[n]);
      assert entries[..n] + [entries[n]] == entries;
      SumSnoc(amounts[..n], amounts[n]);
      assert amounts[..n] + [amounts[n]] == amounts;
    }
  }

  function Sum(xs: seq<int>): int {
    if xs == [] then 0 else xs[0] + Sum(xs[1..])
  }

  lemma {:induction false} SumSnoc(xs: seq<int>, x: int)
    ensures Sum(xs + [x]) == Sum(xs) + x
  {
    if xs != [] {
      assert (xs + [x])[1..] == xs[1..] + [x];
      SumSnoc(xs[1..], x);
    }
  }

  function AsDrafted(lines: seq<DraftLine>): seq<TotalEntry> {
    seq(|lines|, i requires 0 <= i < |lines| => Drafted(lines[i].total))
  }

  /**
   * The same lines as the backend returns them once saved with the catalog price. Only
   * lines with a numeric quantity can be saved: `NaN` is sent as `null`, which the
   * `NOT NULL` quantity column refuses.
   */
  function AsFetched(lines: seq<DraftLine>): seq<TotalEntry>
    requires forall i :: 0 <= i < |lines| ==> lines[i].cantidad.Int?
  {
    seq(|lines|, i requires 0 <= i < |lines| => Fetched(lines[i].product.pvp, lines[i].cantidad.value))
  }

  /**
   * On a consistent draft whose quantities are numbers, the total shown before saving
   * equals the total of the same lines read back with their stored price and quantity.
   */
  lemma DraftTotalMatchesFetched(productos: seq<CatalogProduct>, lines: seq<DraftLine>)
    requires Consistent(productos, lines)
    requires forall i :: 0 <= i < |lines| ==> lines[i].cantidad.Int?
    ensures CalculateTotal(Some(AsDrafted(lines))) == CalculateTotal(Some(AsFetched(lines)))
  {
    var amounts := seq(|lines|, i requires 0 <= i < |lines| => lines[i].product.pvp * lines[i].cantidad.value);
    forall i | 0 <= i < |lines|
      ensures EntryAmount(AsDrafted(lines)[i]) == Int(amounts[i])
    {
      assert LineAgrees(productos, lines[i]);
    }
    CalculateTotalSum(AsDrafted(lines), amounts);
    CalculateTotalSum(AsFetched(lines), amounts);
  }

  /** A line whose quantity parsed to `NaN` makes the draft's total `NaN`. */
  lemma NaNLineSpoilsTotal(productos: seq<CatalogProduct>, lines: seq<DraftLine>, i: nat)
    requires Consistent(productos, lines)
    requires i < |lines| && lines[i].cantidad.NaN?
    ensures CalculateTotal(Some(AsDrafted(lines))).NaN?
  {
    assert LineAgrees(productos, lines[i]);
    assert EntryAmount(AsDrafted(lines)[i]).NaN?;
  }

  datatype SubmitDecision = RejectEmpty | Proceed

  /**
   * The guard of `handleSubmit`: a new invoice (no `editId`, or the falsy id 0) with no
   * lines is refused before any request is made.
   */
  function SubmitGuard(lines: seq<DraftLine>, editId: Option<nat>): (d: SubmitDecision)
    ensures d == RejectEmpty <==> lines == [] && (editId.None? || editId == Some(0))
  {
    if |lines| == 0 && !(editId.Some? && editId.value != 0) then RejectEmpty else Proceed
  }

  /** A row of the invoice table: its id and the name of the client joined to it. */
  datatype InvoiceRow = InvoiceRow(facId: nat, clienteNombre: Option<string>)

  /** The search of the invoice table: the lower-cased client name or the id's digits. */
  function RowMatches(search: string): InvoiceRow -> bool {
    (f: InvoiceRow) =>
      Text.Contains(Text.ToLower(f.clienteNombre.GetOr("")), Text.ToLower(search))
      || Text.Contains(Text.NatToString(f.facId), search)
  }

  /** `filteredFacturas`. */
  function FilterFacturas(facturas: seq<InvoiceRow>, search: string): (r: seq<InvoiceRow>)
    ensures |r| <= |facturas|
    ensures forall i :: 0 <= i < |r| ==> r[i] in facturas && RowMatches(search)(r[i])
  {
    FilterSubset(RowMatches(search), facturas);
    Filter(RowMatches(search), facturas)
  }

  /**
   * An invoice is shown iff its client name contains the search, compared in lower case,
   * or its id contains the search as typed; the shown rows keep their order.
   */
  lemma FilterFacturasSpec(facturas: seq<InvoiceRow>, search: string, f: InvoiceRow)
    ensures f in FilterFacturas(facturas, search) <==>
      f in facturas
      && (Text.Contains(Text.ToLower(f.clienteNombre.GetOr("")), Text.ToLower(search))
          || Text.Contains(Text.NatToString(f.facId), search))
    ensures IsSubsequence(FilterFacturas(facturas, search), facturas)
  {
    FilterMembership(RowMatches(search), facturas, f);
    FilterIsSubsequence(RowMatches(search), facturas);
  }

  /** An empty search shows every invoice. */
  lemma FilterFacturasEmptySearch(facturas: seq<InvoiceRow>)
    ensures FilterFacturas(facturas, "") == facturas
  {
    forall i | 0 <= i < |facturas|
      ensures RowMatches("")(facturas[i])
    {
      Text.ContainsEmpty(Text.ToLower(facturas[i].clienteNombre.GetOr("")));
    }
    FilterKeepsAll(RowMatches(""), facturas);
  }
}
