/**
 * The product catalogue screen: the search over the loaded products, the edit form opened for a
 * product or for a new one, the request body built from the form on submit, and the icon style
 * chosen for each row of the table.
 *
 * Products are listed as the API returns them: the name may be missing, the price is the
 * decimal text of the `DECIMAL` column, and the state is a flag.
 */
module ProductForm {
  import opened Wrappers
  import opened Text
  import Seqs
  import Schema

  datatype ListedProduct = ListedProduct(proId: nat, nombre: Option<string>, pvp: Option<string>, estado: bool)

  // ---------------------------------------------------------------- search

  /** The query the search box yields: trimmed, then lower-cased. */
  function Query(search: string): string {
    ToLower(Trim(search))
  }

  /** The lower-cased name contains the query, or the decimal id does. */
  predicate ProductMatches(query: string, p: ListedProduct) {
    (p.nombre.Some? && Contains(ToLower(p.nombre.value), query)) || Contains(NatToString(p.proId), query)
  }

  /** `filteredProductos`: a blank query shows the whole list, any other keeps the matches in order. */
  function FilterProductos(productos: seq<ListedProduct>, search: string): (r: seq<ListedProduct>)
    ensures |r| <= |productos|
    ensures Query(search) == [] ==> r == productos
    ensures Query(search) != [] ==> forall k :: 0 <= k < |r| ==> ProductMatches(Query(search), r[k])
  {
    var query := Query(search);
    if query == [] then productos
    else Seqs.Filter(p => ProductMatches(query, p), productos)
  }

  /** A search of white space only shows every product. */
  lemma BlankSearchShowsAll(productos: seq<ListedProduct>, search: string)
    requires AllSpace(search)
    ensures FilterProductos(productos, search) == productos
  {
    TrimEmptyIff(search);
  }

  /**
   * A search with some non-blank character shows exactly the listed products that match, and
   * shows them in the order of the list.
   */
  lemma FilterProductosSpec(productos: seq<ListedProduct>, search: string, x: ListedProduct)
    requires !AllSpace(search)
    ensures x in FilterProductos(productos, search) <==> x in productos && ProductMatches(Query(search), x)
    ensures Seqs.IsSubsequence(FilterProductos(productos, search), productos)
  {
    TrimEmptyIff(search);
    var query := Query(search);
    Seqs.FilterMembership(p => ProductMatches(query, p), productos, x);
    Seqs.FilterIsSubsequence(p => ProductMatches(query, p), productos);
  }

  /** Typing a product's id, with or without surrounding blanks, keeps that product in view. */
  lemma SearchByIdFindsProduct(productos: seq<ListedProduct>, p: ListedProduct, pad: string)
    requires p in productos
    requires AllSpace(pad)
    ensures p in FilterProductos(productos, pad + NatToString(p.proId) + pad)
  {
    var id := NatToString(p.proId);
    var search := pad + id + pad;
    TrimPadded(pad, id, pad);
    ToLowerDigits(id);
    assert Query(search) == id;
    ContainsSelf(id);
    assert ProductMatches(Query(search), p);
    Seqs.FilterMembership(q => ProductMatches(id, q), productos, p);
  }

  // ---------------------------------------------------------------- form

  /** The form's three inputs, all held as text. */
  datatype Form = Form(nombre: string, pvp: string, estado: string)

  const EmptyForm := Form("", "", "true")

  /** `openModal`: the form and the id under edit; no product opens an empty form for a new one. */
  function OpenModal(producto: Option<ListedProduct>): (r: (Form, Option<nat>))
    ensures producto.None? ==> r == (EmptyForm, None)
    ensures producto.Some? ==> r.1 == Some(producto.value.proId)
    ensures producto.Some? ==> r.0.nombre == producto.value.nombre.GetOr("")
    ensures producto.Some? ==> r.0.pvp == producto.value.pvp.GetOr("")
    ensures producto.Some? ==> (r.0.estado == "true" <==> producto.value.estado)
  {
    match producto
    case None => (EmptyForm, None)
    case Some(p) =>
      (Form(p.nombre.GetOr(""), p.pvp.GetOr(""), if p.estado then "true" else "false"), Some(p.proId))
  }

  /** The body sent to the products API; it never carries `pro_impuesto`. */
  datatype Payload = Payload(nombre: string, pvp: int, estado: bool)

  datatype SubmitAction = Invalid(error: string) | CreateRequest(payload: Payload) | UpdateRequest(id: nat, payload: Payload)

  const NameRequired := "El nombre del producto es obligatorio."

  /**
   * The payload of `handleSubmit`. `number` is `Number(text)` in cents, `None` standing for `NaN`;
   * `Number(...) || 0` then turns `NaN` into 0.
   */
  function BuildPayload(form: Form, number: string -> Option<int>): (r: Payload)
    ensures r.nombre == Trim(form.nombre)
    ensures r.estado <==> form.estado == "true"
    ensures r.pvp == 0 <==> number(form.pvp).None? || number(form.pvp) == Some(0)
    ensures r.pvp != 0 ==> number(form.pvp) == Some(r.pvp)
  {
    Payload(Trim(form.nombre), number(form.pvp).GetOr(0), form.estado == "true")
  }

  /** `handleSubmit`: a blank name is refused; a non-zero id under edit updates, anything else creates. */
  function Submit(form: Form, editingId: Option<nat>, number: string -> Option<int>): (r: SubmitAction)
    ensures r.Invalid? <==> Trim(form.nombre) == []
    ensures r.Invalid? ==> r.error == NameRequired
    ensures r.UpdateRequest? <==> Trim(form.nombre) != [] && editingId.Some? && editingId.value != 0
    ensures r.UpdateRequest? ==> r.id == editingId.value
    ensures !r.Invalid? ==> r.payload == BuildPayload(form, number) && r.payload.nombre != []
  {
    var payload := BuildPayload(form, number);
    if payload.nombre == [] then Invalid(NameRequired)
    else if editingId.Some? && editingId.value != 0 then UpdateRequest(editingId.value, payload)
    else CreateRequest(payload)
  }

  /** A name of white space only never reaches the API. */
  lemma BlankNameRejected(form: Form, editingId: Option<nat>, number: string -> Option<int>)
    ensures Submit(form, editingId, number).Invalid? <==> AllSpace(form.nombre)
  {
    TrimEmptyIff(form.nombre);
  }

  /** Submitting the form of a new product untouched is refused for its empty name. */
  lemma UntouchedNewFormRejected(number: string -> Option<int>)
    ensures var (form, id) := OpenModal(None); Submit(form, id, number) == Invalid(NameRequired)
  {
  }

  /**
   * Opening a stored product and saving it unchanged sends an update of that product carrying
   * its name, its state and its price as `Number` reads it back.
   */
  lemma ReopenAndSaveKeepsProduct(p: ListedProduct, number: string -> Option<int>)
    requires p.proId != 0
    requires p.nombre.Some? && p.nombre.value != []
    requires !IsSpace(p.nombre.value[0]) && !IsSpace(p.nombre.value[|p.nombre.value| - 1])
    ensures var (form, id) := OpenModal(Some(p));
      Submit(form, id, number) == UpdateRequest(p.proId, Payload(p.nombre.value, number(p.pvp.GetOr("")).GetOr(0), p.estado))
  {
    var (form, id) := OpenModal(Some(p));
    assert form.nombre == p.nombre.value && id == Some(p.proId);
    TrimUntouched(p.nombre.value);
    var payload := BuildPayload(form, number);
    assert payload == Payload(p.nombre.value, number(p.pvp.GetOr("")).GetOr(0), p.estado);
  }

  /** The body the products API receives: the tax is never part of it. */
  function AsProductoInput(payload: Payload): (r: Schema.ProductoInput)
    ensures r.impuesto.Absent?
    ensures r.nombre == Value(payload.nombre) && r.pvp == Value(payload.pvp) && r.estado == Value(payload.estado)
  {
    Schema.ProductoInput(Value(payload.nombre), Value(payload.pvp), Absent, Value(payload.estado))
  }

  /** A product created from the form always gets the 15.00 default tax. */
  lemma FormCreateUsesDefaultTax(id: int, payload: Payload)
    requires Schema.NewProducto(id, AsProductoInput(payload)).Some?
    ensures Schema.NewProducto(id, AsProductoInput(payload)).value.impuesto == Schema.DefaultImpuesto
    ensures Schema.NewProducto(id, AsProductoInput(payload)).value.nombre == payload.nombre
  {
  }

  /** Saving a product from the form never changes its tax. */
  lemma FormUpdateKeepsTax(p: Schema.Producto, payload: Payload)
    ensures Schema.MergeProducto(p, AsProductoInput(payload)).impuesto == p.impuesto
    ensures Schema.MergeProducto(p, AsProductoInput(payload)) == Schema.Producto(p.proId, payload.nombre, payload.pvp, p.impuesto, payload.estado)
  {
  }

  // ---------------------------------------------------------------- icons

  datatype IconStyle = IconStyle(bg: string, color: string, icon: string)

  const BanStyle := IconStyle("#f8d7da", "#dc3545", "fa-ban")

  const IconPalette: seq<IconStyle> := [
    IconStyle("#fff3cd", "#ffc107", "fa-utensils"),
    IconStyle("#e2e3e5", "#6c757d", "fa-wine-bottle"),
    IconStyle("#f8d7da", "#dc3545", "fa-bahai"),
    IconStyle("#d1e7dd", "#0f5132", "fa-leaf")
  ]

  /**
   * `charCodeAt` of a character: its UTF-16 code unit, which for a character outside the Basic
   * Multilingual Plane is the leading surrogate.
   */
  function CodeUnit(c: char): (r: nat)
    ensures r < 0x1_0000
    ensures c as int < 0x1_0000 ==> r == c as int
    ensures c as int >= 0x1_0000 ==> 0xD800 <= r < 0xDC00
  {
    if c as int < 0x1_0000 then c as int else 0xD800 + (c as int - 0x1_0000) / 0x400
  }

  /** The palette slot of a character code, `key % iconPalette.length`. */
  function PaletteIndex(key: nat): (i: nat)
    ensures i < |IconPalette|
    ensures (key - i) % |IconPalette| == 0
  {
    key % |IconPalette|
  }

  /** A palette lookup that may read past the palette, yielding `undefined`. */
  datatype StyleLookup = Found(style: IconStyle) | Undefined

  /**
   * `getIconStyles` as written: `pro_nombre?.charCodeAt(0) ?? 0` is 0 for a missing name, but
   * for an empty name `charCodeAt(0)` is `NaN`, which `??` does not replace, and the palette
   * at `NaN % 4` is `undefined`.
   */
  function IconStylesAsWritten(p: ListedProduct): (r: StyleLookup)
    ensures !p.estado ==> r == Found(BanStyle)
    ensures r.Undefined? <==> p.estado && p.nombre == Some("")
  {
    if !p.estado then Found(BanStyle)
    else match p.nombre
      case None => Found(IconPalette[PaletteIndex(0)])
      case Some(n) => if n == [] then Undefined else Found(IconPalette[PaletteIndex(CodeUnit(n[0]))])
  }

  /** An active product with an empty name gets no style, and its row cannot be drawn. */
  lemma EmptyNameHasNoStyle(proId: nat, pvp: Option<string>)
    ensures IconStylesAsWritten(ListedProduct(proId, Some(""), pvp, true)) == Undefined
  {
  }

  /** The icon style of a row: an empty name is treated as a missing one. */
  function IconStyles(p: ListedProduct): (r: IconStyle)
    ensures !p.estado ==> r == BanStyle
    ensures p.estado ==> r in IconPalette
    ensures p.estado && (p.nombre.None? || p.nombre == Some("")) ==> r == IconPalette[0]
    ensures p.estado && p.nombre.Some? && p.nombre.value != [] ==>
      r == IconPalette[CodeUnit(p.nombre.value[0]) % 4]
  {
    if !p.estado then BanStyle
    else
      var key := if p.nombre.Some? && p.nombre.value != [] then CodeUnit(p.nombre.value[0]) else 0;
      IconPalette[PaletteIndex(key)]
  }

  /** Wherever the code as written finds a style, the corrected choice is that same style. */
  lemma IconStylesAgree(p: ListedProduct)
    ensures IconStylesAsWritten(p).Found? ==> IconStylesAsWritten(p).style == IconStyles(p)
    ensures IconStylesAsWritten(p).Undefined? ==> IconStyles(p) == IconPalette[0]
  {
  }

  /** The state alone decides the ban style: renaming an inactive product never changes its icon. */
  lemma InactiveIgnoresName(p: ListedProduct, nombre: Option<string>)
    requires !p.estado
    ensures IconStyles(p.(nombre := nombre)) == IconStyles(p) == BanStyle
  {
  }
}
