/**
 * The tables of the invoicing database (the files under backend/models) as row datatypes, with the
 * column constraints the database enforces, and the request bodies the controllers read,
 * with the rules by which a request field becomes a column value.
 *
 * Amounts are integer cents: a `DECIMAL(8,2)` column holds less than 10^8 cents in absolute
 * value and a `DECIMAL(5,2)` column less than 10^5. `STRING` columns are `VARCHAR(255)`;
 * `INTEGER` columns are 32-bit.
 */
module Schema {
  import opened Wrappers

  const MaxVarchar := 255
  const Decimal8Limit := 100_000_000
  const Decimal5Limit := 100_000
  const IntegerLimit := 0x8000_0000

  /** `pro_impuesto` defaults to 15.00. */
  const DefaultImpuesto := 1500
  /** `usu_rol` defaults to 'cliente'. */
  const DefaultRol := "cliente"

  predicate FitsVarchar(s: string) { |s| <= MaxVarchar }
  predicate FitsDecimal8(cents: int) { -Decimal8Limit < cents < Decimal8Limit }
  predicate FitsDecimal5(cents: int) { -Decimal5Limit < cents < Decimal5Limit }
  predicate FitsInteger(n: int) { -IntegerLimit <= n < IntegerLimit }

  datatype Cliente = Cliente(cliId: int, nombre: string, correo: string, estado: bool)
  datatype Producto = Producto(proId: int, nombre: string, pvp: int, impuesto: int, estado: bool)
  datatype Factura = Factura(facId: int, cliId: int, fecha: string)
  /** A row of `factura_producto`, whose primary key is the pair (`fac_id`, `pro_id`). */
  datatype Linea = Linea(facId: int, proId: int, cantidad: int, pvp: int)
  datatype Usuario = Usuario(usuId: int, cliId: Option<int>, username: string, password: string, rol: Option<string>)

  predicate ClienteFits(c: Cliente) {
    FitsInteger(c.cliId) && FitsVarchar(c.nombre) && FitsVarchar(c.correo)
  }

  predicate ProductoFits(p: Producto) {
    FitsInteger(p.proId) && FitsVarchar(p.nombre) && FitsDecimal8(p.pvp) && FitsDecimal5(p.impuesto)
  }

  predicate FacturaFits(f: Factura) {
    FitsInteger(f.facId) && FitsInteger(f.cliId) && FitsVarchar(f.fecha)
  }

  predicate LineaFits(l: Linea) {
    FitsInteger(l.facId) && FitsInteger(l.proId) && FitsInteger(l.cantidad) && FitsDecimal8(l.pvp)
  }

  predicate UsuarioFits(u: Usuario) {
    && FitsInteger(u.usuId)
    && (u.cliId.Some? ==> FitsInteger(u.cliId.value))
    && FitsVarchar(u.username) && FitsVarchar(u.password)
    && (u.rol.Some? ==> FitsVarchar(u.rol.value))
  }

  /** Request bodies: each field may be left out, sent as `null`, or carry a value. */
  datatype ClienteInput = ClienteInput(nombre: Field<string>, correo: Field<string>, estado: Field<bool>)
  datatype ProductoInput = ProductoInput(nombre: Field<string>, pvp: Field<int>, impuesto: Field<int>, estado: Field<bool>)
  datatype FacturaInput = FacturaInput(cliId: Field<int>, fecha: Field<string>)
  datatype LineaInput = LineaInput(proId: Field<int>, cantidad: Field<int>, pvp: Field<int>)
  datatype UsuarioInput = UsuarioInput(username: Field<string>, password: Field<string>, rol: Field<string>, cliId: Field<int>)

  /** `value ?? current`: only a field that was left out or sent as `null` keeps the current value. */
  function Coalesce<T>(f: Field<T>, current: T): (r: T)
    ensures f.Value? ==> r == f.value
    ensures !f.Value? ==> r == current
  {
    match f
    case Value(v) => v
    case _ => current
  }

  /** `cli_id || null`: a missing, `null` or zero client id is stored as `NULL`. */
  function LinkedClient(f: Field<int>): (r: Option<int>)
    ensures r.None? <==> !f.Value? || f.value == 0
    ensures r.Some? ==> f == Value(r.value)
  {
    match f
    case Value(v) => if v == 0 then None else Some(v)
    case _ => None
  }

  /**
   * The client a user row is joined to (`include: [{ model: Cliente }]`): present exactly
   * when the user's link names an existing client.
   */
  function ClienteOf(clientes: map<int, Cliente>, u: Usuario): (r: Option<Cliente>)
    ensures r.Some? <==> u.cliId.Some? && u.cliId.value in clientes
    ensures r.Some? ==> r.value == clientes[u.cliId.value]
  {
    if u.cliId.Some? && u.cliId.value in clientes then Some(clientes[u.cliId.value]) else None
  }

  /**
   * The row `Cliente.create` would insert under id `id`: every column is `NOT NULL` and has no
   * default, so a field left out or sent as `null` refuses the insert, as does a value too
   * long for its column.
   */
  function NewCliente(id: int, req: ClienteInput): (r: Option<Cliente>)
    ensures r.Some? ==> ClienteFits(r.value) && r.value.cliId == id
    ensures r.Some? ==> req == ClienteInput(Value(r.value.nombre), Value(r.value.correo), Value(r.value.estado))
    ensures r.None? && req.nombre.Value? && req.correo.Value? && req.estado.Value? ==>
      !ClienteFits(Cliente(id, req.nombre.value, req.correo.value, req.estado.value))
  {
    if req.nombre.Value? && req.correo.Value? && req.estado.Value? then
      var c := Cliente(id, req.nombre.value, req.correo.value, req.estado.value);
      if ClienteFits(c) then Some(c) else None
    else None
  }

  /** The client after `cliente.update` with every field merged by `??`. */
  function MergeCliente(c: Cliente, req: ClienteInput): (m: Cliente)
    ensures m.cliId == c.cliId
  {
    Cliente(c.cliId, Coalesce(req.nombre, c.nombre), Coalesce(req.correo, c.correo), Coalesce(req.estado, c.estado))
  }

  /**
   * The `??` merge overwrites exactly the fields sent with a value — `false` and `""` included —
   * and keeps the id.
   */
  lemma MergeClienteFields(c: Cliente, req: ClienteInput)
    ensures var m := MergeCliente(c, req);
      && m.cliId == c.cliId
      && (req.nombre.Value? ==> m.nombre == req.nombre.value) && (!req.nombre.Value? ==> m.nombre == c.nombre)
      && (req.correo.Value? ==> m.correo == req.correo.value) && (!req.correo.Value? ==> m.correo == c.correo)
      && (req.estado.Value? ==> m.estado == req.estado.value) && (!req.estado.Value? ==> m.estado == c.estado)
  {
  }

  /** A body with no values (fields left out or `null`) leaves the client as it is. */
  lemma MergeClienteEmpty(c: Cliente, req: ClienteInput)
    requires !req.nombre.Value? && !req.correo.Value? && !req.estado.Value?
    ensures MergeCliente(c, req) == c
  {
  }

  /**
   * The row `Producto.create` would insert: name, price and state are required; a tax left
   * out takes the 15.00 default, while a tax sent as `null` refuses the insert.
   */
  function NewProducto(id: int, req: ProductoInput): (r: Option<Producto>)
    ensures r.Some? ==> ProductoFits(r.value) && r.value.proId == id
    ensures r.Some? ==> req.nombre == Value(r.value.nombre) && req.pvp == Value(r.value.pvp)
    ensures r.Some? ==> req.estado == Value(r.value.estado)
    ensures r.Some? && req.impuesto.Absent? ==> r.value.impuesto == DefaultImpuesto
    ensures r.Some? && !req.impuesto.Absent? ==> req.impuesto == Value(r.value.impuesto)
    ensures req.impuesto.Null? ==> r.None?
    ensures r.None? && req.nombre.Value? && req.pvp.Value? && req.estado.Value? && !req.impuesto.Null? ==>
      var impuesto := if req.impuesto.Value? then req.impuesto.value else DefaultImpuesto;
      !ProductoFits(Producto(id, req.nombre.value, req.pvp.value, impuesto, req.estado.value))
  {
    if req.nombre.Value? && req.pvp.Value? && req.estado.Value? && !req.impuesto.Null? then
      var impuesto := if req.impuesto.Value? then req.impuesto.value else DefaultImpuesto;
      var p := Producto(id, req.nombre.value, req.pvp.value, impuesto, req.estado.value);
      if ProductoFits(p) then Some(p) else None
    else None
  }

  /** The product after `producto.update` with name, price, tax and state merged by `??`. */
  function MergeProducto(p: Producto, req: ProductoInput): (m: Producto)
    ensures m.proId == p.proId
  {
    Producto(p.proId, Coalesce(req.nombre, p.nombre), Coalesce(req.pvp, p.pvp),
             Coalesce(req.impuesto, p.impuesto), Coalesce(req.estado, p.estado))
  }

  /** The `??` merge overwrites exactly the product fields sent with a value; the id is kept. */
  lemma MergeProductoFields(p: Producto, req: ProductoInput)
    ensures var m := MergeProducto(p, req);
      && m.proId == p.proId
      && (req.nombre.Value? ==> m.nombre == req.nombre.value) && (!req.nombre.Value? ==> m.nombre == p.nombre)
      && (req.pvp.Value? ==> m.pvp == req.pvp.value) && (!req.pvp.Value? ==> m.pvp == p.pvp)
      && (req.impuesto.Value? ==> m.impuesto == req.impuesto.value) && (!req.impuesto.Value? ==> m.impuesto == p.impuesto)
      && (req.estado.Value? ==> m.estado == req.estado.value) && (!req.estado.Value? ==> m.estado == p.estado)
  {
  }

  /** A body with no values leaves the product as it is. */
  lemma MergeProductoEmpty(p: Producto, req: ProductoInput)
    requires !req.nombre.Value? && !req.pvp.Value? && !req.impuesto.Value? && !req.estado.Value?
    ensures MergeProducto(p, req) == p
  {
  }

  /** The row `Factura.create` would insert: client and date are both required. */
  function NewFactura(id: int, req: FacturaInput): (r: Option<Factura>)
    ensures r.Some? ==> FacturaFits(r.value) && r.value.facId == id
    ensures r.Some? ==> req == FacturaInput(Value(r.value.cliId), Value(r.value.fecha))
    ensures !req.cliId.Value? || !req.fecha.Value? ==> r.None?
    ensures r.None? && req.cliId.Value? && req.fecha.Value? ==>
      !FacturaFits(Factura(id, req.cliId.value, req.fecha.value))
  {
    if req.cliId.Value? && req.fecha.Value? then
      var f := Factura(id, req.cliId.value, req.fecha.value);
      if FacturaFits(f) then Some(f) else None
    else None
  }

  /** The invoice after `factura.update` with client and date merged by `??`. */
  function MergeFactura(f: Factura, req: FacturaInput): (m: Factura)
    ensures m.facId == f.facId
  {
    Factura(f.facId, Coalesce(req.cliId, f.cliId), Coalesce(req.fecha, f.fecha))
  }

  /** The `??` merge overwrites exactly the invoice fields sent with a value; the id is kept. */
  lemma MergeFacturaFields(f: Factura, req: FacturaInput)
    ensures var m := MergeFactura(f, req);
      && m.facId == f.facId
      && (req.cliId.Value? ==> m.cliId == req.cliId.value) && (!req.cliId.Value? ==> m.cliId == f.cliId)
      && (req.fecha.Value? ==> m.fecha == req.fecha.value) && (!req.fecha.Value? ==> m.fecha == f.fecha)
  {
  }

  /** An empty body is a no-op update. */
  lemma MergeFacturaEmpty(f: Factura, req: FacturaInput)
    requires !req.cliId.Value? && !req.fecha.Value?
    ensures MergeFactura(f, req) == f
  {
  }

  /**
   * The user row `Usuario.create` would insert, before the unique constraints are checked:
   * username and password are required; a role left out is 'cliente' and a role sent as
   * `null` is stored as `NULL`; the client link goes through `cli_id || null`.
   */
  function NewUsuario(id: int, req: UsuarioInput): (r: Option<Usuario>)
    ensures r.Some? ==> UsuarioFits(r.value) && r.value.usuId == id
    ensures r.Some? ==> req.username == Value(r.value.username) && req.password == Value(r.value.password)
    ensures r.Some? ==> r.value.cliId == LinkedClient(req.cliId)
    ensures r.Some? ==> r.value.rol == match req.rol
      case Absent => Some(DefaultRol)
      case Null => None
      case Value(rol) => Some(rol)
    ensures !req.username.Value? || !req.password.Value? ==> r.None?
    ensures r.None? && req.username.Value? && req.password.Value? ==>
      var rol := match req.rol
        case Absent => Some(DefaultRol)
        case Null => None
        case Value(v) => Some(v);
      !UsuarioFits(Usuario(id, LinkedClient(req.cliId), req.username.value, req.password.value, rol))
  {
    if req.username.Value? && req.password.Value? then
      var rol := match req.rol
        case Absent => Some(DefaultRol)
        case Null => None
        case Value(v) => Some(v);
      var u := Usuario(id, LinkedClient(req.cliId), req.username.value, req.password.value, rol);
      if UsuarioFits(u) then Some(u) else None
    else None
  }

  /**
   * The user after `usuario.update`: fields left out are dropped from the update, a `null`
   * username or password refuses it, a `null` role is stored, and the client link is always
   * rewritten by `cli_id || null`, so an update that leaves `cli_id` out unlinks the client.
   */
  function MergeUsuario(u: Usuario, req: UsuarioInput): (r: Option<Usuario>)
    ensures r.Some? ==> UsuarioFits(r.value) && r.value.usuId == u.usuId
    ensures r.Some? ==> r.value.cliId == LinkedClient(req.cliId)
    ensures r.Some? ==> r.value.username == Coalesce(req.username, u.username)
    ensures r.Some? ==> r.value.password == Coalesce(req.password, u.password)
    ensures r.Some? ==> r.value.rol == match req.rol
      case Absent => u.rol
      case Null => None
      case Value(rol) => Some(rol)
    ensures req.username.Null? || req.password.Null? ==> r.None?
    ensures !req.username.Null? && !req.password.Null? && r.None? ==>
      var rol := match req.rol
        case Absent => u.rol
        case Null => None
        case Value(v) => Some(v);
      !UsuarioFits(Usuario(u.usuId, LinkedClient(req.cliId),
                           Coalesce(req.username, u.username), Coalesce(req.password, u.password), rol))
  {
    if req.username.Null? || req.password.Null? then None
    else
      var rol := match req.rol
        case Absent => u.rol
        case Null => None
        case Value(v) => Some(v);
      var m := Usuario(u.usuId, LinkedClient(req.cliId),
                       Coalesce(req.username, u.username), Coalesce(req.password, u.password), rol);
      if UsuarioFits(m) then Some(m) else None
  }

  /** An update that omits `cli_id` drops the user's client link. */
  lemma UpdateWithoutClientUnlinks(u: Usuario, req: UsuarioInput)
    requires req.cliId.Absent?
    requires MergeUsuario(u, req).Some?
    ensures MergeUsuario(u, req).value.cliId.None?
  {
  }
}
