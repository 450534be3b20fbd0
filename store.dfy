/**
 * The persistence controllers (backend/controllers/factura-controller.js,
 * cliente-producto-controller.js and usuario-controller.js) over one in-memory database:
 * each handler is a method that looks rows up, then inserts, updates or deletes them, and
 * answers with the HTTP status and body the handler sends.
 */
module Store {
  import opened Wrappers
  import opened Schema
  import Seqs

  /** The error body of a failed request: a fixed message, or the database's own `err.message`. */
  datatype ErrorText = Message(text: string) | DatabaseError

  datatype Reply<T> = Success(status: int, body: T) | Failure(status: int, error: ErrorText)

  const FacturaNotFound := Message("Factura no encontrada")
  const ClienteNotFound := Message("Cliente no encontrado")
  const ProductoNotFound := Message("Producto no encontrado")
  const LineaNotFound := Message("Producto no asignado a la factura")
  const UsuarioNotFound := Message("Usuario no encontrado")
  const UsernameTaken := Message("El nombre de usuario ya está en uso")
  const CreateUsuarioFailed := Message("Error al crear usuario")
  const UpdateUsuarioFailed := Message("Error al actualizar usuario")
  const UsuarioDeleted := "Usuario eliminado correctamente"

  /** The five tables, keyed by primary key. */
  datatype Tables = Tables(
    clientes: map<int, Cliente>, productos: map<int, Producto>, facturas: map<int, Factura>,
    lineas: map<(int, int), Linea>, usuarios: map<int, Usuario>)

  /** The next value of each `autoIncrement` sequence. */
  datatype Sequences = Sequences(cli: int, pro: int, fac: int, usu: int)

  /** The client attributes joined into `clientesFacturas`: `cli_id` and `cli_nombre`. */
  datatype ClienteRef = ClienteRef(cliId: int, nombre: string)
  datatype FacturaConCliente = FacturaConCliente(factura: Factura, cliente: Option<ClienteRef>)
  /** A product of an invoice with the quantity and price stored on the invoice line. */
  datatype ProductoEnFactura = ProductoEnFactura(producto: Producto, cantidad: int, pvp: int)
  datatype FacturaConProductos = FacturaConProductos(factura: Factura, productos: map<int, ProductoEnFactura>)
  datatype UsuarioConCliente = UsuarioConCliente(usuario: Usuario, cliente: Option<Cliente>)

  /** `usu_username` is `unique`. */
  ghost predicate UniqueUsernames(usuarios: map<int, Usuario>) {
    forall a, b :: a in usuarios && b in usuarios && a != b ==> usuarios[a].username != usuarios[b].username
  }

  /** `cli_id` is `unique` among users, `NULL`s aside. */
  ghost predicate UniqueClientLinks(usuarios: map<int, Usuario>) {
    forall a, b :: a in usuarios && b in usuarios && a != b && usuarios[a].cliId.Some? ==>
      usuarios[a].cliId != usuarios[b].cliId
  }

  /** `Usuario.findOne({ where: { usu_username } })` finds a row. */
  predicate UsernameInUse(usuarios: map<int, Usuario>, username: string) {
    exists id | id in usuarios :: usuarios[id].username == username
  }

  /** Some user is already linked to the client. */
  predicate ClientLinked(usuarios: map<int, Usuario>, cliId: int) {
    exists id | id in usuarios :: usuarios[id].cliId == Some(cliId)
  }

  /**
   * The price `addProductoToFactura` stores: the price sent, or else the current price of
   * the product; `None` when no price was sent and the product does not exist.
   */
  function LinePrice(productos: map<int, Producto>, req: LineaInput): (r: Option<int>)
    ensures req.pvp.Value? ==> r == Some(req.pvp.value)
    ensures !req.pvp.Value? && req.proId.Value? && req.proId.value in productos ==>
      r == Some(productos[req.proId.value].pvp)
    ensures r.None? <==> !req.pvp.Value? && !(req.proId.Value? && req.proId.value in productos)
  {
    if req.pvp.Value? then Some(req.pvp.value)
    else if req.proId.Value? && req.proId.value in productos then Some(productos[req.proId.value].pvp)
    else None
  }

  /** The line `FacturaProducto.create` would insert: product and quantity are required. */
  function NewLinea(facId: int, req: LineaInput, pvp: int): (r: Option<Linea>)
    ensures r.Some? ==> LineaFits(r.value) && r.value.facId == facId && r.value.pvp == pvp
    ensures r.Some? ==> req.proId == Value(r.value.proId) && req.cantidad == Value(r.value.cantidad)
    ensures !req.proId.Value? || !req.cantidad.Value? ==> r.None?
  {
    if req.proId.Value? && req.cantidad.Value? then
      var l := Linea(facId, req.proId.value, req.cantidad.value, pvp);
      if LineaFits(l) then Some(l) else None
    else None
  }

  /** `a` comes before `b` in the order `[['cli_id', 'ASC'], ['fac_id', 'ASC']]`. */
  predicate ClientOrderLess(a: Factura, b: Factura) {
    a.cliId < b.cliId || (a.cliId == b.cliId && a.facId < b.facId)
  }

  ghost predicate StrictlyIncreasing(ids: seq<int>) {
    forall i, j :: 0 <= i < j < |ids| ==> ids[i] < ids[j]
  }

  /** The rows of a table in ascending key order (`order: [[id, 'ASC']]`). */
  method SortedRows<V>(table: map<int, V>, bound: int) returns (ids: seq<int>, rows: seq<V>)
    requires forall k :: k in table ==> 1 <= k < bound
    ensures |rows| == |ids| && StrictlyIncreasing(ids)
    ensures forall i :: 0 <= i < |ids| ==> ids[i] in table && rows[i] == table[ids[i]]
    ensures forall k :: k in table <==> k in ids
  {
    ids, rows := [], [];
    var k := 1;
    while k < bound
      invariant 1 <= k <= if bound < 1 then 1 else bound
      invariant |rows| == |ids| && StrictlyIncreasing(ids)
      invariant forall i :: 0 <= i < |ids| ==> ids[i] < k
      invariant forall i :: 0 <= i < |ids| ==> ids[i] in table && rows[i] == table[ids[i]]
      invariant forall m :: m in ids <==> m in table && m < k
    {
      if k in table {
        ids, rows := ids + [k], rows + [table[k]];
      }
      k := k + 1;
    }
  }

  /** The first row whose client id exceeds `cliId`, or the end: where an invoice of `cliId` goes. */
  method InsertionPoint(r: seq<Factura>, cliId: int) returns (k: nat)
    requires forall i, j :: 0 <= i < j < |r| ==> ClientOrderLess(r[i], r[j])
    ensures k <= |r|
    ensures forall i :: 0 <= i < k ==> r[i].cliId <= cliId
    ensures forall i :: k <= i < |r| ==> r[i].cliId > cliId
  {
    k := 0;
    while k < |r| && r[k].cliId <= cliId
      invariant 0 <= k <= |r|
      invariant forall i :: 0 <= i < k ==> r[i].cliId <= cliId
    {
      k := k + 1;
    }
    forall i | k < i < |r|
      ensures r[i].cliId > cliId
    {
      assert ClientOrderLess(r[k], r[i]);
    }
  }

  /** The elements of `r` with `f` inserted at position `k`. */
  lemma InsertedAt<T>(r: seq<T>, k: nat, f: T, i: nat)
    requires k <= |r| && i <= |r|
    ensures (r[..k] + [f] + r[k..])[i] == if i < k then r[i] else if i == k then f else r[i - 1]
  {
  }

  /** Inserting `f` after the rows whose client does not exceed its own keeps the order. */
  lemma InsertKeepsClientOrder(r: seq<Factura>, k: nat, f: Factura)
    requires k <= |r|
    requires forall i, j :: 0 <= i < j < |r| ==> ClientOrderLess(r[i], r[j])
    requires forall i :: 0 <= i < |r| ==> r[i].facId < f.facId
    requires forall i :: 0 <= i < k ==> r[i].cliId <= f.cliId
    requires forall i :: k <= i < |r| ==> r[i].cliId > f.cliId
    ensures var s := r[..k] + [f] + r[k..];
      && (forall i, j :: 0 <= i < j < |s| ==> ClientOrderLess(s[i], s[j]))
      && multiset(s) == multiset(r) + multiset{f}
      && forall i :: 0 <= i < |s| ==> s[i].facId <= f.facId
  {
    var s := r[..k] + [f] + r[k..];
    forall i, j | 0 <= i < j < |s|
      ensures ClientOrderLess(s[i], s[j])
    {
      InsertedAt(r, k, f, i);
      InsertedAt(r, k, f, j);
      if j < k {
        assert ClientOrderLess(r[i], r[j]);
      } else if j > k && i < k {
        assert ClientOrderLess(r[i], r[j - 1]);
      } else if i > k {
        assert ClientOrderLess(r[i - 1], r[j - 1]);
      }
    }
    forall i | 0 <= i < |s|
      ensures s[i].facId <= f.facId
    {
      InsertedAt(r, k, f, i);
    }
    assert r == r[..k] + r[k..];
    assert multiset(s) == multiset(r[..k]) + multiset{f} + multiset(r[k..]);
  }

  /** One step of `SortByClient`: inserting the next invoice keeps the loop's invariants. */
  lemma SortStep(fs: seq<Factura>, n: nat, r: seq<Factura>, k: nat)
    requires n < |fs|
    requires forall i, j :: 0 <= i < j < |fs| ==> fs[i].facId < fs[j].facId
    requires forall i, j :: 0 <= i < j < |r| ==> ClientOrderLess(r[i], r[j])
    requires multiset(r) == multiset(fs[..n])
    requires forall i :: 0 <= i < |r| ==> n > 0 && r[i].facId <= fs[n - 1].facId
    requires k <= |r|
    requires forall i :: 0 <= i < k ==> r[i].cliId <= fs[n].cliId
    requires forall i :: k <= i < |r| ==> r[i].cliId > fs[n].cliId
    ensures var s := r[..k] + [fs[n]] + r[k..];
      && (forall i, j :: 0 <= i < j < |s| ==> ClientOrderLess(s[i], s[j]))
      && multiset(s) == multiset(fs[..n + 1])
      && forall i :: 0 <= i < |s| ==> s[i].facId <= fs[n].facId
  {
    var f := fs[n];
    forall i | 0 <= i < |r|
      ensures r[i].facId < f.facId
    {
      assert fs[n - 1].facId < fs[n].facId;
    }
    InsertKeepsClientOrder(r, k, f);
    assert fs[..n + 1] == fs[..n] + [f];
  }

  /**
   * Re-sorts invoices listed by ascending `fac_id` into `(cli_id, fac_id)` order, inserting
   * each after the rows with a client id not above its own.
   */
  method SortByClient(fs: seq<Factura>) returns (r: seq<Factura>)
    requires forall i, j :: 0 <= i < j < |fs| ==> fs[i].facId < fs[j].facId
    ensures forall i, j :: 0 <= i < j < |r| ==> ClientOrderLess(r[i], r[j])
    ensures multiset(r) == multiset(fs)
  {
    r := [];
    var n := 0;
    while n < |fs|
      invariant 0 <= n <= |fs|
      invariant forall i, j :: 0 <= i < j < |r| ==> ClientOrderLess(r[i], r[j])
      invariant multiset(r) == multiset(fs[..n])
      invariant forall i :: 0 <= i < |r| ==> n > 0 && r[i].facId <= fs[n - 1].facId
    {
      var k := InsertionPoint(r, fs[n].cliId);
      SortStep(fs, n, r, k);
      r := r[..k] + [fs[n]] + r[k..];
      n := n + 1;
    }
    assert fs[..n] == fs;
  }

  /** The invoices of one client, in the order given (`where: { cli_id }`). */
  function InvoicesOfClient(fs: seq<Factura>, cliId: int): (mine: seq<Factura>)
    ensures forall i :: 0 <= i < |mine| ==> mine[i].cliId == cliId
  {
    Seqs.Filter((f: Factura) => f.cliId == cliId, fs)
  }

  /**
   * Selecting one client's invoices from a list in ascending `fac_id` keeps that order and
   * keeps exactly that client's invoices.
   */
  lemma {:induction false} InvoicesOfClientSpec(fs: seq<Factura>, cliId: int)
    requires forall i, j :: 0 <= i < j < |fs| ==> fs[i].facId < fs[j].facId
    ensures var mine := InvoicesOfClient(fs, cliId);
      && (forall i, j :: 0 <= i < j < |mine| ==> mine[i].facId < mine[j].facId)
      && (forall f :: f in mine <==> f in fs && f.cliId == cliId)
  {
    forall f
      ensures f in InvoicesOfClient(fs, cliId) <==> f in fs && f.cliId == cliId
    {
      Seqs.FilterMembership((f: Factura) => f.cliId == cliId, fs, f);
    }
    if fs != [] {
      var tail := fs[1..];
      assert forall i, j :: 0 <= i < j < |tail| ==> tail[i].facId < tail[j].facId by {
        assert forall i :: 0 <= i < |tail| ==> tail[i] == fs[i + 1];
      }
      InvoicesOfClientSpec(tail, cliId);
      var rest := InvoicesOfClient(tail, cliId);
      if fs[0].cliId == cliId {
        assert InvoicesOfClient(fs, cliId) == [fs[0]] + rest;
        forall k | 0 <= k < |rest|
          ensures fs[0].facId < rest[k].facId
        {
          assert rest[k] in tail;
          var m :| 0 <= m < |tail| && tail[m] == rest[k];
          assert tail[m] == fs[m + 1];
        }
      } else {
        assert InvoicesOfClient(fs, cliId) == rest;
      }
    }
  }

  /** Replacing or adding the user under `id` keeps both unique constraints when neither is held by another user. */
  lemma PutKeepsUnique(us: map<int, Usuario>, id: int, u: Usuario)
    requires UniqueUsernames(us) && UniqueClientLinks(us)
    requires !UsernameInUse(us - {id}, u.username)
    requires u.cliId.Some? ==> !ClientLinked(us - {id}, u.cliId.value)
    ensures UniqueUsernames(us[id := u]) && UniqueClientLinks(us[id := u])
  {
    var others := us - {id};
    var vs := us[id := u];
    forall a, b | a in vs && b in vs && a != b
      ensures vs[a].username != vs[b].username
      ensures vs[a].cliId.Some? ==> vs[a].cliId != vs[b].cliId
    {
      if a == id {
        assert b in others && others[b] == vs[b];
      } else if b == id {
        assert a in others && others[a] == vs[a];
      }
    }
  }

  class Store {
    var clientes: map<int, Cliente>
    var productos: map<int, Producto>
    var facturas: map<int, Factura>
    var lineas: map<(int, int), Linea>
    var usuarios: map<int, Usuario>
    var next: Sequences

    /**
     * Keys are the rows' primary keys, ids come from their sequence, every row satisfies its
     * column constraints, and the unique constraints on users hold.
     */
    ghost predicate Valid()
      reads this
    {
      && 1 <= next.cli && 1 <= next.pro && 1 <= next.fac && 1 <= next.usu
      && (forall id :: id in clientes ==> 1 <= id < next.cli && clientes[id].cliId == id && ClienteFits(clientes[id]))
      && (forall id :: id in productos ==> 1 <= id < next.pro && productos[id].proId == id && ProductoFits(productos[id]))
      && (forall id :: id in facturas ==> 1 <= id < next.fac && facturas[id].facId == id && FacturaFits(facturas[id]))
      && (forall k :: k in lineas ==> lineas[k].facId == k.0 && lineas[k].proId == k.1 && LineaFits(lineas[k]))
      && (forall id :: id in usuarios ==> 1 <= id < next.usu && usuarios[id].usuId == id && UsuarioFits(usuarios[id]))
      && UniqueUsernames(usuarios) && UniqueClientLinks(usuarios)
    }

    function Snapshot(): Tables
      reads this
    {
      Tables(clientes, productos, facturas, lineas, usuarios)
    }

    /** An empty database whose sequences start at 1. */
    constructor()
      ensures Valid()
      ensures Snapshot() == Tables(map[], map[], map[], map[], map[]) && next == Sequences(1, 1, 1, 1)
    {
      clientes, productos, facturas, lineas, usuarios := map[], map[], map[], map[], map[];
      next := Sequences(1, 1, 1, 1);
    }

    // ----- clients -----

    /** `createCliente`: 201 with the new row, or 500 when a column is missing or too long. */
    method CreateCliente(req: ClienteInput) returns (reply: Reply<Cliente>)
      requires Valid()
      modifies this
      ensures Valid()
      ensures NewCliente(old(next.cli), req).None? ==> reply == Failure(500, DatabaseError) && unchanged(this)
      ensures NewCliente(old(next.cli), req).Some? ==>
        var c := NewCliente(old(next.cli), req).value;
        && reply == Success(201, c) && c.cliId !in old(clientes)
        && Snapshot() == old(Snapshot()).(clientes := old(clientes)[c.cliId := c])
        && next == old(next).(cli := old(next.cli) + 1)
    {
      var row := NewCliente(next.cli, req);
      if row.None? {
        return Failure(500, DatabaseError);
      }
      clientes := clientes[row.value.cliId := row.value];
      next := next.(cli := next.cli + 1);
      reply := Success(201, row.value);
    }

    /** `updateCliente`: 404 for an unknown id; otherwise the `??` merge is saved. */
    method UpdateCliente(cliId: int, req: ClienteInput) returns (reply: Reply<Cliente>)
      requires Valid()
      modifies this
      ensures Valid()
      ensures cliId !in old(clientes) ==> reply == Failure(404, ClienteNotFound) && unchanged(this)
      ensures cliId in old(clientes) && !ClienteFits(MergeCliente(old(clientes[cliId]), req)) ==>
        reply == Failure(500, DatabaseError) && unchanged(this)
      ensures cliId in old(clientes) && ClienteFits(MergeCliente(old(clientes[cliId]), req)) ==>
        var m := MergeCliente(old(clientes[cliId]), req);
        && reply == Success(200, m)
        && Snapshot() == old(Snapshot()).(clientes := old(clientes)[cliId := m]) && next == old(next)
    {
      if cliId !in clientes {
        return Failure(404, ClienteNotFound);
      }
      var m := MergeCliente(clientes[cliId], req);
      if !ClienteFits(m) {
        return Failure(500, DatabaseError);
      }
      clientes := clientes[cliId := m];
      reply := Success(200, m);
    }

    /** `deleteCliente`: 404 for an unknown id; otherwise exactly that row goes. */
    method DeleteCliente(cliId: int) returns (reply: Reply<int>)
      requires Valid()
      modifies this
      ensures Valid()
      ensures cliId !in old(clientes) ==> reply == Failure(404, ClienteNotFound) && unchanged(this)
      ensures cliId in old(clientes) ==>
        && reply == Success(200, cliId)
        && Snapshot() == old(Snapshot()).(clientes := old(clientes) - {cliId}) && next == old(next)
    {
      if cliId !in clientes {
        return Failure(404, ClienteNotFound);
      }
      clientes := clientes - {cliId};
      reply := Success(200, cliId);
    }

    /** `getClientes`: every client, by ascending id. */
    method GetClientes() returns (rows: seq<Cliente>)
      requires Valid()
      ensures forall i, j :: 0 <= i < j < |rows| ==> rows[i].cliId < rows[j].cliId
      ensures forall c :: c in rows <==> c in clientes.Values
    {
      var ids;
      ids, rows := SortedRows(clientes, next.cli);
      forall c | c in clientes.Values
        ensures c in rows
      {
        var id :| id in clientes && clientes[id] == c;
        var i :| 0 <= i < |ids| && ids[i] == id;
        assert rows[i] == c;
      }
    }

    /** `getClienteById`: the row, or 404; nothing changes. */
    method GetClienteById(cliId: int) returns (reply: Reply<Cliente>)
      ensures cliId in clientes ==> reply == Success(200, clientes[cliId])
      ensures cliId !in clientes ==> reply == Failure(404, ClienteNotFound)
    {
      if cliId !in clientes {
        return Failure(404, ClienteNotFound);
      }
      reply := Success(200, clientes[cliId]);
    }

    // ----- products -----

    /** `createProducto`: 201 with the new row (tax 15.00 when left out), or 500. */
    method CreateProducto(req: ProductoInput) returns (reply: Reply<Producto>)
      requires Valid()
      modifies this
      ensures Valid()
      ensures NewProducto(old(next.pro), req).None? ==> reply == Failure(500, DatabaseError) && unchanged(this)
      ensures NewProducto(old(next.pro), req).Some? ==>
        var p := NewProducto(old(next.pro), req).value;
        && reply == Success(201, p) && p.proId !in old(productos)
        && Snapshot() == old(Snapshot()).(productos := old(productos)[p.proId := p])
        && next == old(next).(pro := old(next.pro) + 1)
    {
      var row := NewProducto(next.pro, req);
      if row.None? {
        return Failure(500, DatabaseError);
      }
      productos := productos[row.value.proId := row.value];
      next := next.(pro := next.pro + 1);
      reply := Success(201, row.value);
    }

    /**
     * `updateProducto`: 404 for an unknown id; otherwise the `??` merge is saved. Lines
     * already on invoices keep the price they were stored with.
     */
    method UpdateProducto(proId: int, req: ProductoInput) returns (reply: Reply<Producto>)
      requires Valid()
      modifies this
      ensures Valid()
      ensures proId !in old(productos) ==> reply == Failure(404, ProductoNotFound) && unchanged(this)
      ensures proId in old(productos) && !ProductoFits(MergeProducto(old(productos[proId]), req)) ==>
        reply == Failure(500, DatabaseError) && unchanged(this)
      ensures proId in old(productos) && ProductoFits(MergeProducto(old(productos[proId]), req)) ==>
        var m := MergeProducto(old(productos[proId]), req);
        && reply == Success(200, m)
        && Snapshot() == old(Snapshot()).(productos := old(productos)[proId := m]) && next == old(next)
    {
      if proId !in productos {
        return Failure(404, ProductoNotFound);
      }
      var m := MergeProducto(productos[proId], req);
      if !ProductoFits(m) {
        return Failure(500, DatabaseError);
      }
      productos := productos[proId := m];
      reply := Success(200, m);
    }

    /** `deleteProducto`: 404 for an unknown id; otherwise exactly that row goes. */
    method DeleteProducto(proId: int) returns (reply: Reply<int>)
      requires Valid()
      modifies this
      ensures Valid()
      ensures proId !in old(productos) ==> reply == Failure(404, ProductoNotFound) && unchanged(this)
      ensures proId in old(productos) ==>
        && reply == Success(200, proId)
        && Snapshot() == old(Snapshot()).(productos := old(productos) - {proId}) && next == old(next)
    {
      if proId !in productos {
        return Failure(404, ProductoNotFound);
      }
      productos := productos - {proId};
      reply := Success(200, proId);
    }

    /** `getProductos`: every product, by ascending id. */
    method GetProductos() returns (rows: seq<Producto>)
      requires Valid()
      ensures forall i, j :: 0 <= i < j < |rows| ==> rows[i].proId < rows[j].proId
      ensures forall p :: p in rows <==> p in productos.Values
    {
      var ids;
      ids, rows := SortedRows(productos, next.pro);
      forall p | p in productos.Values
        ensures p in rows
      {
        var id :| id in productos && productos[id] == p;
        var i :| 0 <= i < |ids| && ids[i] == id;
        assert rows[i] == p;
      }
    }

    /** `getProductoById`: the row, or 404; nothing changes. */
    method GetProductoById(proId: int) returns (reply: Reply<Producto>)
      ensures proId in productos ==> reply == Success(200, productos[proId])
      ensures proId !in productos ==> reply == Failure(404, ProductoNotFound)
    {
      if proId !in productos {
        return Failure(404, ProductoNotFound);
      }
      reply := Success(200, productos[proId]);
    }

    // ----- invoices -----

    /** `createFactura`: 201 with the new row, or 500 when client or date is missing. */
    method CreateFactura(req: FacturaInput) returns (reply: Reply<Factura>)
      requires Valid()
      modifies this
      ensures Valid()
      ensures NewFactura(old(next.fac), req).None? ==> reply == Failure(500, DatabaseError) && unchanged(this)
      ensures NewFactura(old(next.fac), req).Some? ==>
        var f := NewFactura(old(next.fac), req).value;
        && reply == Success(201, f) && f.facId !in old(facturas)
        && Snapshot() == old(Snapshot()).(facturas := old(facturas)[f.facId := f])
        && next == old(next).(fac := old(next.fac) + 1)
    {
      var row := NewFactura(next.fac, req);
      if row.None? {
        return Failure(500, DatabaseError);
      }
      facturas := facturas[row.value.facId := row.value];
      next := next.(fac := next.fac + 1);
      reply := Success(201, row.value);
    }

    /** `updateFactura`: 404 for an unknown id; otherwise client and date merged by `??`. */
    method UpdateFactura(facId: int, req: FacturaInput) returns (reply: Reply<Factura>)
      requires Valid()
      modifies this
      ensures Valid()
      ensures facId !in old(facturas) ==> reply == Failure(404, FacturaNotFound) && unchanged(this)
      ensures facId in old(facturas) && !FacturaFits(MergeFactura(old(facturas[facId]), req)) ==>
        reply == Failure(500, DatabaseError) && unchanged(this)
      ensures facId in old(facturas) && FacturaFits(MergeFactura(old(facturas[facId]), req)) ==>
        var m := MergeFactura(old(facturas[facId]), req);
        && reply == Success(200, m)
        && Snapshot() == old(Snapshot()).(facturas := old(facturas)[facId := m]) && next == old(next)
    {
      if facId !in facturas {
        return Failure(404, FacturaNotFound);
      }
      var m := MergeFactura(facturas[facId], req);
      if !FacturaFits(m) {
        return Failure(500, DatabaseError);
      }
      facturas := facturas[facId := m];
      reply := Success(200, m);
    }

    /** `deleteFactura`: 404 for an unknown id; otherwise exactly that invoice goes. */
    method DeleteFactura(facId: int) returns (reply: Reply<int>)
      requires Valid()
      modifies this
      ensures Valid()
      ensures facId !in old(facturas) ==> reply == Failure(404, FacturaNotFound) && unchanged(this)
      ensures facId in old(facturas) ==>
        && reply == Success(200, facId)
        && Snapshot() == old(Snapshot()).(facturas := old(facturas) - {facId}) && next == old(next)
    {
      if facId !in facturas {
        return Failure(404, FacturaNotFound);
      }
      facturas := facturas - {facId};
      reply := Success(200, facId);
    }

    /** `getFacturas`: every invoice, by ascending id. */
    method GetFacturas() returns (rows: seq<Factura>)
      requires Valid()
      ensures forall i, j :: 0 <= i < j < |rows| ==> rows[i].facId < rows[j].facId
      ensures forall f :: f in rows <==> f in facturas.Values
    {
      var ids;
      ids, rows := SortedRows(facturas, next.fac);
      forall f | f in facturas.Values
        ensures f in rows
      {
        var id :| id in facturas && facturas[id] == f;
        var i :| 0 <= i < |ids| && ids[i] == id;
        assert rows[i] == f;
      }
    }

    /** `getFacturaById`: the row, or 404; nothing changes. */
    method GetFacturaById(facId: int) returns (reply: Reply<Factura>)
      ensures facId in facturas ==> reply == Success(200, facturas[facId])
      ensures facId !in facturas ==> reply == Failure(404, FacturaNotFound)
    {
      if facId !in facturas {
        return Failure(404, FacturaNotFound);
      }
      reply := Success(200, facturas[facId]);
    }

    // ----- invoice lines -----

    /**
     * `addProductoToFactura`: stores the price sent, or else snapshots the product's current
     * price (404 when there is no such product); the line is always inserted, never merged,
     * so a second line for the same (invoice, product) pair breaks the primary key: 500.
     */
    method AddProductoToFactura(facId: int, req: LineaInput) returns (reply: Reply<Linea>)
      requires Valid()
      modifies this
      ensures Valid()
      ensures LinePrice(old(productos), req).None? ==> reply == Failure(404, ProductoNotFound) && unchanged(this)
      ensures LinePrice(old(productos), req).Some? ==>
        var l := NewLinea(facId, req, LinePrice(old(productos), req).value);
        (l.None? || (facId, l.value.proId) in old(lineas)) ==> reply == Failure(500, DatabaseError) && unchanged(this)
      ensures LinePrice(old(productos), req).Some? ==>
        var l := NewLinea(facId, req, LinePrice(old(productos), req).value);
        (l.Some? && (facId, l.value.proId) !in old(lineas)) ==>
          && reply == Success(201, l.value)
          && Snapshot() == old(Snapshot()).(lineas := old(lineas)[(facId, l.value.proId) := l.value])
          && next == old(next)
    {
      var pvp := req.pvp;
      if !pvp.Value? {
        if !(req.proId.Value? && req.proId.value in productos) {
          return Failure(404, ProductoNotFound);
        }
        pvp := Value(productos[req.proId.value].pvp);
      }
      var row := NewLinea(facId, req, pvp.value);
      if row.None? || (facId, row.value.proId) in lineas {
        return Failure(500, DatabaseError);
      }
      lineas := lineas[(facId, row.value.proId) := row.value];
      reply := Success(201, row.value);
    }

    /** `removeProductoFromFactura`: 404 when the pair has no line; otherwise only that line goes. */
    method RemoveProductoFromFactura(facId: int, proId: int) returns (reply: Reply<(int, int)>)
      requires Valid()
      modifies this
      ensures Valid()
      ensures (facId, proId) !in old(lineas) ==> reply == Failure(404, LineaNotFound) && unchanged(this)
      ensures (facId, proId) in old(lineas) ==>
        && reply == Success(200, (facId, proId))
        && Snapshot() == old(Snapshot()).(lineas := old(lineas) - {(facId, proId)}) && next == old(next)
    {
      if (facId, proId) !in lineas {
        return Failure(404, LineaNotFound);
      }
      lineas := lineas - {(facId, proId)};
      reply := Success(200, (facId, proId));
    }

    // ----- invoice projections -----

    /** The client columns `clientesFacturas` joins to an invoice, if its client exists. */
    function ClienteRefOf(cliId: int): (r: Option<ClienteRef>)
      reads this
      ensures r.Some? <==> cliId in clientes
      ensures r.Some? ==> r.value == ClienteRef(cliId, clientes[cliId].nombre)
    {
      if cliId in clientes then Some(ClienteRef(cliId, clientes[cliId].nombre)) else None
    }

    /**
     * The products of an invoice through its lines, keyed by product id, each with the
     * quantity and price stored on the line; a line whose product is gone is not listed.
     */
    function ProductosDe(facId: int): (r: map<int, ProductoEnFactura>)
      reads this
      ensures forall proId :: proId in r <==> proId in productos && (facId, proId) in lineas
    {
      map proId | proId in productos && (facId, proId) in lineas
        :: ProductoEnFactura(productos[proId], lineas[(facId, proId)].cantidad, lineas[(facId, proId)].pvp)
    }

    /** `clientesFacturas`: every invoice with its client, ordered by client id and then invoice id. */
    method ClientesFacturas() returns (rows: seq<FacturaConCliente>)
      requires Valid()
      ensures forall i, j :: 0 <= i < j < |rows| ==> ClientOrderLess(rows[i].factura, rows[j].factura)
      ensures forall i :: 0 <= i < |rows| ==> rows[i].factura in facturas.Values
      ensures forall f :: f in facturas.Values ==> exists i :: 0 <= i < |rows| && rows[i].factura == f
      ensures forall i :: 0 <= i < |rows| ==> rows[i].cliente == ClienteRefOf(rows[i].factura.cliId)
    {
      var byId := GetFacturas();
      var sorted := SortByClient(byId);
      rows := [];
      var n := 0;
      while n < |sorted|
        invariant 0 <= n <= |sorted|
        invariant |rows| == n
        invariant forall i :: 0 <= i < n ==> rows[i] == FacturaConCliente(sorted[i], ClienteRefOf(sorted[i].cliId))
      {
        rows := rows + [FacturaConCliente(sorted[n], ClienteRefOf(sorted[n].cliId))];
        n := n + 1;
      }
      assert forall f :: f in sorted <==> f in byId by {
        forall f
          ensures f in sorted <==> f in byId
        {
          assert f in sorted <==> f in multiset(sorted);
          assert f in byId <==> f in multiset(byId);
        }
      }
      forall i | 0 <= i < |rows|
        ensures rows[i].factura in facturas.Values
      {
        assert rows[i].factura == sorted[i];
      }
      forall f | f in facturas.Values
        ensures exists i :: 0 <= i < |rows| && rows[i].factura == f
      {
        var i :| 0 <= i < |sorted| && sorted[i] == f;
        assert rows[i].factura == f;
      }
    }

    /** `facturaProductosById`: the invoice with its products, or 404. */
    method FacturaProductosById(facId: int) returns (reply: Reply<FacturaConProductos>)
      ensures facId in facturas ==> reply == Success(200, FacturaConProductos(facturas[facId], ProductosDe(facId)))
      ensures facId !in facturas ==> reply == Failure(404, FacturaNotFound)
    {
      if facId !in facturas {
        return Failure(404, FacturaNotFound);
      }
      reply := Success(200, FacturaConProductos(facturas[facId], ProductosDe(facId)));
    }

    /** `facturasProductosByCliente`: the client's invoices with their products, by ascending id. */
    method FacturasProductosByCliente(cliId: int) returns (rows: seq<FacturaConProductos>)
      requires Valid()
      ensures forall i, j :: 0 <= i < j < |rows| ==> rows[i].factura.facId < rows[j].factura.facId
      ensures forall i :: 0 <= i < |rows| ==>
        && rows[i].factura in facturas.Values && rows[i].factura.cliId == cliId
        && rows[i].productos == ProductosDe(rows[i].factura.facId)
      ensures forall f :: f in facturas.Values && f.cliId == cliId ==>
        exists i :: 0 <= i < |rows| && rows[i].factura == f
    {
      var byId := GetFacturas();
      var mine := InvoicesOfClient(byId, cliId);
      InvoicesOfClientSpec(byId, cliId);
      rows := [];
      var n := 0;
      while n < |mine|
        invariant 0 <= n <= |mine|
        invariant |rows| == n
        invariant forall i :: 0 <= i < n ==> rows[i] == FacturaConProductos(mine[i], ProductosDe(mine[i].facId))
      {
        rows := rows + [FacturaConProductos(mine[n], ProductosDe(mine[n].facId))];
        n := n + 1;
      }
      forall f | f in facturas.Values && f.cliId == cliId
        ensures exists i :: 0 <= i < |rows| && rows[i].factura == f
      {
        assert f in mine;
        var i :| 0 <= i < |mine| && mine[i] == f;
        assert rows[i].factura == f;
      }
    }

    // ----- users -----

    /**
     * `createUsuario`: a username left out makes the lookup throw (500); a username already
     * in use is refused with 400 before any insert; otherwise the row is inserted unless a
     * column is missing or too long, or the client is already linked to a user (500).
     */
    method CreateUsuario(req: UsuarioInput) returns (reply: Reply<Usuario>)
      requires Valid()
      modifies this
      ensures Valid()
      ensures req.username.Absent? ==> reply == Failure(500, CreateUsuarioFailed) && unchanged(this)
      ensures req.username.Value? && UsernameInUse(old(usuarios), req.username.value) ==>
        reply == Failure(400, UsernameTaken) && unchanged(this)
      ensures !req.username.Absent? && !(req.username.Value? && UsernameInUse(old(usuarios), req.username.value)) ==>
        match NewUsuario(old(next.usu), req)
        case None => reply == Failure(500, CreateUsuarioFailed) && unchanged(this)
        case Some(u) =>
          if u.cliId.Some? && ClientLinked(old(usuarios), u.cliId.value) then
            reply == Failure(500, CreateUsuarioFailed) && unchanged(this)
          else
            && reply == Success(201, u) && u.usuId !in old(usuarios)
            && Snapshot() == old(Snapshot()).(usuarios := old(usuarios)[u.usuId := u])
            && next == old(next).(usu := old(next.usu) + 1)
    {
      if req.username.Absent? {
        return Failure(500, CreateUsuarioFailed);
      }
      if req.username.Value? && UsernameInUse(usuarios, req.username.value) {
        return Failure(400, UsernameTaken);
      }
      var row := NewUsuario(next.usu, req);
      if row.None? {
        return Failure(500, CreateUsuarioFailed);
      }
      var u := row.value;
      if u.cliId.Some? && ClientLinked(usuarios, u.cliId.value) {
        return Failure(500, CreateUsuarioFailed);
      }
      assert usuarios - {u.usuId} == usuarios;
      PutKeepsUnique(usuarios, u.usuId, u);
      usuarios := usuarios[u.usuId := u];
      next := next.(usu := next.usu + 1);
      reply := Success(201, u);
    }

    /**
     * `updateUsuario`: 404 for an unknown id; there is no username pre-check, so a username or
     * client link already held by another user breaks a unique constraint (500).
     */
    method UpdateUsuario(usuId: int, req: UsuarioInput) returns (reply: Reply<Usuario>)
      requires Valid()
      modifies this
      ensures Valid()
      ensures usuId !in old(usuarios) ==> reply == Failure(404, UsuarioNotFound) && unchanged(this)
      ensures usuId in old(usuarios) ==>
        match MergeUsuario(old(usuarios[usuId]), req)
        case None => reply == Failure(500, UpdateUsuarioFailed) && unchanged(this)
        case Some(m) =>
          var others := old(usuarios) - {usuId};
          if UsernameInUse(others, m.username) || (m.cliId.Some? && ClientLinked(others, m.cliId.value)) then
            reply == Failure(500, UpdateUsuarioFailed) && unchanged(this)
          else
            && reply == Success(200, m)
            && Snapshot() == old(Snapshot()).(usuarios := old(usuarios)[usuId := m]) && next == old(next)
    {
      if usuId !in usuarios {
        return Failure(404, UsuarioNotFound);
      }
      var merged := MergeUsuario(usuarios[usuId], req);
      if merged.None? {
        return Failure(500, UpdateUsuarioFailed);
      }
      var m := merged.value;
      var others := usuarios - {usuId};
      if UsernameInUse(others, m.username) || (m.cliId.Some? && ClientLinked(others, m.cliId.value)) {
        return Failure(500, UpdateUsuarioFailed);
      }
      PutKeepsUnique(usuarios, usuId, m);
      usuarios := usuarios[usuId := m];
      reply := Success(200, m);
    }

    /** `deleteUsuario`: 404 for an unknown id; otherwise exactly that user goes. */
    method DeleteUsuario(usuId: int) returns (reply: Reply<string>)
      requires Valid()
      modifies this
      ensures Valid()
      ensures usuId !in old(usuarios) ==> reply == Failure(404, UsuarioNotFound) && unchanged(this)
      ensures usuId in old(usuarios) ==>
        && reply == Success(200, UsuarioDeleted)
        && Snapshot() == old(Snapshot()).(usuarios := old(usuarios) - {usuId}) && next == old(next)
    {
      if usuId !in usuarios {
        return Failure(404, UsuarioNotFound);
      }
      usuarios := usuarios - {usuId};
      reply := Success(200, UsuarioDeleted);
    }

    /** `getUsuarioById`: the user with its client, or 404; nothing changes. */
    method GetUsuarioById(usuId: int) returns (reply: Reply<UsuarioConCliente>)
      ensures usuId in usuarios ==>
        reply == Success(200, UsuarioConCliente(usuarios[usuId], ClienteOf(clientes, usuarios[usuId])))
      ensures usuId !in usuarios ==> reply == Failure(404, UsuarioNotFound)
    {
      if usuId !in usuarios {
        return Failure(404, UsuarioNotFound);
      }
      var u := usuarios[usuId];
      reply := Success(200, UsuarioConCliente(u, ClienteOf(clientes, u)));
    }

    /** `getUsuarios`: every user once, with its client; the order is not specified. */
    method GetUsuarios() returns (rows: seq<UsuarioConCliente>)
      requires Valid()
      ensures forall i :: 0 <= i < |rows| ==> rows[i].usuario in usuarios.Values
      ensures forall i :: 0 <= i < |rows| ==> rows[i].cliente == ClienteOf(clientes, rows[i].usuario)
      ensures forall u :: u in usuarios.Values ==> exists i :: 0 <= i < |rows| && rows[i].usuario == u
      ensures forall i, j :: 0 <= i < j < |rows| ==> rows[i].usuario != rows[j].usuario
    {
      var ids, users := SortedRows(usuarios, next.usu);
      rows := [];
      var n := 0;
      while n < |users|
        invariant 0 <= n <= |users|
        invariant |rows| == n
        invariant forall i :: 0 <= i < n ==> rows[i] == UsuarioConCliente(users[i], ClienteOf(clientes, users[i]))
      {
        rows := rows + [UsuarioConCliente(users[n], ClienteOf(clientes, users[n]))];
        n := n + 1;
      }
      forall u | u in usuarios.Values
        ensures exists i :: 0 <= i < |rows| && rows[i].usuario == u
      {
        var id :| id in usuarios && usuarios[id] == u;
        var i :| 0 <= i < |ids| && ids[i] == id;
        assert rows[i].usuario == u;
      }
      forall i, j | 0 <= i < j < |rows|
        ensures rows[i].usuario != rows[j].usuario
      {
        assert rows[i].usuario.usuId == ids[i] && rows[j].usuario.usuId == ids[j];
      }
    }
  }
}
