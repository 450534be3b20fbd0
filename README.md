# Invoicing system: a Dafny model

This project models the core of a small point-of-sale and invoicing application. The backend
is an Express server over a relational database, accessed through Sequelize. It exposes CRUD
endpoints for clients (`cliente`), products (`producto`), invoices (`factura`), invoice lines
(`factura_producto`) and users (`usuario`). It has a login endpoint that signs a token and a
middleware that admits only administrators. The React frontend has four screens of interest:

- a checkout screen that builds a cart and turns it into an invoice;
- an invoice editor;
- an invoice history with daily statistics;
- a product editor.

A route guard sits in front of these screens.

Modules:

- `Wrappers`: `Option`, and `Field`. A `Field` is a JSON body field that is left out, `null`,
  or a value.
- `Seqs`: `Filter` (JavaScript's `Array.prototype.filter`) and subsequence facts about it,
  and `FirstIndex`, the first-match search behind `find`, `findIndex` and `findOne`.
- `Text`: the string functions the source uses: `trim`, ASCII `toLowerCase`, `includes`,
  `padStart`, number printing and parsing, `split`.
- `Money`: rounding to cents, as `Number(x.toFixed(2))` does on a value held in hundredths
  of a cent.
- `Schema`: the table rows, their column constraints, and the request bodies. It also gives
  the rules by which a request field becomes a column: `??` merges, defaults, and
  `cli_id || null`.
- `Store`: the database together with the three backend controllers. `Store.Store` is a class
  whose `map` fields are the tables and whose methods are the endpoints. Each method changes
  the tables and states the reply and the new tables.
- `Auth`: login, the bearer-token admin middleware, and the frontend route guard.
- `Checkout`: the cart of the checkout screen, its totals, finalising a sale, and the order
  code.
- `InvoiceDraft`: the invoice editor's product list, its total, the submit guard, and the
  invoice search.
- `History`: the invoice history. It covers enriching each invoice, the daily statistics, the
  status and text filters, and the order code.
- `ProductForm`: the product editor. It covers the search, the modal form, the payload it
  submits, and the icon styles.

Amounts are integer cents throughout. A JavaScript float price becomes an `int` of cents.

## Model

| member | source | states |
|---|---|---|
| Schema.Coalesce | backend/controllers/cliente-producto-controller.js:22-26 | `value ?? current` keeps the current value exactly when the field is left out or `null`; a value, even `false` or `""`, overwrites |
| Schema.LinkedClient | backend/controllers/usuario-controller.js:18 | `cli_id \|\| null` stores no client link exactly when the field is missing, `null` or `0` |
| Schema.NewCliente | backend/models/Cliente.js:11-22 | an inserted client carries every required field as sent and fits its columns; a complete body that is refused does not fit |
| Schema.MergeCliente | backend/controllers/cliente-producto-controller.js:22-26 | the merged client keeps its id; MergeClienteFields gives the `??` rule per field |
| Schema.MergeClienteFields | backend/controllers/cliente-producto-controller.js:22-26 | the update overwrites exactly the fields sent with a value and keeps the id |
| Schema.MergeClienteEmpty | backend/controllers/cliente-producto-controller.js:16-31 | a body with no values leaves the client unchanged |
| Schema.NewProducto | backend/models/Producto.js:16-20 | a tax left out takes the 15.00 default; a tax sent as `null` refuses the insert; other fields as sent; a complete body that is refused does not fit its columns |
| Schema.MergeProducto | backend/controllers/cliente-producto-controller.js:86-91 | the merged product keeps its id; MergeProductoFields gives the `??` rule per field |
| Schema.MergeProductoFields | backend/controllers/cliente-producto-controller.js:86-91 | name, price, tax and state are each overwritten exactly when sent with a value, otherwise kept; the id is kept |
| Schema.MergeProductoEmpty | backend/controllers/cliente-producto-controller.js:86-91 | a body with no values leaves the product unchanged |
| Schema.NewFactura | backend/controllers/factura-controller.js:5-13 | an inserted invoice carries the client and date as sent; a missing one refuses the insert; a complete body that is refused does not fit its columns |
| Schema.MergeFactura | backend/controllers/factura-controller.js:22-25 | the merged invoice keeps its id; MergeFacturaFields gives the `??` rule per field |
| Schema.MergeFacturaFields | backend/controllers/factura-controller.js:22-25 | client and date are each overwritten exactly when sent with a value, otherwise kept; the id is kept |
| Schema.MergeFacturaEmpty | backend/controllers/factura-controller.js:16-30 | an empty update body leaves the invoice unchanged |
| Schema.NewUsuario | backend/models/Usuario.js:8-25 | username and password are required; a role left out is 'cliente', a `null` role is stored as NULL; the client link goes through `cli_id \|\| null`; with both credentials sent, a refused body is one whose row does not fit its columns |
| Schema.MergeUsuario | backend/controllers/usuario-controller.js:70-75 | a `null` username or password refuses the update; the client link is always rewritten; the role is kept when left out, cleared by `null` and replaced by a value; with both credentials non-null, a refusal means the merged row does not fit its columns |
| Schema.UpdateWithoutClientUnlinks | backend/controllers/usuario-controller.js:74 | an update body without `cli_id` unlinks the user's client |
| Schema.ClienteOf | backend/controllers/usuario-controller.js:32 | the included client is present exactly when the user's link names an existing client, and is that client |
| Store.LinePrice | backend/controllers/factura-controller.js:70-75 | a price sent in the body wins; otherwise the product's price is used; there is no price exactly when neither exists |
| Store.NewLinea | backend/models/FacturaProducto.js:6-21 | an inserted line carries the invoice id, the resolved price and the product and quantity as sent |
| Store.SortedRows | backend/controllers/factura-controller.js:48 | `findAll` ordered by primary key: strictly increasing ids, exactly the table's keys, each row the table's row |
| Store.InsertionPoint | backend/controllers/factura-controller.js:101 | the position after every row with a client id at most the new one and before every larger one |
| Store.InsertKeepsClientOrder | backend/controllers/factura-controller.js:101 | inserting there keeps the (client id, invoice id) order and adds exactly the new row |
| Store.SortByClient | backend/controllers/factura-controller.js:101 | the result is ordered by client id, then invoice id, and is a permutation of the input |
| Store.InvoicesOfClient | backend/controllers/factura-controller.js:128 | every invoice returned belongs to the requested client |
| Store.InvoicesOfClientSpec | backend/controllers/factura-controller.js:127-131 | the `where` query keeps exactly the client's invoices and keeps them in increasing invoice id |
| Store.PutKeepsUnique | backend/models/Usuario.js:8-17 | writing a user whose username and client link are free elsewhere keeps both unique constraints |
| Store.Store.constructor | backend/models/Cliente.js:6-10 | empty tables, each id sequence starting at 1 |
| Store.Store.CreateCliente | backend/controllers/cliente-producto-controller.js:5-13 | 201 with the new row under a fresh id and only the client table grown; 500 and no change when the insert is refused |
| Store.Store.UpdateCliente | backend/controllers/cliente-producto-controller.js:16-31 | 404 for an unknown id; otherwise the `??` merge is stored and returned, or 500 with no change if it does not fit |
| Store.Store.DeleteCliente | backend/controllers/cliente-producto-controller.js:34-44 | 404 for an unknown id; otherwise exactly that client is removed |
| Store.Store.GetClientes | backend/controllers/cliente-producto-controller.js:47-54 | every client, each once, in increasing id |
| Store.Store.GetClienteById | backend/controllers/cliente-producto-controller.js:57-66 | the stored client, or 404 |
| Store.Store.CreateProducto | backend/controllers/cliente-producto-controller.js:69-77 | 201 with the new row under a fresh id; 500 and no change when refused |
| Store.Store.UpdateProducto | backend/controllers/cliente-producto-controller.js:80-96 | 404 for an unknown id; otherwise the merged product is stored and returned, or 500 with no change |
| Store.Store.DeleteProducto | backend/controllers/cliente-producto-controller.js:99-109 | 404 for an unknown id; otherwise exactly that product is removed |
| Store.Store.GetProductos | backend/controllers/cliente-producto-controller.js:112-119 | every product, each once, in increasing id |
| Store.Store.GetProductoById | backend/controllers/cliente-producto-controller.js:122-131 | the stored product, or 404 |
| Store.Store.CreateFactura | backend/controllers/factura-controller.js:5-13 | 201 with the new invoice under a fresh id; 500 and no change when refused |
| Store.Store.UpdateFactura | backend/controllers/factura-controller.js:16-30 | 404 for an unknown id; otherwise the merged invoice is stored and returned, or 500 with no change |
| Store.Store.DeleteFactura | backend/controllers/factura-controller.js:33-43 | 404 for an unknown id; otherwise exactly that invoice is removed |
| Store.Store.GetFacturas | backend/controllers/factura-controller.js:46-53 | every invoice, each once, in increasing id |
| Store.Store.GetFacturaById | backend/controllers/factura-controller.js:55-64 | the stored invoice, or 404 |
| Store.Store.AddProductoToFactura | backend/controllers/factura-controller.js:66-81 | 404 when no price can be found; 500 when the row is refused or the (invoice, product) key exists; otherwise 201 and only that line is added |
| Store.Store.RemoveProductoFromFactura | backend/controllers/factura-controller.js:83-94 | 404 when the product is not on the invoice; otherwise exactly that line is removed and the key pair returned |
| Store.Store.ClienteRefOf | backend/controllers/factura-controller.js:100 | the included client (id and name) is present exactly when the invoice's client exists |
| Store.Store.ProductosDe | backend/controllers/factura-controller.js:114 | the included products are exactly the existing products with a line on the invoice |
| Store.Store.ClientesFacturas | backend/controllers/factura-controller.js:97-107 | every invoice exactly once in (client id, invoice id) order, each with its client reference |
| Store.Store.FacturaProductosById | backend/controllers/factura-controller.js:110-121 | the invoice with its products, or 404 |
| Store.Store.FacturasProductosByCliente | backend/controllers/factura-controller.js:124-136 | exactly the client's invoices, in increasing id, each with its products |
| Store.Store.CreateUsuario | backend/controllers/usuario-controller.js:4-26 | 400 for a username in use; 500 for a missing username, a refused row or a client already linked; otherwise 201 and only the user table grows |
| Store.Store.UpdateUsuario | backend/controllers/usuario-controller.js:60-82 | 404 for an unknown id; 500 with no change when the merge is refused or breaks a unique constraint; otherwise the merged user is stored and returned |
| Store.Store.DeleteUsuario | backend/controllers/usuario-controller.js:85-100 | 404 for an unknown id; otherwise exactly that user is removed and the confirmation message returned |
| Store.Store.GetUsuarioById | backend/controllers/usuario-controller.js:42-57 | the user with its linked client, or 404 |
| Store.Store.GetUsuarios | backend/controllers/usuario-controller.js:29-39 | every user exactly once, each with its linked client |
| Seqs.Filter | frontend/src/Facturas.jsx:156-159 | `filter` keeps at most the input's length, and every element kept satisfies the predicate |
| Seqs.FilterMembership | frontend/src/Facturas.jsx:156-159 | an element is kept exactly when it is in the input and satisfies the predicate |
| Seqs.FilterSubset | frontend/src/Facturas.jsx:156-159 | every element kept comes from the input |
| Seqs.FilterIsSubsequence | frontend/src/Facturas.jsx:156-159 | the kept elements are a subsequence of the input, so their order is kept |
| Seqs.FirstIndex | frontend/src/Facturas.jsx:60-64 | the first position whose element matches: it matches and none before it does; none when no element matches |
| Seqs.FirstIndexAt | frontend/src/Facturas.jsx:60-64 | a matching position with no match before it is the first match |
| Seqs.FirstIndexUnchanged | backend/controllers/auth-controller.js:10-13 | replacing an element by one that matches alike leaves the first match where it was |
| Seqs.FindFirst | frontend/src/Facturas.jsx:60-64 | the linear search returns the first match |
| Auth.FindUser | backend/controllers/auth-controller.js:10-13 | the index of a user with that username, or no user has it |
| Auth.Login | backend/controllers/auth-controller.js:6-51 | a missing username is a server error; every rejection is the same 401 "invalid credentials" |
| Auth.LoginSucceedsIff | backend/controllers/auth-controller.js:15-45 | login succeeds exactly when a user has that username and password; the reply carries the signed claims and the user view |
| Auth.FailuresIndistinguishable | backend/controllers/auth-controller.js:15-22 | an unknown username and a wrong password give the same reply |
| Auth.LoginHidesPassword | backend/controllers/auth-controller.js:36-45 | the reply to a successful login does not depend on the password |
| Auth.FindUserIgnoresPasswords | backend/controllers/auth-controller.js:10-13 | the user lookup does not depend on any password |
| Auth.BearerToken | backend/middlewares/auth-middleware.js:4-5 | a token exists exactly when the header is present and its second space-separated part is non-empty, and it is that part |
| Auth.AdminGate | backend/middlewares/auth-middleware.js:3-23 | no token gives 401; an invalid token gives 400; denial is 400, 401 or 403 |
| Auth.AdminGateNextIff | backend/middlewares/auth-middleware.js:15-19 | the request passes exactly when the token verifies and its role lower-cases to "admin"; the verified claims are attached |
| Auth.AdminGateDenials | backend/middlewares/auth-middleware.js:15-22 | a verified token whose role is not "admin" in any case gives 403; a verified token without a role gives 400; every 403 comes from a verified non-admin role |
| Auth.ClienteRoleIs403 | backend/middlewares/auth-middleware.js:15-17 | a valid token of a 'cliente' user is refused with 403 |
| Auth.BadTokenIs400 | backend/middlewares/auth-middleware.js:20-22 | a token that does not verify gives 400 "invalid token" |
| Auth.AdminRoleAnyCase | backend/middlewares/auth-middleware.js:15 | the roles "admin", "Admin" and "ADMIN" all pass |
| Auth.HeaderWithoutSpaceIs401 | backend/middlewares/auth-middleware.js:5-9 | a header with no space has no token and gives 401 |
| Auth.AdminLoginPassesGate | backend/controllers/auth-controller.js:25-34 | the token issued to an admin at login passes the middleware with the same claims |
| Auth.Guard | frontend/src/ProtectedRoute.jsx:3-17 | no token redirects to login; with no roles required, a token suffices; with roles required, the route renders exactly when the stored role is one of them, and otherwise redirects home |
| Auth.UsersPage | frontend/src/App.jsx:28-30 | without a stored token the users route goes to login; with a token but a stored role other than "admin" it goes home |
| Auth.UsersPageOnlyAdmin | frontend/src/App.jsx:28-30 | the users page renders exactly for a token plus the stored role "admin" |
| Auth.RoleCaseDiffers | frontend/src/ProtectedRoute.jsx:11-14 | the role "Admin" passes the backend check but the frontend guard sends it home |
| Money.Round2 | frontend/src/VentasCheckout.jsx:167-168 | rounding to cents lands within half a cent of the exact amount |
| Money.Round2Unique | frontend/src/VentasCheckout.jsx:167 | rounding gives the only cent value within half a cent |
| Money.PercentOf | frontend/src/VentasCheckout.jsx:168 | the tax is within half a cent of the exact percentage |
| Checkout.FindItem | frontend/src/VentasCheckout.jsx:104 | the first cart line for the product, or none has it |
| Checkout.IncrementItem | frontend/src/VentasCheckout.jsx:106-108 | the map raises the quantity of the product's line by one and changes nothing else |
| Checkout.AddProduct | frontend/src/VentasCheckout.jsx:97-121 | an inactive product leaves the cart unchanged with a warning; otherwise the cart grows by at most one line |
| Checkout.AddProductEffect | frontend/src/VentasCheckout.jsx:104-119 | a product already in the cart gets its quantity raised by one; a new one is appended with quantity 1, an empty note and its numeric price |
| Checkout.AddProductWellFormed | frontend/src/VentasCheckout.jsx:97-121 | adding keeps one line per product with positive quantities |
| Checkout.AddProductSubtotal | frontend/src/VentasCheckout.jsx:92-121 | adding raises the subtotal by the product's price |
| Checkout.AdjustQuantity | frontend/src/VentasCheckout.jsx:123-131 | `handleQuantity` never grows the cart and leaves no line with a quantity below 1 |
| Checkout.AdjustQuantityEffect | frontend/src/VentasCheckout.jsx:123-131 | the product's quantity changes by delta but not below 1; other lines and the order are unchanged; no line is dropped |
| Checkout.RemoveProduct | frontend/src/VentasCheckout.jsx:133-135 | no line of the product remains |
| Checkout.RemoveProductEffect | frontend/src/VentasCheckout.jsx:133-135 | exactly the product's line is removed |
| Checkout.RemoveProductWellFormed | frontend/src/VentasCheckout.jsx:133-135 | removing keeps one line per product |
| Checkout.ChangeNote | frontend/src/VentasCheckout.jsx:137-139 | `handleNoteChange` keeps the cart's length and changes only notes |
| Checkout.ChangeNoteEffect | frontend/src/VentasCheckout.jsx:137-139 | only the product's note changes |
| Checkout.Subtotal | frontend/src/VentasCheckout.jsx:92-95 | an empty cart costs 0 and a single line costs price times quantity; with SubtotalSplit this fixes the subtotal as the sum over the lines |
| Checkout.SubtotalNonNegative | frontend/src/VentasCheckout.jsx:92-95 | lines with non-negative prices and quantities give a non-negative subtotal |
| Checkout.SubtotalSplit | frontend/src/VentasCheckout.jsx:92-95 | the subtotal of a concatenation is the sum of the subtotals |
| Checkout.SubtotalUpdate | frontend/src/VentasCheckout.jsx:92-95 | replacing one line changes the subtotal by the difference of the two line amounts |
| Checkout.SaleTotals | frontend/src/VentasCheckout.jsx:165-168 | subtotal, tax within half a cent of 12%, and total as their sum |
| Checkout.FinalizeSale | frontend/src/VentasCheckout.jsx:151-208 | an empty cart and a missing client are refused with their warnings; a failed invoice request sends no line; once the invoice exists one line per cart item is sent; only when every request succeeds are the totals shown and the cart emptied, otherwise the cart is kept with the failure status |
| Checkout.FailedLineLeavesInvoice | frontend/src/VentasCheckout.jsx:170-202 | a failed line request leaves the created invoice and the cart, so saving again creates another invoice; it reports the same status as a failed invoice request, which left none |
| Checkout.FinalizeLinesDistinct | frontend/src/VentasCheckout.jsx:177-185 | the submitted lines name distinct products with positive quantities |
| Checkout.Pad2 | frontend/src/VentasCheckout.jsx:18-24 | `padStart(2, '0')` gives at least two characters, exactly two below 100, all digits, reading back as the number |
| Checkout.OrderDate | frontend/src/VentasCheckout.jsx:18-21 | for a four-digit year and a valid month and day: 8 digits, the first four reading back as the year, the next two as the month plus one, the last two as the day |
| Checkout.OrderTime | frontend/src/VentasCheckout.jsx:21-24 | for hours and minutes below 100: 4 digits, the first two reading back as the hours, the last two as the minutes |
| Checkout.OrderCodeAt | frontend/src/VentasCheckout.jsx:16-25 | the code starts with "FAC-"; for a valid date and time it has 17 characters with '-' at position 12 |
| Checkout.OrderCodeFields | frontend/src/VentasCheckout.jsx:16-25 | for a valid date and time, each field of the code reads back: year, month plus one, day, hours and minutes |
| Checkout.OrderCodeInjective | frontend/src/VentasCheckout.jsx:16-25 | two valid clock readings with the same code agree in year, month, day, hours and minutes |
| InvoiceDraft.FirstProduct | frontend/src/Facturas.jsx:60 | `find` gives the first catalogue product with the id, or none has it |
| InvoiceDraft.LineIndex | frontend/src/Facturas.jsx:64 | `findIndex` gives the first line of the product, or none has it |
| InvoiceDraft.Plus | frontend/src/Facturas.jsx:69 | the sum is `NaN` exactly when an operand is, otherwise the integer sum |
| InvoiceDraft.Times | frontend/src/Facturas.jsx:73 | price times a quantity is `NaN` exactly when the quantity is, otherwise the product |
| InvoiceDraft.AddToList | frontend/src/Facturas.jsx:57-89 | no selection, a typed quantity whose numeric reading is at most 0, or an unknown product leaves everything as it is; a change resets the selection |
| InvoiceDraft.AddProductToList | frontend/src/Facturas.jsx:57-89 | the array update computes the specified list and selection |
| InvoiceDraft.AddToListMerges | frontend/src/Facturas.jsx:66-75 | a product already listed gets the `parseInt` quantities summed and its total recomputed from the price; other lines are kept |
| InvoiceDraft.AddToListAppends | frontend/src/Facturas.jsx:76-86 | a new product is appended with the `parseInt` of the typed quantity and price times it |
| InvoiceDraft.FractionAppendsZeroLine | frontend/src/Facturas.jsx:58-86 | a typed quantity of 0.5 passes the guard and appends a line with quantity 0 and total 0 |
| InvoiceDraft.AddToListConsistent | frontend/src/Facturas.jsx:57-89 | adding keeps distinct catalogue products, each total equal to price times quantity (`NaN` for a `NaN` quantity) |
| InvoiceDraft.RemoveAt | frontend/src/Facturas.jsx:91-93 | the line at the index is dropped; an index out of range changes nothing |
| InvoiceDraft.RemoveAtConsistent | frontend/src/Facturas.jsx:91-93 | removing keeps the list consistent |
| InvoiceDraft.CalculateTotal | frontend/src/Facturas.jsx:95-102 | no list totals 0; otherwise the total is `NaN` exactly when some entry's amount is |
| InvoiceDraft.CalculateTotalAppend | frontend/src/Facturas.jsx:97-101 | one more entry adds its amount to the total |
| InvoiceDraft.CalculateTotalSum | frontend/src/Facturas.jsx:95-102 | with every amount a number, the total is the sum of the amounts |
| InvoiceDraft.DraftTotalMatchesFetched | frontend/src/Facturas.jsx:97-100 | a drafted list with numeric quantities and the same lines fetched back give the same total |
| InvoiceDraft.NaNLineSpoilsTotal | frontend/src/Facturas.jsx:95-102 | one line with a `NaN` quantity makes the drafted total `NaN` |
| InvoiceDraft.SubmitGuard | frontend/src/Facturas.jsx:106-109 | submission is refused exactly for an empty list while not editing |
| InvoiceDraft.FilterFacturas | frontend/src/Facturas.jsx:156-159 | every row shown is a listed invoice that matches the search |
| InvoiceDraft.FilterFacturasSpec | frontend/src/Facturas.jsx:156-159 | a row is kept exactly when its client name contains the search, ignoring case, or its id contains it; order is kept |
| InvoiceDraft.FilterFacturasEmptySearch | frontend/src/Facturas.jsx:156-159 | an empty search keeps every row |
| History.FormatOrderCode | frontend/src/FacturasHistorial.jsx:29 | "FAC-" followed by the digits, zero-padded to at least four |
| History.OrderCodeRoundTrip | frontend/src/FacturasHistorial.jsx:29 | the id can be read back from its order code |
| History.OrderCodeInjective | frontend/src/FacturasHistorial.jsx:29 | distinct invoices get distinct order codes |
| History.IsSameDay | frontend/src/FacturasHistorial.jsx:31-34 | two dates are on the same day exactly when they differ at most in the time of day |
| History.IsSameDayEquivalence | frontend/src/FacturasHistorial.jsx:31-34 | same-day is reflexive, symmetric and transitive |
| History.ClientFor | frontend/src/FacturasHistorial.jsx:58 | the map lookup finds the last listed client with the invoice's id, or none has it |
| History.ToItem | frontend/src/FacturasHistorial.jsx:65-71 | the line price is preferred to the product price, which is preferred to 0; the quantity defaults to 1 |
| History.ItemsOf | frontend/src/FacturasHistorial.jsx:62-74 | a failed detail fetch gives no items; otherwise one item per product |
| History.ItemsSubtotal | frontend/src/FacturasHistorial.jsx:76-78 | items all of quantity 0 give a subtotal of 0 |
| History.ItemCount | frontend/src/FacturasHistorial.jsx:80 | items all of quantity 1 count as many as there are lines |
| History.TotalWithTax | frontend/src/FacturasHistorial.jsx:79 | the total with tax is within half a cent of 112% of the subtotal |
| History.TaxAmount | frontend/src/FacturasHistorial.jsx:131 | the tax shown in the detail view is within half a cent of 12% of the subtotal |
| History.TotalIsSubtotalPlusTax | frontend/src/FacturasHistorial.jsx:79 | the total with tax is the subtotal plus the tax amount shown |
| History.TotalWithTaxBounds | frontend/src/FacturasHistorial.jsx:79 | the total is within half a cent of 112% of the subtotal |
| History.Enrich | frontend/src/FacturasHistorial.jsx:76-93 | the enriched invoice: order code, client, items, subtotal, item count and total, status always "paid" |
| History.EnrichAll | frontend/src/FacturasHistorial.jsx:60-95 | one enriched invoice per invoice, in order |
| History.NoItemsNoTotal | frontend/src/FacturasHistorial.jsx:62-80 | an invoice whose detail failed to load totals 0 |
| History.ItemsSplit | frontend/src/FacturasHistorial.jsx:76-80 | subtotal and item count are additive |
| History.ItemsNonNegative | frontend/src/FacturasHistorial.jsx:76-80 | non-negative items give non-negative totals, and tax never lowers the total |
| History.TaxNeverLowers | frontend/src/FacturasHistorial.jsx:79 | on a non-negative subtotal the total with tax is at least the subtotal |
| History.ComputeStats | frontend/src/FacturasHistorial.jsx:97-103 | the order count is the number of invoices; today's total sums the invoices whose local date, as read from `fac_fecha`, is today's |
| History.NothingToday | frontend/src/FacturasHistorial.jsx:97-100 | with no invoice today, today's total is 0 |
| History.TotalTodayBounded | frontend/src/FacturasHistorial.jsx:97-100 | today's total lies between 0 and the total of all invoices |
| History.SumTotalsAppend | frontend/src/FacturasHistorial.jsx:100 | the running sum grows by each invoice's total |
| History.FilterHistory | frontend/src/FacturasHistorial.jsx:111-121 | every invoice shown matches the status filter |
| History.FilterHistorySpec | frontend/src/FacturasHistorial.jsx:111-121 | an invoice is shown exactly when it matches both the status and the trimmed, lower-cased query; order is kept |
| History.PendingAndCancelledEmpty | frontend/src/FacturasHistorial.jsx:92 | since every invoice is "paid", the pending and cancelled filters always show nothing |
| History.BlankSearchShowsAll | frontend/src/FacturasHistorial.jsx:112-116 | a blank search with the "all" filter shows every invoice |
| ProductForm.FilterProductos | frontend/src/ProductoCrud.jsx:44-51 | a blank query returns the list as is; otherwise every product kept matches |
| ProductForm.BlankSearchShowsAll | frontend/src/ProductoCrud.jsx:45-46 | a search of only spaces shows every product |
| ProductForm.FilterProductosSpec | frontend/src/ProductoCrud.jsx:47-50 | a product is kept exactly when its name contains the query, ignoring case, or its id does; order is kept |
| ProductForm.SearchByIdFindsProduct | frontend/src/ProductoCrud.jsx:45-49 | searching a product's id, padded with spaces, finds it |
| ProductForm.OpenModal | frontend/src/ProductoCrud.jsx:53-66 | a new product opens the empty form; an existing one opens its name, price and state, and remembers its id |
| ProductForm.BuildPayload | frontend/src/ProductoCrud.jsx:81-85 | the name is trimmed; the price is 0 exactly when it is not a number or is 0; the state is the text "true" |
| ProductForm.Submit | frontend/src/ProductoCrud.jsx:79-98 | a blank name is refused with its message; otherwise an update of the remembered id, or a create when there is none |
| ProductForm.BlankNameRejected | frontend/src/ProductoCrud.jsx:87-90 | the form is refused exactly when the name is all spaces |
| ProductForm.UntouchedNewFormRejected | frontend/src/ProductoCrud.jsx:10 | saving the untouched empty form is refused |
| ProductForm.ReopenAndSaveKeepsProduct | frontend/src/ProductoCrud.jsx:53-98 | reopening a product and saving it unchanged sends an update of that product with its own name, price and state |
| ProductForm.AsProductoInput | frontend/src/ProductoCrud.jsx:81-85 | the payload sends name, price and state and leaves the tax out |
| ProductForm.FormCreateUsesDefaultTax | backend/models/Producto.js:16-20 | a product created from the form gets the 15.00 default tax |
| ProductForm.FormUpdateKeepsTax | backend/controllers/cliente-producto-controller.js:86-91 | an update from the form keeps the product's tax and replaces the other fields |
| ProductForm.CodeUnit | frontend/src/ProductoCrud.jsx:136 | `charCodeAt(0)` gives a UTF-16 code unit: the character itself below 0x10000, a high surrogate above |
| ProductForm.PaletteIndex | frontend/src/ProductoCrud.jsx:137 | the index is within the palette and congruent to the key |
| ProductForm.IconStylesAsWritten | frontend/src/ProductoCrud.jsx:132-138 | an inactive product gets the "ban" style; the lookup is undefined exactly for an active product named "" |
| ProductForm.EmptyNameHasNoStyle | frontend/src/ProductoCrud.jsx:136-137 | an active product named "" gets no style |
| ProductForm.IconStyles | frontend/src/ProductoCrud.jsx:125-138 | an inactive product gets the "ban" style; an active one always gets a palette entry, the first one when it has no name |
| ProductForm.IconStylesAgree | frontend/src/ProductoCrud.jsx:132-138 | the corrected styles agree with the source wherever the source finds a style |
| ProductForm.InactiveIgnoresName | frontend/src/ProductoCrud.jsx:133-135 | the style of an inactive product does not depend on its name |

## Left out

- Floating point: prices, totals and taxes are integer cents. `Number`, `parseFloat` and
  `toFixed(2)` are exact here, with half-cent rounding as `Money.Round2` gives it. Binary
  rounding artefacts are not modelled.
- Database failures other than constraint violations: connection loss and similar errors
  are not modelled. The 500 replies cover the failures the tables themselves raise.
- Id sequences: each table's next id is a counter that only successful inserts advance. A
  real sequence can also be consumed by a failed insert.
- Foreign keys and cascades: the model enforces no foreign keys. A line may name a missing
  product or invoice, and deleting a row leaves its dependants in place.
- Request bodies whose fields have the wrong JSON type, and `parseInt` of route parameters
  that are not numbers, are not modelled. Ids arrive as integers.
- Store.Store.CreateUsuario: the read-then-write race between the username check and the
  insert is not modelled. Calls are sequential.
- Store.Store.GetUsuarios: the source asks for no order, so the contract states each user once
  and no order.
- The wiring of the models and the associations in backend/models/index.js is not part of
  this model. The associations appear as the included client and products.
- Token signing and verification are symbolic. A signed token is its claims plus its
  lifetime, and `jwt.verify` is a function parameter. Expiry, the secret and the encoding
  are not modelled.
- Auth.Login: the `usuario` table is a sequence searched by `findOne`, not the store's map.
  Usernames are assumed unique, as the unique column enforces.
- `parseInt` of a quantity is taken as exact. JavaScript's `parseInt` of a number of 1e21 or
  more reads its exponent notation and gives a wrong value; such quantities are not modelled.
- InvoiceDraft.DraftTotalMatchesFetched: stated for numeric quantities only. A line with a
  `NaN` quantity is sent as `null` and refused by the `NOT NULL` column, so it is never fetched
  back; `InvoiceDraft.NaNLineSpoilsTotal` covers the drafted side.
- History.ComputeStats: the reading of the stored `fac_fecha` string into local date fields
  (`new Date(...)` at frontend/src/FacturasHistorial.jsx:81) and the time zone are not
  modelled; each invoice carries its local date already read. The invoice editor stores a
  date-only `YYYY-MM-DD` (frontend/src/Facturas.jsx:5), which JavaScript reads as midnight UTC,
  so west of UTC its local day is the day before: such an invoice dated today is left out of
  today's total, and one dated tomorrow is counted. The checkout's full timestamps read back
  correctly.
- Checkout.FinalizeSale: when a line request fails, which of the other line requests were
  stored is not modelled; `Promise.all` sends them all and rejects on the first failure.
- Text.ToLower: lower-casing covers ASCII letters only. That is exact for the "admin"
  comparison and for digits, but not for accented names in the search filters.
- I/O: the clock, `fetch` and the API calls, `localStorage`, `alert` and React state are
  parameters or outcomes. Examples are the current date of the order code, `created` and
  `attached` for the outcomes of the checkout's save requests, and `fetch` for the detail of each invoice.
- The concurrency of `Promise.all` in the checkout and the history is not modelled. The
  requests are taken as completing together.
- The product and client search boxes of the checkout screen are not modelled. They repeat
  the name filters modelled in `ProductForm` and `InvoiceDraft`.
- The `Array.isArray` and `|| []` guards on fetched data are not modelled. Fetched lists are
  taken to be lists.
- The remainder of the invoice editor's submit handler, after its guard, is not modelled.
  This covers the requests it sends and how they are reconciled.
- Rendering (JSX, CSS classes, currency formatting) is out of scope. The icon style
  lookup is the one exception.

## Findings

| source | as written | input that shows it | evidently intended | confidence | as-written member | corrected member |
|---|---|---|---|---|---|---|
| frontend/src/ProductoCrud.jsx:136-137 | `pro_nombre?.charCodeAt(0) ?? 0` gives `NaN` for an empty name, because `??` only replaces `null`/`undefined`; the palette lookup is then `undefined` and reading `iconStyle.bg` at line 208 throws while rendering | an active product with `pro_nombre` equal to `""` | key 0, the first palette entry, as for a missing name | not executed | ProductForm.IconStylesAsWritten, ProductForm.EmptyNameHasNoStyle | ProductForm.IconStyles, ProductForm.IconStylesAgree |
