# Sapataria Capacita: request decisions of the shoe-shop backend

This project models the request-handling core of the Sapataria Capacita
shoe-shop backend. That backend is an Express server over a relational
store. It serves customers (`cliente`), staff users (`usuario`), products
(`produto`), customer addresses (`endereco`) and orders (`compra`). The
model also covers the customer session slice of the React front end.

The model consists of the following parts:

- **Authentication.** `authMiddleware` reads the `Authorization` header and
  takes its second space-separated word as a JSON Web Token. It verifies
  that token and attaches the payload to the request as `req.auth`.
  `authorize(roles)` then admits only the listed roles.
- **Handlers.** Each controller handler becomes a pure function. It maps
  the caller's payload, the request parameters and the table it reads to
  the reply and the table afterwards, going through the same early-return
  checks as the handler and in the same order. Tables are maps from id to
  row. A handler that writes is also modelled as a method of a controller
  class whose fields are that table and the next auto-increment id. The
  method proves it returns exactly what the function describes and keeps
  the table's invariants: keys match row ids and lie below the next id,
  and emails stay unique where the store has a unique constraint.
- **Front-end slice.** The customer slice is modelled as a reducer on
  values together with a class whose reducers update fields in place. The
  model also carries the token that the browser storage mirrors.

The decoded token payload has the shape `clientId`/`userId`/`role`. Role
strings are `"CLIENT"` and `"USER"` (staff). Some behaviour of the code is
easy to misread, and the model reproduces it as written:

- Staff get no bypass when reading or cancelling orders. `getComprasById`
  and `cancelCompra` accept only the owning customer.
- `CANCELED` is not a terminal order status. The status whitelist of
  `updateStatusCompra` holds `"canceled"` in lower case, so staff cannot
  write `CANCELED` itself. Staff can still write `canceled` or move a
  cancelled order back to `PENDING`.
- `createCompra` does not reject an empty item list. It ignores any
  `total` sent in the body.
- `createUser` always stores the role `USER`, whatever the body asks for.

Signing, signature checking, password hashing and comparison, and the
clock are outside the model. They appear as parameters: `decode`, `hash`,
`compare` and `now`. JWT expiry is modelled explicitly: a token is valid
for 3600 seconds after it is issued (`expiresIn: "1h"`).

Request ids are `Option<int>`. `None` stands for a value that `Number` or
`parseInt` turns into `NaN`. A handler that checks `isNaN` answers 400 for
it. A handler that passes such a value to the store gets an error from
the store and answers with its generic 500 reply.

## Model

| member | source | states |
|---|---|---|
| AuthMiddleware.Split | middleware/auth.middleware.js:10 | `split(" ")` always yields at least one piece |
| AuthMiddleware.SplitJoin | middleware/auth.middleware.js:10 | splitting on single spaces loses nothing: joining the pieces with spaces gives the header back, and no piece contains a space |
| AuthMiddleware.SplitWordPrefix | middleware/auth.middleware.js:10 | a space-free prefix becomes part of the first piece of whatever follows it |
| AuthMiddleware.ExtractToken | middleware/auth.middleware.js:10-13 | an extracted token is non-empty and contains no space |
| AuthMiddleware.SchemeIgnored | middleware/auth.middleware.js:10 | for any first word, `scheme token` and `scheme token more...` both yield `token`: the scheme word is never checked |
| AuthMiddleware.NoSecondWord | middleware/auth.middleware.js:10-13 | a header of one word, of a word and one trailing space (`"Bearer "`), or with two spaces after the first word, is malformed |
| AuthMiddleware.Authenticate | middleware/auth.middleware.js:3-24 | every failure is 401. "Token not provided" exactly for an absent or empty header. "Token malformed" exactly when there is no second word. "Invalid or expired token" exactly when the token does not verify. Success exactly when the token verifies, with the verified payload |
| AuthMiddleware.RunAuthMiddleware | middleware/auth.middleware.js:3-24 | on success sets `req.auth` to the payload and calls `next` exactly once; on failure denies with the 401 message and leaves the request unchanged |
| Jwt.Sign | controller/client.controller.js:60-64 | the claims carry the payload, are issued at the current time and expire 3600 seconds later (`expiresIn: "1h"`) |
| Jwt.Verify | middleware/auth.middleware.js:15 | yields a payload exactly when the signature checks and the current time is before `exp`, and then it is the signed payload |
| Jwt.IssuedTokenLifetime | controller/client.controller.js:60-64 | a token signed at time t verifies to its own payload exactly before t + 3600 |
| Authorize.Authorize | middleware/authorize.middleware.js:1-8 | passes exactly when `req.auth` is present and its role is listed; otherwise 403 "Forbidden" |
| Authorize.DefaultForbidsAll | middleware/authorize.middleware.js:1 | with the default empty role list every request is forbidden |
| Authorize.AuthorizeMonotone | middleware/authorize.middleware.js:3-6 | a request admitted under some roles is admitted under any superset of them |
| Compras.ToItems | controller/compras.controller.js:42-46 | each line keeps exactly its product, quantity and unit price, in order |
| Compras.GetCompras | controller/compras.controller.js:5-32 | 401 without a truthy `clientId`; otherwise exactly the caller's orders, unchanged |
| Compras.GetCompraById | controller/compras.controller.js:69-95 | 401, then 404 for an absent order, then 403 for another customer's order; success exactly for the caller's own order |
| Compras.CreateCompra | controller/compras.controller.js:34-67 | 401 without a caller; success exactly when items and address are sent; the new row is the caller's, `PENDING`, with the body's lines and address, and it is the only change |
| Compras.CancelCompra | controller/compras.controller.js:97-130 | 401, 404, 403, then 400 for an order already `CANCELED`; success exactly for the caller's own order not yet `CANCELED`, and then only that order changes, its status to `CANCELED`; a failure changes nothing |
| Compras.UpdateStatusCompra | controller/compras.controller.js:132-171 | 403 for non-staff, 400 for a status outside the whitelist, 404; on success only that order's status changes, to the given value |
| Compras.CancelTwice | controller/compras.controller.js:116-118 | a second cancel of the same order answers 400 and changes nothing |
| Compras.LowercaseCanceledStillCancellable | controller/compras.controller.js:116-118 | after staff write the whitelisted `canceled`, the owner can still cancel the order, which then reads `CANCELED` |
| Compras.UppercaseCanceledRejected | controller/compras.controller.js:143-152 | staff cannot set `CANCELED`: the whitelist rejects it with 400 |
| Compras.CanceledIsNotTerminal | controller/compras.controller.js:143-164 | staff can move a cancelled order back to `PENDING`, after which the owner can cancel it again |
| Compras.CreatedCompraVisibleOnlyToOwner | controller/compras.controller.js:34-95 | a new order is listed for and fetched by its creator, and refused with 403 to every other customer |
| Compras.ComprasController.CreateCompraHandler | controller/compras.controller.js:34-67 | returns and stores what `CreateCompra` describes, under the next id, keeping the table invariant |
| Compras.ComprasController.CancelCompraHandler | controller/compras.controller.js:97-130 | returns and stores what `CancelCompra` describes, keeping the table invariant |
| Compras.ComprasController.UpdateStatusCompraHandler | controller/compras.controller.js:132-171 | returns and stores what `UpdateStatusCompra` describes, keeping the table invariant |
| Clients.FindByEmail | controller/client.controller.js:49 | finds a row exactly when some row has that email, and the row found has it |
| Clients.CreateClient | controller/client.controller.js:29-43 | success exactly when a password is sent and the email is new; the new row stores the password's hash; failure is 500 with no change; emails stay unique |
| Clients.Login | controller/client.controller.js:46-71 | 401 exactly when no row matches the email and password; success exactly when one matches and the secret is set; the token is a `CLIENT` token for that row, valid for one hour |
| Clients.LoginFailuresAlike | controller/client.controller.js:51-56 | a wrong password answers the same as an unknown email |
| Clients.LoginTokenAuthenticates | controller/client.controller.js:60-64 | the login token sent as `Bearer <token>` passes `authMiddleware` as a `CLIENT` with a `clientId`, for exactly one hour |
| Clients.GetClients | controller/client.controller.js:9-26 | a `CLIENT` caller whose row exists gets exactly that row, gets 404 when it does not exist, and never another row; any other role gets the whole table; no payload is 500 |
| Clients.IdGate | controller/client.controller.js:77-85 | 400 for a non-numeric id; passes exactly when a payload is present and its caller may act on the id; otherwise 403 |
| Clients.GetClientById | controller/client.controller.js:74-99 | 400, 403, 404 as the gate and the table decide; success exactly for an id the caller may read that exists |
| Clients.UpdatedData | controller/client.controller.js:117-120 | a key is set exactly when its field is truthy, to that field, the password as its hash |
| Clients.UpdateClient | controller/client.controller.js:102-134 | 400, 403, 404 for a missing row, 500 when the resulting email belongs to another row; success exactly otherwise, and then only that row changes, only its truthy fields, with the password hashed; emails stay unique; failures change nothing |
| Clients.DeleteClient | controller/client.controller.js:137-158 | 400, 403, 404 for a missing row (the store's P2025 error); success exactly for an existing id the caller may act on, removing only that row |
| Clients.ClientController.CreateClientHandler | controller/client.controller.js:29-43 | returns and stores what `CreateClient` describes, keeping ids and email uniqueness |
| Clients.ClientController.UpdateClientHandler | controller/client.controller.js:102-134 | returns and stores what `UpdateClient` describes, keeping ids and email uniqueness |
| Clients.ClientController.DeleteClientHandler | controller/client.controller.js:137-158 | returns and stores what `DeleteClient` describes, keeping ids and email uniqueness |
| Users.FindByEmail | controller/user.controller.js:34 | finds a row exactly when some row has that email, and the row found has it |
| Users.CreateUser | controller/user.controller.js:8-28 | 403 for non-staff; otherwise success exactly when a password is sent and the email is new; the new row has role `USER` and the password's hash |
| Users.CreateUserIgnoresRole | controller/user.controller.js:15-20 | the role the body asks for has no effect on the reply or the table |
| Users.Login | controller/user.controller.js:31-56 | 401 exactly when no row matches the email and password; the token carries the row's `userId` and its stored role, valid for one hour |
| Users.GetUsers | controller/user.controller.js:59-73 | 403 for non-staff, otherwise the whole table |
| Users.UserGate | controller/user.controller.js:79-84 | 401 without a payload; passes exactly for staff or the user themself; otherwise 403 "Forbidden" |
| Users.GetUserById | controller/user.controller.js:76-94 | the gate, then 404 for an absent id; a non-numeric id reaching the store is 500 |
| Users.UpdatedData | controller/user.controller.js:108-111 | a key is set exactly when its field is truthy, to that field, the password as its hash |
| Users.UpdateUser | controller/user.controller.js:97-123 | the gate; a missing or non-numeric id is 500, as is an email that belongs to another row; success exactly otherwise, and then only that row's truthy fields change, with the password hashed and the role kept; emails stay unique |
| Users.DeleteUser | controller/user.controller.js:126-142 | the gate; a missing or non-numeric id is 500; success exactly for an existing id the caller may access, removing only that row |
| Users.UserController.CreateUserHandler | controller/user.controller.js:8-28 | returns and stores what `CreateUser` describes, keeping ids and email uniqueness |
| Users.UserController.UpdateUserHandler | controller/user.controller.js:97-123 | returns and stores what `UpdateUser` describes, keeping ids and email uniqueness |
| Users.UserController.DeleteUserHandler | controller/user.controller.js:126-142 | returns and stores what `DeleteUser` describes, keeping ids and email uniqueness |
| Enderecos.CreateEndereco | controller/endereco.controller.js:5-22 | 401 exactly without a truthy `clientId`; the new row belongs to the caller and is the only change |
| Enderecos.GetEnderecos | controller/endereco.controller.js:24-40 | 401, otherwise exactly the caller's addresses, unchanged |
| Enderecos.OwnedGate | controller/endereco.controller.js:42-67 | 401, then 404 for an absent address, then 403 for another customer's; passes exactly for the caller's own address |
| Enderecos.GetEnderecoById | controller/endereco.controller.js:42-67 | the ownership gate; success exactly for the caller's own address, which it returns |
| Enderecos.DeleteEndereco | controller/endereco.controller.js:69-98 | the ownership gate; success exactly for the caller's own address, removing only it, with 204 |
| Enderecos.UpdateEndereco | controller/endereco.controller.js:100-131 | the ownership gate; on success only that row changes, only the sent fields, keeping its id and owner |
| Enderecos.Patch | controller/endereco.controller.js:121-124 | each of the five fields takes the sent value when one is sent and keeps the stored one otherwise |
| Enderecos.PatchFullAndEmpty | controller/endereco.controller.js:121-124 | sending all five fields replaces the address; sending none leaves it as it was |
| Enderecos.EnderecoController.CreateEnderecoHandler | controller/endereco.controller.js:5-22 | returns and stores what `CreateEndereco` describes, under the next id |
| Enderecos.EnderecoController.DeleteEnderecoHandler | controller/endereco.controller.js:69-98 | returns and stores what `DeleteEndereco` describes |
| Enderecos.EnderecoController.UpdateEnderecoHandler | controller/endereco.controller.js:100-131 | returns and stores what `UpdateEndereco` describes |
| Produtos.MapParcelamentos | controller/produtos.controller.js:76-91 | each instalment option keeps its fields, in order |
| Produtos.ToPreco | controller/produtos.controller.js:76-91 | a price keeps its values, and its instalments are the mapped list, or empty when absent |
| Produtos.MapPrecos | controller/produtos.controller.js:76-91 | each price maps pointwise, in order |
| Produtos.ToImagens | controller/produtos.controller.js:65-66 | one image per uploaded file, holding that file's bytes, in order |
| Produtos.GetProdutoById | controller/produtos.controller.js:22-44 | 400 for a non-numeric id, 404 for an absent one, otherwise that product |
| Produtos.CreateProduto | controller/produtos.controller.js:46-105 | 403 for non-staff; the new row holds the body's fields, mapped prices, sizes and one image per file, and is the only change |
| Produtos.UpdatedData | controller/produtos.controller.js:119-131 | each text field is set exactly when truthy, `stars` and `qtdEstoque` whenever sent (0 included), images exactly when at least one file came, one per file |
| Produtos.BuildUpdatedData | controller/produtos.controller.js:119-131 | builds exactly the partial-update data: only truthy fields, plus the uploaded images |
| Produtos.UpdateProduto | controller/produtos.controller.js:107-148 | 403, 400, and 500 for a missing row; on success only the sent fields change and the new images are appended after the old ones |
| Produtos.DeleteProduto | controller/produtos.controller.js:150-168 | 403, 400, and 500 for a missing row; success exactly for staff and an existing id, removing only that row, with 204 |
| Produtos.ProdutoController.CreateProdutoHandler | controller/produtos.controller.js:46-105 | returns and stores what `CreateProduto` describes, under the next id |
| Produtos.ProdutoController.UpdateProdutoHandler | controller/produtos.controller.js:107-148 | returns and stores what `UpdateProduto` describes |
| Produtos.ProdutoController.DeleteProdutoHandler | controller/produtos.controller.js:150-168 | returns and stores what `DeleteProduto` describes |
| ClienteSlice.Initial | src/pages/Client/clientSlice.js:3-9 | no customer; authenticated exactly when the stored token is a non-empty string, which is then the token |
| ClienteSlice.SetCliente | src/pages/Client/clientSlice.js:15-20 | the payload becomes the customer and its token the token; authenticated; storage gets the token, or the text "undefined" when the payload has none |
| ClienteSlice.LogoutCliente | src/pages/Client/clientSlice.js:21-26 | no customer, no token, not authenticated, storage entry removed |
| ClienteSlice.UpdateCliente | src/pages/Client/clientSlice.js:27-31 | without a customer nothing changes; otherwise the customer's keys are merged with the payload's, the payload winning; token, flag and storage never change |
| ClienteSlice.Reduce | src/pages/Client/clientSlice.js:14-31 | after an action the session is authenticated exactly for `setCliente` or for `updateCliente` of an authenticated session; only `logoutCliente` clears the customer, and `updateCliente` keeps token and storage |
| ClienteSlice.LogoutIdempotent | src/pages/Client/clientSlice.js:21-26 | logging out twice equals logging out once |
| ClienteSlice.ReducePreservesConsistent | src/pages/Client/clientSlice.js:14-31 | every action keeps "a held token means authenticated and equal to the stored one" |
| ClienteSlice.RunPreservesConsistent | src/pages/Client/clientSlice.js:14-31 | any sequence of actions keeps that invariant |
| ClienteSlice.RunConsistent | src/pages/Client/clientSlice.js:3-31 | from the state read out of storage, every sequence of actions leaves the slice consistent |
| ClienteSlice.UpdatesKeepSession | src/pages/Client/clientSlice.js:27-31 | any number of `updateCliente` actions leave token, flag and storage as they were |
| ClienteSlice.Slice.constructor | src/pages/Client/clientSlice.js:3-9 | the store starts in `Initial` of the stored token |
| ClienteSlice.Slice.SetClienteReducer | src/pages/Client/clientSlice.js:15-20 | updates the fields in place to `SetCliente` of the old state |
| ClienteSlice.Slice.LogoutClienteReducer | src/pages/Client/clientSlice.js:21-26 | updates the fields in place to `LogoutCliente` of the old state |
| ClienteSlice.Slice.UpdateClienteReducer | src/pages/Client/clientSlice.js:27-31 | updates the fields in place to `UpdateCliente` of the old state |

## Left out

- Relations and `include`: `getClientById` also returns the customer's addresses, and `getComprasById` its lines and address rows. The model returns the row itself.
- Foreign-key failures (an order or address for a deleted customer, a product id that does not exist) and every other store error besides a missing row and a duplicate email. These all end in the handlers' generic 500 replies.
- Signing, signature checking, bcrypt hashing and comparison, and the clock are parameters. Their cryptography is not modelled.
- Number parsing of ids: `Number`, `parseInt` and the difference between them (`parseInt("12abc")` is 12, `Number("")` is 0) happen before the model. An id arrives already parsed, as an `int` or as `None` for `NaN`.
- Prices, instalment amounts and unit prices are opaque `real` values. Nothing computes with them, and floating-point behaviour is not modelled.
- Routing, `server.js`, CORS, multer's upload handling, `console.error` logging, concurrency between requests, and the React pages and hooks other than the customer slice.
- Creation timestamps and the store's column defaults are not modelled, except the initial order status `PENDING`.
- The order of rows in `findMany` results: list replies are maps keyed by id.
- `null` and `undefined` in bodies are not told apart: both are `None`.
- Request-body fields that `create` passes through unchecked (`nome`, `email`, product fields) are assumed to be present. A missing required column, which the store rejects with 500, is not modelled, except for a missing password and missing order items or address.
- Clients.Login and Users.Login take `email` and `senha` as present strings. A body without `email` makes the store's lookup throw, and one without `senha` makes the password comparison reject; both end in 500, which the model does not capture.
- `getProdutos` (controller/produtos.controller.js:5-20) returns every product with its relations and has no decision to model.
- `next()` throwing inside the middleware's `try` would be reported as 401 "Invalid or expired token". Downstream errors are not modelled.
- Jwt.Verify: a token's `nbf`, audience and issuer claims are not modelled. Only the signature and `exp` are checked.
