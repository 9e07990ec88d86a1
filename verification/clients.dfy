/** The customer ("cliente") handlers: registration, login, and the
    ownership-scoped read, update and delete. Here the id is validated first,
    then a `CLIENT` caller must name their own id (403), and only then is
    the table consulted; any other role bypasses ownership. */
module Clients {
  import opened Common
  import opened Jwt
  import AuthMiddleware

  /** A row of the customer table; `senha` holds the password hash. */
  datatype Cliente = Cliente(id: int, nome: string, email: string, senha: string)

  type Table = map<int, Cliente>

  /** The table's unique constraint on `email` (the handlers look customers
      up by email with `findUnique`). */
  predicate EmailsUnique(clientes: Table)
  {
    forall a, b :: a in clientes && b in clientes && clientes[a].email == clientes[b].email ==> a == b
  }

  /** `findUnique({ where: { email } })`. */
  function FindByEmail(clientes: Table, email: string): (r: Option<Cliente>)
    requires EmailsUnique(clientes)
    ensures r.Some? <==> exists k :: k in clientes && clientes[k].email == email
    ensures r.Some? ==> exists k :: k in clientes && clientes[k] == r.value && r.value.email == email
  {
    if exists k :: k in clientes && clientes[k].email == email then
      var k :| k in clientes && clientes[k].email == email;
      Some(clientes[k])
    else None
  }

  /** `createClient`: the new row `id` stores the password's hash. A missing
      password makes `bcrypt.hash` reject, and an email already in the table
      breaks the unique constraint; both end in 500. */
  function CreateClient(nome: string, email: string, senha: Option<string>, hash: string -> string,
                        clientes: Table, id: int): (r: (Reply<Cliente>, Table))
    requires id !in clientes && EmailsUnique(clientes)
    ensures r.0.Ok? <==> senha.Some? && forall k :: k in clientes ==> clientes[k].email != email
    ensures r.0.Fail? ==> r == (Fail(500, "Internal server error"), clientes)
    ensures r.0.Ok? ==> r.0 == Ok(201, Cliente(id, nome, email, hash(senha.value))) && r.1 == clientes[id := r.0.body]
    ensures EmailsUnique(r.1)
  {
    if senha.None? then (Fail(500, "Internal server error"), clientes)
    else if exists k :: k in clientes && clientes[k].email == email then (Fail(500, "Internal server error"), clientes)
    else
      var row := Cliente(id, nome, email, hash(senha.value));
      (Ok(201, row), clientes[id := row])
  }

  /** `login`: the token's claims. The same 401 answers an unknown email and
      a wrong password; a missing secret is found only after both checks. */
  function Login(email: string, senha: string, clientes: Table, compare: (string, string) -> bool,
                 secret: Option<string>, now: int): (r: Reply<Claims>)
    requires EmailsUnique(clientes)
    ensures r.Fail? ==> r == Fail(401, "Invalid email or password") || r == Fail(500, "Internal server error")
    ensures r.Fail? && r.status == 401 <==>
      !exists k :: k in clientes && clientes[k].email == email && compare(senha, clientes[k].senha)
    ensures r.Ok? <==> (Truthy(secret) &&
      exists k :: k in clientes && clientes[k].email == email && compare(senha, clientes[k].senha))
    ensures r.Ok? ==> r.status == 200 && r.body.iat == now && r.body.exp == now + VALIDITY_SECONDS
    ensures r.Ok? ==> exists k :: k in clientes && clientes[k].email == email
                                && r.body.payload == Payload(Some(clientes[k].id), None, CLIENT_ROLE)
  {
    match FindByEmail(clientes, email)
    case None => Fail(401, "Invalid email or password")
    case Some(c) =>
      if !compare(senha, c.senha) then Fail(401, "Invalid email or password")
      else if !Truthy(secret) then Fail(500, "Internal server error")
      else Ok(200, Sign(Payload(Some(c.id), None, CLIENT_ROLE), now))
  }

  /** What `getClients` answers with: a `CLIENT` caller's own record, or the
      whole table for anyone else. */
  datatype ClientsView = Own(cliente: Cliente) | Every(clientes: Table)

  /** `getClients`. Without `req.auth` the handler throws (500). */
  function GetClients(auth: Option<Payload>, clientes: Table): (r: Reply<ClientsView>)
    ensures auth.None? ==> r == Fail(500, "Internal server error")
    ensures auth.Some? && auth.value.role != CLIENT_ROLE ==> r == Ok(200, Every(clientes))
    ensures auth.Some? && auth.value.role == CLIENT_ROLE && auth.value.clientId.Some?
            && auth.value.clientId.value in clientes
            ==> r == Ok(200, Own(clientes[auth.value.clientId.value]))
    ensures auth.Some? && auth.value.role == CLIENT_ROLE && r.Ok? ==>
      auth.value.clientId.Some? && auth.value.clientId.value in clientes
    ensures r == Fail(404, "Client not found") <==>
      auth.Some? && auth.value.role == CLIENT_ROLE && auth.value.clientId.Some?
      && auth.value.clientId.value !in clientes
  {
    if auth.None? then Fail(500, "Internal server error")
    else if auth.value.role == CLIENT_ROLE then
      match auth.value.clientId
      case None => Fail(500, "Internal server error")
      case Some(c) => if c in clientes then Ok(200, Own(clientes[c])) else Fail(404, "Client not found")
    else Ok(200, Every(clientes))
  }

  /** The ownership rule shared by the three `/:id` handlers: a `CLIENT`
      caller may act only on their own id; every other role may act on any. */
  predicate MayActOn(p: Payload, id: int)
  {
    p.role != CLIENT_ROLE || p.clientId == Some(id)
  }

  /** The checks the three `/:id` handlers share, in their order: 400 for a
      non-numeric id, 500 when `req.auth` is missing (the handler throws),
      403 for another customer's id. `None` means the checks passed. */
  function IdGate(auth: Option<Payload>, id: Option<int>, forbidden: string): (r: Option<Reply<()>>)
    ensures id.None? ==> r == Some(Fail(400, "Invalid client ID"))
    ensures r.None? <==> id.Some? && auth.Some? && MayActOn(auth.value, id.value)
    ensures id.Some? && auth.Some? && !MayActOn(auth.value, id.value) ==> r == Some(Fail(403, forbidden))
  {
    if id.None? then Some(Fail(400, "Invalid client ID"))
    else if auth.None? then Some(Fail(500, "Internal server error"))
    else if !MayActOn(auth.value, id.value) then Some(Fail(403, forbidden))
    else None
  }

  /** `getClientById`: the gate, then 404 for an absent id. */
  function GetClientById(auth: Option<Payload>, id: Option<int>, clientes: Table): (r: Reply<Cliente>)
    ensures id.None? ==> r == Fail(400, "Invalid client ID")
    ensures id.Some? && auth.Some? && !MayActOn(auth.value, id.value)
            ==> r == Fail(403, "You can only view your own account")
    ensures r == Fail(404, "Client not found") <==>
      id.Some? && auth.Some? && MayActOn(auth.value, id.value) && id.value !in clientes
    ensures r.Ok? <==> id.Some? && auth.Some? && MayActOn(auth.value, id.value) && id.value in clientes
    ensures r.Ok? ==> r == Ok(200, clientes[id.value])
  {
    match IdGate(auth, id, "You can only view your own account")
    case Some(f) => Fail(f.status, f.error)
    case None =>
      if id.value !in clientes then Fail(404, "Client not found") else Ok(200, clientes[id.value])
  }

  /** The fields of `updatedData`; `None` means the key was not set. */
  datatype ClienteData = ClienteData(nome: Option<string>, email: Option<string>, senha: Option<string>)

  /** `updatedData` of `updateClient`: only truthy fields, the password as
      its hash. */
  function UpdatedData(nome: Option<string>, email: Option<string>, senha: Option<string>,
                       hash: string -> string): (d: ClienteData)
    ensures d.nome.Some? <==> Truthy(nome)
    ensures d.email.Some? <==> Truthy(email)
    ensures d.senha.Some? <==> Truthy(senha)
    ensures d.nome.Some? ==> d.nome == nome
    ensures d.email.Some? ==> d.email == email
    ensures d.senha.Some? ==> d.senha.value == hash(senha.value)
  {
    ClienteData(if Truthy(nome) then nome else None,
                if Truthy(email) then email else None,
                if Truthy(senha) then Some(hash(senha.value)) else None)
  }

  /** The row after `update({ data })`: the fields `data` sets, the rest as
      they were. */
  function Apply(c: Cliente, data: ClienteData): (d: Cliente)
    ensures d.id == c.id
    ensures data == ClienteData(None, None, None) ==> d == c
  {
    Cliente(c.id,
            if data.nome.Some? then data.nome.value else c.nome,
            if data.email.Some? then data.email.value else c.email,
            if data.senha.Some? then data.senha.value else c.senha)
  }

  /** Some row other than `id` already has `email`. */
  predicate EmailTakenByOther(clientes: Table, id: int, email: string)
  {
    exists k :: k in clientes && k != id && clientes[k].email == email
  }

  /** `updateClient`: the gate, then the partial update; a missing row is
      the store's P2025 error, answered with 404, and an email already used
      by another row violates the unique constraint (500). */
  function UpdateClient(auth: Option<Payload>, id: Option<int>, nome: Option<string>, email: Option<string>,
                        senha: Option<string>, hash: string -> string, clientes: Table): (r: (Reply<Cliente>, Table))
    requires EmailsUnique(clientes)
    ensures id.None? ==> r == (Fail(400, "Invalid client ID"), clientes)
    ensures id.Some? && auth.Some? && !MayActOn(auth.value, id.value)
            ==> r == (Fail(403, "You can only update your own account"), clientes)
    ensures id.Some? && auth.Some? && MayActOn(auth.value, id.value) && id.value !in clientes
            ==> r == (Fail(404, "Client not found"), clientes)
    ensures id.Some? && auth.Some? && MayActOn(auth.value, id.value) && id.value in clientes
            && EmailTakenByOther(clientes, id.value, if Truthy(email) then email.value else clientes[id.value].email)
            ==> r == (Fail(500, "Internal server error"), clientes)
    ensures r.0.Fail? ==> r.1 == clientes
    ensures r.0.Ok? <==> id.Some? && auth.Some? && MayActOn(auth.value, id.value) && id.value in clientes
                         && !EmailTakenByOther(clientes, id.value,
                                               if Truthy(email) then email.value else clientes[id.value].email)
    ensures r.0.Ok? ==>
      var (old_, new_) := (clientes[id.value], r.0.body);
      && r.0.status == 200
      && r.1 == clientes[id.value := new_]
      && new_.id == old_.id
      && new_.nome == (if Truthy(nome) then nome.value else old_.nome)
      && new_.email == (if Truthy(email) then email.value else old_.email)
      && new_.senha == (if Truthy(senha) then hash(senha.value) else old_.senha)
    ensures EmailsUnique(r.1)
  {
    match IdGate(auth, id, "You can only update your own account")
    case Some(f) => (Fail(f.status, f.error), clientes)
    case None =>
      if id.value !in clientes then (Fail(404, "Client not found"), clientes)
      else
        var row := Apply(clientes[id.value], UpdatedData(nome, email, senha, hash));
        if EmailTakenByOther(clientes, id.value, row.email) then
          (Fail(500, "Internal server error"), clientes)
        else (Ok(200, row), clientes[id.value := row])
  }

  /** `deleteClient`: the gate, then 404 for a missing row, else 204 and
      only that row is gone. */
  function DeleteClient(auth: Option<Payload>, id: Option<int>, clientes: Table): (r: (Reply<()>, Table))
    ensures id.None? ==> r == (Fail(400, "Invalid client ID"), clientes)
    ensures id.Some? && auth.Some? && !MayActOn(auth.value, id.value)
            ==> r == (Fail(403, "You can only delete your own account"), clientes)
    ensures id.Some? && auth.Some? && MayActOn(auth.value, id.value) && id.value !in clientes
            ==> r == (Fail(404, "Client not found"), clientes)
    ensures r.0.Fail? ==> r.1 == clientes
    ensures r.0.Ok? <==> id.Some? && auth.Some? && MayActOn(auth.value, id.value) && id.value in clientes
    ensures r.0.Ok? ==> r.0.status == 204 && r.1 == clientes - {id.value}
  {
    match IdGate(auth, id, "You can only delete your own account")
    case Some(f) => (Fail(f.status, f.error), clientes)
    case None =>
      if id.value !in clientes then (Fail(404, "Client not found"), clientes)
      else (Ok(204, ()), clientes - {id.value})
  }

  /** An unknown email and a wrong password get the very same reply. */
  lemma LoginFailuresAlike(email: string, senha: string, clientes: Table, compare: (string, string) -> bool,
                           secret: Option<string>, now: int, k: int)
    requires EmailsUnique(clientes)
    requires k in clientes && clientes[k].email == email && !compare(senha, clientes[k].senha)
    ensures Login(email, senha, clientes, compare, secret, now)
         == Login(email, senha, clientes - {k}, compare, secret, now)
         == Fail(401, "Invalid email or password")
  {
    assert !exists j :: j in clientes - {k} && clientes[j].email == email;
  }

  /** A token issued at login, sent back as `Bearer <token>`, authenticates
      the customer for exactly one hour. */
  lemma LoginTokenAuthenticates(email: string, senha: string, clientes: Table, compare: (string, string) -> bool,
                                secret: Option<string>, now: int, decode: string -> Option<Claims>,
                                token: string, later: int)
    requires EmailsUnique(clientes)
    requires Login(email, senha, clientes, compare, secret, now).Ok?
    requires decode(token) == Some(Login(email, senha, clientes, compare, secret, now).body)
    requires ' ' !in token && token != ""
    ensures var auth := AuthMiddleware.Authenticate(Some("Bearer " + token), decode, later);
            && (auth.Ok? <==> later < now + VALIDITY_SECONDS)
            && (auth.Ok? ==> auth.body.role == CLIENT_ROLE && auth.body.clientId.Some?)
  {
    AuthMiddleware.SchemeIgnored("Bearer", token, "");
    assert "Bearer " + token == "Bearer" + " " + token + "";
  }

  /** The customer table of the running server. */
  class ClientController {
    var clientes: Table
    var nextId: int

    ghost predicate Valid()
      reads this
    {
      && EmailsUnique(clientes)
      && forall k :: k in clientes ==> k < nextId && clientes[k].id == k
    }

    constructor ()
      ensures Valid() && clientes == map[] && nextId == 1
    {
      clientes := map[];
      nextId := 1;
    }

    /** `createClient`. */
    method CreateClientHandler(nome: string, email: string, senha: Option<string>, hash: string -> string)
      returns (r: Reply<Cliente>)
      requires Valid()
      modifies this
      ensures Valid()
      ensures old(nextId) !in old(clientes)
      ensures (r, clientes) == CreateClient(nome, email, senha, hash, old(clientes), old(nextId))
      ensures nextId == if r.Ok? then old(nextId) + 1 else old(nextId)
    {
      if senha.None? {
        return Fail(500, "Internal server error");
      }
      var senhaCriptografada := hash(senha.value);
      if exists k :: k in clientes && clientes[k].email == email {
        return Fail(500, "Internal server error");
      }
      var row := Cliente(nextId, nome, email, senhaCriptografada);
      clientes := clientes[nextId := row];
      nextId := nextId + 1;
      r := Ok(201, row);
    }

    /** `updateClient`; `updatedData` is filled in field by field. */
    method UpdateClientHandler(auth: Option<Payload>, id: Option<int>, nome: Option<string>,
                               email: Option<string>, senha: Option<string>, hash: string -> string)
      returns (r: Reply<Cliente>)
      requires Valid()
      modifies this
      ensures Valid() && nextId == old(nextId)
      ensures (r, clientes) == UpdateClient(auth, id, nome, email, senha, hash, old(clientes))
    {
      if id.None? {
        return Fail(400, "Invalid client ID");
      }
      var clientId := id.value;
      if auth.None? {
        return Fail(500, "Internal server error");
      }
      if auth.value.role == CLIENT_ROLE && auth.value.clientId != Some(clientId) {
        return Fail(403, "You can only update your own account");
      }
      var updatedData := ClienteData(None, None, None);
      if Truthy(nome) {
        updatedData := updatedData.(nome := nome);
      }
      if Truthy(email) {
        updatedData := updatedData.(email := email);
      }
      if Truthy(senha) {
        updatedData := updatedData.(senha := Some(hash(senha.value)));
      }
      assert updatedData == UpdatedData(nome, email, senha, hash);
      assert IdGate(auth, id, "You can only update your own account") == None;
      if clientId !in clientes {
        return Fail(404, "Client not found");
      }
      var row := Apply(clientes[clientId], updatedData);
      if EmailTakenByOther(clientes, clientId, row.email) {
        return Fail(500, "Internal server error");
      }
      clientes := clientes[clientId := row];
      r := Ok(200, row);
    }

    /** `deleteClient`. */
    method DeleteClientHandler(auth: Option<Payload>, id: Option<int>) returns (r: Reply<()>)
      requires Valid()
      modifies this
      ensures Valid() && nextId == old(nextId)
      ensures (r, clientes) == DeleteClient(auth, id, old(clientes))
    {
      if id.None? {
        return Fail(400, "Invalid client ID");
      }
      var clientId := id.value;
      if auth.None? {
        return Fail(500, "Internal server error");
      }
      if auth.value.role == CLIENT_ROLE && auth.value.clientId != Some(clientId) {
        return Fail(403, "You can only delete your own account");
      }
      if clientId !in clientes {
        return Fail(404, "Client not found");
      }
      clientes := clientes - {clientId};
      r := Ok(204, ());
    }
  }
}
